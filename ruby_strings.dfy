/** The three String methods of Ruby's core library that the no_proxy check is
    built from: `split` with a one-character separator, `strip`, and `include?`. */
module RubyStrings {

  /** Ruby's whitespace for `strip`: NUL, tab, line feed, vertical tab,
      form feed, carriage return and space. */
  predicate IsSpace(c: char)
  {
    c as int == 0 || 9 <= c as int <= 13 || c == ' '
  }

  // ---------------------------------------------------------------------------
  // split

  /** Every field between separators, including empty ones at either end
      (what Ruby's `split(sep, -1)` returns for a non-empty string). */
  function Fields(s: string, sep: char): (r: seq<string>)
    ensures |r| >= 1
    decreases |s|
  {
    if s == [] then [[]]
    else
      var rest := Fields(s[1..], sep);
      if s[0] == sep then [[]] + rest
      else [[s[0]] + rest[0]] + rest[1..]
  }

  /** The inverse of Fields: the fields glued back together with the separator. */
  function Join(fs: seq<string>, sep: char): string
  {
    if fs == [] then []
    else if |fs| == 1 then fs[0]
    else fs[0] + [sep] + Join(fs[1..], sep)
  }

  /** Ruby's `split` drops the empty fields at the end of the list. */
  function DropTrailingEmpty(fs: seq<string>): seq<string>
  {
    if fs == [] || fs[|fs| - 1] != [] then fs
    else DropTrailingEmpty(fs[..|fs| - 1])
  }

  /** `s.split(sep)` for a one-character separator: the fields of `s` without
      the trailing empty ones; in particular "" splits into no fields at all. */
  function Split(s: string, sep: char): seq<string>
  {
    DropTrailingEmpty(Fields(s, sep))
  }

  /** No field contains the separator. */
  lemma {:induction false} FieldsAreSeparatorFree(s: string, sep: char)
    ensures forall i :: 0 <= i < |Fields(s, sep)| ==> sep !in Fields(s, sep)[i]
    decreases |s|
  {
    if s != [] {
      FieldsAreSeparatorFree(s[1..], sep);
    }
  }

  /** What `split` drops are empty fields at the end, and no more of them
      than there are. */
  lemma {:induction false} DropTrailingEmptyDropsOnlyEmpty(fs: seq<string>)
    ensures DropTrailingEmpty(fs) <= fs
    ensures forall i :: |DropTrailingEmpty(fs)| <= i < |fs| ==> fs[i] == []
    ensures DropTrailingEmpty(fs) == [] || DropTrailingEmpty(fs)[|DropTrailingEmpty(fs)| - 1] != []
  {
    if fs != [] && fs[|fs| - 1] == [] {
      DropTrailingEmptyDropsOnlyEmpty(fs[..|fs| - 1]);
    }
  }

  /** A string made of separators alone splits into no fields at all. */
  lemma SplitOfSeparatorsIsEmpty(s: string, sep: char)
    requires forall i :: 0 <= i < |s| ==> s[i] == sep
    ensures Split(s, sep) == []
  {
    FieldsOfSeparators(s, sep);
    DropTrailingEmptyDropsOnlyEmpty(Fields(s, sep));
  }

  lemma {:induction false} FieldsOfSeparators(s: string, sep: char)
    requires forall i :: 0 <= i < |s| ==> s[i] == sep
    ensures forall i :: 0 <= i < |Fields(s, sep)| ==> Fields(s, sep)[i] == []
    decreases |s|
  {
    if s != [] {
      FieldsOfSeparators(s[1..], sep);
    }
  }

  /** Joining the fields of a string gives the string back. */
  lemma {:induction false} JoinFields(s: string, sep: char)
    ensures Join(Fields(s, sep), sep) == s
    decreases |s|
  {
    if s != [] {
      var rest := Fields(s[1..], sep);
      JoinFields(s[1..], sep);
      if s[0] == sep {
        assert Fields(s, sep) == [[]] + rest;
        assert Join([[]] + rest, sep) == [] + [sep] + Join(rest, sep);
      } else {
        var fs := Fields(s, sep);
        assert fs == [[s[0]] + rest[0]] + rest[1..];
        if |rest| == 1 {
          assert Join(fs, sep) == [s[0]] + rest[0];
        } else {
          assert Join(rest, sep) == rest[0] + [sep] + Join(rest[1..], sep);
          assert fs[1..] == rest[1..];
          assert Join(fs, sep) == [s[0]] + rest[0] + [sep] + Join(rest[1..], sep);
        }
      }
    }
  }

  /** A separator-free prefix becomes part of the first field. */
  lemma {:induction false} FieldsOfPrefix(a: string, t: string, sep: char)
    requires sep !in a
    ensures Fields(a + t, sep) == [a + Fields(t, sep)[0]] + Fields(t, sep)[1..]
    decreases |a|
  {
    var f := Fields(t, sep);
    if a == [] {
      assert a + t == t;
      assert a + f[0] == f[0];
      assert f == [f[0]] + f[1..];
    } else {
      assert (a + t)[0] == a[0];
      assert (a + t)[1..] == a[1..] + t;
      FieldsOfPrefix(a[1..], t, sep);
      assert [a[0]] + (a[1..] + Fields(t, sep)[0]) == a + Fields(t, sep)[0];
    }
  }

  /** Splitting separator-free fields joined by the separator gives them back. */
  lemma {:induction false} FieldsJoin(fs: seq<string>, sep: char)
    requires fs != []
    requires forall i :: 0 <= i < |fs| ==> sep !in fs[i]
    ensures Fields(Join(fs, sep), sep) == fs
  {
    if |fs| == 1 {
      FieldsOfPrefix(fs[0], [], sep);
      assert fs[0] + [] == fs[0];
    } else {
      var j := Join(fs[1..], sep);
      FieldsJoin(fs[1..], sep);
      assert Join(fs, sep) == fs[0] + ([sep] + j);
      FieldsOfPrefix(fs[0], [sep] + j, sep);
      assert ([sep] + j)[1..] == j;
      assert Fields([sep] + j, sep) == [[]] + fs[1..];
      assert fs[0] + [] == fs[0];
      assert fs == [fs[0]] + fs[1..];
    }
  }

  // ---------------------------------------------------------------------------
  // strip

  /** `lstrip`: the suffix left after dropping leading whitespace. */
  function LStrip(s: string): string
  {
    if s != [] && IsSpace(s[0]) then LStrip(s[1..]) else s
  }

  /** `rstrip`: the prefix left after dropping trailing whitespace. */
  function RStrip(s: string): string
  {
    if s != [] && IsSpace(s[|s| - 1]) then RStrip(s[..|s| - 1]) else s
  }

  /** `strip`: leading and trailing whitespace removed. */
  function Strip(s: string): (r: string)
  {
    RStrip(LStrip(s))
  }

  /** `lstrip` removes a whitespace-only prefix and stops at the first
      non-whitespace character. */
  lemma {:induction false} LStripRemovesLeadingSpace(s: string)
    ensures var r := LStrip(s);
      && |r| <= |s| && r == s[|s| - |r|..]
      && (forall i :: 0 <= i < |s| - |r| ==> IsSpace(s[i]))
      && (r == [] || !IsSpace(r[0]))
  {
    if s != [] && IsSpace(s[0]) {
      LStripRemovesLeadingSpace(s[1..]);
    }
  }

  /** `rstrip` removes a whitespace-only suffix and stops at the last
      non-whitespace character. */
  lemma {:induction false} RStripRemovesTrailingSpace(s: string)
    ensures var r := RStrip(s);
      && |r| <= |s| && r == s[..|r|]
      && (forall i :: |r| <= i < |s| ==> IsSpace(s[i]))
      && (r == [] || !IsSpace(r[|r| - 1]))
  {
    if s != [] && IsSpace(s[|s| - 1]) {
      RStripRemovesTrailingSpace(s[..|s| - 1]);
    }
  }

  /** The strip of a string is the string with whitespace-only padding taken
      away, whatever padding there was: stripping is unique and idempotent. */
  lemma {:induction false} StripPadded(w1: string, t: string, w2: string)
    requires forall i :: 0 <= i < |w1| ==> IsSpace(w1[i])
    requires forall i :: 0 <= i < |w2| ==> IsSpace(w2[i])
    requires t == [] || (!IsSpace(t[0]) && !IsSpace(t[|t| - 1]))
    ensures Strip(w1 + t + w2) == t
  {
    if t == [] {
      var w := w1 + t + w2;
      assert forall i :: 0 <= i < |w| ==> IsSpace(w[i]) by {
        forall i | 0 <= i < |w| ensures IsSpace(w[i]) {
          if i < |w1| { assert w[i] == w1[i]; } else { assert w[i] == w2[i - |w1|]; }
        }
      }
      LStripPadded(w, []);
      assert w + [] == w;
    } else {
      LStripPadded(w1, t + w2);
      assert w1 + t + w2 == w1 + (t + w2);
      RStripPadded(t, w2);
    }
  }

  lemma {:induction false} LStripPadded(w: string, t: string)
    requires forall i :: 0 <= i < |w| ==> IsSpace(w[i])
    requires t == [] || !IsSpace(t[0])
    ensures LStrip(w + t) == t
    decreases |w|
  {
    if w == [] {
      assert w + t == t;
    } else {
      assert (w + t)[1..] == w[1..] + t;
      LStripPadded(w[1..], t);
    }
  }

  lemma {:induction false} RStripPadded(t: string, w: string)
    requires forall i :: 0 <= i < |w| ==> IsSpace(w[i])
    requires t == [] || !IsSpace(t[|t| - 1])
    ensures RStrip(t + w) == t
    decreases |w|
  {
    if w == [] {
      assert t + w == t;
    } else {
      assert (t + w)[..|t + w| - 1] == t + w[..|w| - 1];
      RStripPadded(t, w[..|w| - 1]);
    }
  }

  /** A whitespace-only string strips to the empty string. */
  lemma BlankStripsToEmpty(w: string)
    requires forall i :: 0 <= i < |w| ==> IsSpace(w[i])
    ensures Strip(w) == []
  {
    StripPadded(w, [], []);
    assert w + [] + [] == w;
  }

  // ---------------------------------------------------------------------------
  // include?

  /** `hay.include?(needle)`: some suffix of `hay` starts with `needle`. */
  predicate Includes(hay: string, needle: string)
    decreases |hay|
  {
    needle <= hay || (hay != [] && Includes(hay[1..], needle))
  }

  /** `needle` occurs in `hay` at some offset. */
  ghost predicate Occurs(needle: string, hay: string)
  {
    exists i :: 0 <= i <= |hay| && needle <= hay[i..]
  }

  /** `include?` is plain substring containment, at any offset. */
  lemma {:induction false} IncludesIff(hay: string, needle: string)
    ensures Includes(hay, needle) <==> Occurs(needle, hay)
    decreases |hay|
  {
    if needle <= hay {
      assert hay[0..] == hay;
    } else if hay == [] {
      assert forall i :: 0 <= i <= |hay| ==> hay[i..] == [];
    } else {
      IncludesIff(hay[1..], needle);
      if Occurs(needle, hay[1..]) {
        var i :| 0 <= i <= |hay[1..]| && needle <= hay[1..][i..];
        assert hay[1..][i..] == hay[i + 1..];
      }
      if Occurs(needle, hay) {
        var i :| 0 <= i <= |hay| && needle <= hay[i..];
        assert i != 0;
        assert hay[1..][i - 1..] == hay[i..];
      }
    }
  }
}
