/** The exceptions that the client code can raise or let through. No code in the
    client rescues any of them: each one ends the call it happens in. */
module Exceptions {

  datatype Exception =
    /** URI::InvalidURIError from URI.parse. */
    | InvalidUri
    /** NoMethodError: `empty?` sent to the nil path of an opaque URI. */
    | NilPath
    /** NoMethodError: `include?` sent to a nil target host while the
        no_proxy list has at least one entry. */
    | NilHost
    /** NoMethodError: `each` sent to a headers parameter that is a String. */
    | HeadersNotEnumerable
    /** Whatever the HTTP transport raises while connecting or sending. */
    | Transport(message: string)
}
