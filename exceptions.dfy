/**
 * The exceptions the client raises. The four protocol errors live in
 * `tplink_archer/exceptions.py`, which is not part of this model; the other
 * two are the Python built-ins the core raises or lets escape.
 */
module Exceptions {

  datatype Error =
    | AuthError             // not authenticated, or the login probes failed
    | RequestError          // an authenticated request answered with a status other than 200
    | StackParseError       // declared around the splitting loop; never raised for string input
    | SectionNotFoundError  // get_section found no matching identifier
    | ValueError            // api_request called with a request type other than 'get' / 'post'
    | IndexError            // a value line without '=', or an empty list indexed with [0]
}
