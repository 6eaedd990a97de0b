/** The error values the key client can return. */
module Errors {

  datatype Error =
    /** ErrInvalidContentType: the key-set endpoint did not answer with a JSON media type. */
    | InvalidContentType
    /** ErrNoKeyFound: the decoded key set is empty (or a key cacher found no key). */
    | NoKeyFound
    /** ErrNoJWTHeaders: the token presented to GetSecret carries no header. */
    | NoJWTHeaders
    /** An error produced by code outside the client (net/http, encoding/json, a key
        cacher); the client only passes it on, so its content is opaque here. */
    | Foreign(description: string)
}
