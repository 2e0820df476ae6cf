/** The request descriptor that every client operation hands to the HTTP
    layer: an HTTP verb, an endpoint path, and the JSON body's fields. The
    transport itself (building, sending, decoding) is not part of this model. */
module Requests {

  datatype Verb = GET | PUT | POST

  /** The JSON bodies the client sends; the comment after each constructor
      names its JSON object keys. */
  datatype Body =
    | NoBody
    | ValueBody(value: string)                        // {"value"}
    | EnvVarBody(envKey: string, envValue: string)    // {"env_key", "env_value"}
    | LeaseBody(ttl: int, fromIp: string, port: int)  // {"ttl", "from_ip", "port"}
    | IncludeKeyBody(includePrivateKey: int)          // {"include_private_key"}

  datatype Request = Request(verb: Verb, path: string, body: Body)
}
