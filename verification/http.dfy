/** The network boundary of an adapter. The HTTP call and the JSON decoder
    are foreign code: an adapter receives them as functions and only
    interprets what they produce. */
module Http {
  import opened Json

  /** The POST an adapter sends: endpoint, timeout in seconds and JSON body.
      Headers are not modelled. */
  datatype Request = Request(url: string, timeoutSeconds: nat, payload: Json)

  /** What the POST followed by the status check produced: a 2xx response
      body, or the text of the request exception (connection error, timeout,
      non-2xx status). */
  datatype Transport = Delivered(body: string) | TransportFailed(reason: string)

  /** What decoding the response body as JSON produced. */
  datatype Decoding = Decoded(data: Json) | DecodeError(reason: string)
}
