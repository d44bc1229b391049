/** The HTTP responses the route builds with `NextResponse`. */
module Responses {
  import opened Outcomes

  /** A response body: raw bytes, or the JSON object `{error, details?}`. */
  datatype Body = Raw(bytes: Bytes) | ErrorJson(error: string, details: Option<string>)

  /** Status, the headers the route sets itself, and the body. */
  datatype Response = Response(status: nat, headers: map<string, string>, body: Body)

  /** The four headers of every image response. */
  const ImageHeaders: map<string, string> := map[
    "Content-Type" := "image/png",
    "Cache-Control" := "public, max-age=86400, immutable",
    "Access-Control-Allow-Origin" := "*",
    "Vary" := "url"
  ]

  /** The 400 answer to a request without a usable `url` parameter. */
  function MissingUrl(): (r: Response)
    ensures r.status == 400 && r.headers == map[]
    ensures r.body == ErrorJson("Missing url", None)
  {
    Response(400, map[], ErrorJson("Missing url", None))
  }

  /** The 502 answer for an error caught by the outer catch, whose message
      becomes `details`. */
  function ProxyFailed(message: string): (r: Response)
    ensures r.status == 502 && r.headers == map[]
    ensures r.body == ErrorJson("Proxy failed", Some(message))
  {
    Response(502, map[], ErrorJson("Proxy failed", Some(message)))
  }

  /** The 200 answer carrying the payload bytes. */
  function ImageResponse(payload: Bytes): (r: Response)
    ensures r.status == 200 && r.body == Raw(payload)
    ensures r.headers.Keys == {"Content-Type", "Cache-Control", "Access-Control-Allow-Origin", "Vary"}
    ensures r.headers["Content-Type"] == "image/png"
    ensures r.headers["Cache-Control"] == "public, max-age=86400, immutable"
    ensures r.headers["Access-Control-Allow-Origin"] == "*"
    ensures r.headers["Vary"] == "url"
  {
    Response(200, ImageHeaders, Raw(payload))
  }

  /** The message of the error the route throws when the payload is empty. */
  const NoImageData: string := "No image data"
}
