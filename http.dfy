/** The HTTP responses the Next.js route handlers build with `NextResponse.json`. */
module Http {
  import opened Json

  /** A JSON response: status code, JSON body and the extra headers set on it. */
  datatype Response = Response(status: nat, body: Value, headers: seq<(string, string)>)

  /** The fixed cross-origin header set of the split-transaction and ingest routes. */
  const CorsHeaders: seq<(string, string)> := [
    ("Access-Control-Allow-Origin", "*"),
    ("Access-Control-Allow-Methods", "GET, POST, PUT, DELETE, OPTIONS"),
    ("Access-Control-Allow-Headers", "Content-Type, Authorization")
  ]

  /** The `OPTIONS` preflight answer of the split-transaction and ingest routes:
      an empty object with the cross-origin headers and the default status. */
  function Preflight(): (resp: Response)
    ensures resp.status == 200 && resp.body == Obj(map[]) && resp.headers == CorsHeaders
  {
    Response(200, Obj(map[]), CorsHeaders)
  }

  /** The body `{success: true}`. */
  const SuccessBody: Value := Obj(map["success" := Bool(true)])
}
