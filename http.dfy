/*
 * The JSON responses the route handlers return through `NextResponse.json`,
 * whose status defaults to 200.
 */
module Http {
  import opened Js

  datatype Body =
    | ErrorBody(error: string)                      // { error }
    | SuccessBody(detail: Option<string>)           // { success: true } or { success: true, message: detail }
    | InfoBody(message: string, timestamp: string)  // { message, timestamp }

  datatype Response = Response(status: int, body: Body)
}
