/** The HTTP responses the serverless functions return. */
module Http {
  import opened Common

  /** What a response body says. */
  datatype Body =
    | NoBody                                          // `new Response(null, …)`
    | ErrorJson(error: string)                        // `{"error": …}`
    | Thrown                                          // `{"error": error.message}` from a caught exception
    | SuccessJson(chatInitialized: bool)              // `{"success": true[, "chatInitialized": true, …]}`
    | HtmlPage(headline: string, projectTitle: string)

  /**
   * A response: status code, body, whether it carries the permissive CORS
   * headers, and the Content-Type the function sets explicitly (None: the
   * runtime's default).
   */
  datatype Response = Response(status: nat, body: Body, cors: bool, contentType: Option<string>)

  /** The answer to an `OPTIONS` preflight: no body, CORS headers, status 200. */
  const Preflight := Response(200, NoBody, true, None)

  /** `supabase.functions.invoke` reports an error exactly for a non-2xx answer. */
  predicate Succeeded(r: Response) {
    200 <= r.status < 300
  }
}
