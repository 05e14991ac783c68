/** The status classifier `is_success_status`. */
module Status {

  /** Success means the 2xx (successful) or 3xx (redirection) class of HTTP status codes. */
  function IsSuccessStatus(code: int): (r: bool)
    ensures r <==> code / 100 == 2 || code / 100 == 3
  {
    200 <= code < 400
  }
}
