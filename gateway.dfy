/** The authenticated request gateway: what a call through `fetchWithAuth` hands back. */
module Gateway {

  /** The request either produced a response (with the `ok` flag and the parsed payload),
      or its promise was rejected with an error message. */
  datatype Reply<T> = Response(ok: bool, body: T) | Rejected(message: string)

  predicate IsOk<T>(r: Reply<T>) {
    r.Response? && r.ok
  }

  /** A reply for an HTTP status: 401 rejects with "Unauthorized"; any other status is
      returned as a response whose `ok` flag is the 2xx test. */
  function WithAuth<T>(status: int, body: T): (r: Reply<T>)
    ensures r.Rejected? <==> status == 401
    ensures r.Rejected? ==> r.message == "Unauthorized"
    ensures r.Response? ==> r.body == body && (r.ok <==> 200 <= status < 300)
  {
    if status == 401 then Rejected("Unauthorized")
    else Response(200 <= status <= 299, body)
  }
}
