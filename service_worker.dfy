/**
 * The service worker's fetch policy: GET requests go to the network; a 404
 * is swapped for the fallback image; a failed fetch becomes a small
 * synthetic response. Nothing is cached.
 */
module ServiceWorker {

  datatype Request = Request(verb: string, url: string)

  datatype Response = Response(status: nat, body: string)

  /** What fetch() settles to: a response (of any status) or a rejection. */
  datatype Outcome = Resolved(response: Response) | Rejected

  /**
   * What the fetch listener does with one request: leave it to the browser,
   * or respond with a response after the network fetches it made, in order.
   */
  datatype Handled = NotIntercepted | RespondWith(response: Response, fetches: seq<Request>)

  const FallbackRequest := Request("GET", "/imgs/dr-evil.gif")

  /** new Response("Resource request failed"): status 200 by default. */
  const RequestFailed := Response(200, "Resource request failed")

  /**
   * The fetch listener. The network is a parameter: the outcome fetch()
   * settles to for each request.
   */
  function OnFetch(req: Request, network: Request -> Outcome): Handled
  {
    if req.verb != "GET" then NotIntercepted
    else
      match network(req)
      case Rejected => RespondWith(RequestFailed, [req])
      case Resolved(response) =>
        if response.status == 404 then
          match network(FallbackRequest)
          case Rejected => RespondWith(RequestFailed, [req, FallbackRequest])
          case Resolved(fallback) => RespondWith(fallback, [req, FallbackRequest])
        else RespondWith(response, [req])
  }

  /** Only GET requests are intercepted, and every intercepted request gets a response: none rejects. */
  lemma InterceptsExactlyGet(req: Request, network: Request -> Outcome)
    ensures OnFetch(req, network).RespondWith? <==> req.verb == "GET"
  {
  }

  /** A response other than a 404, whatever its status, is passed on unchanged after one fetch. */
  lemma PassesOnNon404(req: Request, network: Request -> Outcome)
    requires req.verb == "GET" && network(req).Resolved? && network(req).response.status != 404
    ensures OnFetch(req, network) == RespondWith(network(req).response, [req])
  {
  }

  /**
   * A 404 resolves to what fetching the fallback image gives, or to the
   * synthetic response when that fetch rejects too.
   */
  lemma Replaces404(req: Request, network: Request -> Outcome)
    requires req.verb == "GET" && network(req).Resolved? && network(req).response.status == 404
    ensures OnFetch(req, network).RespondWith?
    ensures OnFetch(req, network).fetches == [req, FallbackRequest]
    ensures OnFetch(req, network).response ==
      if network(FallbackRequest).Resolved? then network(FallbackRequest).response else RequestFailed
  {
  }

  /** A rejected fetch resolves to the synthetic "Resource request failed" response. */
  lemma RejectionBecomesSynthetic(req: Request, network: Request -> Outcome)
    requires req.verb == "GET" && network(req).Rejected?
    ensures OnFetch(req, network) == RespondWith(RequestFailed, [req])
  {
  }

  /**
   * Every intercepted request is fetched once, first; the fallback image is
   * the only other fetch, made exactly when the first answer is a 404; and
   * the response is one of the network's answers or the synthetic one.
   */
  lemma FetchesAndResponses(req: Request, network: Request -> Outcome)
    requires req.verb == "GET"
    ensures var h := OnFetch(req, network);
      && h.RespondWith?
      && 1 <= |h.fetches| <= 2 && h.fetches[0] == req
      && (|h.fetches| == 2 <==> network(req).Resolved? && network(req).response.status == 404)
      && (|h.fetches| == 2 ==> h.fetches[1] == FallbackRequest)
      && (h.response == RequestFailed || exists i :: 0 <= i < |h.fetches| && network(h.fetches[i]) == Resolved(h.response))
  {
    var h := OnFetch(req, network);
    if h.response != RequestFailed {
      if network(req) == Resolved(h.response) {
        assert network(h.fetches[0]) == Resolved(h.response);
      } else {
        assert network(h.fetches[1]) == Resolved(h.response);
      }
    }
  }
}
