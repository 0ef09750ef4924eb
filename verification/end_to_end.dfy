/** The page and the relay together: what the page does with each kind of answer the relay
    gives, and the path of a well-formed streamed reply from the gateway to the message
    list. */
module EndToEnd {
  import opened Wrappers
  import opened Messages
  import opened EventStream
  import opened ChatRelay
  import opened ChatClient

  /** The relay's response as the page's `fetch` sees it: the same status, and a body
      (its chunks, then `failure` if a read throws) unless the relay sent none. */
  function Delivered(r: RelayResponse, failure: Option<string>): Response {
    match r.body
    case NoBody => Response(r.status, None)
    case ErrorJson(error) => Response(r.status, Some(Body([], failure)))
    case Stream(chunks) => Response(r.status, Some(Body(chunks, failure)))
  }

  /** Every failure the relay reports reaches the page as a toast, with the message list
      left as it was: the gateway's 429 and 402 as their own toasts, everything else as
      the generic one. */
  lemma RelayErrorsReachPage(prev: seq<Message>, req: Request, apiKey: Option<string>,
                             gateway: UpstreamRequest -> Upstream, failure: Option<string>, parse: Parser)
    requires req.verb != "OPTIONS"
    requires Serve(req, apiKey, gateway).body.ErrorJson?
    ensures var r := Serve(req, apiKey, gateway);
      var e := StreamEffect(prev, Responded(Delivered(r, failure)), parse);
      && e.messages == prev
      && e.toast == Some(StatusToast(r.status))
      && (e.toast == Some(TooManyRequests) <==> r.status == 429)
      && (e.toast == Some(ServiceUnavailable) <==> r.status == 402)
  {
    var r := Serve(req, apiKey, gateway);
    FailedStatusKeepsMessages(prev, Delivered(r, failure), Decoded(Responded(Delivered(r, failure)), parse));
  }

  /** A gateway that answers 429 makes the page show the rate-limit toast. */
  lemma GatewayRateLimitReachesPage(prev: seq<Message>, messages: seq<Message>, language: Option<string>,
                                    apiKey: string, gateway: UpstreamRequest -> Upstream,
                                    errorBody: seq<string>, failure: Option<string>, parse: Parser)
    requires apiKey != ""
    requires gateway(UpstreamFor(messages, language, apiKey)) == Answered(429, errorBody)
    ensures var r := Serve(Request("POST", Json(messages, language)), Some(apiKey), gateway);
      StreamEffect(prev, Responded(Delivered(r, failure)), parse) == PageEffect(prev, Some(TooManyRequests))
  {
  }

  /** A well-formed reply from the gateway, however it is cut into chunks, passes through
      the relay unchanged and ends up as exactly one new assistant message holding the
      concatenated deltas; a read error after the terminator is never seen. */
  lemma StreamedReplyReachesPage(prev: seq<Message>, messages: seq<Message>, language: Option<string>,
                                 apiKey: string, gateway: UpstreamRequest -> Upstream,
                                 payloads: seq<string>, chunks: seq<string>, failure: Option<string>, parse: Parser)
    requires apiKey != ""
    requires gateway(UpstreamFor(messages, language, apiKey)) == Answered(200, chunks)
    requires AllWellFormed(payloads, parse) && Concat(chunks) == Frames(payloads) + DoneFrame
    ensures var r := Serve(Request("POST", Json(messages, language)), Some(apiKey), gateway);
      && r.status == 200 && r.body == Stream(chunks)
      && StreamEffect(prev, Responded(Delivered(r, failure)), parse)
         == PageEffect(prev + [Message(Assistant, Deltas(payloads, parse))], None)
  {
    var r := Serve(Request("POST", Json(messages, language)), Some(apiKey), gateway);
    assert r == Translate(200, chunks);
    ClassifyIsStable();
    ClassifyReadsFrames();
    WellFormedReply(payloads, chunks, Classify, parse);
  }
}
