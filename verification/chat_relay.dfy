/** The relay (supabase/functions/chat/index.ts): a single request handler that answers the
    CORS preflight, picks the system prompt for the requested language, forwards the
    conversation to the AI gateway with streaming on, and translates the gateway's answer
    into the response the page reads.

    The handler is a function. The request body as `req.json()` gives it, the
    `LOVABLE_API_KEY` environment variable and the gateway `fetch` are its inputs. */
module ChatRelay {
  import opened Wrappers
  import opened Messages

  /** What `await req.json()` gives: the destructured `{ messages, language }`, or the
      value it throws when the body is not JSON. `language` is `None` when the field is
      absent. */
  datatype RequestBody =
    | Json(messages: seq<Message>, language: Option<string>)
    | Malformed(thrown: Thrown)

  /** The incoming request: its HTTP method and its body. */
  datatype Request = Request(verb: string, body: RequestBody)

  /** A thrown value: an `Error` object carrying its message, or anything else. */
  datatype Thrown = Error(message: string) | NotAnError

  /** The gateway's answer to the `fetch`: a rejection, or a status with a body that the
      relay either passes through (a stream of text chunks) or only logs. */
  datatype Upstream = Threw(thrown: Thrown) | Answered(status: int, body: seq<string>)

  /** The request the relay makes to the gateway: where, with which key, and the JSON body
      `{ model, messages, stream }`, whose message list is the system prompt followed by
      the client's messages. */
  datatype UpstreamRequest = UpstreamRequest(
    url: string, authorization: string, model: string, prompt: Prompt, clientMessages: seq<Message>, stream: bool)
  {
    /** The `messages` field of the body. */
    function Conversation(): seq<Message> {
      [Message(System, PromptText(prompt))] + clientMessages
    }
  }

  /** What the relay answers with: no body (the preflight), a JSON `{ error }` object, or
      the gateway's body passed through unchanged. */
  datatype ResponseBody = NoBody | ErrorJson(error: string) | Stream(chunks: seq<string>)

  /** A response. `new Response(...)` without a status is 200. */
  datatype RelayResponse = RelayResponse(status: int, headers: map<string, string>, body: ResponseBody)

  const AllowOrigin: string := "Access-Control-Allow-Origin"
  const AllowHeaders: string := "Access-Control-Allow-Headers"
  const ContentType: string := "Content-Type"

  /** The CORS headers every response carries. */
  const CorsHeaders: map<string, string> := map[
    AllowOrigin := "*",
    AllowHeaders := "authorization, x-client-info, apikey, content-type"
  ]

  const GatewayUrl: string := "https://ai.gateway.lovable.dev/v1/chat/completions"
  const GatewayModel: string := "google/gemini-2.5-flash"
  const MissingKey: string := "LOVABLE_API_KEY is not configured"
  const Unexpected: string := "An unexpected error occurred"
  const RateLimited: string := "Rate limit exceeded. Please try again in a moment."
  const TemporarilyUnavailable: string := "Service temporarily unavailable. Please try again later."
  const ProcessingFailed: string := "Failed to process your message. Please try again."

  /** The three entries of `systemPrompts`. */
  datatype Prompt = English | Shona | Ndebele

  /** The text of each system prompt. */
  function PromptText(p: Prompt): string {
    match p
    case English =>
      "You are ShingaBot, a compassionate mental health support chatbot for Zimbabwean communities. \n"
      + "You provide emotional support, encouragement, and coping strategies in a warm, culturally-sensitive manner.\n"
      + "\n"
      + "Guidelines:\n"
      + "- Be empathetic, non-judgmental, and supportive\n"
      + "- Acknowledge the user's feelings and validate their experiences\n"
      + "- Offer practical coping strategies and self-care tips\n"
      + "- Recognize cultural context and Zimbabwean mental health challenges\n"
      + "- If someone is in crisis, encourage them to seek professional help and provide crisis hotline information\n"
      + "- Keep responses conversational and accessible\n"
      + "- Use positive, hopeful language while being realistic\n"
      + "- Respect privacy and anonymity\n"
      + "\n"
      + "Remember: You're here to listen, support, and guide - not to diagnose or replace professional therapy."
    case Shona =>
      "Uri ShingaBot, chatbot inoshandisa AI kubatsira vanhu pamusoro pehutano hwepfungwa muZimbabwe.\n"
      + "Unopa rutsigiro rwemweya, kukurudzira, uye mazano ekurapa mupfungwa mune nzira inodziya uye inogamuchira.\n"
      + "\n"
      + "Mirairo:\n"
      + "- Iva nemweya wetsitsi, usatonga, uye ubatsire\n"
      + "- Bvuma manzwiro emunhu uye ratidza kuti unzwisisa\n"
      + "- Ipa mazano ekutarisa hutano hwako\n"
      + "- Ziva tsika dzemuZimbabwe nematambudziko ehutano hwepfungwa\n"
      + "- Kana mumwe munhu ari mumatambudziko makuru, mukurudzire kuti atsvage rubatsiro rweunyanzvi\n"
      + "- Taura zviri nyore kunzwisisa\n"
      + "- Shandisa mashoko akanaka uye ane tariro\n"
      + "- Chengetedza kuvanzika kwemunhu\n"
      + "\n"
      + "Yeuka: Uri pano kunzwa, kubatsira, uye kutungamira - kwete kuongorora kana kutsiva chiremba."
    case Ndebele =>
      "UnguShingaBot, i-chatbot enika AI ekusekela impilo yengqondo emiphakathini yaseZimbabwe.\n"
      + "Unikela ngosekelo lwemoya, ukukhuthaza, lamacebo okunakekela impilo yengqondo ngendlela efudumeleyo futhi eyamukelayo.\n"
      + "\n"
      + "Imihlahlandlela:\n"
      + "- Woba lomusa, ungagwebe, usekele\n"
      + "- Vuma imizwa yomuntu ukhombise ukuthi uyazwisisa\n"
      + "- Nikela ngamacebo okunakekela impilo yakho\n"
      + "- Zwisisa isiko lamasiko aseZimbabwe lezinkinga zempilo yengqondo\n"
      + "- Nxa umuntu osenkingeni enkulu, mkhuthaze ukuthi afune usizo lwezobuchwepheshe\n"
      + "- Khuluma ngendlela ezwisisekayo\n"
      + "- Sebenzisa amazwi amahle alethemba\n"
      + "- Hlonipha ubumfihlo bomuntu\n"
      + "\n"
      + "Khumbula: Ulapha ukuzwa, ukusekela, lokuqondisa - hatshi ukuhlola kumbe ukuthatha indawo yodokotela."
  }

  /** `systemPrompts[language] || systemPrompts.en`, where `language` defaults to "en" when
      the field is absent: the three keys have their own prompt and everything else gets
      the English one. */
  function SystemPrompt(language: Option<string>): (p: Prompt)
    ensures p == Shona <==> language == Some("sn")
    ensures p == Ndebele <==> language == Some("nd")
    ensures p == English <==> language != Some("sn") && language != Some("nd")
  {
    var key := language.GetOr("en");
    if key == "sn" then Shona
    else if key == "nd" then Ndebele
    else English
  }

  /** The body the relay posts upstream: the system prompt, then the client's messages. */
  function UpstreamFor(messages: seq<Message>, language: Option<string>, apiKey: string): UpstreamRequest {
    UpstreamRequest(GatewayUrl, "Bearer " + apiKey, GatewayModel, SystemPrompt(language), messages, true)
  }

  /** `error instanceof Error ? error.message : "An unexpected error occurred"`. */
  function ErrorMessage(thrown: Thrown): string {
    match thrown
    case Error(message) => message
    case NotAnError => Unexpected
  }

  /** A JSON error response: the CORS headers and a JSON content type. */
  function ErrorResponse(status: int, error: string): RelayResponse {
    RelayResponse(status, CorsHeaders[ContentType := "application/json"], ErrorJson(error))
  }

  /** The gateway's answer translated: an ok status streams the body through; 429 and 402
      keep their status with a fixed message; any other status becomes 500 with a generic
      message. */
  function Translate(status: int, body: seq<string>): (r: RelayResponse)
    ensures r.status == 200 <==> 200 <= status <= 299
    ensures r.body == Stream(body) <==> 200 <= status <= 299
    ensures r.body.Stream? ==> ContentType in r.headers && r.headers[ContentType] == "text/event-stream"
    ensures !(200 <= status <= 299) ==>
      && r.body.ErrorJson? && ContentType in r.headers && r.headers[ContentType] == "application/json"
      && (status == 429 || status == 402 ==> r.status == status)
      && (status != 429 && status != 402 ==> r.status == 500 && r.body.error == ProcessingFailed)
  {
    if 200 <= status <= 299 then
      RelayResponse(200, CorsHeaders[ContentType := "text/event-stream"], Stream(body))
    else if status == 429 then ErrorResponse(429, RateLimited)
    else if status == 402 then ErrorResponse(402, TemporarilyUnavailable)
    else ErrorResponse(500, ProcessingFailed)
  }

  /** The `serve` handler. A missing or empty key, a body that is not JSON and a rejected
      `fetch` all land in the catch block, which answers 500 with the thrown message. */
  function Serve(req: Request, apiKey: Option<string>, gateway: UpstreamRequest -> Upstream): (r: RelayResponse)
    ensures forall h :: h in CorsHeaders ==> h in r.headers && r.headers[h] == CorsHeaders[h]
    ensures r.status in {200, 402, 429, 500}
    ensures r.body.NoBody? <==> req.verb == "OPTIONS"
    ensures req.verb == "OPTIONS" ==> r.status == 200 && r.headers == CorsHeaders
    ensures r.body.Stream? ==> r.status == 200 && ContentType in r.headers && r.headers[ContentType] == "text/event-stream"
    ensures r.body.ErrorJson? ==> ContentType in r.headers && r.headers[ContentType] == "application/json"
    ensures req.verb != "OPTIONS" && req.body.Malformed? ==> r == ErrorResponse(500, ErrorMessage(req.body.thrown))
    ensures req.verb != "OPTIONS" && req.body.Json? && (apiKey.None? || apiKey.value == "") ==>
      r == ErrorResponse(500, MissingKey)
    ensures req.verb != "OPTIONS" && req.body.Json? && apiKey.Some? && apiKey.value != "" ==>
      var answer := gateway(UpstreamFor(req.body.messages, req.body.language, apiKey.value));
      answer.Answered? ==> r == Translate(answer.status, answer.body)
    ensures req.verb != "OPTIONS" && req.body.Json? && apiKey.Some? && apiKey.value != "" ==>
      var answer := gateway(UpstreamFor(req.body.messages, req.body.language, apiKey.value));
      answer.Threw? ==> r == ErrorResponse(500, ErrorMessage(answer.thrown))
  {
    if req.verb == "OPTIONS" then RelayResponse(200, CorsHeaders, NoBody)
    else match req.body
      case Malformed(thrown) => ErrorResponse(500, ErrorMessage(thrown))
      case Json(messages, language) =>
        if apiKey.None? || apiKey.value == "" then ErrorResponse(500, MissingKey)
        else match gateway(UpstreamFor(messages, language, apiKey.value))
          case Threw(thrown) => ErrorResponse(500, ErrorMessage(thrown))
          case Answered(status, body) => Translate(status, body)
  }

  /** The preflight answer depends on nothing but the method: the body is never read, the
      key never looked at, the gateway never called. */
  lemma PreflightIgnoresTheRest(b1: RequestBody, b2: RequestBody, k1: Option<string>, k2: Option<string>,
                                g1: UpstreamRequest -> Upstream, g2: UpstreamRequest -> Upstream)
    ensures Serve(Request("OPTIONS", b1), k1, g1) == Serve(Request("OPTIONS", b2), k2, g2)
  {
  }

  /** The gateway receives the system prompt for the requested language followed by the
      client's messages, unchanged and in order, with streaming on and the key as a bearer
      token. */
  lemma ForwardsConversation(messages: seq<Message>, language: Option<string>, apiKey: string)
    ensures var u := UpstreamFor(messages, language, apiKey);
      && |u.Conversation()| == |messages| + 1
      && u.Conversation()[0] == Message(System, PromptText(SystemPrompt(language)))
      && u.Conversation()[1..] == messages
      && u.stream && u.model == GatewayModel && u.url == GatewayUrl
      && u.authorization == "Bearer " + apiKey
  {
    var u := UpstreamFor(messages, language, apiKey);
    assert u.Conversation()[1..] == messages;
  }

  /** Apart from the method, the body and the key, the answer depends only on what the
      gateway says to that one request. */
  lemma OnlyThatRequestMatters(req: Request, apiKey: string, g1: UpstreamRequest -> Upstream, g2: UpstreamRequest -> Upstream)
    requires req.body.Json?
    requires g1(UpstreamFor(req.body.messages, req.body.language, apiKey)) == g2(UpstreamFor(req.body.messages, req.body.language, apiKey))
    ensures Serve(req, Some(apiKey), g1) == Serve(req, Some(apiKey), g2)
  {
  }

  /** A missing or empty key fails before the gateway is called. */
  lemma MissingKeyNeverCallsGateway(req: Request, apiKey: Option<string>, g1: UpstreamRequest -> Upstream, g2: UpstreamRequest -> Upstream)
    requires apiKey.None? || apiKey.value == ""
    ensures Serve(req, apiKey, g1) == Serve(req, apiKey, g2)
  {
  }

  /** A failed gateway status never leaks what the gateway said: the relay's answer is the
      same whatever the gateway's error body was. */
  lemma ErrorHidesUpstreamText(status: int, b1: seq<string>, b2: seq<string>)
    requires !(200 <= status <= 299)
    ensures Translate(status, b1) == Translate(status, b2)
  {
  }
}
