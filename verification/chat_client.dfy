/** The chat page (src/pages/Chat.tsx): the message list, the send guard, and `streamChat`,
    which posts the conversation to the relay and decodes its event-stream reply into the
    last (assistant) message.

    The network is a parameter: `server` is what `fetch` gives for the request the page
    sends, either a rejection with the thrown error's message or a response whose body is a
    sequence of text chunks, possibly ended by a read error. The imperative decoder loops are
    proved to compute `EventStream.Feed`, and the page's final state is `StreamEffect`. */
module ChatClient {
  import opened Wrappers
  import opened Text
  import opened Messages
  import opened EventStream

  /** The reply body as the page reads it: the chunks `reader.read()` yields, then either the
      end of the stream (`failure == None`) or a read that throws with the given message. */
  datatype Body = Body(chunks: seq<string>, failure: Option<string>)

  /** A response: the status and the body, which may be missing. */
  datatype Response = Response(status: int, body: Option<Body>) {
    /** `response.ok`: the status is in the range 200-299. */
    predicate Ok() {
      200 <= status <= 299
    }
  }

  /** What `await fetch(...)` does: reject with an error message, or give a response. */
  datatype FetchOutcome = Rejected(error: string) | Responded(response: Response)

  /** The toasts the page shows. */
  datatype Toast =
    | TooManyRequests      // status 429
    | ServiceUnavailable   // status 402
    | SendFailed           // any other failed status, or no body
    | CannotConnect        // a thrown error whose message mentions "Failed to fetch"
    | ConnectionFailed     // any other thrown error

  /** The toast for a response that is not ok or has no body. */
  function StatusToast(status: int): Toast {
    if status == 429 then TooManyRequests
    else if status == 402 then ServiceUnavailable
    else SendFailed
  }

  /** The toast for an error thrown by `fetch` or by a read. */
  function ErrorToast(error: string): Toast {
    if Includes(error, "Failed to fetch") then CannotConnect else ConnectionFailed
  }

  /** `prev.slice(0, -1)`: every message but the last; the empty list stays empty. */
  function DropLast(s: seq<Message>): (r: seq<Message>)
    ensures s != [] ==> s == r + [s[|s| - 1]]
    ensures s == [] ==> r == []
  {
    if s == [] then [] else s[..|s| - 1]
  }

  function ToastList(t: Option<Toast>): seq<Toast> {
    match t
    case None => []
    case Some(x) => [x]
  }

  /** The page's message list and the toast shown after `streamChat`, from the list as it was
      when the call started. */
  datatype PageEffect = PageEffect(messages: seq<Message>, toast: Option<Toast>)

  /** The decoder's state once `streamChat` has read the body: the chunks fed to a fresh
      decoder, or the fresh decoder when no body is read. */
  function Decoded(fetched: FetchOutcome, parse: Parser): Decoder {
    if fetched.Responded? && fetched.response.Ok() && fetched.response.body.Some?
    then Feed(Start, fetched.response.body.value.chunks, Classify, parse)
    else Start
  }

  /** What `streamChat` does to the page, given the decoder's final state `d`:
      - `fetch` rejects: the catch block shows a connection toast and drops the last message;
      - the response is not ok or has no body: a status toast, and the list is unchanged;
      - otherwise an assistant message holding the decoded text is appended, unless a read
        throws before the terminator, when the catch block drops that message again. */
  function Effect(prev: seq<Message>, fetched: FetchOutcome, d: Decoder): PageEffect {
    match fetched
    case Rejected(error) => PageEffect(DropLast(prev), Some(ErrorToast(error)))
    case Responded(response) =>
      if !response.Ok() || response.body.None? then PageEffect(prev, Some(StatusToast(response.status)))
      else
        var failure := response.body.value.failure;
        var reply := prev + [Message(Assistant, d.content)];
        if !d.done && failure.Some? then PageEffect(DropLast(reply), Some(ErrorToast(failure.value)))
        else PageEffect(reply, None)
  }

  /** What `streamChat` does to the page whose list was `prev` when the call started. */
  function StreamEffect(prev: seq<Message>, fetched: FetchOutcome, parse: Parser): PageEffect {
    Effect(prev, fetched, Decoded(fetched, parse))
  }

  /** Whatever `fetch` does and whatever the reply decodes to, `streamChat` keeps every
      message but possibly the last, and at most appends one assistant message. */
  lemma StreamKeepsEarlierMessages(prev: seq<Message>, fetched: FetchOutcome, d: Decoder)
    ensures var e := Effect(prev, fetched, d);
      && DropLast(prev) <= e.messages
      && |e.messages| <= |prev| + 1
      && (forall i :: 0 <= i < |e.messages| && i < |prev| ==> e.messages[i] == prev[i])
      && (|e.messages| == |prev| + 1 ==> e.messages[|prev|] == Message(Assistant, d.content))
  {
    var e := Effect(prev, fetched, d);
    if fetched.Responded? && fetched.response.Ok() && fetched.response.body.Some? {
      var reply := prev + [Message(Assistant, d.content)];
      assert DropLast(reply) == prev;
      assert e.messages == reply || e.messages == prev;
      assert DropLast(prev) <= prev;
    }
  }

  /** A response that is not ok, or has no body, leaves the list as it was, and its toast
      tells 429 and 402 apart from every other status. */
  lemma FailedStatusKeepsMessages(prev: seq<Message>, response: Response, d: Decoder)
    requires !response.Ok() || response.body.None?
    ensures var e := Effect(prev, Responded(response), d);
      && e.messages == prev && e.toast.Some?
      && (e.toast.value == TooManyRequests <==> response.status == 429)
      && (e.toast.value == ServiceUnavailable <==> response.status == 402)
      && (e.toast.value == SendFailed <==> response.status != 429 && response.status != 402)
  {
  }

  /** A body read to its end, or up to the terminator, appends exactly one assistant
      message holding the decoded text, and no toast. */
  lemma SuccessAppendsReply(prev: seq<Message>, response: Response, d: Decoder)
    requires response.Ok() && response.body.Some?
    requires d.done || response.body.value.failure.None?
    ensures var e := Effect(prev, Responded(response), d);
      && e.toast.None?
      && |e.messages| == |prev| + 1 && e.messages[..|prev|] == prev
      && e.messages[|prev|] == Message(Assistant, d.content)
  {
    var e := Effect(prev, Responded(response), d);
    assert e.messages[..|prev|] == prev;
  }

  /** A read that throws before the terminator removes the partial reply again: the list is
      as it was before the placeholder was appended, with a connection toast. */
  lemma ReadFailureDropsReply(prev: seq<Message>, response: Response, d: Decoder)
    requires response.Ok() && response.body.Some? && response.body.value.failure.Some? && !d.done
    ensures var e := Effect(prev, Responded(response), d);
      && e.messages == prev
      && e.toast.Some? && (e.toast.value == CannotConnect || e.toast.value == ConnectionFailed)
  {
    assert DropLast(prev + [Message(Assistant, d.content)]) == prev;
  }

  /** When `fetch` itself throws, the catch block drops the last message, which is the
      user's own turn that `handleSend` just appended. */
  lemma RejectionDropsUserTurn(prev: seq<Message>, userMessage: string, error: string, d: Decoder)
    ensures var e := Effect(prev + [Message(User, userMessage)], Rejected(error), d);
      && e.messages == prev
      && (e.toast == Some(CannotConnect) <==> Includes(error, "Failed to fetch"))
  {
    assert DropLast(prev + [Message(User, userMessage)]) == prev;
  }

  /** Where the reply was cut into chunks does not matter: the text of the chunks together
      and how the body ends (a read error or none) decide the page's new list and toast. */
  lemma ChunkingInvisible(prev: seq<Message>, status: int, chunks1: seq<string>, chunks2: seq<string>,
                          failure: Option<string>, parse: Parser)
    requires Concat(chunks1) == Concat(chunks2)
    ensures StreamEffect(prev, Responded(Response(status, Some(Body(chunks1, failure)))), parse)
         == StreamEffect(prev, Responded(Response(status, Some(Body(chunks2, failure)))), parse)
  {
    var f1 := Responded(Response(status, Some(Body(chunks1, failure))));
    var f2 := Responded(Response(status, Some(Body(chunks2, failure))));
    SameTextSameResult(chunks1, chunks2, parse);
    EffectSeesOnlyDecoder(prev, status, chunks1, chunks2, failure, Decoded(f1, parse), Decoded(f2, parse));
  }

  /** The page's effect depends on the body's chunks only through what the decoder made of
      them. */
  lemma EffectSeesOnlyDecoder(prev: seq<Message>, status: int, chunks1: seq<string>, chunks2: seq<string>,
                              failure: Option<string>, d1: Decoder, d2: Decoder)
    requires Same(d1, d2)
    ensures Effect(prev, Responded(Response(status, Some(Body(chunks1, failure)))), d1)
         == Effect(prev, Responded(Response(status, Some(Body(chunks2, failure)))), d2)
  {
  }

  /** One line's handling up to the JSON parse: a trailing "\r" is dropped, comments, blank
      lines and lines without the `data: ` field are skipped, and the trimmed payload is the
      terminator or JSON text. This is the page's classifier. */
  method ReadLine(raw: string) returns (line: string, kind: LineKind)
    ensures line == StripCR(raw) && kind == Classify(raw)
  {
    line := raw;
    if EndsWith(line, "\r") {
      line := line[..|line| - 1];
    }
    if StartsWith(line, ":") || Trim(line) == "" {
      kind := Ignored;
    } else if !StartsWith(line, DataPrefix) {
      kind := Ignored;
    } else {
      var jsonStr := Trim(line[|DataPrefix|..]);
      if jsonStr == DoneSentinel {
        kind := Terminator;
      } else {
        kind := Payload(jsonStr);
      }
    }
  }

  /** The page's state. */
  class ChatPage {
    var messages: seq<Message>
    var input: string
    var isLoading: bool
    var language: string
    /** The toasts shown so far, oldest first. */
    var toasts: seq<Toast>

    constructor ()
      ensures messages == [] && input == "" && !isLoading && language == "en" && toasts == []
    {
      messages := [];
      input := "";
      isLoading := false;
      language := "en";
      toasts := [];
    }

    /** The text area's `onChange`. */
    method SetInput(text: string)
      modifies this
      ensures input == text
      ensures messages == old(messages) && isLoading == old(isLoading)
      ensures language == old(language) && toasts == old(toasts)
    {
      input := text;
    }

    /** The language selector's `onValueChange`. */
    method SetLanguage(l: string)
      modifies this
      ensures language == l
      ensures messages == old(messages) && input == old(input)
      ensures isLoading == old(isLoading) && toasts == old(toasts)
    {
      language := l;
    }

    /** `streamChat(userMessage)`. `history` is the message list the call's closure saw, from
        before the user's message was appended; the request carries it, the user's message and
        the language. The decoder's variables `textBuffer`, `assistantContent` and
        `streamDone` are `buffer`, `content` and `done`. */
    method StreamChat(history: seq<Message>, userMessage: string, server: ChatRequest -> FetchOutcome, parse: Parser)
      returns (sent: ChatRequest)
      modifies this
      ensures sent == ChatRequest(history + [Message(User, userMessage)], old(language))
      ensures var e := StreamEffect(old(messages), server(sent), parse);
        messages == e.messages && toasts == old(toasts) + ToastList(e.toast)
      ensures input == old(input) && isLoading == old(isLoading) && language == old(language)
    {
      sent := ChatRequest(history + [Message(User, userMessage)], language);
      match server(sent)
      case Rejected(error) =>
        toasts := toasts + [ErrorToast(error)];
        messages := DropLast(messages);
      case Responded(response) =>
        if !response.Ok() || response.body.None? {
          toasts := toasts + [StatusToast(response.status)];
          return;
        }
        var body := response.body.value;
        var buffer, content, done := ReadReply(body.chunks, parse);
        assert Decoder(buffer, content, done) == Decoded(server(sent), parse);
        if !done && body.failure.Some? {
          toasts := toasts + [ErrorToast(body.failure.value)];
          messages := DropLast(messages);
        }
    }

    /** The read loop of `streamChat`: the empty assistant message is appended, then chunks
        are read and drained until the terminator or the end of the body. The decoder ends
        as `Feed` says, and the last message holds its text. */
    method ReadReply(chunks: seq<string>, parse: Parser) returns (buffer: string, content: string, done: bool)
      modifies this
      ensures Decoder(buffer, content, done) == Feed(Start, chunks, Classify, parse)
      ensures messages == old(messages) + [Message(Assistant, content)]
      ensures toasts == old(toasts) && input == old(input)
      ensures isLoading == old(isLoading) && language == old(language)
    {
      buffer, content, done := "", "", false;
      messages := messages + [Message(Assistant, "")];
      var i := 0;
      while !done && i < |chunks|
        invariant 0 <= i <= |chunks|
        invariant Feed(Decoder(buffer, content, done), chunks[i..], Classify, parse)
          == Feed(Start, chunks, Classify, parse)
        invariant messages == old(messages) + [Message(Assistant, content)]
        invariant toasts == old(toasts) && input == old(input)
        invariant isLoading == old(isLoading) && language == old(language)
        decreases |chunks| - i
      {
        assert chunks[i..][1..] == chunks[i + 1..];
        buffer := buffer + chunks[i];
        i := i + 1;
        buffer, content, done := DrainLines(buffer, content, parse);
      }
    }

    /** The inner loop of `streamChat`: cut and handle complete lines, keeping the last
        message equal to the assistant's text so far. */
    method DrainLines(buffer0: string, content0: string, parse: Parser) returns (buffer: string, content: string, done: bool)
      requires messages != [] && messages[|messages| - 1] == Message(Assistant, content0)
      modifies this`messages
      ensures Decoder(buffer, content, done) == Drain(buffer0, content0, Classify, parse)
      ensures messages == old(messages)[..|old(messages)| - 1] + [Message(Assistant, content)]
    {
      buffer, content, done := buffer0, content0, false;
      ghost var earlier := messages[..|messages| - 1];
      assert messages == earlier + [Message(Assistant, content)];
      var newlineIndex := IndexOf(buffer, '\n');
      while newlineIndex != -1
        invariant newlineIndex == IndexOf(buffer, '\n')
        invariant Drain(buffer, content, Classify, parse) == Drain(buffer0, content0, Classify, parse)
        invariant !done
        invariant messages == earlier + [Message(Assistant, content)]
        decreases |buffer|
      {
        var stop;
        buffer, content, done, stop := HandleLine(buffer, earlier, buffer[..newlineIndex], buffer[newlineIndex + 1..], content, parse);
        if stop {
          break;
        }
        newlineIndex := IndexOf(buffer, '\n');
      }
      if newlineIndex == -1 {
        IndexOfSpec(buffer, '\n');
        DrainWithoutNewline(buffer, content, Classify, parse);
      }
    }

    /** One pass of the inner loop's body for the complete line `raw` cut off in front of
        `rest`. `stop` is the loop's `break`: at the terminator, and at a payload that does
        not parse, whose line is put back in front of `rest`. Otherwise draining goes on from
        `rest` with the payload's delta, if any, added to the text and shown. */
    method HandleLine(ghost before: string, ghost earlier: seq<Message>, raw: string, rest: string, content0: string, parse: Parser)
      returns (buffer: string, content: string, done: bool, stop: bool)
      requires SplitLine(before) == Some((raw, rest))
      requires messages == earlier + [Message(Assistant, content0)]
      modifies this`messages
      ensures stop ==> Decoder(buffer, content, done) == Drain(before, content0, Classify, parse)
      ensures !stop ==> !done && buffer == rest
      ensures !stop ==> Drain(rest, content, Classify, parse) == Drain(before, content0, Classify, parse)
      ensures messages == earlier + [Message(Assistant, content)]
    {
      buffer, content, done, stop := rest, content0, false, false;
      DrainLine(before, raw, rest, content0, Classify, parse);
      var line, kind := ReadLine(raw);
      match kind {
        case Ignored =>
        case Terminator =>
          done, stop := true, true;
        case Payload(jsonStr) =>
          buffer, content, stop := HandlePayload(earlier, line, jsonStr, rest, content0, parse);
      }
    }

    /** The `try` around `JSON.parse` for a data line's payload `jsonStr`. A payload that does
        not parse puts `line` back in front of `rest` and stops the loop; one that parses adds
        its delta, if any, to the text and shows it. */
    method HandlePayload(ghost earlier: seq<Message>, line: string, jsonStr: string, rest: string, content0: string, parse: Parser)
      returns (buffer: string, content: string, stop: bool)
      requires messages == earlier + [Message(Assistant, content0)]
      modifies this`messages
      ensures parse(jsonStr) == Unparsable ==> stop && buffer == line + "\n" + rest && content == content0
      ensures parse(jsonStr).Parsed? ==> !stop && buffer == rest && content == content0 + Delta(parse(jsonStr).content)
      ensures messages == earlier + [Message(Assistant, content)]
    {
      buffer, content, stop := rest, content0, false;
      match parse(jsonStr) {
        case Unparsable =>
          buffer, stop := line + "\n" + rest, true;
        case Parsed(delta) =>
          if delta.Some? && delta.value != "" {
            content := content + delta.value;
            ShowReply(content);
            assert messages == earlier + [Message(Assistant, content)];
          } else {
            assert content + Delta(delta) == content;
          }
      }
    }

    /** The `setMessages` call that replaces the last message by the assistant's text so far. */
    method ShowReply(text: string)
      requires messages != []
      modifies this`messages
      ensures messages == old(messages)[..|old(messages)| - 1] + [Message(Assistant, text)]
    {
      messages := messages[..|messages| - 1] + [Message(Assistant, text)];
    }

    /** `handleSend`: nothing happens when the trimmed input is empty or a send is in flight.
        Otherwise the input is cleared, the trimmed text is appended as the user's message,
        `isLoading` is set for the duration of `streamChat` and cleared afterwards. */
    method HandleSend(server: ChatRequest -> FetchOutcome, parse: Parser)
      modifies this
      ensures language == old(language)
      ensures Trim(old(input)) == [] || old(isLoading) ==>
        messages == old(messages) && input == old(input) && isLoading == old(isLoading) && toasts == old(toasts)
      ensures Trim(old(input)) != [] && !old(isLoading) ==>
        var turn := old(messages) + [Message(User, Trim(old(input)))];
        var e := StreamEffect(turn, server(ChatRequest(turn, old(language))), parse);
        && input == "" && !isLoading
        && messages == e.messages && toasts == old(toasts) + ToastList(e.toast)
    {
      if Trim(input) == [] || isLoading {
        return;
      }
      var history := messages;
      var userMessage := Trim(input);
      input := "";
      messages := messages + [Message(User, userMessage)];
      isLoading := true;
      var _ := StreamChat(history, userMessage, server, parse);
      isLoading := false;
    }
  }

  /** The server answers every request with an ok status and a body that ends without a
      read error. */
  ghost predicate AlwaysStreams(server: ChatRequest -> FetchOutcome) {
    forall r :: server(r).Responded? && server(r).response.Ok() && server(r).response.body.Some?
      && server(r).response.body.value.failure.None?
  }

  /** Two messages typed and sent one after the other on a fresh page, with a server that
      always streams a reply: the list is user, assistant, user, assistant. Each request
      carries the conversation so far, and each reply holds what the server's reply to it
      decodes to. */
  method TwoSends(p: ChatPage, first: string, second: string, server: ChatRequest -> FetchOutcome, parse: Parser)
    requires p.messages == [] && !p.isLoading
    requires Trim(first) != [] && Trim(second) != []
    requires AlwaysStreams(server)
    modifies p
    ensures |p.messages| == 4
    ensures p.messages[0] == Message(User, Trim(first))
    ensures p.messages[1] == Message(Assistant, Decoded(server(ChatRequest(p.messages[..1], p.language)), parse).content)
    ensures p.messages[2] == Message(User, Trim(second))
    ensures p.messages[3] == Message(Assistant, Decoded(server(ChatRequest(p.messages[..3], p.language)), parse).content)
    ensures p.input == "" && !p.isLoading && p.toasts == old(p.toasts)
  {
    p.SetInput(first);
    var turn1 := [Message(User, Trim(first))];
    var fetched1 := server(ChatRequest(turn1, p.language));
    SuccessAppendsReply(turn1, fetched1.response, Decoded(fetched1, parse));
    p.HandleSend(server, parse);
    var reply1 := p.messages;
    assert reply1[..1] == turn1;

    p.SetInput(second);
    var turn2 := reply1 + [Message(User, Trim(second))];
    var fetched2 := server(ChatRequest(turn2, p.language));
    SuccessAppendsReply(turn2, fetched2.response, Decoded(fetched2, parse));
    p.HandleSend(server, parse);
    assert p.messages[..3] == turn2;
    assert p.messages[..1] == turn1;
  }
}
