/** The browser's decoder for the relay's event-stream reply (src/pages/Chat.tsx, inside
    `streamChat`), stated as functions over values.

    The reply arrives as chunks of text. A text buffer is kept across reads; complete lines
    are cut at "\n" and a trailing "\r" is dropped; comments, blank lines and lines without
    the `data: ` field are skipped; the payload `[DONE]` ends the stream; a payload that does
    not parse is put back in front of the buffer and line cutting stops until the next read;
    any other payload contributes `choices[0].delta.content` to the assistant's text.

    `Drain` is one run of the inner line loop, `Feed` the outer read loop. The imperative
    decoder in module ChatClient is proved to compute exactly these. The line framing is the
    subset of the event-stream format of section 9.2 of the WHATWG HTML Living Standard that
    the page implements ("\n" line ends, an optional "\r", ":" comments, the `data: ` field). */
module EventStream {
  import opened Wrappers
  import opened Text

  /** What `JSON.parse(payload).choices?.[0]?.delta?.content` gives: an exception
      (`Unparsable`), or the content field, possibly absent. The parser itself is a
      parameter of the model, a function from payload text to this result. */
  datatype Parsed = Unparsable | Parsed(content: Option<string>)

  type Parser = string -> Parsed

  const DataPrefix: string := "data: "
  const DoneSentinel: string := "[DONE]"

  /** Drops one trailing carriage return, if there is one. */
  function StripCR(line: string): (r: string)
    ensures '\n' !in line ==> '\n' !in r
  {
    if EndsWith(line, "\r") then line[..|line| - 1] else line
  }

  /** How the inner loop treats one complete line. */
  datatype LineKind = Ignored | Terminator | Payload(json: string)

  /** A way of classifying lines. The decoder is stated for any classifier that keeps its
      verdict on a payload line when the line's "\r" is dropped again (`Stable`); the page's
      own classifier is `Classify`. */
  type Classifier = string -> LineKind

  /** The page's classification of a line: the "\r" is dropped first, then comments and
      blank lines are skipped, lines without the `data: ` field are skipped, and the trimmed
      payload is either the terminator or a payload. */
  function Classify(line: string): LineKind {
    ClassifyField(StripCR(line))
  }

  function ClassifyField(l: string): LineKind {
    if StartsWith(l, ":") || Trim(l) == "" then Ignored
    else if !StartsWith(l, DataPrefix) then Ignored
    else PayloadKind(Trim(l[|DataPrefix|..]))
  }

  function PayloadKind(json: string): LineKind {
    if json == DoneSentinel then Terminator else Payload(json)
  }

  /** The line the decoder puts back for a payload that does not parse is classified as the
      original line was. */
  ghost predicate StableAt(classify: Classifier, line: string) {
    classify(line).Payload? ==> classify(StripCR(line)) == classify(line)
  }

  ghost predicate Stable(classify: Classifier) {
    forall line :: StableAt(classify, line)
  }

  /** The classifier reads back the frames the server writes: the blank line that ends a
      frame is skipped, and `data: <json>` gives the payload `json` (or the terminator). */
  ghost predicate FrameAt(classify: Classifier, json: string) {
    classify(DataPrefix + json) == PayloadKind(json)
  }

  ghost predicate ReadsFrames(classify: Classifier) {
    && classify("") == Ignored
    && forall json {:trigger FrameAt(classify, json)} :: Unpadded(json) ==> FrameAt(classify, json)
  }

  /** The text a parsed payload adds to the assistant's message: `if (content)
      assistantContent += content`, where an absent or empty content adds nothing. */
  function Delta(content: Option<string>): string {
    content.GetOr("")
  }

  /** Cuts the first complete line off the buffer: the text before the first "\n", and the
      text after it. A buffer without "\n" holds no complete line. `SplitLineJoin` and
      `SplitLineOf` state that the two parts and the "\n" make up the buffer. */
  function SplitLine(buffer: string): (r: Option<(string, string)>)
    ensures r.Some? ==> |r.value.1| < |buffer|
  {
    var i := IndexOf(buffer, '\n');
    if i == -1 then None else Some((buffer[..i], buffer[i + 1..]))
  }

  /** The buffer holds a complete line exactly when it holds a "\n". */
  lemma SplitLineNone(buffer: string)
    ensures SplitLine(buffer).None? <==> '\n' !in buffer
  {
    IndexOfSpec(buffer, '\n');
  }

  /** The decoder's variables: `textBuffer`, `assistantContent` and `streamDone`. */
  datatype Decoder = Decoder(buffer: string, content: string, done: bool)

  const Start: Decoder := Decoder("", "", false)

  /** The inner loop: cut and handle lines until the buffer holds no complete line, the
      terminator is seen, or a payload does not parse; such a payload's line goes back in
      front of the buffer without its "\r". The assistant's text only grows. */
  function Drain(buffer: string, content: string, classify: Classifier, parse: Parser): (r: Decoder)
    decreases |buffer|
  {
    match SplitLine(buffer)
    case None => Decoder(buffer, content, false)
    case Some((line, rest)) =>
      match classify(line)
      case Ignored => Drain(rest, content, classify, parse)
      case Terminator => Decoder(rest, content, true)
      case Payload(json) =>
        match parse(json)
        case Unparsable => Decoder(StripCR(line) + "\n" + rest, content, false)
        case Parsed(delta) => Drain(rest, content + Delta(delta), classify, parse)
  }

  /** The outer loop: while the terminator has not been seen, append the next chunk to the
      buffer and drain it. Nothing changes once the terminator has been seen. */
  function Feed(s: Decoder, chunks: seq<string>, classify: Classifier, parse: Parser): (r: Decoder)
    ensures s.done ==> r == s
    decreases |chunks|
  {
    if s.done || chunks == [] then s
    else Feed(Drain(s.buffer + chunks[0], s.content, classify, parse), chunks[1..], classify, parse)
  }

  /** The text of a sequence of chunks read one after the other. */
  function Concat(chunks: seq<string>): string {
    if chunks == [] then "" else chunks[0] + Concat(chunks[1..])
  }

  /** Two decoder states that agree on what the user sees: the text and whether the stream
      has ended. */
  predicate Same(a: Decoder, b: Decoder) {
    a.content == b.content && a.done == b.done
  }

  /** The buffer starts with a complete data line whose payload does not parse: the state the
      put-back leaves. */
  predicate Blocked(buffer: string, classify: Classifier, parse: Parser) {
    match SplitLine(buffer)
    case None => false
    case Some((line, _)) => classify(line).Payload? && parse(classify(line).json) == Unparsable
  }

  // ---------------------------------------------------------------------------------
  // Line framing

  /** The line cut off holds no "\n", and it, the "\n" and the rest make up the buffer. */
  lemma SplitLineJoin(buffer: string)
    requires SplitLine(buffer).Some?
    ensures var (line, rest) := SplitLine(buffer).value;
      line + "\n" + rest == buffer && '\n' !in line
  {
    var i := IndexOf(buffer, '\n');
    IndexOfSpec(buffer, '\n');
    assert buffer == buffer[..i] + [buffer[i]] + buffer[i + 1..];
  }

  /** The line cut off is exactly the text before the first "\n"; the buffer keeps all that
      follows it. */
  lemma SplitLineOf(line: string, rest: string)
    requires '\n' !in line
    ensures SplitLine(line + "\n" + rest) == Some((line, rest))
  {
    var b := line + "\n" + rest;
    assert b[..|line|] == line && b[|line|] == '\n';
    assert b[|line| + 1..] == rest;
    IndexOfSpec(b, '\n');
    assert IndexOf(b, '\n') == |line|;
  }

  /** Text appended behind a complete line stays behind it: the line cut off is the same,
      and the appended text ends up in the rest. */
  lemma SplitLineWithin(buffer: string, x: string)
    requires SplitLine(buffer).Some?
    ensures SplitLine(buffer + x) == Some((SplitLine(buffer).value.0, SplitLine(buffer).value.1 + x))
  {
    var (line, rest) := SplitLine(buffer).value;
    SplitLineJoin(buffer);
    assert buffer + x == line + "\n" + (rest + x);
    SplitLineOf(line, rest + x);
  }

  /** Text without a newline stays in the buffer, whatever else is in it. */
  lemma DrainWithoutNewline(buffer: string, content: string, classify: Classifier, parse: Parser)
    requires '\n' !in buffer
    ensures Drain(buffer, content, classify, parse) == Decoder(buffer, content, false)
  {
    SplitLineNone(buffer);
  }

  /** What handling a buffer's first complete line does, for each kind of line. */
  lemma DrainLine(buffer: string, line: string, rest: string, content: string, classify: Classifier, parse: Parser)
    requires SplitLine(buffer) == Some((line, rest))
    ensures classify(line) == Ignored ==>
      Drain(buffer, content, classify, parse) == Drain(rest, content, classify, parse)
    ensures classify(line) == Terminator ==>
      Drain(buffer, content, classify, parse) == Decoder(rest, content, true)
    ensures classify(line).Payload? && parse(classify(line).json) == Unparsable ==>
      Drain(buffer, content, classify, parse) == Decoder(StripCR(line) + "\n" + rest, content, false)
    ensures classify(line).Payload? && parse(classify(line).json).Parsed? ==>
      Drain(buffer, content, classify, parse)
        == Drain(rest, content + Delta(parse(classify(line).json).content), classify, parse)
  {
  }

  // ---------------------------------------------------------------------------------
  // The page's classification of one line

  /** A line with the `data: ` field is classified by its trimmed payload alone. */
  lemma DataField(l: string)
    requires StartsWith(l, DataPrefix)
    ensures ClassifyField(l) == PayloadKind(Trim(l[|DataPrefix|..]))
  {
    assert l[0] == 'd';
    assert l[..1] != ":";
    assert !AllWhitespace(l) by { assert !IsWhitespace(l[0]); }
    TrimSpec(l);
  }

  /** A comment line, with or without "\r", is skipped. */
  lemma ClassifyComment(text: string)
    ensures Classify(":" + text) == Ignored
  {
    var line := ":" + text;
    var l := StripCR(line);
    if EndsWith(line, "\r") {
      assert line[0] == ':' && line[|line| - 1] == '\r';
    }
    assert l[..1] == line[..1];
  }

  /** A blank line (whitespace only) is skipped. */
  lemma ClassifyBlank(line: string)
    requires AllWhitespace(line)
    ensures Classify(line) == Ignored
  {
    var l := StripCR(line);
    assert AllWhitespace(l) by {
      forall i | 0 <= i < |l| ensures IsWhitespace(l[i]) { assert l[i] == line[i]; }
    }
  }

  /** A line whose field is not `data: ` is skipped: `event:`, `id:`, `retry:` and the
      `data:` field without its space all contribute nothing. */
  lemma ClassifyOtherField(line: string)
    requires !StartsWith(line, DataPrefix)
    ensures Classify(line) == Ignored
  {
    var l := StripCR(line);
    assert !StartsWith(l, DataPrefix) by {
      if |DataPrefix| <= |l| { assert l[..|DataPrefix|] == line[..|DataPrefix|]; }
    }
  }

  /** The frame the server writes for a payload, `data: <json>`, optionally ended by "\r",
      is read back as that payload, and `data: [DONE]` as the terminator: the decoder's
      classification inverts the framing. */
  lemma ClassifyDataFrame(json: string)
    requires Unpadded(json)
    ensures Classify(DataPrefix + json) == PayloadKind(json)
    ensures Classify(DataPrefix + json + "\r") == PayloadKind(json)
  {
    var l := DataPrefix + json;
    DataFrameLine(json);
    assert StripCR(l + "\r") == l by {
      var lr := l + "\r";
      assert EndsWith(lr, "\r") && lr[..|lr| - 1] == l;
    }
  }

  /** The frame's line has the `data: ` field, the payload after it, and no "\r" at its end. */
  lemma DataFrameLine(json: string)
    requires Unpadded(json)
    ensures StripCR(DataPrefix + json) == DataPrefix + json
    ensures ClassifyField(DataPrefix + json) == PayloadKind(json)
  {
    var l := DataPrefix + json;
    assert !EndsWith(l, "\r") by {
      if json == [] {
        assert l[|l| - 1] == ' ';
      } else {
        assert l[|l| - 1] == json[|json| - 1];
      }
    }
    assert l[..|DataPrefix|] == DataPrefix && l[|DataPrefix|..] == json;
    TrimmedAlready(json);
    DataField(l);
  }

  /** A data line ending in "\r" is longer than the field name, and dropping the "\r" keeps
      the field and drops the "\r" from the payload text. */
  lemma DataLineWithCR(l: string)
    requires StartsWith(l, DataPrefix) && EndsWith(l, "\r")
    ensures |l| > |DataPrefix|
    ensures StartsWith(l[..|l| - 1], DataPrefix)
    ensures l[..|l| - 1][|DataPrefix|..] + "\r" == l[|DataPrefix|..]
  {
    assert l[|DataPrefix| - 1] == ' ' && l[|l| - 1] == '\r';
    var l2 := l[..|l| - 1];
    assert l2[..|DataPrefix|] == l[..|DataPrefix|];
    assert l[|l| - 1] == '\r';
  }

  /** A payload line: the field is `data: `. */
  lemma PayloadField(l: string)
    requires ClassifyField(l).Payload?
    ensures StartsWith(l, DataPrefix)
  {
  }

  /** Dropping the "\r" a second time does not change how a data line is classified, so the
      line the put-back re-inserts (without its "\r") blocks again the same way. */
  lemma ClassifyStable(line: string)
    requires Classify(line).Payload?
    ensures Classify(StripCR(line)) == Classify(line)
  {
    var l := StripCR(line);
    PayloadField(l);
    if EndsWith(l, "\r") {
      DataLineWithCR(l);
      var l2 := l[..|l| - 1];
      TrimIgnoresTrailingWhitespace(l2[|DataPrefix|..], '\r');
      DataField(l);
      DataField(l2);
    }
  }

  /** The page's classifier meets the decoder's one requirement on classifiers. */
  lemma ClassifyIsStable()
    ensures Stable(Classify)
  {
    forall line ensures StableAt(Classify, line) {
      if Classify(line).Payload? { ClassifyStable(line); }
    }
  }

  /** The page's classifier reads back the server's frames. */
  lemma ClassifyReadsFrames()
    ensures ReadsFrames(Classify)
  {
    ClassifyBlank("");
    forall json | Unpadded(json) ensures FrameAt(Classify, json) {
      ClassifyDataFrame(json);
    }
  }

  // ---------------------------------------------------------------------------------
  // Draining and feeding

  /** A drain that has not seen the terminator leaves a buffer that either holds no complete
      line or is blocked on a payload that does not parse. */
  lemma {:induction false} DrainSettles(buffer: string, content: string, classify: Classifier, parse: Parser)
    requires Stable(classify)
    ensures var r := Drain(buffer, content, classify, parse);
      !r.done ==> '\n' !in r.buffer || Blocked(r.buffer, classify, parse)
    decreases |buffer|
  {
    match SplitLine(buffer)
    case None => SplitLineNone(buffer);
    case Some((line, rest)) =>
      match classify(line)
      case Ignored => DrainSettles(rest, content, classify, parse);
      case Terminator =>
      case Payload(json) =>
        match parse(json)
        case Unparsable =>
          SplitLineJoin(buffer);
          assert StableAt(classify, line);
          SplitLineOf(StripCR(line), rest);
        case Parsed(delta) => DrainSettles(rest, content + Delta(delta), classify, parse);
  }

  /** A blocked buffer stays blocked on the same payload when more text arrives, and the
      text does not change. */
  lemma BlockedAppend(buffer: string, x: string, content: string, classify: Classifier, parse: Parser)
    requires Stable(classify) && Blocked(buffer, classify, parse)
    ensures Drain(buffer + x, content, classify, parse).content == content
    ensures !Drain(buffer + x, content, classify, parse).done
    ensures Blocked(Drain(buffer + x, content, classify, parse).buffer, classify, parse)
  {
    var (line, rest) := SplitLine(buffer).value;
    SplitLineJoin(buffer);
    assert buffer + x == line + "\n" + (rest + x);
    SplitLineOf(line, rest + x);
    DrainLine(buffer + x, line, rest + x, content, classify, parse);
    assert StableAt(classify, line);
    SplitLineOf(StripCR(line), rest + x);
  }

  /** Appending text to the buffer: if the terminator was seen, the appended text just stays
      in the buffer; otherwise the result agrees with draining first and then draining the
      leftover with the text appended. */
  predicate AppendAgrees(buffer: string, x: string, content: string, classify: Classifier, parse: Parser) {
    var r := Drain(buffer, content, classify, parse);
    if r.done then Drain(buffer + x, content, classify, parse) == Decoder(r.buffer + x, r.content, true)
    else Same(Drain(buffer + x, content, classify, parse), Drain(r.buffer + x, r.content, classify, parse))
  }

  /** Text appended to the buffer is handled as if it had been there from the start. This is
      why the reply's chunking does not matter: a line is only handled once its "\n" has
      arrived. */
  lemma {:induction false} DrainAppend(buffer: string, x: string, content: string, classify: Classifier, parse: Parser)
    requires Stable(classify)
    ensures AppendAgrees(buffer, x, content, classify, parse)
    decreases |buffer|, 1
  {
    if SplitLine(buffer).Some? {
      var (line, rest) := SplitLine(buffer).value;
      SplitLineJoin(buffer);
      AppendSplits(line, rest, x);
      match classify(line)
      case Ignored => AppendIgnored(buffer, line, rest, x, content, classify, parse);
      case Terminator =>
      case Payload(json) =>
        match parse(json)
        case Unparsable =>
          assert StableAt(classify, line);
          PutBackSplits(line, rest, x);
        case Parsed(delta) => AppendParsed(buffer, line, rest, x, content, classify, parse);
    }
  }

  /** Text appended after a complete line joins the rest. */
  lemma AppendSplits(line: string, rest: string, x: string)
    requires '\n' !in line
    ensures SplitLine(line + "\n" + rest + x) == Some((line, rest + x))
  {
    assert line + "\n" + rest + x == line + "\n" + (rest + x);
    SplitLineOf(line, rest + x);
  }

  /** The put-back line, with text appended after the buffer, is cut off again. */
  lemma PutBackSplits(line: string, rest: string, x: string)
    requires '\n' !in line
    ensures SplitLine(StripCR(line) + "\n" + rest + x) == Some((StripCR(line), rest + x))
  {
    AppendSplits(StripCR(line), rest, x);
  }

  lemma AppendIgnored(buffer: string, line: string, rest: string, x: string, content: string, classify: Classifier, parse: Parser)
    requires Stable(classify) && |rest| < |buffer|
    requires SplitLine(buffer) == Some((line, rest)) && SplitLine(buffer + x) == Some((line, rest + x))
    requires classify(line) == Ignored
    ensures AppendAgrees(buffer, x, content, classify, parse)
    decreases |buffer|, 0
  {
    DrainAppend(rest, x, content, classify, parse);
  }

  lemma AppendParsed(buffer: string, line: string, rest: string, x: string, content: string, classify: Classifier, parse: Parser)
    requires Stable(classify) && |rest| < |buffer|
    requires SplitLine(buffer) == Some((line, rest)) && SplitLine(buffer + x) == Some((line, rest + x))
    requires classify(line).Payload? && parse(classify(line).json).Parsed?
    ensures AppendAgrees(buffer, x, content, classify, parse)
    decreases |buffer|, 0
  {
    DrainAppend(rest, x, content + Delta(parse(classify(line).json).content), classify, parse);
  }

  /** The assistant's text only grows while lines are handled: deltas are appended. */
  lemma {:induction false} DrainGrows(buffer: string, content: string, classify: Classifier, parse: Parser)
    ensures content <= Drain(buffer, content, classify, parse).content
    decreases |buffer|
  {
    match SplitLine(buffer)
    case None =>
    case Some((line, rest)) =>
      match classify(line)
      case Ignored => DrainGrows(rest, content, classify, parse);
      case Terminator =>
      case Payload(json) =>
        match parse(json)
        case Unparsable =>
        case Parsed(delta) =>
          DrainGrows(rest, content + Delta(delta), classify, parse);
  }

  /** The assistant's text only grows from one read to the next. */
  lemma {:induction false} FeedGrows(s: Decoder, chunks: seq<string>, classify: Classifier, parse: Parser)
    ensures s.content <= Feed(s, chunks, classify, parse).content
    decreases |chunks|
  {
    if !s.done && chunks != [] {
      DrainGrows(s.buffer + chunks[0], s.content, classify, parse);
      FeedGrows(Drain(s.buffer + chunks[0], s.content, classify, parse), chunks[1..], classify, parse);
    }
  }

  /** Feeding one more chunk is one more round of the outer loop. */
  lemma {:induction false} FeedSnoc(s: Decoder, chunks: seq<string>, x: string, classify: Classifier, parse: Parser)
    ensures var p := Feed(s, chunks, classify, parse);
      Feed(s, chunks + [x], classify, parse)
        == if p.done then p else Drain(p.buffer + x, p.content, classify, parse)
    decreases |chunks|
  {
    if s.done {
    } else if chunks == [] {
      assert chunks + [x] == [x];
    } else {
      assert (chunks + [x])[1..] == chunks[1..] + [x];
      FeedSnoc(Drain(s.buffer + chunks[0], s.content, classify, parse), chunks[1..], x, classify, parse);
    }
  }

  /** Feeding a sequence of chunks in two parts is feeding the first part, then the second
      from where the first left off. */
  lemma {:induction false} FeedSplit(s: Decoder, chunks: seq<string>, more: seq<string>, classify: Classifier, parse: Parser)
    ensures Feed(s, chunks + more, classify, parse) == Feed(Feed(s, chunks, classify, parse), more, classify, parse)
    decreases |chunks|
  {
    if s.done {
    } else if chunks == [] {
      assert chunks + more == more;
    } else {
      assert (chunks + more)[1..] == chunks[1..] + more;
      FeedSplit(Drain(s.buffer + chunks[0], s.content, classify, parse), chunks[1..], more, classify, parse);
    }
  }

  /** Once the terminator has been seen, further chunks are never read. */
  lemma FeedAfterDone(s: Decoder, chunks: seq<string>, more: seq<string>, classify: Classifier, parse: Parser)
    requires Feed(s, chunks, classify, parse).done
    ensures Feed(s, chunks + more, classify, parse) == Feed(s, chunks, classify, parse)
  {
    FeedSplit(s, chunks, more, classify, parse);
  }

  /** A reply cut short keeps what was decoded so far: the text after a prefix of the chunks
      is a prefix of the text after all of them. */
  lemma TruncationKeepsText(chunks: seq<string>, more: seq<string>, classify: Classifier, parse: Parser)
    ensures Feed(Start, chunks, classify, parse).content <= Feed(Start, chunks + more, classify, parse).content
  {
    FeedSplit(Start, chunks, more, classify, parse);
    FeedGrows(Feed(Start, chunks, classify, parse), more, classify, parse);
  }

  /** Feeding chunks one at a time agrees with draining all their text at once, starting from
      any state whose buffer is settled. */
  lemma {:induction false} FeedAgreesWithDrain(b: string, c: string, chunks: seq<string>, classify: Classifier, parse: Parser)
    requires Stable(classify)
    requires Same(Drain(b, c, classify, parse), Decoder(b, c, false))
    ensures Same(Feed(Decoder(b, c, false), chunks, classify, parse), Drain(b + Concat(chunks), c, classify, parse))
    decreases |chunks|
  {
    if chunks == [] {
      assert b + Concat(chunks) == b;
    } else {
      var rest := Concat(chunks[1..]);
      assert b + Concat(chunks) == (b + chunks[0]) + rest;
      DrainAppend(b + chunks[0], rest, c, classify, parse);
      var r := Drain(b + chunks[0], c, classify, parse);
      if !r.done {
        DrainAppend(b + chunks[0], "", c, classify, parse);
        assert b + chunks[0] + "" == b + chunks[0] && r.buffer + "" == r.buffer;
        assert r == Decoder(r.buffer, r.content, false);
        FeedAgreesWithDrain(r.buffer, r.content, chunks[1..], classify, parse);
      }
    }
  }

  /** The page's decoder does not depend on how the reply is cut into chunks: the text and
      the end-of-stream flag are those of the whole reply read at once. This holds even when
      some payload never parses, because the put-back then blocks at the same line. */
  lemma ChunkingIrrelevant(chunks: seq<string>, parse: Parser)
    ensures Same(Feed(Start, chunks, Classify, parse), Drain(Concat(chunks), "", Classify, parse))
  {
    ClassifyIsStable();
    assert "" + Concat(chunks) == Concat(chunks);
    FeedAgreesWithDrain("", "", chunks, Classify, parse);
  }

  /** Two ways of cutting the same reply into chunks give the same assistant text. */
  lemma SameTextSameResult(chunks1: seq<string>, chunks2: seq<string>, parse: Parser)
    requires Concat(chunks1) == Concat(chunks2)
    ensures Feed(Start, chunks1, Classify, parse).content == Feed(Start, chunks2, Classify, parse).content
    ensures Feed(Start, chunks1, Classify, parse).done == Feed(Start, chunks2, Classify, parse).done
  {
    ChunkingIrrelevant(chunks1, parse);
    ChunkingIrrelevant(chunks2, parse);
  }

  /** A line the page skips, inserted at any line boundary of the buffer, changes neither
      the assistant's text nor whether the stream ends: the lines before it are handled
      alike, and once the inner loop reaches it, it is dropped. */
  lemma {:induction false} IgnoredLineAnywhere(pre: string, t: string, post: string, content: string, parse: Parser)
    requires pre == [] || pre[|pre| - 1] == '\n'
    requires '\n' !in t && Classify(t) == Ignored
    ensures Same(Drain(pre + (t + "\n" + post), content, Classify, parse), Drain(pre + post, content, Classify, parse))
    decreases |pre|
  {
    var inserted := t + "\n" + post;
    if pre == [] {
      assert pre + inserted == inserted && pre + post == post;
      SplitLineOf(t, post);
      DrainLine(inserted, t, post, content, Classify, parse);
    } else {
      SplitLineNone(pre);
      var (line, pre') := SplitLine(pre).value;
      SplitLineJoin(pre);
      assert pre' == [] || pre'[|pre'| - 1] == '\n' by {
        if pre' != [] { assert pre'[|pre'| - 1] == pre[|pre| - 1]; }
      }
      SplitLineWithin(pre, inserted);
      SplitLineWithin(pre, post);
      DrainLine(pre + inserted, line, pre' + inserted, content, Classify, parse);
      DrainLine(pre + post, line, pre' + post, content, Classify, parse);
      match Classify(line)
      case Ignored =>
        IgnoredLineAnywhere(pre', t, post, content, parse);
      case Terminator =>
      case Payload(json) =>
        match parse(json)
        case Unparsable =>
        case Parsed(delta) =>
          IgnoredLineAnywhere(pre', t, post, content + Delta(delta), parse);
    }
  }

  /** Comment lines (starting with ":") and blank lines are the lines the page skips. */
  lemma SkippedLine(t: string)
    requires StartsWith(t, ":") || AllWhitespace(t)
    ensures Classify(t) == Ignored
  {
    if StartsWith(t, ":") {
      assert t == ":" + t[1..];
      ClassifyComment(t[1..]);
    } else {
      ClassifyBlank(t);
    }
  }

  /** Comment lines and blank lines anywhere in the reply do not affect the assistant's text
      or the end of the stream, however either reply is cut into chunks. */
  lemma SkippedLinesInvisible(chunks1: seq<string>, chunks2: seq<string>, pre: string, t: string, post: string, parse: Parser)
    requires pre == [] || pre[|pre| - 1] == '\n'
    requires '\n' !in t && (StartsWith(t, ":") || AllWhitespace(t))
    requires Concat(chunks1) == pre + (t + "\n" + post) && Concat(chunks2) == pre + post
    ensures Same(Feed(Start, chunks1, Classify, parse), Feed(Start, chunks2, Classify, parse))
  {
    SkippedLine(t);
    IgnoredLineAnywhere(pre, t, post, "", parse);
    ChunkingIrrelevant(chunks1, parse);
    ChunkingIrrelevant(chunks2, parse);
  }

  /** A complete line that never parses is put back for ever: whatever arrives afterwards,
      the text stays as it is and the stream never ends by its terminator. */
  lemma {:induction false} BlockedForever(s: Decoder, chunks: seq<string>, parse: Parser)
    requires !s.done && Blocked(s.buffer, Classify, parse)
    ensures Feed(s, chunks, Classify, parse).content == s.content
    ensures !Feed(s, chunks, Classify, parse).done
    decreases |chunks|
  {
    if chunks != [] {
      ClassifyIsStable();
      BlockedAppend(s.buffer, chunks[0], s.content, Classify, parse);
      BlockedForever(Drain(s.buffer + chunks[0], s.content, Classify, parse), chunks[1..], parse);
    }
  }

  // ---------------------------------------------------------------------------------
  // Well-formed replies

  /** The frame the server writes for one payload: the `data: ` line and a blank line. */
  function Frame(payload: string): string {
    DataPrefix + payload + "\n\n"
  }

  /** The event-stream text the server writes for a list of payloads. */
  function Frames(payloads: seq<string>): string {
    if payloads == [] then "" else Frame(payloads[0]) + Frames(payloads[1..])
  }

  const DoneFrame: string := Frame(DoneSentinel)

  /** The same text cut into one chunk per frame. */
  function FrameChunks(payloads: seq<string>): (r: seq<string>)
    ensures |r| == |payloads|
  {
    if payloads == [] then [] else [Frame(payloads[0])] + FrameChunks(payloads[1..])
  }

  /** The assistant text a list of payloads carries. */
  function Deltas(payloads: seq<string>, parse: Parser): string {
    if payloads == [] then ""
    else
      var d := match parse(payloads[0]) case Parsed(c) => Delta(c) case Unparsable => "";
      d + Deltas(payloads[1..], parse)
  }

  /** A payload the server could have sent: one JSON text on one line, not the terminator,
      and accepted by the parser. */
  predicate WellFormed(json: string, parse: Parser) {
    '\n' !in json && Unpadded(json) && json != DoneSentinel && parse(json).Parsed?
  }

  /** Every payload of the list is well-formed. */
  predicate AllWellFormed(payloads: seq<string>, parse: Parser) {
    payloads == [] || (WellFormed(payloads[0], parse) && AllWellFormed(payloads[1..], parse))
  }

  /** A frame's line is cut off first, then the blank line that ends it. */
  lemma FrameSplits(p: string)
    requires '\n' !in p
    ensures SplitLine(Frame(p)) == Some((DataPrefix + p, "\n"))
    ensures SplitLine("\n") == Some(("", ""))
  {
    var line := DataPrefix + p;
    assert Frame(p) == line + "\n" + "\n";
    assert '\n' !in line by {
      forall i | 0 <= i < |line| ensures line[i] != '\n' {
        if i >= |DataPrefix| { assert line[i] == p[i - |DataPrefix|]; }
      }
    }
    SplitLineOf(line, "\n");
    assert "" + "\n" + "" == "\n";
    SplitLineOf("", "");
  }

  /** Draining the frame of a well-formed payload adds the payload's delta and leaves the
      buffer empty. */
  lemma DrainFrame(p: string, content: string, classify: Classifier, parse: Parser)
    requires ReadsFrames(classify) && WellFormed(p, parse)
    ensures Drain(Frame(p), content, classify, parse)
      == Decoder("", content + Delta(parse(p).content), false)
  {
    FrameSplits(p);
    assert FrameAt(classify, p);
    SplitLineNone("");
  }

  /** The terminator's frame ends the stream and leaves its blank line in the buffer. */
  lemma DrainDoneFrame(content: string, classify: Classifier, parse: Parser)
    requires ReadsFrames(classify)
    ensures Drain(DoneFrame, content, classify, parse) == Decoder("\n", content, true)
  {
    FrameSplits(DoneSentinel);
    assert FrameAt(classify, DoneSentinel);
  }

  /** Reading the frame of a well-formed payload as one chunk adds the payload's delta. */
  lemma FeedFrame(p: string, more: seq<string>, content: string, classify: Classifier, parse: Parser)
    requires ReadsFrames(classify) && WellFormed(p, parse)
    ensures Feed(Decoder("", content, false), [Frame(p)] + more, classify, parse)
      == Feed(Decoder("", content + Delta(parse(p).content), false), more, classify, parse)
  {
    assert ([Frame(p)] + more)[0] == Frame(p) && ([Frame(p)] + more)[1..] == more;
    assert "" + Frame(p) == Frame(p);
    DrainFrame(p, content, classify, parse);
  }

  /** Reading the terminator's frame as the last chunk ends the stream. */
  lemma FeedDoneFrame(content: string, classify: Classifier, parse: Parser)
    requires ReadsFrames(classify)
    ensures Feed(Decoder("", content, false), [DoneFrame], classify, parse) == Decoder("\n", content, true)
  {
    assert [DoneFrame][1..] == [];
    assert "" + DoneFrame == DoneFrame;
    DrainDoneFrame(content, classify, parse);
  }

  /** Reading a well-formed reply one frame per chunk: each frame adds its delta, and the
      terminator's frame ends the stream. */
  lemma {:induction false} FeedFrames(payloads: seq<string>, content: string, classify: Classifier, parse: Parser)
    requires ReadsFrames(classify) && AllWellFormed(payloads, parse)
    ensures Feed(Decoder("", content, false), FrameChunks(payloads) + [DoneFrame], classify, parse)
      == Decoder("\n", content + Deltas(payloads, parse), true)
    decreases |payloads|
  {
    if payloads == [] {
      assert FrameChunks(payloads) + [DoneFrame] == [DoneFrame];
      FeedDoneFrame(content, classify, parse);
      assert content + Deltas(payloads, parse) == content;
    } else {
      var p := payloads[0];
      var d := Delta(parse(p).content);
      var more := FrameChunks(payloads[1..]) + [DoneFrame];
      assert FrameChunks(payloads) + [DoneFrame] == [Frame(p)] + more;
      FeedFrame(p, more, content, classify, parse);
      FeedFrames(payloads[1..], content + d, classify, parse);
      assert (content + d) + Deltas(payloads[1..], parse) == content + Deltas(payloads, parse);
    }
  }

  /** Cutting the reply one chunk per frame gives back its text. */
  lemma {:induction false} ConcatFrameChunks(payloads: seq<string>)
    ensures Concat(FrameChunks(payloads) + [DoneFrame]) == Frames(payloads) + DoneFrame
    decreases |payloads|
  {
    var chunks := FrameChunks(payloads) + [DoneFrame];
    if payloads == [] {
      assert chunks == [DoneFrame] && chunks[1..] == [];
      assert DoneFrame + "" == DoneFrame && "" + DoneFrame == DoneFrame;
    } else {
      assert chunks[0] == Frame(payloads[0]) && chunks[1..] == FrameChunks(payloads[1..]) + [DoneFrame];
      ConcatFrameChunks(payloads[1..]);
      assert Frame(payloads[0]) + (Frames(payloads[1..]) + DoneFrame) == Frames(payloads) + DoneFrame;
    }
  }

  /** However a well-formed reply (frames, then `data: [DONE]`) is cut into chunks, the
      decoder ends the stream with exactly the concatenation of the payloads' deltas. */
  lemma WellFormedReply(payloads: seq<string>, chunks: seq<string>, classify: Classifier, parse: Parser)
    requires Stable(classify) && ReadsFrames(classify)
    requires AllWellFormed(payloads, parse)
    requires Concat(chunks) == Frames(payloads) + DoneFrame
    ensures Feed(Start, chunks, classify, parse).content == Deltas(payloads, parse)
    ensures Feed(Start, chunks, classify, parse).done
  {
    var byFrame := FrameChunks(payloads) + [DoneFrame];
    ConcatFrameChunks(payloads);
    FeedFrames(payloads, "", classify, parse);
    assert "" + Deltas(payloads, parse) == Deltas(payloads, parse);
    assert "" + Concat(chunks) == Concat(chunks);
    FeedAgreesWithDrain("", "", chunks, classify, parse);
    FeedAgreesWithDrain("", "", byFrame, classify, parse);
  }

  /** The text of two frames and the terminator's frame. */
  lemma TwoFrames(a: string, b: string)
    ensures Frames([a, b]) + DoneFrame == DataPrefix + a + "\n\n" + DataPrefix + b + "\n\n" + DoneFrame
  {
    assert [a, b][1..] == [b] && [b][1..] == [];
    var fa := Frame(a);
    var fb := Frame(b);
    assert Frames([b]) == fb + "" == fb;
    assert Frames([a, b]) == fa + fb;
    assert (fa + fb) + DoneFrame == fa + fb + DoneFrame;
  }

  /** Two frames whose payloads carry "Hel" and "lo", then the terminator, give "Hello" on
      the page, however the reply is cut into chunks. */
  lemma HelloExample(j1: string, j2: string, chunks: seq<string>, parse: Parser)
    requires WellFormed(j1, parse) && parse(j1) == Parsed(Some("Hel"))
    requires WellFormed(j2, parse) && parse(j2) == Parsed(Some("lo"))
    requires Concat(chunks) == DataPrefix + j1 + "\n\n" + DataPrefix + j2 + "\n\n" + DoneFrame
    ensures Feed(Start, chunks, Classify, parse).content == "Hello"
    ensures Feed(Start, chunks, Classify, parse).done
  {
    var ps := [j1, j2];
    assert [j1, j2][1..] == [j2] && [j2][1..] == [];
    assert Deltas([j2], parse) == "lo" + Deltas([], parse) == "lo";
    assert Deltas(ps, parse) == "Hel" + Deltas([j2], parse);
    assert "Hel" + "lo" == "Hello";
    assert AllWellFormed(ps, parse);
    TwoFrames(j1, j2);
    ClassifyIsStable();
    ClassifyReadsFrames();
    WellFormedReply(ps, chunks, Classify, parse);
  }
}
