/** The AI assistant chat: the send guard, the user message, and the decoder
    that reads the reply as a stream of server-sent events (the `data:`
    lines of section 9.2 of the WHATWG HTML Living Standard), accumulating
    the deltas into one trailing assistant message. `JSON.parse` and the
    `choices[0].delta.content` lookup are an oracle `parse`; the network
    reply is a `Response` value whose body is the sequence of decoded
    chunks. */
module Chat {
  import opened Common

  datatype Role = User | Assistant

  datatype Message = Message(role: Role, content: string)

  /** What the oracle makes of a payload: a parse failure, or the delta's
      `content` (None when missing). */
  datatype Delta = Malformed | Parsed(content: Option<string>)

  /** What one complete line does. */
  datatype LineAction = Skip | Done | PutBack(line: string) | Append(text: string)

  /** Why a pass over the buffer ended: no complete line left, `[DONE]`, or a
      payload that did not parse. */
  datatype Stop = Exhausted | AtDone | AtMalformed

  /** The decoder's state after a pass: the buffer, the assistant text so
      far, and the messages. */
  datatype Pass = Pass(buffer: string, content: string, msgs: seq<Message>, stop: Stop)

  /** The reply: a failed status, a body without a reader, or the chunks the
      reader delivered, `broken` when reading then threw. */
  datatype Response = NotOk(status: int) | NoBody | Body(chunks: seq<string>, broken: bool)

  /** `if (line.endsWith('\r')) line = line.slice(0, -1)`. */
  function StripCR(line: string): string {
    if EndsWith(line, "\r") then line[..|line| - 1] else line
  }

  /** The body of the inner loop for one complete line (without its `\n`). */
  function Classify(line: string, parse: string -> Delta): LineAction {
    Act(StripCR(line), parse)
  }

  /** What a line does once its `\r` is stripped: comments, blank lines and
      other fields are skipped, `[DONE]` ends the pass, a payload that does
      not parse puts the line back, and a non-empty content is appended. */
  function Act(l: string, parse: string -> Delta): LineAction {
    if StartsWith(l, ":") || Trim(l) == "" then Skip
    else if !StartsWith(l, "data: ") then Skip
    else
      var json := Trim(l[6..]);
      if json == "[DONE]" then Done
      else match parse(json)
        case Malformed => PutBack(l)
        case Parsed(c) => if Truthy(c) then Append(c.value) else Skip
  }

  /** The decoder's rules as a classifier of lines. */
  function Classifier(parse: string -> Delta): string -> LineAction {
    (line: string) => Classify(line, parse)
  }

  /** A classifier whose appends are never empty, as `if (content)` ensures. */
  ghost predicate AppendsNonEmpty(cls: string -> LineAction) {
    forall l :: cls(l).Append? ==> cls(l).text != ""
  }

  lemma ClassifierAppendsNonEmpty(parse: string -> Delta)
    ensures AppendsNonEmpty(Classifier(parse))
  {
  }

  /** The `setMessages` updater of a delta: the last message, when it is the
      assistant's, gets the running text; otherwise an assistant message with
      it is appended. */
  function Upsert(msgs: seq<Message>, text: string): seq<Message> {
    if |msgs| > 0 && msgs[|msgs| - 1].role == Assistant
    then msgs[..|msgs| - 1] + [msgs[|msgs| - 1].(content := text)]
    else msgs + [Message(Assistant, text)]
  }

  /** One pass of the inner `while` over the buffer, for a classifier of
      lines `cls`; the decoder's is `Classifier(parse)`. */
  function Drain(buffer: string, content: string, msgs: seq<Message>, cls: string -> LineAction): Pass
    decreases |buffer|
  {
    var k := IndexOf(buffer, '\n');
    if k < 0 then Pass(buffer, content, msgs, Exhausted)
    else
      var rest := buffer[k + 1..];
      match cls(buffer[..k])
      case Skip => Drain(rest, content, msgs, cls)
      case Done => Pass(rest, content, msgs, AtDone)
      case PutBack(l) => Pass(l + "\n" + rest, content, msgs, AtMalformed)
      case Append(t) => Drain(rest, content + t, Upsert(msgs, content + t), cls)
  }

  /** The outer `while`: each chunk is appended to the buffer, which is then
      drained. */
  function Stream(chunks: seq<string>, msgs: seq<Message>, cls: string -> LineAction): Pass {
    if |chunks| == 0 then Pass("", "", msgs, Exhausted)
    else
      var p := Stream(chunks[..|chunks| - 1], msgs, cls);
      Drain(p.buffer + chunks[|chunks| - 1], p.content, p.msgs, cls)
  }

  /** The messages once `sendMessage` has finished, starting from the
      messages with the user's message already appended. */
  function Reply(msgs: seq<Message>, response: Response, parse: string -> Delta, errorText: string): seq<Message> {
    match response
    case NotOk(_) => msgs + [Message(Assistant, errorText)]
    case NoBody => msgs + [Message(Assistant, errorText)]
    case Body(chunks, broken) =>
      var s := Stream(chunks, msgs, Classifier(parse)).msgs;
      if broken then s + [Message(Assistant, errorText)] else s
  }

  // -------------------------------------------------------------------
  // The decoder as the component runs it

  /** The body of the inner loop for one complete line: the `\r` is
      stripped, then the line is skipped, ends the pass, is put back, or
      appends its content. */
  method ReadLine(line0: string, parse: string -> Delta) returns (action: LineAction)
    ensures action == Classify(line0, parse)
  {
    var line := line0;
    if EndsWith(line, "\r") {
      line := line[..|line| - 1];
    }
    if StartsWith(line, ":") || Trim(line) == "" {
      return Skip;
    }
    if !StartsWith(line, "data: ") {
      return Skip;
    }
    var jsonStr := Trim(line[6..]);
    if jsonStr == "[DONE]" {
      return Done;
    }
    match parse(jsonStr)
    case Malformed =>
      action := PutBack(line);
    case Parsed(c) =>
      action := if Truthy(c) then Append(c.value) else Skip;
  }

  /** The inner loop: complete lines are taken off the front of the buffer
      one at a time until none is left, `[DONE]` is met, or a payload fails
      to parse and its line is put back. */
  method DrainBuffer(buffer0: string, content0: string, msgs0: seq<Message>, parse: string -> Delta)
    returns (p: Pass)
    ensures p == Drain(buffer0, content0, msgs0, Classifier(parse))
  {
    ghost var cls := Classifier(parse);
    var buffer, content, msgs := buffer0, content0, msgs0;
    while IndexOf(buffer, '\n') != -1
      invariant Drain(buffer, content, msgs, cls) == Drain(buffer0, content0, msgs0, cls)
      decreases |buffer|
    {
      DrainStep(buffer, content, msgs, cls);
      var newlineIndex := IndexOf(buffer, '\n');
      var action := ReadLine(buffer[..newlineIndex], parse);
      assert action == cls(buffer[..newlineIndex]);
      buffer := buffer[newlineIndex + 1..];
      match action {
        case Skip =>
        case Done =>
          return Pass(buffer, content, msgs, AtDone);
        case PutBack(line) =>
          buffer := line + "\n" + buffer;
          return Pass(buffer, content, msgs, AtMalformed);
        case Append(text) =>
          content := content + text;
          msgs := Upsert(msgs, content);
      }
    }
    DrainEnd(buffer, content, msgs, cls);
    p := Pass(buffer, content, msgs, Exhausted);
  }

  class ChatSession {
    var messages: seq<Message>
    var input: string
    var isLoading: bool

    constructor ()
      ensures messages == [] && input == "" && !isLoading
    {
      messages := [];
      input := "";
      isLoading := false;
    }

    /** Typing in the input box. */
    method Type(text: string)
      modifies this
      ensures input == text && messages == old(messages) && isLoading == old(isLoading)
    {
      input := text;
    }

    /** `sendMessage`. Nothing happens for a blank input, while a request is
        loading, or offline. Otherwise the trimmed input is appended as the
        user's message and cleared, the reply is decoded into the messages,
        any failure appends one error message, and loading ends false. */
    method SendMessage(isOnline: bool, response: Response, parse: string -> Delta, errorText: string)
      modifies this
      ensures Trim(old(input)) == "" || old(isLoading) || !isOnline ==>
        messages == old(messages) && input == old(input) && isLoading == old(isLoading)
      ensures !(Trim(old(input)) == "" || old(isLoading) || !isOnline) ==>
        && messages == Reply(old(messages) + [Message(User, Trim(old(input)))], response, parse, errorText)
        && input == "" && !isLoading
    {
      if Trim(input) == "" || isLoading || !isOnline {
        return;
      }
      var userMessage := Message(User, Trim(input));
      messages := messages + [userMessage];
      input := "";
      isLoading := true;
      match response {
      case NotOk(_) =>
        messages := messages + [Message(Assistant, errorText)];
      case NoBody =>
        messages := messages + [Message(Assistant, errorText)];
      case Body(chunks, broken) =>
        ghost var start := messages;
        var buffer := "";
        var assistantContent := "";
        for i := 0 to |chunks|
          invariant Stream(chunks[..i], start, Classifier(parse)).buffer == buffer
          invariant Stream(chunks[..i], start, Classifier(parse)).content == assistantContent
          invariant Stream(chunks[..i], start, Classifier(parse)).msgs == messages
          invariant input == "" && isLoading
        {
          assert chunks[..i + 1][..i] == chunks[..i];
          var p := DrainBuffer(buffer + chunks[i], assistantContent, messages, parse);
          buffer, assistantContent, messages := p.buffer, p.content, p.msgs;
        }
        assert chunks[..|chunks|] == chunks;
        if broken {
          messages := messages + [Message(Assistant, errorText)];
        }
      }
      isLoading := false;
    }
  }

  // -------------------------------------------------------------------
  // Lines

  /** A comment line, one starting with `:`, is skipped. */
  lemma CommentSkipped(text: string, parse: string -> Delta)
    ensures Classify(":" + text, parse) == Skip
  {
    var line := ":" + text;
    var l := StripCR(line);
    assert line[0] == ':';
    if EndsWith(line, "\r") {
      assert line[|line| - 1] == '\r';
      assert l == line[..|line| - 1] && |l| > 0 && l[0] == line[0];
    }
    assert StartsWith(l, ":");
  }

  /** A line of blanks is skipped. */
  lemma BlankSkipped(line: string, parse: string -> Delta)
    requires forall i :: 0 <= i < |line| ==> IsSpace(line[i])
    ensures Classify(line, parse) == Skip
  {
    var l := StripCR(line);
    assert forall i :: 0 <= i < |l| ==> l[i] == line[i];
    TrimEmptyIffBlank(l);
  }

  /** A line `data: ` + payload is a data line whose payload is `payload`. */
  lemma DataPrefix(payload: string)
    ensures var l := "data: " + payload;
      && StartsWith(l, "data: ") && l[6..] == payload
      && !StartsWith(l, ":") && Trim(l) != ""
  {
    var l := "data: " + payload;
    assert l[..6] == "data: " && l[0] == 'd';
    TrimNonBlank(l);
  }

  /** A data line whose payload trims to `[DONE]` ends the pass, with or
      without the `\r` of a CRLF line ending. */
  lemma DoneLine(payload: string, parse: string -> Delta)
    requires Trim(payload) == "[DONE]" && !EndsWith(payload, "\r")
    ensures Classify("data: " + payload, parse) == Done
    ensures Classify("data: " + payload + "\r", parse) == Done
  {
    var l := "data: " + payload;
    assert |payload| > 0;
    assert l[|l| - 1] == payload[|payload| - 1];
    assert !EndsWith(l, "\r");
    assert (l + "\r")[..|l|] == l;
    assert StripCR(l + "\r") == l;
    DataPrefix(payload);
  }

  /** A `data:` field without a space after the colon is not read: this
      client skips it, where section 9.2 of the WHATWG HTML Living Standard
      would take the rest of the line as the data. */
  lemma NoSpaceSkipped(payload: string, parse: string -> Delta)
    requires payload == "" || payload[0] != ' '
    ensures Classify("data:" + payload, parse) == Skip
  {
    var line := "data:" + payload;
    var l := StripCR(line);
    assert line[4] == ':';
    if EndsWith(line, "\r") {
      assert line[|line| - 1] == '\r';
    }
    assert |l| >= 5 && l == line[..|l|];
    if |l| >= 6 {
      assert l[5] == line[5] == payload[0];
    }
    assert !StartsWith(l, "data: ");
  }

  /** A data line whose payload parses to a non-empty content appends that
      content, whatever the spacing around the payload. */
  lemma DataLine(payload: string, parse: string -> Delta)
    requires Trimmed(payload) && payload != "" && payload != "[DONE]"
    requires parse(payload).Parsed? && Truthy(parse(payload).content)
    ensures Classify("data: " + payload, parse) == Append(parse(payload).content.value)
  {
    var l := "data: " + payload;
    assert l[|l| - 1] == payload[|payload| - 1];
    assert StripCR(l) == l;
    DataPrefix(payload);
    TrimOfTrimmed(payload);
  }


  // -------------------------------------------------------------------
  // Passes over the buffer

  /** One step of a pass: the first complete line is taken off and acted on. */
  lemma DrainStep(buffer: string, content: string, msgs: seq<Message>, cls: string -> LineAction)
    requires IndexOf(buffer, '\n') >= 0
    ensures var k := IndexOf(buffer, '\n');
      var rest := buffer[k + 1..];
      var a := cls(buffer[..k]);
      && (a.Skip? ==> Drain(buffer, content, msgs, cls) == Drain(rest, content, msgs, cls))
      && (a.Done? ==> Drain(buffer, content, msgs, cls) == Pass(rest, content, msgs, AtDone))
      && (a.PutBack? ==> Drain(buffer, content, msgs, cls) == Pass(a.line + "\n" + rest, content, msgs, AtMalformed))
      && (a.Append? ==>
            Drain(buffer, content, msgs, cls) == Drain(rest, content + a.text, Upsert(msgs, content + a.text), cls))
  {
  }

  /** A pass over a buffer without a line break changes nothing. */
  lemma DrainEnd(buffer: string, content: string, msgs: seq<Message>, cls: string -> LineAction)
    requires IndexOf(buffer, '\n') < 0
    ensures Drain(buffer, content, msgs, cls) == Pass(buffer, content, msgs, Exhausted)
  {
  }

  /** The first line of `line + "\n" + rest` is `line`. */
  lemma FirstLine(line: string, rest: string)
    requires '\n' !in line
    ensures IndexOf(line + "\n" + rest, '\n') == |line|
    ensures (line + "\n" + rest)[..|line|] == line && (line + "\n" + rest)[|line| + 1..] == rest
  {
    assert line + "\n" + rest == line + ['\n'] + rest;
    IndexOfAfter(line, '\n', rest);
  }

  /** `[DONE]` ends the pass and leaves the lines after it in the buffer. */
  lemma DoneStops(line: string, rest: string, content: string, msgs: seq<Message>, parse: string -> Delta)
    requires '\n' !in line && Classify(line, parse) == Done
    ensures Drain(line + "\n" + rest, content, msgs, Classifier(parse)) == Pass(rest, content, msgs, AtDone)
  {
    FirstLine(line, rest);
    DrainStep(line + "\n" + rest, content, msgs, Classifier(parse));
  }

  /** A payload that does not parse ends the pass with its line, `\r`
      stripped, put back in front of the rest of the buffer. */
  lemma MalformedPutBack(line: string, rest: string, content: string, msgs: seq<Message>, parse: string -> Delta)
    requires '\n' !in line && Classify(line, parse).PutBack?
    ensures Classify(line, parse) == PutBack(StripCR(line))
    ensures Drain(line + "\n" + rest, content, msgs, Classifier(parse)) ==
      Pass(StripCR(line) + "\n" + rest, content, msgs, AtMalformed)
  {
    FirstLine(line, rest);
    DrainStep(line + "\n" + rest, content, msgs, Classifier(parse));
  }

  /** Once a line is put back it is the first line of every later pass, so
      every later pass stops at it again: the text after it is never read,
      whatever chunks arrive. */
  lemma Regroup(line: string, rest: string, more: string)
    ensures line + "\n" + rest + more == line + "\n" + (rest + more)
  {
  }

  lemma MalformedLineStalls(line: string, rest: string, content: string, msgs: seq<Message>,
                            parse: string -> Delta, more: string)
    requires '\n' !in line && Classify(line, parse).PutBack? && !EndsWith(StripCR(line), "\r")
    ensures var b := Drain(line + "\n" + rest, content, msgs, Classifier(parse)).buffer;
      Drain(b + more, content, msgs, Classifier(parse)) == Pass(b + more, content, msgs, AtMalformed)
  {
    MalformedPutBack(line, rest, content, msgs, parse);
    var l := StripCR(line);
    assert StripCR(l) == l;
    assert '\n' !in l;
    Regroup(l, rest, more);
    MalformedPutBack(l, rest + more, content, msgs, parse);
  }

  /** The running text only grows. */
  lemma {:induction false} DrainExtends(buffer: string, content: string, msgs: seq<Message>, cls: string -> LineAction)
    ensures StartsWith(Drain(buffer, content, msgs, cls).content, content)
    decreases |buffer|
  {
    var k := IndexOf(buffer, '\n');
    if k < 0 {
      DrainEnd(buffer, content, msgs, cls);
    } else {
      DrainStep(buffer, content, msgs, cls);
      var rest := buffer[k + 1..];
      var a := cls(buffer[..k]);
      if a.Skip? {
        DrainExtends(rest, content, msgs, cls);
      } else if a.Append? {
        DrainExtends(rest, content + a.text, Upsert(msgs, content + a.text), cls);
        var r := Drain(rest, content + a.text, Upsert(msgs, content + a.text), cls).content;
        assert r[..|content|] == (content + a.text)[..|content|];
      }
    }
  }

  /** `tail` is the text of `buffer` after its last line break (all of it
      when there is none). */
  predicate LastLine(buffer: string, tail: string) {
    var n := |buffer| - |tail|;
    && 0 <= n && tail == buffer[n..] && '\n' !in tail
    && (n > 0 ==> buffer[n - 1] == '\n')
  }

  /** The last line of what follows a line break is the last line of it all. */
  lemma LastLineAfter(buffer: string, k: nat, tail: string)
    requires k < |buffer| && buffer[k] == '\n' && LastLine(buffer[k + 1..], tail)
    ensures LastLine(buffer, tail)
  {
    var rest := buffer[k + 1..];
    var m := |rest| - |tail|;
    assert |buffer| - |tail| == k + 1 + m;
    assert buffer[k + 1 + m..] == rest[m..];
    if m > 0 {
      assert buffer[k + m] == rest[m - 1];
    }
  }

  /** When a pass runs out of complete lines, what remains is the text after
      the last line break: the trailing partial line, which waits for the
      next chunk. */
  lemma {:induction false} PartialLineStays(buffer: string, content: string, msgs: seq<Message>, cls: string -> LineAction)
    ensures var p := Drain(buffer, content, msgs, cls);
      p.stop == Exhausted ==> LastLine(buffer, p.buffer)
    decreases |buffer|
  {
    var k := IndexOf(buffer, '\n');
    if k < 0 {
      DrainEnd(buffer, content, msgs, cls);
      assert buffer[0..] == buffer;
    } else {
      DrainStep(buffer, content, msgs, cls);
      var rest := buffer[k + 1..];
      var a := cls(buffer[..k]);
      if a.Skip? || a.Append? {
        var c, m := if a.Skip? then content else content + a.text,
                    if a.Skip? then msgs else Upsert(msgs, content + a.text);
        PartialLineStays(rest, c, m, cls);
        var p := Drain(rest, c, m, cls);
        if p.stop == Exhausted {
          LastLineAfter(buffer, k, p.buffer);
        }
      }
    }
  }

  /** A pass over `line + "\n" + rest` acts on `line` first. */
  lemma DrainCons(line: string, rest: string, content: string, msgs: seq<Message>, cls: string -> LineAction)
    requires '\n' !in line
    ensures var d := Drain(line + "\n" + rest, content, msgs, cls);
      var a := cls(line);
      && (a.Skip? ==> d == Drain(rest, content, msgs, cls))
      && (a.Done? ==> d == Pass(rest, content, msgs, AtDone))
      && (a.PutBack? ==> d == Pass(a.line + "\n" + rest, content, msgs, AtMalformed))
      && (a.Append? ==> d == Drain(rest, content + a.text, Upsert(msgs, content + a.text), cls))
  {
    FirstLine(line, rest);
    DrainStep(line + "\n" + rest, content, msgs, cls);
  }

  /** A buffer with a line break at `k` is the line before it, the break and
      the text after it; appending text extends the text after it. */
  lemma BreakAt(b: string, k: nat, more: string)
    requires k < |b| && b[k] == '\n'
    ensures b == b[..k] + "\n" + b[k + 1..]
    ensures b + more == b[..k] + "\n" + (b[k + 1..] + more)
  {
  }

  lemma {:induction false} DrainInOrder(b1: string, b2: string, content: string, msgs: seq<Message>, cls: string -> LineAction)
    requires Drain(b1, content, msgs, cls).stop == Exhausted && Drain(b1, content, msgs, cls).buffer == ""
    ensures var p := Drain(b1, content, msgs, cls);
      Drain(b1 + b2, content, msgs, cls) == Drain(b2, p.content, p.msgs, cls)
    decreases |b1|
  {
    var k := IndexOf(b1, '\n');
    if k < 0 {
      DrainEnd(b1, content, msgs, cls);
      assert b1 + b2 == b2;
    } else {
      var line := b1[..k];
      var rest := b1[k + 1..];
      BreakAt(b1, k, b2);
      DrainCons(line, rest, content, msgs, cls);
      DrainCons(line, rest + b2, content, msgs, cls);
      match cls(line) {
        case Skip =>
          DrainInOrder(rest, b2, content, msgs, cls);
        case Done =>
        case PutBack(_) =>
        case Append(t) =>
          DrainInOrder(rest, b2, content + t, Upsert(msgs, content + t), cls);
      }
    }
  }

  // -------------------------------------------------------------------
  // The assistant message

  /** A second update of the same trailing assistant message replaces the
      first. */
  lemma UpsertTwice(msgs: seq<Message>, a: string, b: string)
    ensures Upsert(Upsert(msgs, a), b) == Upsert(msgs, b)
  {
    var m := Upsert(msgs, a);
    assert m[..|m| - 1] == (if |msgs| > 0 && msgs[|msgs| - 1].role == Assistant then msgs[..|msgs| - 1] else msgs);
  }

  /** Every message but the last is kept, and the last becomes the
      assistant's message with the text. */
  lemma UpsertKeeps(msgs: seq<Message>, text: string)
    ensures var r := Upsert(msgs, text);
      && |r| > 0 && r[|r| - 1] == Message(Assistant, text)
      && (|r| == |msgs| || |r| == |msgs| + 1)
      && forall i :: 0 <= i < |msgs| - 1 ==> r[i] == msgs[i]
  {
  }

  /** After a pass the messages are the old ones when no delta arrived, and
      otherwise the old ones with the trailing assistant message set to the
      whole running text. */
  lemma {:induction false} DrainMessages(buffer: string, content: string, msgs: seq<Message>, cls: string -> LineAction)
    requires AppendsNonEmpty(cls)
    ensures var p := Drain(buffer, content, msgs, cls);
      p.msgs == if p.content == content then msgs else Upsert(msgs, p.content)
    decreases |buffer|
  {
    var k := IndexOf(buffer, '\n');
    if k < 0 {
      DrainEnd(buffer, content, msgs, cls);
    } else {
      DrainStep(buffer, content, msgs, cls);
      var rest := buffer[k + 1..];
      var a := cls(buffer[..k]);
      if a.Skip? {
        DrainMessages(rest, content, msgs, cls);
      } else if a.Append? {
        var c := content + a.text;
        DrainMessages(rest, c, Upsert(msgs, c), cls);
        DrainExtends(rest, c, Upsert(msgs, c), cls);
        var p := Drain(rest, c, Upsert(msgs, c), cls);
        if p.content != c {
          UpsertTwice(msgs, c, p.content);
        }
        assert |p.content| >= |c| > |content|;
      }
    }
  }

  lemma {:induction false} StreamUpsert(chunks: seq<string>, msgs: seq<Message>, cls: string -> LineAction)
    requires AppendsNonEmpty(cls)
    ensures var s := Stream(chunks, msgs, cls);
      s.msgs == if s.content == "" then msgs else Upsert(msgs, s.content)
  {
    if |chunks| > 0 {
      var p := Stream(chunks[..|chunks| - 1], msgs, cls);
      StreamUpsert(chunks[..|chunks| - 1], msgs, cls);
      var b := p.buffer + chunks[|chunks| - 1];
      DrainMessages(b, p.content, p.msgs, cls);
      DrainExtends(b, p.content, p.msgs, cls);
      var r := Drain(b, p.content, p.msgs, cls);
      if r.content != p.content && p.content != "" {
        UpsertTwice(msgs, p.content, r.content);
      }
    }
  }

  /** Over a whole stream that starts after the user's message, the
      conversation gains at most one assistant message, holding every delta
      in order. */
  lemma StreamMessages(chunks: seq<string>, msgs: seq<Message>, cls: string -> LineAction)
    requires AppendsNonEmpty(cls)
    requires |msgs| > 0 && msgs[|msgs| - 1].role == User
    ensures var s := Stream(chunks, msgs, cls);
      s.msgs == if s.content == "" then msgs else msgs + [Message(Assistant, s.content)]
  {
    StreamUpsert(chunks, msgs, cls);
  }

  /** The whole exchange: the old messages, the user's message, at most one
      assistant message with the deltas, and one error message when the
      request failed. */
  lemma ReplyShape(msgs: seq<Message>, input: string, response: Response, parse: string -> Delta, errorText: string)
    ensures var m := msgs + [Message(User, Trim(input))];
      var err := [Message(Assistant, errorText)];
      && (response.NotOk? || response.NoBody? ==> Reply(m, response, parse, errorText) == m + err)
      && (response.Body? ==>
            var c := Stream(response.chunks, m, Classifier(parse)).content;
            var answer := if c == "" then [] else [Message(Assistant, c)];
            Reply(m, response, parse, errorText) == m + answer + (if response.broken then err else []))
  {
    var m := msgs + [Message(User, Trim(input))];
    if response.Body? {
      ClassifierAppendsNonEmpty(parse);
      StreamMessages(response.chunks, m, Classifier(parse));
    }
  }
}
