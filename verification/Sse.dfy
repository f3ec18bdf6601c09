/** Server-sent events: the frames the API writes (services/api/internal/httpserver/handlers_stream.go) and the
    incremental parser that reads them (apps/web/src/lib/useMarketStream.ts); a subset of the event stream format in
    sections 9.2.5 and 9.2.6 of the WHATWG HTML Living Standard. */
module Sse {
  import opened Common

  datatype Frame = Frame(event: string, data: string)

  /* ------------------------------------------------------------------ text */

  /** What JavaScript's trim removes. */
  predicate IsSpace(c: char) {
    var n := c as int;
    || 0x09 <= n <= 0x0D || n == 0x20 || n == 0xA0 || n == 0x1680 || 0x2000 <= n <= 0x200A
    || n == 0x2028 || n == 0x2029 || n == 0x202F || n == 0x205F || n == 0x3000 || n == 0xFEFF
  }

  function TrimStart(s: string): (r: string)
    ensures |r| <= |s|
  {
    if s != "" && IsSpace(s[0]) then TrimStart(s[1..]) else s
  }

  function TrimEnd(s: string): string {
    if s != "" && IsSpace(s[|s| - 1]) then TrimEnd(s[..|s| - 1]) else s
  }

  function Trim(s: string): string {
    TrimEnd(TrimStart(s))
  }

  function StripCR(s: string): (r: string)
    ensures |r| <= |s|
  {
    if s != "" && s[|s| - 1] == '\r' then s[..|s| - 1] else s
  }

  predicate StartsWith(s: string, prefix: string) {
    prefix <= s
  }

  predicate HasNewline(s: string) {
    exists i :: 0 <= i < |s| && s[i] == '\n'
  }

  /** Position of the first newline, or the length. */
  function Newline(s: string): (n: nat)
    ensures n <= |s|
    ensures n < |s| ==> s[n] == '\n'
    ensures forall i :: 0 <= i < n ==> s[i] != '\n'
  {
    if s == "" || s[0] == '\n' then 0 else 1 + Newline(s[1..])
  }

  function Lines(s: string): (lines: seq<string>)
    ensures lines != []
    decreases |s|
  {
    var n := Newline(s);
    if n == |s| then [s] else [s[..n]] + Lines(s[n + 1..])
  }

  predicate BreakAt(s: string, i: nat) {
    i + 1 < |s| && s[i] == '\n' && s[i + 1] == '\n'
  }

  /** Position of the first blank line, or None. */
  function FirstBreak(s: string): (b: Option<nat>)
    ensures b.Some? ==> b.value + 2 <= |s|
    decreases |s|
  {
    if |s| < 2 then None
    else if s[0] == '\n' && s[1] == '\n' then Some(0)
    else
      var b := FirstBreak(s[1..]);
      if b.Some? then Some(b.value + 1) else None
  }

  lemma {:induction false} FirstBreakIsFirst(s: string)
    ensures FirstBreak(s).Some? ==>
              BreakAt(s, FirstBreak(s).value) && forall i :: 0 <= i < FirstBreak(s).value ==> !BreakAt(s, i)
    ensures FirstBreak(s).None? ==> forall i: nat :: !BreakAt(s, i)
    decreases |s|
  {
    if |s| >= 2 && !BreakAt(s, 0) {
      FirstBreakIsFirst(s[1..]);
      assert forall i: nat :: i > 0 ==> (BreakAt(s, i) <==> BreakAt(s[1..], i - 1));
    }
  }

  lemma FirstBreakAt(s: string, n: nat)
    requires BreakAt(s, n) && forall i :: 0 <= i < n ==> !BreakAt(s, i)
    ensures FirstBreak(s) == Some(n)
  {
    FirstBreakIsFirst(s);
  }

  lemma NoBreak(s: string)
    requires forall i: nat :: !BreakAt(s, i)
    ensures FirstBreak(s) == None
  {
    FirstBreakIsFirst(s);
  }

  /** `split("\n\n")`: leftmost breaks, not overlapping. */
  function Parts(s: string): (parts: seq<string>)
    ensures parts != []
    decreases |s|
  {
    var b := FirstBreak(s);
    if b.None? then [s] else [s[..b.value]] + Parts(s[b.value + 2..])
  }

  function Front(parts: seq<string>): seq<string>
    requires parts != []
  {
    parts[..|parts| - 1]
  }

  function Last(parts: seq<string>): string
    requires parts != []
  {
    parts[|parts| - 1]
  }

  function Join(lines: seq<string>): string
    requires lines != []
  {
    if |lines| == 1 then lines[0] else lines[0] + "\n" + Join(lines[1..])
  }

  /* ------------------------------------------------------------------ the parser */

  /** The event name and the data lines of one block. */
  datatype Block = Block(event: string, data: seq<string>)

  function ReadLine(b: Block, raw: string): Block {
    var line := StripCR(raw);
    if line == "" || line[0] == ':' then b
    else if StartsWith(line, "event:") then b.(event := Trim(line[6..]))
    else if StartsWith(line, "data:") then b.(data := b.data + [TrimStart(line[5..])])
    else b
  }

  function ReadLines(b: Block, lines: seq<string>): Block
    decreases |lines|
  {
    if lines == [] then b else ReadLines(ReadLine(b, lines[0]), lines[1..])
  }

  const NO_LINES := Block("message", [])

  /** The frame of a block, if it has any data line. */
  function FrameOf(block: string): seq<Frame> {
    var b := ReadLines(NO_LINES, Lines(block));
    if b.data == [] then [] else [Frame(b.event, Join(b.data))]
  }

  function FramesOf(blocks: seq<string>): seq<Frame> {
    if blocks == [] then [] else FramesOf(blocks[..|blocks| - 1]) + FrameOf(blocks[|blocks| - 1])
  }

  datatype Parsed = Parsed(frames: seq<Frame>, rest: string)

  function Parse(buffer: string): Parsed {
    Parsed(FramesOf(Front(Parts(buffer))), Last(Parts(buffer)))
  }

  method ParseSseChunk(buffer: string) returns (frames: seq<Frame>, rest: string)
    ensures Parsed(frames, rest) == Parse(buffer)
  {
    frames := [];
    hide TrimStart, Trim, StripCR, Lines, Join;
    var parts := Parts(buffer);
    var blocks := Front(parts);
    rest := Last(parts);
    for k := 0 to |blocks|
      invariant frames == FramesOf(blocks[..k])
    {
      assert blocks[..k + 1][..k] == blocks[..k];
      var event := "message";
      var dataLines: seq<string> := [];
      var lines := Lines(blocks[k]);
      for i := 0 to |lines|
        invariant ReadLines(Block(event, dataLines), lines[i..]) == ReadLines(NO_LINES, lines)
      {
        assert lines[i..][1..] == lines[i + 1..];
        var line := StripCR(lines[i]);
        if line == "" || line[0] == ':' {
          continue;
        }
        if StartsWith(line, "event:") {
          event := Trim(line[6..]);
        } else if StartsWith(line, "data:") {
          dataLines := dataLines + [TrimStart(line[5..])];
        }
      }
      assert Block(event, dataLines) == ReadLines(NO_LINES, lines) by { assert lines[|lines|..] == []; }
      if |dataLines| > 0 {
        frames := frames + [Frame(event, Join(dataLines))];
      }
    }
    assert blocks[..|blocks|] == blocks;
  }

  /** The reading end: what is left over and the frames delivered so far. */
  class MarketStream {
    var buffer: string
    var delivered: seq<Frame>

    constructor ()
      ensures buffer == "" && delivered == []
    {
      buffer, delivered := "", [];
    }

    method OnChunk(text: string)
      modifies this
      ensures Parsed(delivered, buffer) == Feed(Parsed(old(delivered), old(buffer)), text)
    {
      buffer := buffer + text;
      var frames, rest := ParseSseChunk(buffer);
      buffer := rest;
      delivered := delivered + frames;
    }

    /** A stream read to its end in whatever chunks it arrives. */
    method ReadAll(chunks: seq<string>)
      requires buffer == "" && delivered == []
      modifies this
      ensures Parsed(delivered, buffer) == Parse(Concat(chunks))
    {
      for i := 0 to |chunks|
        invariant Parsed(delivered, buffer) == FeedAll(chunks[..i])
      {
        assert chunks[..i + 1][..i] == chunks[..i];
        OnChunk(chunks[i]);
      }
      assert chunks[..|chunks|] == chunks;
      ChunkingIsIrrelevant(chunks);
    }
  }

  /* ------------------------------------------------------------------ chunks */

  function Feed(p: Parsed, chunk: string): Parsed {
    var next := Parse(p.rest + chunk);
    Parsed(p.frames + next.frames, next.rest)
  }

  function FeedAll(chunks: seq<string>): Parsed {
    if chunks == [] then Parsed([], "") else Feed(FeedAll(chunks[..|chunks| - 1]), chunks[|chunks| - 1])
  }

  function Concat(chunks: seq<string>): string {
    if chunks == [] then "" else Concat(chunks[..|chunks| - 1]) + chunks[|chunks| - 1]
  }

  lemma FirstBreakExtends(a: string, b: string)
    requires FirstBreak(a).Some?
    ensures FirstBreak(a + b) == FirstBreak(a)
  {
    var n := FirstBreak(a).value;
    FirstBreakIsFirst(a);
    assert BreakAt(a + b, n);
    assert forall i :: 0 <= i < n ==> (BreakAt(a + b, i) <==> BreakAt(a, i));
    FirstBreakAt(a + b, n);
  }

  lemma PartsFrom(s: string)
    ensures FirstBreak(s).None? ==> Parts(s) == [s]
    ensures FirstBreak(s).Some? ==>
              var n := FirstBreak(s).value;
              Parts(s) == [s[..n]] + Parts(s[n + 2..])
  {
    hide FirstBreak;
  }

  lemma Prepended(init: seq<string>, parts: seq<string>)
    requires parts != []
    ensures Front(init + parts) == init + Front(parts) && Last(init + parts) == Last(parts)
  {
  }

  lemma SinglePart(s: string)
    ensures Front([s]) == [] && Last([s]) == s
  {
  }

  lemma RestExtends(a: string, b: string, n: nat)
    requires n + 2 <= |a|
    ensures (a + b)[..n] == a[..n] && (a + b)[n + 2..] == a[n + 2..] + b
  {
  }

  /** Splitting more text leaves all but the last part as they were. */
  lemma {:induction false} PartsExtend(a: string, b: string)
    ensures Parts(a + b) == Front(Parts(a)) + Parts(Last(Parts(a)) + b)
    decreases |a|
  {
    hide FirstBreak, Parts, BreakAt, Front, Last;
    var n := FirstBreak(a);
    PartsFrom(a);
    if n.None? {
      SinglePart(a);
    } else {
      var head, tail := a[..n.value], a[n.value + 2..];
      FirstBreakExtends(a, b);
      PartsFrom(a + b);
      RestExtends(a, b, n.value);
      PartsExtend(tail, b);
      Prepended([head], Parts(tail));
    }
  }

  lemma {:induction false} FramesOfConcat(a: seq<string>, b: seq<string>)
    ensures FramesOf(a + b) == FramesOf(a) + FramesOf(b)
    decreases |b|
  {
    if b == [] {
      assert a + b == a;
    } else {
      assert (a + b)[..|a + b| - 1] == a + b[..|b| - 1];
      FramesOfConcat(a, b[..|b| - 1]);
    }
  }

  lemma ParseExtends(a: string, b: string)
    ensures Parse(a + b) == Feed(Parse(a), b)
  {
    hide Parts, FramesOf, Front, Last;
    var rest := Last(Parts(a)) + b;
    PartsExtend(a, b);
    Prepended(Front(Parts(a)), Parts(rest));
    FramesOfConcat(Front(Parts(a)), Front(Parts(rest)));
  }

  /** However a stream is cut into chunks, the frames and the leftover are those of parsing it in one piece. */
  lemma {:induction false} ChunkingIsIrrelevant(chunks: seq<string>)
    ensures FeedAll(chunks) == Parse(Concat(chunks))
  {
    if chunks == [] {
      assert FramesOf([]) == [];
    } else {
      ChunkingIsIrrelevant(chunks[..|chunks| - 1]);
      ParseExtends(Concat(chunks[..|chunks| - 1]), chunks[|chunks| - 1]);
    }
  }

  /* ------------------------------------------------------------------ the writer */

  datatype Item = Heartbeat | Message(event: string, payload: string)

  const HEARTBEAT := ": heartbeat\n\n"

  function BodyOf(event: string, payload: string): string {
    "event: " + event + "\n" + "data: " + payload
  }

  function Write(item: Item): string {
    match item
    case Heartbeat => HEARTBEAT
    case Message(event, payload) => BodyOf(event, payload) + "\n\n"
  }

  function WriteAll(items: seq<Item>): string {
    if items == [] then "" else Write(items[0]) + WriteAll(items[1..])
  }

  function Messages(items: seq<Item>): seq<Frame> {
    if items == [] then []
    else (if items[0].Heartbeat? then [] else [Frame(items[0].event, items[0].payload)]) + Messages(items[1..])
  }

  /** The writing end of one connection; all its messages carry one event name. */
  class Connection {
    const eventName: string
    var written: string

    constructor (eventName: string)
      ensures this.eventName == eventName && written == ""
    {
      this.eventName, written := eventName, "";
    }

    method Beat()
      modifies this`written
      ensures written == old(written) + Write(Heartbeat)
    {
      written := written + ": heartbeat\n\n";
    }

    method Send(msg: string)
      modifies this`written
      ensures written == old(written) + Write(Message(eventName, msg))
    {
      written := written + ("event: " + eventName + "\n" + "data: " + msg + "\n\n");
      assert ("event: " + eventName + "\n" + "data: " + msg) + "\n\n" == Write(Message(eventName, msg));
    }

    /** Ticks (None) and messages in the order they become ready. */
    method Serve(ready: seq<Option<string>>)
      modifies this`written
      ensures written == old(written) + WriteAll(Served(eventName, ready))
    {
      hide Write, WriteAll;
      for i := 0 to |ready|
        invariant written + WriteAll(Served(eventName, ready[i..])) == old(written) + WriteAll(Served(eventName, ready))
      {
        ghost var before := written;
        ServedNext(eventName, ready, i);
        if ready[i].None? {
          Beat();
        } else {
          Send(ready[i].value);
        }
        Regroup(before, Write(ServedItem(eventName, ready[i])), WriteAll(Served(eventName, ready[i + 1..])));
      }
      assert ready[|ready|..] == [];
      NothingServed(eventName);
      assert written + "" == written;
    }
  }

  lemma Regroup(a: string, b: string, c: string)
    ensures a + (b + c) == (a + b) + c
  {
  }

  lemma NothingServed(event: string)
    ensures WriteAll(Served(event, [])) == ""
  {
  }

  lemma ServedNext(event: string, ready: seq<Option<string>>, i: nat)
    requires i < |ready|
    ensures WriteAll(Served(event, ready[i..]))
          == Write(ServedItem(event, ready[i])) + WriteAll(Served(event, ready[i + 1..]))
  {
    hide Write;
    assert Served(event, ready[i..])[1..] == Served(event, ready[i + 1..]);
  }

  function ServedItem(event: string, ready: Option<string>): Item {
    if ready.None? then Heartbeat else Message(event, ready.value)
  }

  function Served(event: string, ready: seq<Option<string>>): seq<Item> {
    seq(|ready|, i requires 0 <= i < |ready| => ServedItem(event, ready[i]))
  }

  /* ------------------------------------------------------------------ reading back what was written */

  predicate EventOk(event: string) {
    !HasNewline(event) && Trim(" " + event) == event && StripCR(event) == event
  }

  /** The two event names the API uses. */
  lemma EventNamesOk()
    ensures EventOk("quote") && EventOk("account")
  {
    OkName("quote");
    OkName("account");
  }

  lemma OkName(event: string)
    requires event != "" && !IsSpace(event[0]) && !IsSpace(event[|event| - 1]) && !HasNewline(event)
    ensures EventOk(event)
  {
    assert (" " + event)[1..] == event;
    assert TrimStart(event) == event && TrimEnd(event) == event;
  }

  predicate PayloadOk(payload: string) {
    && !HasNewline(payload)
    && (payload != "" ==> !IsSpace(payload[0]) && payload[|payload| - 1] != '\r')
  }

  lemma OneLine(s: string)
    requires !HasNewline(s)
    ensures Lines(s) == [s]
  {
  }

  lemma TwoLines(a: string, b: string)
    requires !HasNewline(a)
    ensures Lines(a + "\n" + b) == [a] + Lines(b)
  {
    var s := a + "\n" + b;
    assert s[|a|] == '\n';
    assert forall i :: 0 <= i < |a| ==> s[i] == a[i];
    assert Newline(s) == |a|;
    assert s[|a| + 1..] == b;
    assert s[..|a|] == a;
  }

  lemma EventLine(b: Block, event: string)
    requires EventOk(event)
    ensures ReadLine(b, "event: " + event) == b.(event := event)
  {
    var line := "event: " + event;
    if event != "" {
      assert line[|line| - 1] == event[|event| - 1];
    }
    assert StripCR(line) == line;
    assert line[6..] == " " + event;
    assert StartsWith(line, "event:") by { assert line[..6] == "event:"; }
  }

  lemma TrimOneSpace(s: string)
    ensures TrimStart(" " + s) == TrimStart(s)
  {
    assert (" " + s)[1..] == s;
  }

  lemma DataLine(b: Block, payload: string)
    ensures ReadLine(b, "data: " + payload) == b.(data := b.data + [TrimStart(StripCR(payload))])
  {
    var line := "data: " + payload;
    var text := StripCR(payload);
    if payload != "" {
      assert line[|line| - 1] == payload[|payload| - 1];
      assert line[..|line| - 1] == "data: " + payload[..|payload| - 1];
    }
    var stripped := "data: " + text;
    assert StripCR(line) == stripped;
    assert stripped[5..] == " " + text;
    TrimOneSpace(text);
    assert StartsWith(stripped, "data:") by { assert stripped[..5] == "data:"; }
    assert !StartsWith(stripped, "event:") by { assert stripped[0] == 'd'; }
  }

  /** The block the writer produces, whatever the payload's first line. */
  lemma BodyReads(event: string, payload: string)
    requires EventOk(event) && !HasNewline(payload)
    ensures FrameOf(BodyOf(event, payload)) == [Frame(event, TrimStart(StripCR(payload)))]
  {
    var first, second := "event: " + event, "data: " + payload;
    assert !HasNewline(first) by { assert forall i :: 7 <= i < |first| ==> first[i] == event[i - 7]; }
    assert !HasNewline(second) by { assert forall i :: 6 <= i < |second| ==> second[i] == payload[i - 6]; }
    assert BodyOf(event, payload) == first + "\n" + second;
    TwoLines(first, second);
    OneLine(second);
    EventLine(NO_LINES, event);
    DataLine(NO_LINES.(event := event), payload);
    hide ReadLine, TrimStart, StripCR, Lines;
    var b := ReadLine(ReadLine(NO_LINES, first), second);
    assert [first, second][1..] == [second] && [second][1..] == [];
    assert ReadLines(b, []) == b;
    assert ReadLines(NO_LINES, [first, second]) == b;
  }

  /** Text without a blank line, not ending in a newline, is the first part of what follows it. */
  lemma FirstPart(body: string, rest: string)
    requires FirstBreak(body).None? && (body == "" || body[|body| - 1] != '\n')
    ensures Parts(body + "\n\n" + rest) == [body] + Parts(rest)
  {
    var s := body + "\n\n" + rest;
    FirstBreakIsFirst(body);
    assert BreakAt(s, |body|);
    forall i | 0 <= i < |body| ensures !BreakAt(s, i) {
      assert !BreakAt(body, i);
    }
    FirstBreakAt(s, |body|);
    PartsFrom(s);
    assert s[..|body|] == body && s[|body| + 2..] == rest;
  }

  lemma BodyHasNoBreak(event: string, payload: string)
    requires !HasNewline(event) && !HasNewline(payload)
    ensures var body := BodyOf(event, payload); FirstBreak(body).None? && body != "" && body[|body| - 1] != '\n'
  {
    var body := BodyOf(event, payload);
    var n := 7 + |event|;
    assert forall i :: 7 <= i < n ==> body[i] == event[i - 7];
    assert forall i :: n + 7 <= i < |body| ==> body[i] == payload[i - n - 7];
    assert body[n + 1] == 'd';
    assert forall i: nat :: !BreakAt(body, i);
    NoBreak(body);
    if payload != "" {
      assert body[|body| - 1] == payload[|payload| - 1];
    }
  }

  predicate ItemOk(item: Item) {
    item.Message? ==> EventOk(item.event) && PayloadOk(item.payload)
  }

  predicate AllOk(items: seq<Item>) {
    forall i :: 0 <= i < |items| ==> ItemOk(items[i])
  }

  /** A comment line yields no frame. */
  lemma CommentReads(line: string)
    requires |line| >= 2 && line[0] == ':' && !HasNewline(line)
    ensures FrameOf(line) == []
  {
    OneLine(line);
    assert ReadLine(NO_LINES, line) == NO_LINES;
    hide ReadLine, Lines, HasNewline;
    assert [line][1..] == [];
    assert ReadLines(NO_LINES, []) == NO_LINES;
    assert ReadLines(NO_LINES, [line]) == NO_LINES;
  }

  /** A block in front of more text gives its frame in front of the frames of that text. */
  lemma BlockReads(body: string, rest: string)
    requires FirstBreak(body).None? && (body == "" || body[|body| - 1] != '\n')
    ensures Parse(body + "\n\n" + rest) == Parsed(FrameOf(body) + Parse(rest).frames, Parse(rest).rest)
  {
    hide FrameOf, FirstBreak, Parts, FramesOf, Front, Last;
    FirstPart(body, rest);
    Prepended([body], Parts(rest));
    FramesOfConcat([body], Front(Parts(rest)));
    OneBlock(body);
  }

  lemma OneBlock(body: string)
    ensures FramesOf([body]) == FrameOf(body)
  {
    hide FrameOf;
    assert [body][..0] == [] && FramesOf([]) == [];
  }

  const COMMENT := ": heartbeat"

  lemma CommentHasNoBreak()
    ensures |COMMENT| >= 2 && COMMENT[0] == ':' && COMMENT[|COMMENT| - 1] == 't' && !HasNewline(COMMENT)
    ensures FirstBreak(COMMENT).None?
  {
    assert forall i :: 0 <= i < |COMMENT| ==> COMMENT[i] != '\n';
    hide FirstBreak;
    assert forall i: nat :: !BreakAt(COMMENT, i);
    NoBreak(COMMENT);
  }

  lemma HeartbeatReads(rest: string)
    ensures Parse(Write(Heartbeat) + rest) == Parse(rest)
  {
    hide FrameOf, FirstBreak, Parse;
    CommentHasNoBreak();
    CommentReads(COMMENT);
    BlockReads(COMMENT, rest);
    assert Write(Heartbeat) == COMMENT + "\n\n";
  }

  lemma MessageReads(event: string, payload: string, rest: string)
    requires EventOk(event) && !HasNewline(payload)
    ensures Parse(Write(Message(event, payload)) + rest)
         == Parsed([Frame(event, TrimStart(StripCR(payload)))] + Parse(rest).frames, Parse(rest).rest)
  {
    BodyReads(event, payload);
    BodyHasNoBreak(event, payload);
    hide BodyOf, FrameOf, FirstBreak, Parse, HasNewline, TrimStart, StripCR;
    BlockReads(BodyOf(event, payload), rest);
  }

  lemma ItemReads(item: Item, rest: string)
    requires ItemOk(item)
    ensures Parse(Write(item) + rest) == Parsed(Messages([item]) + Parse(rest).frames, Parse(rest).rest)
  {
    assert [item][1..] == [] && Messages([]) == [];
    assert Messages([item]) == if item.Heartbeat? then [] else [Frame(item.event, item.payload)];
    hide Parse, HasNewline, IsSpace, Messages, TrimStart, StripCR, Write;
    if item.Heartbeat? {
      HeartbeatReads(rest);
    } else {
      PlainPayload(item.payload);
      MessageReads(item.event, item.payload, rest);
    }
  }

  /** On one line a payload survives exactly when it starts with no white space and ends in no carriage return. */
  lemma PlainPayload(payload: string)
    requires !HasNewline(payload)
    ensures TrimStart(StripCR(payload)) == payload <==> PayloadOk(payload)
  {
  }

  lemma ParseNothing()
    ensures Parse("") == Parsed([], "")
  {
    assert Parts("") == [""];
    assert Front([""]) == [] && FramesOf([]) == [];
  }

  lemma MessagesFrom(items: seq<Item>)
    requires items != []
    ensures Messages(items) == Messages([items[0]]) + Messages(items[1..])
    ensures WriteAll(items) == Write(items[0]) + WriteAll(items[1..])
  {
    hide Write;
    assert [items[0]][1..] == [] && Messages([]) == [];
  }

  /** Any mix of heartbeats and messages reads back as exactly the messages, with nothing left over. */
  lemma {:induction false} StreamReadsBack(items: seq<Item>)
    requires AllOk(items)
    ensures Parse(WriteAll(items)) == Parsed(Messages(items), "")
    decreases |items|
  {
    hide Parse, Write, ItemOk;
    ParseNothing();
    if items != [] {
      StreamReadsBack(items[1..]);
      ItemReads(items[0], WriteAll(items[1..]));
      MessagesFrom(items);
    }
  }

  /** The same in whatever chunks the stream arrives. */
  lemma StreamReadsBackInChunks(items: seq<Item>, chunks: seq<string>)
    requires AllOk(items) && Concat(chunks) == WriteAll(items)
    ensures FeedAll(chunks) == Parsed(Messages(items), "")
  {
    ChunkingIsIrrelevant(chunks);
    StreamReadsBack(items);
  }

  /* ------------------------------------------------------------------ exactly which payloads survive */

  /** Characters of the lines, one more for each. */
  function TextLength(lines: seq<string>): nat {
    if lines == [] then 0 else |lines[0]| + 1 + TextLength(lines[1..])
  }

  lemma {:induction false} JoinLength(lines: seq<string>)
    requires lines != []
    ensures |Join(lines)| + 1 == TextLength(lines)
    decreases |lines|
  {
    if |lines| > 1 {
      JoinLength(lines[1..]);
    }
  }

  lemma {:induction false} LinesLength(s: string)
    ensures TextLength(Lines(s)) == |s| + 1
    decreases |s|
  {
    var n := Newline(s);
    if n < |s| {
      LinesLength(s[n + 1..]);
      assert ([s[..n]] + Lines(s[n + 1..]))[1..] == Lines(s[n + 1..]);
    }
  }

  lemma {:induction false} TextLengthAppend(lines: seq<string>, line: string)
    ensures TextLength(lines + [line]) == TextLength(lines) + |line| + 1
    decreases |lines|
  {
    if lines == [] {
      assert [line][1..] == [];
    } else {
      assert (lines + [line])[1..] == lines[1..] + [line];
      TextLengthAppend(lines[1..], line);
    }
  }

  lemma LineShrinks(b: Block, line: string)
    ensures TextLength(ReadLine(b, line).data) <= TextLength(b.data) + |line|
    ensures b.data <= ReadLine(b, line).data
  {
    var stripped := StripCR(line);
    if StartsWith(stripped, "data:") {
      TextLengthAppend(b.data, TrimStart(stripped[5..]));
    }
  }

  /** Every line loses at least one character on its way into the data. */
  lemma {:induction false} LinesShrink(b: Block, lines: seq<string>)
    ensures var after := ReadLines(b, lines);
            TextLength(after.data) + |lines| <= TextLength(b.data) + TextLength(lines) && b.data <= after.data
    decreases |lines|
  {
    if lines != [] {
      LineShrinks(b, lines[0]);
      hide ReadLine, TextLength;
      assert TextLength(lines) == |lines[0]| + 1 + TextLength(lines[1..]) by { TextLengthFrom(lines); }
      LinesShrink(ReadLine(b, lines[0]), lines[1..]);
    }
  }

  lemma TextLengthFrom(lines: seq<string>)
    requires lines != []
    ensures TextLength(lines) == |lines[0]| + 1 + TextLength(lines[1..])
  {
  }

  lemma ReadTwo(b: Block, first: string, second: string, rest: seq<string>)
    ensures ReadLines(b, [first] + ([second] + rest)) == ReadLines(ReadLine(ReadLine(b, first), second), rest)
  {
    hide ReadLine;
    assert ([first] + ([second] + rest))[1..] == [second] + rest;
    assert ([second] + rest)[1..] == rest;
  }

  /** A payload of several lines comes back shorter. */
  lemma BodyShrinks(event: string, text: string)
    requires EventOk(event) && HasNewline(text)
    ensures |FrameOf(BodyOf(event, text))| == 1 && |FrameOf(BodyOf(event, text))[0].data| < |text|
  {
    var n := Newline(text);
    var head, tail := text[..n], text[n + 1..];
    var first, second := "event: " + event, "data: " + head;
    assert text == head + "\n" + tail;
    assert !HasNewline(first) by { assert forall i :: 7 <= i < |first| ==> first[i] == event[i - 7]; }
    assert !HasNewline(second) by { assert forall i :: 6 <= i < |second| ==> second[i] == head[i - 6]; }
    assert BodyOf(event, text) == first + "\n" + (second + "\n" + tail);
    TwoLines(first, second + "\n" + tail);
    TwoLines(second, tail);
    EventLine(NO_LINES, event);
    DataLine(NO_LINES.(event := event), head);
    var d := TrimStart(StripCR(head));
    var b := ReadLine(ReadLine(NO_LINES, first), second);
    assert b.data == [] + [d] == [d];
    hide ReadLine, TrimStart, StripCR, Lines, BodyOf, Newline, HasNewline;
    ReadTwo(NO_LINES, first, second, Lines(tail));
    LinesShrink(b, Lines(tail));
    LinesLength(tail);
    var after := ReadLines(b, Lines(tail));
    JoinLength(after.data);
    TextLengthAppend([], d);
  }

  /** Up to its first blank line the written text is the block of a shorter payload. */
  lemma FirstBlock(event: string, payload: string) returns (text: string)
    requires EventOk(event) && HasNewline(payload)
    ensures text <= payload && (text == payload || |text| < |payload|)
    ensures var parts := Parts(BodyOf(event, payload) + "\n\n"); |parts| >= 2 && parts[0] == BodyOf(event, text)
  {
    var body := BodyOf(event, payload);
    var s := body + "\n\n";
    var start := |event| + 14;
    assert BreakAt(s, |body|);
    FirstBreakIsFirst(s);
    var k := FirstBreak(s).value;
    assert k >= start by {
      forall i | 0 <= i < start ensures !BreakAt(s, i) {
        HeaderHasNoBreak(event, payload, i);
      }
    }
    text := payload[..k - start];
    PartsFrom(s);
    assert s[..k] == BodyOf(event, text);
  }

  lemma HeaderHasNoBreak(event: string, payload: string, i: nat)
    requires !HasNewline(event) && i < |event| + 14
    ensures !BreakAt(BodyOf(event, payload) + "\n\n", i)
  {
    var s := BodyOf(event, payload) + "\n\n";
    var n := 7 + |event|;
    assert forall j :: 7 <= j < n ==> s[j] == event[j - 7];
    assert s[n + 1] == 'd' && s[n + 6] == ' ';
  }

  lemma {:induction false} FramesFirst(blocks: seq<string>)
    requires blocks != [] && FrameOf(blocks[0]) != []
    ensures FramesOf(blocks) != [] && FramesOf(blocks)[0] == FrameOf(blocks[0])[0]
  {
    hide FrameOf;
    var before := blocks[..|blocks| - 1];
    if |blocks| > 1 {
      FramesFirst(before);
    } else {
      assert before == [] && FramesOf(before) == [];
    }
  }

  lemma SeveralLinesLost(event: string, payload: string)
    requires EventOk(event) && HasNewline(payload)
    ensures Parse(Write(Message(event, payload))).frames != [Frame(event, payload)]
  {
    var text := FirstBlock(event, payload);
    var parts := Parts(Write(Message(event, payload)));
    if HasNewline(text) {
      BodyShrinks(event, text);
    } else {
      BodyReads(event, text);
    }
    hide FrameOf, Parts, BodyOf, HasNewline, TrimStart, StripCR;
    FramesFirst(Front(parts));
  }

  lemma SameSingle(f: Frame, g: Frame)
    ensures [f] == [g] <==> f == g
  {
    if [f] == [g] {
      assert [f][0] == [g][0];
    }
  }

  /** A message comes back as it was sent exactly when its payload has no newline, no leading white space and no
      trailing carriage return. */
  lemma MessageReadsBackIff(event: string, payload: string)
    requires EventOk(event)
    ensures Parse(Write(Message(event, payload))) == Parsed([Frame(event, payload)], "") <==> PayloadOk(payload)
  {
    if HasNewline(payload) {
      SeveralLinesLost(event, payload);
    } else {
      PlainPayload(payload);
      hide Parse, Write, TrimStart, StripCR, PayloadOk;
      MessageReads(event, payload, "");
      ParseNothing();
      assert Write(Message(event, payload)) + "" == Write(Message(event, payload));
      var f := Frame(event, TrimStart(StripCR(payload)));
      assert [f] + [] == [f];
      SameSingle(f, Frame(event, payload));
    }
  }
}
