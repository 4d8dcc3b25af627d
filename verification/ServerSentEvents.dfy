/** The line machine of `connectAndStream` in pkg/mq/httpclient.go, and the
    framing of an event stream it undoes (WHATWG HTML Living Standard, sections
    9.2.5 and 9.2.6).  JSON decoding is a partial function given from outside. */
module ServerSentEvents {
  import opened Sequences
  import opened Domain

  // ------------------------------------------------------------ Go's strings

  /** unicode.IsSpace */
  predicate IsSpace(ch: char) {
    var n := ch as int;
    9 <= n <= 13 || n == 0x20 || n == 0x85 || n == 0xA0 || n == 0x1680 || 0x2000 <= n <= 0x200A
    || n == 0x2028 || n == 0x2029 || n == 0x202F || n == 0x205F || n == 0x3000
  }

  function TrimLeft(s: string): string {
    if s != "" && IsSpace(s[0]) then TrimLeft(s[1..]) else s
  }

  function TrimRight(s: string): string {
    if s != "" && IsSpace(s[|s| - 1]) then TrimRight(s[..|s| - 1]) else s
  }

  function TrimSpace(s: string): string {
    TrimRight(TrimLeft(s))
  }

  /** strings.TrimRight(s, "\r\n") */
  function TrimEol(s: string): string {
    if s != "" && (s[|s| - 1] == '\r' || s[|s| - 1] == '\n') then TrimEol(s[..|s| - 1]) else s
  }

  const EVENT := "event:"
  const DATA := "data:"
  const MESSAGE := "message"

  // ------------------------------------------------------------- the machine

  datatype Machine = Machine(event: string, data: string)

  const IDLE := Machine("", "")

  function Pending(mc: Machine): seq<string> {
    if mc.data != "" && mc.event == MESSAGE then [mc.data] else []
  }

  function AddData(data: string, text: string): string {
    (if data == "" then "" else data + "\n") + TrimSpace(text)
  }

  /** What one line, its end trimmed, does to the machine; an empty line also
      gives out what is pending. */
  function OnLine(mc: Machine, line: string): Machine {
    if line == "" then IDLE
    else if EVENT <= line then Machine(TrimSpace(line[|EVENT|..]), "")
    else if DATA <= line then mc.(data := AddData(mc.data, line[|DATA|..]))
    else mc
  }

  function Given(mc: Machine, line: string): seq<string> {
    if line == "" then Pending(mc) else []
  }

  /** The length of the first line with its newline, or 0 if there is no newline. */
  function FirstLine(stream: string): (n: nat)
    ensures n <= |stream|
    ensures n == 0 <==> '\n' !in stream
    ensures n > 0 ==> stream[n - 1] == '\n' && forall k :: 0 <= k < n - 1 ==> stream[k] != '\n'
  {
    if stream == "" then 0
    else if stream[0] == '\n' then 1
    else
      var rest := FirstLine(stream[1..]);
      assert forall k :: 1 <= k < |stream| ==> stream[k] == stream[1..][k - 1];
      if rest == 0 then 0 else rest + 1
  }

  /** All payloads given out from a machine state to the end of the stream; a
      last line without newline is lost, but what is pending is given out. */
  function Payloads(mc: Machine, stream: string): seq<string>
    decreases |stream|
  {
    var n := FirstLine(stream);
    if n == 0 then Pending(mc)
    else
      var line := TrimEol(stream[..n]);
      Given(mc, line) + Payloads(OnLine(mc, line), stream[n..])
  }

  function DecodeOne(decode: string -> Option<Message>, payload: string): seq<Message> {
    var msg := decode(payload);
    if msg.Some? then [msg.value] else []
  }

  /** The messages among the payloads: those that decode. */
  function Decoded(decode: string -> Option<Message>, payloads: seq<string>): seq<Message> {
    if payloads == [] then [] else DecodeOne(decode, payloads[0]) + Decoded(decode, payloads[1..])
  }

  lemma {:induction false} DecodedAppend(decode: string -> Option<Message>, a: seq<string>, b: seq<string>)
    ensures Decoded(decode, a + b) == Decoded(decode, a) + Decoded(decode, b)
  {
    hide DecodeOne;
    if a == [] {
      assert a + b == b;
    } else {
      DecodedAppend(decode, a[1..], b);
      assert (a + b)[0] == a[0] && (a + b)[1..] == a[1..] + b;
      Reassociate(DecodeOne(decode, a[0]), Decoded(decode, a[1..]), Decoded(decode, b));
    }
  }

  /** The messages still to come from a machine state and the rest of a stream. */
  function ToCome(decode: string -> Option<Message>, mc: Machine, stream: string): seq<Message> {
    Decoded(decode, Payloads(mc, stream))
  }

  /** What a machine gives out when asked for its pending payload. */
  function Emitted(decode: string -> Option<Message>, mc: Machine): seq<Message> {
    if mc.data != "" && mc.event == MESSAGE then DecodeOne(decode, mc.data) else []
  }

  lemma DecodedPending(decode: string -> Option<Message>, mc: Machine)
    ensures Decoded(decode, Pending(mc)) == Emitted(decode, mc)
  {
    hide DecodeOne;
    assert [mc.data][1..] == [];
    assert DecodeOne(decode, mc.data) + [] == DecodeOne(decode, mc.data);
  }

  lemma ToComeAtEnd(decode: string -> Option<Message>, mc: Machine, stream: string)
    requires FirstLine(stream) == 0
    ensures ToCome(decode, mc, stream) == Emitted(decode, mc)
  {
    DecodedPending(decode, mc);
  }

  /** What one line contributes, by the branch it takes. */
  lemma ToComeAtLine(decode: string -> Option<Message>, mc: Machine, stream: string)
    requires FirstLine(stream) > 0
    ensures var line, rest := TrimEol(stream[..FirstLine(stream)]), stream[FirstLine(stream)..];
            ToCome(decode, mc, stream) ==
            if line == "" then Emitted(decode, mc) + ToCome(decode, IDLE, rest)
            else if EVENT <= line then ToCome(decode, Machine(TrimSpace(line[|EVENT|..]), ""), rest)
            else if DATA <= line then ToCome(decode, Machine(mc.event, AddData(mc.data, line[|DATA|..])), rest)
            else ToCome(decode, mc, rest)
  {
    hide TrimEol, TrimSpace, AddData, DecodeOne, Emitted;
    var n := FirstLine(stream);
    var line := TrimEol(stream[..n]);
    DecodedPending(decode, mc);
    DecodedAppend(decode, Given(mc, line), Payloads(OnLine(mc, line), stream[n..]));
    assert Given(mc, line) == [] ==> Given(mc, line) + Payloads(OnLine(mc, line), stream[n..]) == Payloads(OnLine(mc, line), stream[n..]);
  }

  /** The read loop, up to the end of the stream. */
  method ConnectAndStream(stream: string, decode: string -> Option<Message>) returns (received: seq<Message>)
    ensures received == Decoded(decode, Payloads(IDLE, stream))
  {
    hide Payloads, TrimSpace, TrimEol, FirstLine, Decoded;
    received := [];
    var rest := stream;
    var currentEvent, currentData := "", "";
    while true
      invariant received + ToCome(decode, Machine(currentEvent, currentData), rest) == ToCome(decode, IDLE, stream)
      decreases |rest|
    {
      ghost var mc := Machine(currentEvent, currentData);
      var n := FirstLine(rest);
      if n == 0 {
        ToComeAtEnd(decode, mc, rest);
        if |currentData| > 0 && currentEvent == MESSAGE {
          var msg := decode(currentData);
          if msg.Some? { received := received + [msg.value]; }
        }
        return;
      }
      var line := TrimEol(rest[..n]);
      ToComeAtLine(decode, mc, rest);
      rest := rest[n..];

      if line == "" {
        Reassociate(received, Emitted(decode, mc), ToCome(decode, IDLE, rest));
        if |currentData| > 0 && currentEvent == MESSAGE {
          var msg := decode(currentData);
          if msg.Some? { received := received + [msg.value]; }
        }
        currentEvent := "";
        currentData := "";
        continue;
      }
      if EVENT <= line {
        currentEvent := TrimSpace(line[|EVENT|..]);
        currentData := "";
        continue;
      }
      if DATA <= line {
        var data := TrimSpace(line[|DATA|..]);
        if |currentData| > 0 {
          currentData := currentData + "\n";
        }
        currentData := currentData + data;
        continue;
      }
    }
  }

  // ------------------------------------------------------------- the framing

  datatype Eol = Lf | CrLf

  /** A line of a block: a data field, or a comment or field the client ignores. */
  datatype Item = Data(text: string, eol: Eol) | Ignored(text: string, eol: Eol)

  /** An event field, further lines, and the empty line that ends the block.
      Texts stand after the colon as they are, with or without a space. */
  datatype Block = Block(event: string, eventEol: Eol, items: seq<Item>, endEol: Eol)

  function EolText(eol: Eol): string {
    if eol.Lf? then "\n" else "\r\n"
  }

  function FrameItems(items: seq<Item>): string {
    if items == [] then ""
    else
      (if items[0].Data? then DATA else "") + items[0].text + EolText(items[0].eol) + FrameItems(items[1..])
  }

  function FrameBlock(b: Block): string {
    EVENT + b.event + EolText(b.eventEol) + FrameItems(b.items) + EolText(b.endEol)
  }

  function FrameAll(blocks: seq<Block>): string {
    if blocks == [] then "" else FrameBlock(blocks[0]) + FrameAll(blocks[1..])
  }

  /** The standard's any-char: neither CR nor LF. */
  predicate AnyChars(s: string) {
    '\r' !in s && '\n' !in s
  }

  predicate ItemOk(item: Item) {
    AnyChars(item.text)
    && (item.Ignored? ==> item.text != "" && !(EVENT <= item.text) && !(DATA <= item.text))
  }

  ghost predicate BlockOk(b: Block) {
    AnyChars(b.event) && forall k :: 0 <= k < |b.items| ==> ItemOk(b.items[k])
  }

  /** The trimmed data lines of a block, in order. */
  function DataLines(items: seq<Item>): seq<string> {
    if items == [] then []
    else (if items[0].Data? then [TrimSpace(items[0].text)] else []) + DataLines(items[1..])
  }

  function Join(lines: seq<string>): string {
    if lines == [] then ""
    else if |lines| == 1 then lines[0]
    else lines[0] + "\n" + Join(lines[1..])
  }

  function DropLeadingEmpty(lines: seq<string>): seq<string> {
    if lines != [] && lines[0] == "" then DropLeadingEmpty(lines[1..]) else lines
  }

  /** What the client makes of a block. */
  function Delivered(b: Block): seq<string> {
    var payload := Join(DropLeadingEmpty(DataLines(b.items)));
    if TrimSpace(b.event) == MESSAGE && payload != "" then [payload] else []
  }

  function DeliveredAll(blocks: seq<Block>): seq<string> {
    if blocks == [] then [] else Delivered(blocks[0]) + DeliveredAll(blocks[1..])
  }

  // ------------------------------------------------------ decoding undoes it

  lemma FirstLineIs(text: string, rest: string)
    requires '\n' !in text
    ensures FirstLine(text + "\n" + rest) == |text| + 1
  {
    var s := text + "\n" + rest;
    assert s[|text|] == '\n';
    assert forall k :: 0 <= k < |text| ==> s[k] == text[k] && text[k] in text;
  }

  lemma TrimEolOfLine(text: string, eol: Eol)
    requires AnyChars(text)
    ensures TrimEol(text + EolText(eol)) == text
  {
    var s := text + EolText(eol);
    assert s[..|s| - 1] == if eol.Lf? then text else text + "\r";
    if eol.CrLf? { assert (text + "\r")[..|text|] == text; }
    if text != "" { assert text[|text| - 1] in text; }
    assert TrimEol(text) == text;
  }

  /** One framed line is one step of the machine. */
  lemma PayloadsOfLine(mc: Machine, text: string, eol: Eol, rest: string)
    requires AnyChars(text)
    ensures Payloads(mc, text + EolText(eol) + rest) == Given(mc, text) + Payloads(OnLine(mc, text), rest)
  {
    var body := if eol.Lf? then text else text + "\r";
    var s := text + EolText(eol) + rest;
    assert s == body + "\n" + rest;
    FirstLineIs(body, rest);
    assert s[..|body| + 1] == text + EolText(eol);
    assert s[|body| + 1..] == rest;
    TrimEolOfLine(text, eol);
  }

  /** The data buffer after the lines of a block. */
  function Accumulated(data: string, items: seq<Item>): string
    decreases |items|
  {
    if items == [] then data
    else Accumulated(if items[0].Data? then AddData(data, items[0].text) else data, items[1..])
  }

  lemma {:induction false} PayloadsOfItems(mc: Machine, items: seq<Item>, rest: string)
    requires forall k :: 0 <= k < |items| ==> ItemOk(items[k])
    ensures Payloads(mc, FrameItems(items) + rest) == Payloads(mc.(data := Accumulated(mc.data, items)), rest)
    decreases |items|
  {
    if items == [] {
      assert FrameItems(items) + rest == rest;
    } else {
      var item := items[0];
      var line := (if item.Data? then DATA else "") + item.text;
      var tail := FrameItems(items[1..]) + rest;
      assert FrameItems(items) + rest == line + EolText(item.eol) + tail;
      PayloadsOfLine(mc, line, item.eol, tail);
      ItemStep(mc, item);
      PayloadsOfItems(OnLine(mc, line), items[1..], rest);
    }
  }

  lemma ItemStep(mc: Machine, item: Item)
    requires ItemOk(item)
    ensures var line := (if item.Data? then DATA else "") + item.text;
            && AnyChars(line) && Given(mc, line) == []
            && OnLine(mc, line) == mc.(data := if item.Data? then AddData(mc.data, item.text) else mc.data)
  {
    var line := (if item.Data? then DATA else "") + item.text;
    if item.Data? {
      assert line[0] == 'd';
      assert line[|DATA|..] == item.text;
    } else {
      assert line == item.text;
    }
  }

  lemma Rejoin(a: string, b: string, c: string)
    ensures (a + "\n" + b) + "\n" + c == a + "\n" + (b + "\n" + c)
  {
  }

  /** Once there is data, every further line is kept. */
  lemma {:induction false} AccumulatedOnto(data: string, items: seq<Item>)
    requires data != ""
    ensures Accumulated(data, items) ==
            if DataLines(items) == [] then data else data + "\n" + Join(DataLines(items))
    decreases |items|
  {
    hide TrimSpace;
    if items == [] {
    } else if items[0].Ignored? {
      AccumulatedOnto(data, items[1..]);
      assert DataLines(items) == DataLines(items[1..]);
    } else {
      var t, rest := TrimSpace(items[0].text), DataLines(items[1..]);
      AccumulatedOnto(data + "\n" + t, items[1..]);
      assert DataLines(items) == [t] + rest && ([t] + rest)[1..] == rest;
      Rejoin(data, t, Join(rest));
    }
  }

  /** Before that, empty lines are lost. */
  lemma {:induction false} AccumulatedIsJoin(items: seq<Item>)
    ensures Accumulated("", items) == Join(DropLeadingEmpty(DataLines(items)))
    decreases |items|
  {
    hide TrimSpace;
    if items == [] {
    } else if items[0].Ignored? {
      AccumulatedIsJoin(items[1..]);
      assert DataLines(items) == DataLines(items[1..]);
    } else {
      var t, rest := TrimSpace(items[0].text), DataLines(items[1..]);
      assert DataLines(items) == [t] + rest && ([t] + rest)[1..] == rest;
      assert AddData("", items[0].text) == t;
      if t == "" {
        AccumulatedIsJoin(items[1..]);
      } else {
        AccumulatedOnto(t, items[1..]);
      }
    }
  }

  /** One framed block gives out what `Delivered` says and leaves the machine idle. */
  lemma PayloadsOfBlock(b: Block, rest: string)
    requires BlockOk(b)
    ensures Payloads(IDLE, FrameBlock(b) + rest) == Delivered(b) + Payloads(IDLE, rest)
  {
    hide Payloads, FrameItems, DataLines, TrimSpace;
    var head := EVENT + b.event;
    var end := EolText(b.endEol) + rest;
    var mc := Machine(TrimSpace(b.event), "");
    assert FrameBlock(b) + rest == head + EolText(b.eventEol) + (FrameItems(b.items) + end);
    PayloadsOfLine(IDLE, head, b.eventEol, FrameItems(b.items) + end);
    assert head[|EVENT|..] == b.event && OnLine(IDLE, head) == mc && Given(IDLE, head) == [];
    PayloadsOfItems(mc, b.items, end);
    AccumulatedIsJoin(b.items);
    assert end == "" + EolText(b.endEol) + rest;
    PayloadsOfLine(mc.(data := Accumulated("", b.items)), "", b.endEol, rest);
  }

  /** Decoding undoes framing: the client gives out one payload for each
      "message" block with data, in order, and nothing for any other block. */
  lemma {:induction false} DecodingUndoesFraming(blocks: seq<Block>)
    requires forall k :: 0 <= k < |blocks| ==> BlockOk(blocks[k])
    ensures Payloads(IDLE, FrameAll(blocks)) == DeliveredAll(blocks)
  {
    if blocks == [] {
    } else {
      PayloadsOfBlock(blocks[0], FrameAll(blocks[1..]));
      DecodingUndoesFraming(blocks[1..]);
    }
  }

  // ---------------------------------------------- which payloads are faithful

  lemma {:induction false} JoinLength(lines: seq<string>)
    ensures |Join(DropLeadingEmpty(lines))| <= |Join(lines)|
    ensures lines != [] && lines[0] == "" && |lines| > 1 ==> |Join(DropLeadingEmpty(lines))| < |Join(lines)|
  {
    if lines != [] && lines[0] == "" {
      JoinLength(lines[1..]);
    }
  }

  /** The payload is the trimmed data lines joined by newlines exactly if the
      first of them is not empty, or there is no second. */
  lemma PayloadIsJoinIff(lines: seq<string>)
    ensures Join(DropLeadingEmpty(lines)) == Join(lines) <==> |lines| <= 1 || lines[0] != ""
  {
    JoinLength(lines);
    if |lines| == 1 && lines[0] == "" { assert DropLeadingEmpty(lines) == []; }
  }

  /** A "message" block is given out exactly if some trimmed data line is not empty. */
  lemma {:induction false} PayloadIsEmptyIff(lines: seq<string>)
    ensures Join(DropLeadingEmpty(lines)) == "" <==> forall k :: 0 <= k < |lines| ==> lines[k] == ""
  {
    if lines == [] {
    } else if lines[0] == "" {
      PayloadIsEmptyIff(lines[1..]);
      assert forall k :: 1 <= k < |lines| ==> lines[k] == lines[1..][k - 1];
    } else if |lines| == 1 {
    } else {
      assert |Join(lines)| >= |lines[0]| > 0;
    }
  }

  /** A "message" block whose first trimmed data line is not empty is given out
      as its trimmed data lines joined by newlines. */
  lemma MessageBlockIsDelivered(b: Block)
    requires TrimSpace(b.event) == MESSAGE && DataLines(b.items) != [] && DataLines(b.items)[0] != ""
    ensures Delivered(b) == [Join(DataLines(b.items))]
  {
    PayloadIsJoinIff(DataLines(b.items));
    PayloadIsEmptyIff(DataLines(b.items));
  }

  // -------------------------------------------------------- messages survive

  const CONNECTED := "connected"
  const CLOSED := "closed"

  /** The block the queue service writes for an event. */
  function EventBlock(event: string, text: string): Block {
    Block(event, Lf, [Data(text, Lf)], Lf)
  }

  function MessageBlock(text: string): Block {
    EventBlock(MESSAGE, text)
  }

  function MessageBlocks(encode: Message -> string, ms: seq<Message>): seq<Block> {
    if ms == [] then [] else [MessageBlock(encode(ms[0]))] + MessageBlocks(encode, ms[1..])
  }

  /** An encoding on one line, without blanks around it, that `decode` undoes. */
  ghost predicate Encodes(encode: Message -> string, decode: string -> Option<Message>) {
    forall m :: AnyChars(encode(m)) && encode(m) != "" && TrimSpace(encode(m)) == encode(m) && decode(encode(m)) == Some(m)
  }

  /** What the service writes: a greeting, the messages, and a farewell if the
      subscription is closed before the client goes away. */
  function ServiceBlocks(encode: Message -> string, greeting: string, ms: seq<Message>, farewell: Option<string>): seq<Block> {
    [EventBlock(CONNECTED, greeting)] + MessageBlocks(encode, ms)
    + if farewell.Some? then [EventBlock(CLOSED, farewell.value)] else []
  }

  lemma EventBlockText(event: string, text: string)
    ensures FrameBlock(EventBlock(event, text)) == "event:" + event + "\n" + ("data:" + text + "\n") + "\n"
  {
    OneDataLine(text, Lf);
    hide FrameItems;
  }

  lemma NamesAreTrimmed()
    ensures TrimSpace(MESSAGE) == MESSAGE && TrimSpace(CONNECTED) == CONNECTED && TrimSpace(CLOSED) == CLOSED
  {
    assert TrimLeft(MESSAGE) == MESSAGE && TrimLeft(CONNECTED) == CONNECTED && TrimLeft(CLOSED) == CLOSED;
  }

  /** A block for another event gives nothing. */
  lemma OtherBlockIsSilent(event: string, text: string, rest: string)
    requires (event == CONNECTED || event == CLOSED) && AnyChars(text)
    ensures Payloads(IDLE, FrameBlock(EventBlock(event, text)) + rest) == Payloads(IDLE, rest)
  {
    NamesAreTrimmed();
    hide Payloads, FrameBlock, TrimSpace;
    var b := EventBlock(event, text);
    assert Delivered(b) == [] && BlockOk(b);
    PayloadsOfBlock(b, rest);
    assert [] + Payloads(IDLE, rest) == Payloads(IDLE, rest);
  }

  lemma MessageBlockGivesText(text: string)
    requires AnyChars(text) && text != "" && TrimSpace(text) == text
    ensures BlockOk(MessageBlock(text)) && Delivered(MessageBlock(text)) == [text]
  {
    var b := MessageBlock(text);
    NamesAreTrimmed();
    assert b.items[1..] == [];
    assert DataLines(b.items) == [text];
    MessageBlockIsDelivered(b);
  }

  lemma DecodedOne(decode: string -> Option<Message>, text: string)
    ensures Decoded(decode, [text]) == DecodeOne(decode, text)
  {
    assert [text][1..] == [] && DecodeOne(decode, text) + [] == DecodeOne(decode, text);
  }

  lemma {:induction false} FrameAllAppend(a: seq<Block>, b: seq<Block>)
    ensures FrameAll(a + b) == FrameAll(a) + FrameAll(b)
  {
    hide FrameBlock;
    if a == [] {
      assert a + b == b;
    } else {
      FrameAllAppend(a[1..], b);
      assert (a + b)[0] == a[0] && (a + b)[1..] == a[1..] + b;
      assert FrameBlock(a[0]) + (FrameAll(a[1..]) + FrameAll(b)) == (FrameBlock(a[0]) + FrameAll(a[1..])) + FrameAll(b);
    }
  }

  lemma OneMessageComes(encode: Message -> string, decode: string -> Option<Message>, m: Message, rest: string)
    requires Encodes(encode, decode)
    ensures ToCome(decode, IDLE, FrameBlock(MessageBlock(encode(m))) + rest) == [m] + ToCome(decode, IDLE, rest)
  {
    var text := encode(m);
    assert decode(text) == Some(m);
    MessageBlockGivesText(text);
    PayloadsOfBlock(MessageBlock(text), rest);
    DecodedAppend(decode, [text], Payloads(IDLE, rest));
    DecodedOne(decode, text);
    hide Payloads, TrimSpace, Delivered, FrameBlock, Decoded;
  }

  /** The messages framed before `rest` are received before what `rest` gives. */
  lemma {:induction false} MessagesComeFirst(encode: Message -> string, decode: string -> Option<Message>, ms: seq<Message>, rest: string)
    requires Encodes(encode, decode)
    ensures ToCome(decode, IDLE, FrameAll(MessageBlocks(encode, ms)) + rest) == ms + ToCome(decode, IDLE, rest)
  {
    hide ToCome, FrameBlock, Encodes, MessageBlock;
    if ms == [] {
      assert "" + rest == rest && [] + ToCome(decode, IDLE, rest) == ToCome(decode, IDLE, rest);
    } else {
      var first, others := FrameBlock(MessageBlock(encode(ms[0]))), FrameAll(MessageBlocks(encode, ms[1..]));
      assert MessageBlocks(encode, ms)[1..] == MessageBlocks(encode, ms[1..]);
      assert (first + others) + rest == first + (others + rest);
      OneMessageComes(encode, decode, ms[0], others + rest);
      MessagesComeFirst(encode, decode, ms[1..], rest);
      Reassociate([ms[0]], ms[1..], ToCome(decode, IDLE, rest));
      assert [ms[0]] + ms[1..] == ms;
    }
  }

  /** Round trip: of everything the service writes, greeting and farewell
      included, the client receives exactly the messages, in order. */
  lemma MessagesSurviveTheStream(encode: Message -> string, decode: string -> Option<Message>,
                                 greeting: string, ms: seq<Message>, farewell: Option<string>)
    requires Encodes(encode, decode) && AnyChars(greeting) && (farewell.Some? ==> AnyChars(farewell.value))
    ensures Decoded(decode, Payloads(IDLE, FrameAll(ServiceBlocks(encode, greeting, ms, farewell)))) == ms
  {
    var hello := EventBlock(CONNECTED, greeting);
    var end := if farewell.Some? then [EventBlock(CLOSED, farewell.value)] else [];
    var blocks := ServiceBlocks(encode, greeting, ms, farewell);
    var rest := FrameAll(end);
    assert blocks == [hello] + (MessageBlocks(encode, ms) + end);
    assert blocks[1..] == MessageBlocks(encode, ms) + end;
    FrameAllAppend(MessageBlocks(encode, ms), end);
    OtherBlockIsSilent(CONNECTED, greeting, FrameAll(MessageBlocks(encode, ms)) + rest);
    MessagesComeFirst(encode, decode, ms, rest);
    EndIsSilent(decode, farewell);
    assert ms + [] == ms;
  }

  lemma EndIsSilent(decode: string -> Option<Message>, farewell: Option<string>)
    requires farewell.Some? ==> AnyChars(farewell.value)
    ensures ToCome(decode, IDLE, FrameAll(if farewell.Some? then [EventBlock(CLOSED, farewell.value)] else [])) == []
  {
    if farewell.Some? {
      var b := EventBlock(CLOSED, farewell.value);
      OtherBlockIsSilent(CLOSED, farewell.value, "");
      hide FrameBlock;
      assert [b][1..] == [] && FrameAll([b]) == FrameBlock(b) + "";
    }
  }

  // ------------------------------------------------- written out, byte by byte

  /** The code points that Go counts as blank. */
  lemma SpacesAre(ch: char)
    ensures IsSpace(ch) <==>
            ch as int in {9, 10, 11, 12, 13, 32, 133, 160, 5760, 8192, 8193, 8194, 8195, 8196, 8197, 8198, 8199, 8200,
                          8201, 8202, 8232, 8233, 8239, 8287, 12288}
  {
  }

  lemma {:induction false} TrimLeftMeans(s: string) returns (i: nat)
    ensures i <= |s| && TrimLeft(s) == s[i..] && forall k :: 0 <= k < i ==> IsSpace(s[k])
    ensures i < |s| ==> !IsSpace(s[i])
  {
    if s != "" && IsSpace(s[0]) {
      var j := TrimLeftMeans(s[1..]);
      i := j + 1;
      assert forall k :: 1 <= k < i ==> s[k] == s[1..][k - 1];
    } else {
      i := 0;
    }
  }

  lemma {:induction false} TrimRightMeans(s: string) returns (j: nat)
    ensures j <= |s| && TrimRight(s) == s[..j] && forall k :: j <= k < |s| ==> IsSpace(s[k])
    ensures j > 0 ==> !IsSpace(s[j - 1])
  {
    if s != "" && IsSpace(s[|s| - 1]) {
      j := TrimRightMeans(s[..|s| - 1]);
      assert s[..|s| - 1][..j] == s[..j];
    } else {
      j := |s|;
    }
  }

  /** Trimming takes off blanks at both ends, all of them and nothing else. */
  lemma TrimSpaceMeans(s: string) returns (i: nat, j: nat)
    ensures i <= j <= |s| && TrimSpace(s) == s[i..j]
    ensures forall k :: 0 <= k < i || j <= k < |s| ==> IsSpace(s[k])
    ensures i < j ==> !IsSpace(s[i]) && !IsSpace(s[j - 1])
  {
    i := TrimLeftMeans(s);
    var n := TrimRightMeans(s[i..]);
    j := i + n;
    assert s[i..][..n] == s[i..j];
    assert forall k :: i <= k < |s| ==> s[k] == s[i..][k - i];
  }

  /** No blanks at its ends, and not empty. */
  predicate Solid(t: string) {
    t != "" && !IsSpace(t[0]) && !IsSpace(t[|t| - 1])
  }

  lemma SolidStays(t: string)
    requires Solid(t)
    ensures TrimSpace(t) == t && TrimSpace(" " + t) == t && TrimSpace(t + " ") == t && TrimSpace(" " + t + " ") == t
  {
    var space := ' ';
    assert IsSpace(space);
    assert (" " + t)[1..] == t && (t + " ")[..|t|] == t && (" " + t + " ")[1..] == t + " ";
    assert TrimLeft(t) == t && TrimLeft(t + " ") == t + " " && TrimLeft(" " + t) == t;
    assert TrimLeft(" " + t + " ") == t + " ";
    assert TrimRight(t) == t && TrimRight(t + " ") == t;
  }

  lemma BlockOnTheWire(event: string, items: seq<Item>, eol: Eol)
    requires AnyChars(event) && forall k :: 0 <= k < |items| ==> ItemOk(items[k])
    ensures var line := if eol.Lf? then "\n" else "\r\n";
            Payloads(IDLE, "event:" + event + line + FrameItems(items) + line) == Delivered(Block(event, eol, items, eol))
  {
    var b := Block(event, eol, items, eol);
    hide Payloads, FrameItems, Delivered;
    PayloadsOfBlock(b, "");
    assert FrameBlock(b) + "" == FrameBlock(b);
    assert Payloads(IDLE, "") == [] by { NothingToCome(); }
    assert Delivered(b) + [] == Delivered(b);
  }

  lemma NothingToCome()
    ensures Payloads(IDLE, "") == []
  {
  }

  lemma OneDataLine(t: string, eol: Eol)
    ensures FrameItems([Data(t, eol)]) == "data:" + t + if eol.Lf? then "\n" else "\r\n"
    ensures DataLines([Data(t, eol)]) == [TrimSpace(t)]
  {
    hide TrimSpace;
    var items := [Data(t, eol)];
    assert items[1..] == [];
    assert DATA + t + EolText(eol) + "" == "data:" + t + EolText(eol);
  }

  /** The plainest stream, an event line, a data line and an empty line: the text is
      given out for the event "message". */
  lemma OneMessageOnTheWire(t: string)
    requires AnyChars(t) && Solid(t)
    ensures Payloads(IDLE, "event:" + "message" + "\n" + ("data:" + t + "\n") + "\n") == [t]
  {
    var items := [Data(t, Lf)];
    SolidStays(t);
    SolidStays("message");
    OneDataLine(t, Lf);
    BlockOnTheWire("message", items, Lf);
    hide Payloads, TrimSpace, FrameItems, DataLines;
    MessageBlockIsDelivered(Block("message", Lf, items, Lf));
  }

  /** The same with CRLF and a blank after each colon. */
  lemma SpacedMessageOnTheWire(t: string)
    requires AnyChars(t) && Solid(t)
    ensures Payloads(IDLE, "event:" + " message" + "\r\n" + ("data:" + (" " + t) + "\r\n") + "\r\n") == [t]
  {
    var items := [Data(" " + t, CrLf)];
    SolidStays(t);
    SolidStays("message");
    OneDataLine(" " + t, CrLf);
    assert " " + "message" == " message" && AnyChars(" " + t) && AnyChars(" message");
    BlockOnTheWire(" message", items, CrLf);
    hide Payloads, TrimSpace, FrameItems, DataLines;
    MessageBlockIsDelivered(Block(" message", CrLf, items, CrLf));
  }

  /** Any other event gives nothing. */
  lemma OtherEventOnTheWire(event: string, t: string)
    requires AnyChars(event) && Solid(event) && event != "message" && AnyChars(t)
    ensures Payloads(IDLE, "event:" + event + "\n" + ("data:" + t + "\n") + "\n") == []
  {
    SolidStays(event);
    OneDataLine(t, Lf);
    BlockOnTheWire(event, [Data(t, Lf)], Lf);
    hide Payloads, TrimSpace, FrameItems, DataLines;
  }

  lemma TwoDataLines(t: string, u: string)
    ensures FrameItems([Data(t, Lf), Data(u, Lf)]) == ("data:" + t + "\n") + ("data:" + u + "\n")
    ensures DataLines([Data(t, Lf), Data(u, Lf)]) == [TrimSpace(t), TrimSpace(u)]
  {
    hide TrimSpace;
    var items := [Data(t, Lf), Data(u, Lf)];
    OneDataLine(u, Lf);
    assert items[1..] == [Data(u, Lf)];
    assert DATA + t + EolText(Lf) == "data:" + t + "\n";
  }

  /** Two data lines are joined by one newline. */
  lemma TwoLinesOnTheWire(t: string, u: string)
    requires AnyChars(t) && Solid(t) && AnyChars(u) && Solid(u)
    ensures Payloads(IDLE, "event:" + "message" + "\n" + (("data:" + t + "\n") + ("data:" + u + "\n")) + "\n") == [t + "\n" + u]
  {
    var items := [Data(t, Lf), Data(u, Lf)];
    SolidStays(t);
    SolidStays(u);
    SolidStays("message");
    TwoDataLines(t, u);
    BlockOnTheWire("message", items, Lf);
    hide Payloads, TrimSpace, FrameItems, DataLines;
    MessageBlockIsDelivered(Block("message", Lf, items, Lf));
    assert [t, u][1..] == [u];
  }

  lemma EventLineOnTheWire(mc: Machine, rest: string)
    ensures Payloads(mc, "event:" + "message" + "\n" + rest) == Payloads(Machine("message", ""), rest)
  {
    SolidStays("message");
    var line := "event:" + "message";
    assert AnyChars(line) && line[|EVENT|..] == "message";
    PayloadsOfLine(mc, line, Lf, rest);
    hide Payloads, TrimSpace;
    assert [] + Payloads(Machine("message", ""), rest) == Payloads(Machine("message", ""), rest);
  }

  lemma DataLineOnTheWire(t: string, rest: string)
    requires AnyChars(t) && Solid(t)
    ensures Payloads(Machine("message", ""), "data:" + t + "\n" + rest) == Payloads(Machine("message", t), rest)
  {
    var line, mc := DATA + t, Machine("message", "");
    SolidStays(t);
    ItemStep(mc, Data(t, Lf));
    PayloadsOfLine(mc, line, Lf, rest);
    hide Payloads, TrimSpace, OnLine, Given;
    assert AddData("", t) == "" + t == t;
    assert [] + Payloads(Machine("message", t), rest) == Payloads(Machine("message", t), rest);
  }

  lemma EmptyLineOnTheWire(t: string, rest: string)
    requires t != ""
    ensures Payloads(Machine("message", t), "\n" + rest) == [t] + Payloads(IDLE, rest)
  {
    assert "" + "\n" + rest == "\n" + rest;
    PayloadsOfLine(Machine("message", t), "", Lf, rest);
  }

  /** Without a newline to come, only what is pending is given out. */
  lemma UnfinishedLine(mc: Machine, line: string)
    requires '\n' !in line
    ensures Payloads(mc, line) == if mc.data != "" && mc.event == "message" then [mc.data] else []
  {
    assert FirstLine(line) == 0;
  }

  /** At the end of the stream what is complete is given out even without an empty
      line, but a last line without its newline is lost. */
  lemma EndOfStreamOnTheWire(t: string)
    requires AnyChars(t) && Solid(t)
    ensures Payloads(IDLE, "event:" + "message" + "\n" + ("data:" + t + "\n" + "")) == [t]
    ensures Payloads(IDLE, "event:" + "message" + "\n" + ("data:" + t)) == []
  {
    EventLineOnTheWire(IDLE, "data:" + t + "\n" + "");
    EventLineOnTheWire(IDLE, "data:" + t);
    DataLineOnTheWire(t, "");
    UnfinishedLine(Machine("message", t), "");
    UnfinishedLine(Machine("message", ""), "data:" + t);
  }

  /** A new event line drops the data gathered before it. */
  lemma NewEventDropsData(t: string, u: string)
    requires AnyChars(t) && Solid(t) && AnyChars(u) && Solid(u)
    ensures Payloads(IDLE, "event:" + "message" + "\n" + ("data:" + t + "\n"
                           + ("event:" + "message" + "\n" + ("data:" + u + "\n" + ("\n" + ""))))) == [u]
  {
    hide Payloads;
    var last := "data:" + u + "\n" + ("\n" + "");
    EventLineOnTheWire(IDLE, "data:" + t + "\n" + ("event:" + "message" + "\n" + last));
    DataLineOnTheWire(t, "event:" + "message" + "\n" + last);
    EventLineOnTheWire(Machine("message", t), last);
    DataLineOnTheWire(u, "\n" + "");
    EmptyLineOnTheWire(u, "");
    NothingToCome();
    assert [u] + [] == [u];
  }
}
