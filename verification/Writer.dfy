/** Turning OpenAI stream chunks into Anthropic events, and the relay that sends nothing before the
    answer is worth sending. */
module Writer {
  import opened TagText
  import Filter = ThinkFilter
  import opened Options

  // ---- JSON, as far as the writer looks at it ----

  datatype Json = Object(fields: map<string, string>) | Other(text: string)

  const EMPTY := Object(map[])

  /** A decoder and an encoder, which undo each other. */
  datatype Codec = Codec(loads: string -> Option<Json>, dumps: Json -> string)

  ghost predicate Lawful(codec: Codec) {
    && (forall j :: codec.loads(codec.dumps(j)) == Some(j))
    && codec.loads("{}") == Some(EMPTY)
  }

  // ---- what arrives ----

  /** A piece of a tool call; what the engine leaves out is empty. `id` is the one drawn should the
      piece start a call. */
  datatype CallPiece = CallPiece(index: int, name: string, arguments: string, id: string)

  datatype RawUsage = RawUsage(prompt: int, cached: int, completion: int)

  datatype Choice = Choice(finishReason: string, text: string, calls: seq<CallPiece>)

  datatype Chunk = Chunk(usage: Option<RawUsage>, choice: Option<Choice>)

  // ---- what goes out ----

  datatype Usage = Usage(input: int, cacheRead: int, output: int)

  datatype Block = Text(text: string) | Tool(id: string, name: string, input: Json)

  type Counts = map<string, int>

  /** A usage as the message's end reports it. */
  function Wire(u: Usage): Counts {
    map["input_tokens" := u.input, "cache_creation_input_tokens" := 0,
        "cache_read_input_tokens" := u.cacheRead, "output_tokens" := u.output]
  }

  datatype Event =
    | MessageStart(model: string, usage: Counts)
    | Start(index: nat, block: Block)
    | TextDelta(index: nat, text: string)
    | JsonDelta(index: nat, json: string)
    | Stop(index: nat)
    | MessageDelta(stopReason: Option<string>, usage: Counts)
    | MessageStop
    | Ping

  /** The three events of a block. */
  function BlockEvents(index: nat, b: Block, codec: Codec): seq<Event> {
    match b
    case Text(text) => [Start(index, Text("")), TextDelta(index, text), Stop(index)]
    case Tool(id, name, input) =>
      [Start(index, Tool(id, name, EMPTY)), JsonDelta(index, codec.dumps(input)), Stop(index)]
  }

  // ---- the writer's steps ----
  // A text block is open only at the end of the content, and the call being written is always one
  // of the calls: the guards below that ask for it only make the functions total (see `InStep`).

  /** A tool call being written. */
  datatype Call = Call(id: string, name: string, arguments: string)

  datatype State = State(
    think: Filter.State, index: nat, textOpen: bool,
    calls: map<int, Call>, current: Option<int>,
    content: seq<Block>, usage: Usage, finishReason: string,
    committed: bool, started: bool, called: seq<string>, stopReason: string)

  const FRESH := State(Filter.Deciding(""), 0, false, map[], None, [], Usage(0, 0, 0), "", false, false, [], "end_turn")

  /** A step emits events, or finds the answer unusable. */
  datatype Outcome = Unusable | Done(state: State, events: seq<Event>)

  /** What the writer is set up with. */
  datatype Setup = Setup(tools: set<string>, codec: Codec, blank: Blank)

  function Then(a: seq<Event>, o: Outcome): Outcome {
    if o.Unusable? then o else o.(events := a + o.events)
  }

  function WriteText(s: State, text: string): Outcome {
    if s.textOpen && s.content != [] && s.content[|s.content| - 1].Text? then
      var last := s.content[|s.content| - 1];
      Done(s.(started := true, committed := true,
              content := s.content[..|s.content| - 1] + [Text(last.text + text)]),
           [TextDelta(s.index, text)])
    else
      Done(s.(started := true, committed := true, textOpen := true, content := s.content + [Text("" + text)]),
           [Start(s.index, Text("")), TextDelta(s.index, text)])
  }

  function CloseText(s: State): State {
    if s.textOpen then s.(textOpen := false, index := s.index + 1) else s
  }

  function CloseEvents(s: State): seq<Event> {
    if s.textOpen then [Stop(s.index)] else []
  }

  function Arguments(call: Call, codec: Codec): Option<Json> {
    codec.loads(if call.arguments == "" then "{}" else call.arguments)
  }

  /** A call the client could carry out: an offered tool, its arguments an object. */
  predicate Checks(call: Call, setup: Setup) {
    var a := Arguments(call, setup.codec);
    call.name in setup.tools && a.Some? && a.value.Object?
  }

  /** Emits the call being written, whole. */
  function Flush(s: State, setup: Setup): Outcome {
    if s.current.None? || s.current.value !in s.calls then Done(s, [])
    else if !Checks(s.calls[s.current.value], setup) && !s.committed then Unusable
    else Emitted(s, s.calls[s.current.value], setup)
  }

  /** A whole call as a block; arguments that are no object are left out. */
  function Emitted(s: State, call: Call, setup: Setup): Outcome {
    var a := Arguments(call, setup.codec);
    var block := Tool(call.id, call.name, if a.Some? && a.value.Object? then a.value else EMPTY);
    var t := CloseText(s);
    Done(t.(current := None, index := t.index + 1, content := t.content + [block],
            called := t.called + [call.name], committed := true),
         CloseEvents(s) + BlockEvents(t.index, block, setup.codec))
  }

  lemma FlushIs(s: State, setup: Setup)
    ensures s.current.None? ==> Flush(s, setup) == Done(s, [])
    ensures s.current.Some? && s.current.value in s.calls ==>
      Flush(s, setup) == if !Checks(s.calls[s.current.value], setup) && !s.committed then Unusable
                         else Emitted(s, s.calls[s.current.value], setup)
  {
  }

  /** One more piece of a call being written. */
  function Extend(s: State, p: CallPiece): State
    requires p.index in s.calls
  {
    var call := s.calls[p.index];
    var named := if call.name == "" then call.(name := p.name) else call;
    s.(calls := s.calls[p.index := named.(arguments := named.arguments + p.arguments)])
  }

  function WritePiece(s: State, p: CallPiece, setup: Setup): Outcome {
    if p.index in s.calls then Done(Extend(s, p), [])
    else
      // The calls come one after another.
      var f := Flush(s, setup);
      if f.Unusable? then f
      else
        var begun := f.state.(calls := f.state.calls[p.index := Call(p.id, p.name, "")],
                              current := Some(p.index), started := true);
        Done(Extend(begun, p), f.events)
  }

  function WritePieces(s: State, ps: seq<CallPiece>, setup: Setup): Outcome
    decreases |ps|
  {
    if ps == [] then Done(s, [])
    else
      var o := WritePiece(s, ps[0], setup);
      if o.Unusable? then o else Then(o.events, WritePieces(o.state, ps[1..], setup))
  }

  function UsageOf(raw: RawUsage): Usage {
    var positive := if raw.cached > 0 then raw.cached else 0;
    var cached := if positive < raw.prompt then positive else raw.prompt;
    Usage(raw.prompt - cached, cached, raw.completion)
  }

  function Feed(s: State, c: Chunk, setup: Setup): Outcome {
    var s := if c.usage.Some? then s.(usage := UsageOf(c.usage.value)) else s;
    if c.choice.None? then Done(s, [])
    else
      var choice := c.choice.value;
      var s := if choice.finishReason != "" then s.(finishReason := choice.finishReason) else s;
      var f := Filter.Feed(s.think, choice.text, setup.blank);
      var s := s.(think := f.state);
      var t := if f.out != "" then WriteText(s, f.out) else Done(s, []);
      if t.Unusable? then t else Then(t.events, WritePieces(t.state, choice.calls, setup))
  }

  function StopReason(s: State): string {
    if s.called != [] then "tool_use" else if s.finishReason == "length" then "max_tokens" else "end_turn"
  }

  /** What is emitted at the end of a stream. */
  function Finish(s: State, setup: Setup): Outcome {
    var f := Flush(s, setup);
    if f.Unusable? then f
    else
      var t := CloseText(f.state);
      var stop := StopReason(t);
      Done(t.(stopReason := stop),
           f.events + CloseEvents(f.state) + [MessageDelta(Some(stop), Wire(t.usage)), MessageStop])
  }

  function FeedAll(s: State, chunks: seq<Chunk>, setup: Setup): Outcome
    decreases |chunks|
  {
    if chunks == [] then Done(s, [])
    else
      var o := Feed(s, chunks[0], setup);
      if o.Unusable? then o else Then(o.events, FeedAll(o.state, chunks[1..], setup))
  }

  // ---- reading the events back ----

  datatype Open = Closed | OpenText(text: string) | OpenTool(id: string, name: string, json: string)

  /** A reader of the stream: the model and the usage so far, the blocks that ended, the one that is
      open, and how the message ended. `Bad` once an event came out of order. */
  datatype Reader =
    | Bad
    | Reader(model: string, usage: Counts, blocks: seq<Block>, open: Open, stop: Option<Option<string>>, ended: bool)

  /** A reader of a message that has started. */
  function Unread(model: string, usage: Counts): Reader { Reader(model, usage, [], Closed, None, false) }

  /** What the relay opens its message with. */
  function Opened(model: string): Event {
    MessageStart(model, map["input_tokens" := 0, "output_tokens" := 0])
  }

  function ReadEvent(r: Reader, e: Event, codec: Codec): Reader {
    if r.Bad? then Bad
    else match e
      case Ping => r
      case MessageStart(_, _) => Bad
      case Start(i, b) =>
        if r.open.Closed? && r.stop.None? && i == |r.blocks| then
          r.(open := if b.Text? then OpenText(b.text) else OpenTool(b.id, b.name, ""))
        else Bad
      case TextDelta(i, text) =>
        if r.open.OpenText? && i == |r.blocks| then r.(open := OpenText(r.open.text + text)) else Bad
      case JsonDelta(i, json) =>
        if r.open.OpenTool? && i == |r.blocks| then r.(open := r.open.(json := r.open.json + json)) else Bad
      case Stop(i) =>
        if i != |r.blocks| || r.open.Closed? then Bad
        else if r.open.OpenText? then r.(blocks := r.blocks + [Text(r.open.text)], open := Closed)
        else
          var input := codec.loads(r.open.json);
          if input.None? then Bad
          else r.(blocks := r.blocks + [Tool(r.open.id, r.open.name, input.value)], open := Closed)
      case MessageDelta(stop, usage) =>
        if r.open.Closed? && r.stop.None? then r.(stop := Some(stop), usage := r.usage + usage) else Bad
      case MessageStop =>
        if r.stop.Some? && !r.ended then r.(ended := true) else Bad
  }

  function Read(r: Reader, events: seq<Event>, codec: Codec): Reader
    decreases |events|
  {
    if events == [] then r else Read(ReadEvent(r, events[0], codec), events[1..], codec)
  }

  /** A whole stream: a message start, and what follows it. */
  function ReadStream(events: seq<Event>, codec: Codec): Reader {
    if events == [] || !events[0].MessageStart? then Bad
    else Read(Unread(events[0].model, events[0].usage), events[1..], codec)
  }

  lemma {:induction false} ReadConcat(r: Reader, a: seq<Event>, b: seq<Event>, codec: Codec)
    ensures Read(r, a + b, codec) == Read(Read(r, a, codec), b, codec)
    decreases |a|
  {
    if a == [] {
      assert a + b == b;
    } else {
      assert (a + b)[1..] == a[1..] + b;
      ReadConcat(ReadEvent(r, a[0], codec), a[1..], b, codec);
    }
  }

  lemma ReadOne(r: Reader, e: Event, codec: Codec)
    ensures Read(r, [e], codec) == ReadEvent(r, e, codec)
  {
    assert [e][1..] == [];
  }

  lemma ReadTwo(r: Reader, e: Event, f: Event, codec: Codec)
    ensures Read(r, [e, f], codec) == ReadEvent(ReadEvent(r, e, codec), f, codec)
  {
    assert [e, f][1..] == [f];
    ReadOne(ReadEvent(r, e, codec), f, codec);
  }

  lemma ReadThree(r: Reader, e: Event, f: Event, g: Event, codec: Codec)
    ensures Read(r, [e, f, g], codec) == ReadEvent(ReadEvent(ReadEvent(r, e, codec), f, codec), g, codec)
  {
    assert [e, f, g][1..] == [f, g];
    ReadTwo(ReadEvent(r, e, codec), f, g, codec);
  }

  function ToolNames(blocks: seq<Block>): seq<string> {
    if blocks == [] then []
    else
      var last := blocks[|blocks| - 1];
      ToolNames(blocks[..|blocks| - 1]) + (if last.Tool? then [last.name] else [])
  }

  // ---- what every step keeps ----

  /** The reader of everything emitted so far is where the writer is. */
  ghost predicate InStep(s: State, r: Reader) {
    && r.Reader? && r.stop.None? && !r.ended
    && s.index == |r.blocks|
    && (if s.textOpen then r.open.OpenText? && s.content == r.blocks + [Text(r.open.text)]
        else r.open.Closed? && s.content == r.blocks)
    && s.called == ToolNames(s.content)
    && (s.current.Some? ==> s.current.value in s.calls)
    && (s.committed <==> s.content != [])
  }

  /** A block to open with: of a tool call, one that checks, with its own arguments. */
  ghost predicate Opens(b: Block, setup: Setup) {
    b.Tool? ==> exists call :: Checks(call, setup) && b == Tool(call.id, call.name, Arguments(call, setup.codec).value)
  }

  /** Whatever was written opens so. */
  ghost predicate Offered(s: State, setup: Setup) {
    s.content != [] ==> Opens(s.content[0], setup)
  }

  /** What a step promises: it fails only before anything was emitted, and what it emits keeps the
      reader in step. */
  ghost predicate Keeps(s: State, r: Reader, o: Outcome, setup: Setup) {
    if o.Unusable? then !s.committed
    else
      && InStep(o.state, Read(r, o.events, setup.codec)) && Offered(o.state, setup)
      && (s.committed ==> o.state.committed)
      && (!o.state.committed ==> o.events == [])
  }

  lemma ToolNamesSnoc(blocks: seq<Block>, b: Block)
    ensures ToolNames(blocks + [b]) == ToolNames(blocks) + (if b.Tool? then [b.name] else [])
  {
    assert (blocks + [b])[..|blocks|] == blocks;
  }

  lemma WriteTextKeeps(s: State, r: Reader, text: string, setup: Setup)
    requires InStep(s, r) && Offered(s, setup)
    ensures Keeps(s, r, WriteText(s, text), setup)
  {
    hide Read, ToolNames;
    if s.textOpen {
      ReadOne(r, TextDelta(s.index, text), setup.codec);
      var init := s.content[..|s.content| - 1];
      assert init == r.blocks;
      ToolNamesSnoc(init, s.content[|s.content| - 1]);
      assert s.content == init + [s.content[|s.content| - 1]];
      ToolNamesSnoc(init, Text(r.open.text + text));
    } else {
      ReadTwo(r, Start(s.index, Text("")), TextDelta(s.index, text), setup.codec);
      ToolNamesSnoc(s.content, Text("" + text));
    }
  }

  lemma CloseTextKeeps(s: State, r: Reader, setup: Setup)
    requires InStep(s, r)
    ensures InStep(CloseText(s), Read(r, CloseEvents(s), setup.codec))
  {
    if s.textOpen { ReadOne(r, Stop(s.index), setup.codec); }
  }

  lemma BlockReads(r: Reader, b: Block, setup: Setup)
    requires Lawful(setup.codec) && r.Reader? && r.open.Closed? && r.stop.None?
    ensures Read(r, BlockEvents(|r.blocks|, b, setup.codec), setup.codec) == r.(blocks := r.blocks + [b])
  {
    hide Read, ReadEvent;
    match b
    case Text(text) => TextReads(r, text, setup);
    case Tool(id, name, input) => ToolReads(r, id, name, input, setup);
  }

  lemma TextReads(r: Reader, text: string, setup: Setup)
    requires r.Reader? && r.open.Closed? && r.stop.None?
    ensures Read(r, BlockEvents(|r.blocks|, Text(text), setup.codec), setup.codec) == r.(blocks := r.blocks + [Text(text)])
  {
    hide Read;
    var i := |r.blocks|;
    ReadThree(r, Start(i, Text("")), TextDelta(i, text), Stop(i), setup.codec);
    assert "" + text == text;
  }

  lemma ToolReads(r: Reader, id: string, name: string, input: Json, setup: Setup)
    requires Lawful(setup.codec) && r.Reader? && r.open.Closed? && r.stop.None?
    ensures Read(r, BlockEvents(|r.blocks|, Tool(id, name, input), setup.codec), setup.codec)
         == r.(blocks := r.blocks + [Tool(id, name, input)])
  {
    hide Read;
    var i, json := |r.blocks|, setup.codec.dumps(input);
    ReadThree(r, Start(i, Tool(id, name, EMPTY)), JsonDelta(i, json), Stop(i), setup.codec);
    assert "" + json == json;
  }

  lemma FlushKeeps(s: State, r: Reader, setup: Setup)
    requires Lawful(setup.codec) && InStep(s, r) && Offered(s, setup)
    ensures Keeps(s, r, Flush(s, setup), setup)
    ensures Flush(s, setup).Done? ==> Flush(s, setup).state.current.None?
  {
    hide Read, ToolNames, BlockEvents, Lawful, Arguments;
    var o := Flush(s, setup);
    if s.current.None? {
      ReadNone(r, setup.codec);
    } else if o.Done? {
      CloseTextKeeps(s, r, setup);
      var t := CloseText(s);
      var r' := Read(r, CloseEvents(s), setup.codec);
      var block := o.state.content[|s.content|];
      ReadConcat(r, CloseEvents(s), BlockEvents(t.index, block, setup.codec), setup.codec);
      BlockReads(r', block, setup);
      ToolNamesSnoc(s.content, block);
    }
  }

  lemma ReadNone(r: Reader, codec: Codec)
    ensures Read(r, [], codec) == r
  {
  }

  lemma WritePieceKeeps(s: State, r: Reader, p: CallPiece, setup: Setup)
    requires Lawful(setup.codec) && InStep(s, r) && Offered(s, setup)
    ensures Keeps(s, r, WritePiece(s, p, setup), setup)
  {
    hide Read, ToolNames, Lawful, Flush, Offered;
    ReadNone(r, setup.codec);
    FlushKeeps(s, r, setup);
    var o, f := WritePiece(s, p, setup), Flush(s, setup);
    if p.index in s.calls {
      SameCalls(s, o.state, r, setup);
    } else if f.Done? {
      SameCalls(f.state, o.state, Read(r, f.events, setup.codec), setup);
    }
  }

  lemma SameCalls(s: State, t: State, r: Reader, setup: Setup)
    requires InStep(s, r) && Offered(s, setup)
    requires t == s.(calls := t.calls, current := t.current, started := t.started)
    requires t.current.Some? ==> t.current.value in t.calls
    ensures InStep(t, r) && Offered(t, setup)
  {
  }

  /** Two steps one after the other. */
  lemma ThenKeeps(s: State, r: Reader, a: Outcome, b: Outcome, setup: Setup)
    requires a.Done? && Keeps(s, r, a, setup)
    requires Keeps(a.state, Read(r, a.events, setup.codec), b, setup)
    ensures Keeps(s, r, Then(a.events, b), setup)
  {
    hide Read, InStep, Offered;
    if b.Done? {
      ReadConcat(r, a.events, b.events, setup.codec);
    }
  }

  lemma {:induction false} WritePiecesKeeps(s: State, r: Reader, ps: seq<CallPiece>, setup: Setup)
    requires Lawful(setup.codec) && InStep(s, r) && Offered(s, setup)
    ensures Keeps(s, r, WritePieces(s, ps, setup), setup)
    decreases |ps|
  {
    hide Read, InStep, Offered, WritePiece, Lawful;
    if ps == [] {
      ReadNone(r, setup.codec);
    } else {
      var o := WritePiece(s, ps[0], setup);
      WritePieceKeeps(s, r, ps[0], setup);
      if o.Done? {
        WritePiecesKeeps(o.state, Read(r, o.events, setup.codec), ps[1..], setup);
        ThenKeeps(s, r, o, WritePieces(o.state, ps[1..], setup), setup);
      }
    }
  }

  /** Only the fields the reader cannot see changed. */
  lemma SameInStep(s: State, t: State, r: Reader, setup: Setup)
    requires InStep(s, r) && Offered(s, setup)
    requires t == s.(think := t.think, usage := t.usage, finishReason := t.finishReason)
    ensures InStep(t, r) && Offered(t, setup)
  {
  }

  lemma FeedKeeps(s: State, r: Reader, c: Chunk, setup: Setup)
    requires Lawful(setup.codec) && InStep(s, r) && Offered(s, setup)
    ensures Keeps(s, r, Feed(s, c, setup), setup)
  {
    hide Read, InStep, Offered, WriteText, WritePieces, Lawful, UsageOf, Filter.Feed;
    ReadNone(r, setup.codec);
    var a := if c.usage.Some? then s.(usage := UsageOf(c.usage.value)) else s;
    SameInStep(s, a, r, setup);
    if c.choice.Some? {
      var choice := c.choice.value;
      var b := if choice.finishReason != "" then a.(finishReason := choice.finishReason) else a;
      var f := Filter.Feed(b.think, choice.text, setup.blank);
      var d := b.(think := f.state);
      SameInStep(s, d, r, setup);
      var t := if f.out != "" then WriteText(d, f.out) else Done(d, []);
      if f.out != "" { WriteTextKeeps(d, r, f.out, setup); }
      TextNeverFails(d, f.out);
      WritePiecesKeeps(t.state, Read(r, t.events, setup.codec), choice.calls, setup);
      ThenKeeps(d, r, t, WritePieces(t.state, choice.calls, setup), setup);
    }
  }

  lemma TextNeverFails(s: State, text: string)
    ensures WriteText(s, text).Done?
  {
  }

  lemma {:induction false} FeedAllKeeps(s: State, r: Reader, chunks: seq<Chunk>, setup: Setup)
    requires Lawful(setup.codec) && InStep(s, r) && Offered(s, setup)
    ensures Keeps(s, r, FeedAll(s, chunks, setup), setup)
    decreases |chunks|
  {
    hide Read, InStep, Offered, Feed, Lawful;
    if chunks == [] {
      ReadNone(r, setup.codec);
    } else {
      var o := Feed(s, chunks[0], setup);
      FeedKeeps(s, r, chunks[0], setup);
      if o.Done? {
        FeedAllKeeps(o.state, Read(r, o.events, setup.codec), chunks[1..], setup);
        ThenKeeps(s, r, o, FeedAll(o.state, chunks[1..], setup), setup);
      }
    }
  }

  lemma FreshInStep(setup: Setup)
    ensures forall model, usage :: InStep(FRESH, Unread(model, usage))
    ensures Offered(FRESH, setup)
  {
  }

  /** Blocks leave the model and the usage alone. */
  lemma {:induction false} SameMessage(r: Reader, events: seq<Event>, codec: Codec)
    requires r.Reader? && Read(r, events, codec).Reader? && Read(r, events, codec).stop.None?
    ensures Read(r, events, codec).model == r.model && Read(r, events, codec).usage == r.usage
    decreases |events|
  {
    if events != [] {
      var r' := ReadEvent(r, events[0], codec);
      BadStays(r', events[1..], codec);
      StopStays(r', events[1..], codec);
      SameMessage(r', events[1..], codec);
    }
  }

  lemma {:induction false} BadStays(r: Reader, events: seq<Event>, codec: Codec)
    ensures r.Bad? ==> Read(r, events, codec).Bad?
    decreases |events|
  {
    if r.Bad? && events != [] { BadStays(r, events[1..], codec); }
  }

  lemma {:induction false} StopStays(r: Reader, events: seq<Event>, codec: Codec)
    ensures r.Reader? && r.stop.Some? ==> Read(r, events, codec).Bad? || Read(r, events, codec).stop.Some?
    decreases |events|
  {
    if r.Reader? && r.stop.Some? && events != [] {
      var r' := ReadEvent(r, events[0], codec);
      BadStays(r', events[1..], codec);
      StopStays(r', events[1..], codec);
    }
  }

  /** The stream is well formed and reads back to the writer's own content. */
  lemma FinishReads(s: State, r: Reader, setup: Setup)
    requires Lawful(setup.codec) && InStep(s, r) && Offered(s, setup)
    ensures Finish(s, setup).Unusable? ==> !s.committed
    ensures Finish(s, setup).Done? ==>
      var t := Finish(s, setup).state;
      && Read(r, Finish(s, setup).events, setup.codec)
         == Reader(r.model, r.usage + Wire(t.usage), t.content, Closed, Some(Some(t.stopReason)), true)
      && (t.committed <==> t.content != []) && Offered(t, setup)
      && (t.stopReason == "tool_use" <==> ToolNames(t.content) != [])
      && t.called == ToolNames(t.content)
  {
    hide Read, ToolNames, Lawful, Flush;
    FlushKeeps(s, r, setup);
    var f := Flush(s, setup);
    if f.Done? {
      var r' := Read(r, f.events, setup.codec);
      CloseTextKeeps(f.state, r', setup);
      var t := CloseText(f.state);
      var r'' := Read(r', CloseEvents(f.state), setup.codec);
      var last := [MessageDelta(Some(StopReason(t)), Wire(t.usage)), MessageStop];
      ReadConcat(r, f.events, CloseEvents(f.state), setup.codec);
      ReadConcat(r, f.events + CloseEvents(f.state), last, setup.codec);
      ReadTwo(r'', MessageDelta(Some(StopReason(t)), Wire(t.usage)), MessageStop, setup.codec);
      SameMessage(r, f.events, setup.codec);
      SameMessage(r', CloseEvents(f.state), setup.codec);
      assert t.content == f.state.content && t.committed == f.state.committed;
    }
  }

  /** For every chunk sequence not found unusable, the events of feeding it and finishing are blocks
      numbered from 0, one open at a time, closed by a message delta and a message stop, and reading
      them rebuilds exactly the writer's content, stop reason and usage. */
  lemma StreamReadsBack(chunks: seq<Chunk>, model: string, setup: Setup)
    requires Lawful(setup.codec)
    ensures var fed := FeedAll(FRESH, chunks, setup);
      fed.Done? ==>
        var o := Finish(fed.state, setup);
        o.Done? ==>
          ReadStream([Opened(model)] + (fed.events + o.events), setup.codec)
            == Reader(model, Wire(o.state.usage), o.state.content, Closed, Some(Some(o.state.stopReason)), true)
          && (o.state.stopReason == "tool_use" <==> ToolNames(o.state.content) != [])
  {
    hide Read, ToolNames, Lawful, FeedAll, Finish;
    var r := Unread(model, Opened(model).usage);
    FreshInStep(setup);
    FeedAllKeeps(FRESH, r, chunks, setup);
    var fed := FeedAll(FRESH, chunks, setup);
    if fed.Done? {
      FinishReads(fed.state, Read(r, fed.events, setup.codec), setup);
      SameMessage(r, fed.events, setup.codec);
      var o := Finish(fed.state, setup);
      if o.Done? {
        ReadConcat(r, fed.events, o.events, setup.codec);
        assert ([Opened(model)] + (fed.events + o.events))[1..] == fed.events + o.events;
        assert Opened(model).usage + Wire(o.state.usage) == Wire(o.state.usage);
      }
    }
  }

  /** A fallback is always clean: until the writer commits nothing was emitted and its content is
      empty; once it has, no chunk and no end of stream is ever unusable; and an answer that opens
      with a tool call opens with an offered one. */
  lemma FallbackIsClean(chunks: seq<Chunk>, c: Chunk, setup: Setup)
    requires Lawful(setup.codec)
    ensures var fed := FeedAll(FRESH, chunks, setup);
      fed.Done? ==>
        && (!fed.state.committed ==> fed.events == [] && fed.state.content == [])
        && (fed.state.committed ==> Feed(fed.state, c, setup).Done? && Finish(fed.state, setup).Done?)
        && Offered(fed.state, setup)
  {
    hide Read, ToolNames, Lawful, FeedAll, Finish, Feed;
    FreshInStep(setup);
    var unread := Unread("", map[]);
    FeedAllKeeps(FRESH, unread, chunks, setup);
    var fed := FeedAll(FRESH, chunks, setup);
    if fed.Done? {
      var r := Read(unread, fed.events, setup.codec);
      FeedKeeps(fed.state, r, c, setup);
      FinishReads(fed.state, r, setup);
    }
  }

  // ---- a whole message as a stream ----

  datatype Message = Message(model: string, content: seq<Block>, stopReason: Option<string>, usage: Counts)

  function ContentEvents(index: nat, content: seq<Block>, codec: Codec): seq<Event>
    decreases |content|
  {
    if content == [] then []
    else BlockEvents(index, content[0], codec) + ContentEvents(index + 1, content[1..], codec)
  }

  /** A message as the events a client reads from a stream. */
  function AsStream(m: Message, codec: Codec): seq<Event>
    requires "output_tokens" in m.usage
  {
    [MessageStart(m.model, m.usage["output_tokens" := 0])] + (ContentEvents(0, m.content, codec) +
      [MessageDelta(m.stopReason, map["output_tokens" := m.usage["output_tokens"]]), MessageStop])
  }

  method StreamMessage(m: Message, codec: Codec) returns (out: seq<Event>)
    requires "output_tokens" in m.usage
    ensures out == AsStream(m, codec)
  {
    hide BlockEvents;
    var start := MessageStart(m.model, m.usage["output_tokens" := 0]);
    var blocks: seq<Event> := [];
    assert m.content[0..] == m.content;
    for i := 0 to |m.content|
      invariant ContentEvents(0, m.content, codec) == blocks + ContentEvents(i, m.content[i..], codec)
    {
      assert m.content[i..][1..] == m.content[i + 1..];
      var more := BlockEvents(i, m.content[i], codec);
      assert blocks + (more + ContentEvents(i + 1, m.content[i + 1..], codec))
          == (blocks + more) + ContentEvents(i + 1, m.content[i + 1..], codec);
      blocks := blocks + more;
    }
    assert blocks + [] == blocks;
    out := [start] + (blocks +
      [MessageDelta(m.stopReason, map["output_tokens" := m.usage["output_tokens"]]), MessageStop]);
  }

  lemma {:induction false} ContentReads(r: Reader, content: seq<Block>, setup: Setup)
    requires Lawful(setup.codec) && r.Reader? && r.open.Closed? && r.stop.None?
    ensures Read(r, ContentEvents(|r.blocks|, content, setup.codec), setup.codec) == r.(blocks := r.blocks + content)
    decreases |content|
  {
    hide Read, BlockEvents, Lawful;
    if content == [] {
      ReadNone(r, setup.codec);
      assert r.blocks + content == r.blocks;
    } else {
      var i, r' := |r.blocks|, r.(blocks := r.blocks + [content[0]]);
      BlockReads(r, content[0], setup);
      ContentReads(r', content[1..], setup);
      ReadConcat(r, BlockEvents(i, content[0], setup.codec), ContentEvents(i + 1, content[1..], setup.codec), setup.codec);
      assert r.blocks + [content[0]] + content[1..] == r.blocks + content;
    }
  }

  /** A message streamed reads back as that message, its usage included. */
  lemma MessageReadsBack(m: Message, setup: Setup)
    requires Lawful(setup.codec) && "output_tokens" in m.usage
    ensures ReadStream(AsStream(m, setup.codec), setup.codec)
         == Reader(m.model, m.usage, m.content, Closed, Some(m.stopReason), true)
  {
    hide Read, ContentEvents, Lawful;
    var events := AsStream(m, setup.codec);
    var delta := MessageDelta(m.stopReason, map["output_tokens" := m.usage["output_tokens"]]);
    var content := ContentEvents(0, m.content, setup.codec);
    var r := Unread(m.model, m.usage["output_tokens" := 0]);
    assert events[1..] == content + [delta, MessageStop];
    ContentReads(r, m.content, setup);
    var r' := r.(blocks := [] + m.content);
    ReadConcat(r, content, [delta, MessageStop], setup.codec);
    ReadTwo(r', delta, MessageStop, setup.codec);
    assert [] + m.content == m.content;
    assert m.usage["output_tokens" := 0] + delta.usage == m.usage;
  }

  /** The call an answer opens with is emitted only if it checks, with its own arguments. */
  lemma FirstCallChecked(s: State, r: Reader, setup: Setup)
    requires InStep(s, r) && !s.committed && s.current.Some?
    ensures var call := s.calls[s.current.value];
      && (Flush(s, setup).Done? <==> Checks(call, setup))
      && (Checks(call, setup) ==>
            Flush(s, setup).state.content == [Tool(call.id, call.name, Arguments(call, setup.codec).value)])
  {
  }

  // ---- the relay ----

  /** What the relay waits for: a chunk, a deadline that passes first, or the engine breaking off. */
  datatype Item = Arrives(chunk: Chunk) | Late | Breaks

  /** Everything sent once the answer is committed: what each chunk emits, a ping while the engine is
      quiet, and the closing events unless the engine broke off. */
  function Follow(s: State, items: seq<Item>, setup: Setup): seq<Event>
    decreases |items|
  {
    if items == [] then
      var o := Finish(s, setup);
      if o.Done? then o.events else []
    else match items[0]
      case Late => [Ping] + Follow(s, items[1..], setup)
      case Breaks => []
      case Arrives(c) =>
        var o := Feed(s, c, setup);
        if o.Done? then o.events + Follow(o.state, items[1..], setup) else []
  }

  /** What the client gets after `held`, if anything: nothing until the answer is committed. */
  function Begin(s: State, items: seq<Item>, held: seq<Event>, setup: Setup): Option<seq<Event>>
    decreases |items|
  {
    if s.committed then Some(held + Follow(s, items, setup))
    else if items == [] then
      var o := Finish(s, setup);
      if o.Done? && o.state.committed then Some(held + o.events) else None
    else if !items[0].Arrives? then None
    else
      var o := Feed(s, items[0].chunk, setup);
      if o.Unusable? then None else Begin(o.state, items[1..], held + o.events, setup)
  }

  /** A reader that read `held` stays in step with the writer, whatever is relayed after it. */
  lemma {:induction false} FollowReads(s: State, r: Reader, items: seq<Item>, setup: Setup)
    requires Lawful(setup.codec) && InStep(s, r) && Offered(s, setup) && s.committed
    ensures var end := Read(r, Follow(s, items, setup), setup.codec);
      end.Reader? && OpensOffered(end, setup) && (Breaks !in items ==> end.ended && end.open.Closed? && end.blocks != [])
    decreases |items|
  {
    hide Read, InStep, Offered, Feed, Finish, Lawful, OpensOffered;
    InStepOpens(s, r, setup);
    if items == [] {
      FinishReads(s, r, setup);
      FinishCommits(s, setup);
      FinishOpens(s, r, setup);
    } else {
      var rest := items[1..];
      assert items == [items[0]] + rest;
      match items[0]
      case Late =>
        FollowReads(s, r, rest, setup);
        ReadOne(r, Ping, setup.codec);
        ReadConcat(r, [Ping], Follow(s, rest, setup), setup.codec);
      case Breaks =>
        ReadNone(r, setup.codec);
      case Arrives(c) =>
        var o := Feed(s, c, setup);
        FeedKeeps(s, r, c, setup);
        var r' := Read(r, o.events, setup.codec);
        FollowReads(o.state, r', rest, setup);
        ReadConcat(r, o.events, Follow(o.state, rest, setup), setup.codec);
    }
  }

  /** What was read opens so. */
  ghost predicate OpensOffered(r: Reader, setup: Setup)
    requires r.Reader?
  {
    r.blocks != [] ==> Opens(r.blocks[0], setup)
  }

  lemma InStepOpens(s: State, r: Reader, setup: Setup)
    requires InStep(s, r) && Offered(s, setup)
    ensures r.Reader? && OpensOffered(r, setup)
  {
    hide Opens;
  }

  lemma FinishOpens(s: State, r: Reader, setup: Setup)
    requires Lawful(setup.codec) && InStep(s, r) && Offered(s, setup)
    requires Finish(s, setup).Done? && Finish(s, setup).state.committed
    ensures var end := Read(r, Finish(s, setup).events, setup.codec); end.Reader? && OpensOffered(end, setup) && end.blocks != []
  {
    hide Read, InStep, Finish, Lawful, Opens;
    FinishReads(s, r, setup);
  }

  lemma FinishCommits(s: State, setup: Setup)
    requires s.committed && Finish(s, setup).Done?
    ensures Finish(s, setup).state.committed
  {
  }

  /** An answer that is relayed never sends an event out of order; unless the engine breaks off it
      ends, with at least one block, and a tool call it opens with is an offered one. One that is not
      sends nothing at all, so the request can still be answered elsewhere. */
  lemma {:induction false} RelayReads(s: State, items: seq<Item>, held: seq<Event>, unread: Reader, setup: Setup)
    requires Lawful(setup.codec) && Offered(s, setup)
    requires InStep(s, Read(unread, held, setup.codec)) && (!s.committed ==> held == [])
    ensures var sent := Begin(s, items, held, setup);
      sent.Some? ==>
        var end := Read(unread, sent.value, setup.codec);
        end.Reader? && OpensOffered(end, setup) && (Breaks !in items ==> end.ended && end.open.Closed? && end.blocks != [])
    decreases |items|
  {
    hide Read, InStep, Offered, Feed, Finish, Follow, Lawful, OpensOffered;
    var r := Read(unread, held, setup.codec);
    if s.committed {
      FollowReads(s, r, items, setup);
      ReadConcat(unread, held, Follow(s, items, setup), setup.codec);
    } else if items == [] {
      var o := Finish(s, setup);
      if o.Done? && o.state.committed {
        FinishReads(s, r, setup);
        FinishOpens(s, r, setup);
        ReadConcat(unread, held, o.events, setup.codec);
      }
    } else if items[0].Arrives? {
      var o := Feed(s, items[0].chunk, setup);
      FeedKeeps(s, r, items[0].chunk, setup);
      if o.Done? {
        ReadConcat(unread, held, o.events, setup.codec);
        RelayReads(o.state, items[1..], held + o.events, unread, setup);
      }
    }
  }

  /** The relay from the start of an answer. */
  lemma RelayIsClean(items: seq<Item>, model: string, setup: Setup)
    requires Lawful(setup.codec)
    ensures var sent := Begin(FRESH, items, [], setup);
      sent.Some? ==>
        var end := ReadStream([Opened(model)] + sent.value, setup.codec);
        end.Reader? && OpensOffered(end, setup) && (Breaks !in items ==> end.ended && end.open.Closed? && end.blocks != [])
  {
    hide Read, InStep, Offered, Begin, Lawful, OpensOffered;
    var unread := Unread(model, Opened(model).usage);
    FreshInStep(setup);
    ReadNone(unread, setup.codec);
    RelayReads(FRESH, items, [], unread, setup);
    var sent := Begin(FRESH, items, [], setup);
    if sent.Some? { assert ([Opened(model)] + sent.value)[1..] == sent.value; }
  }

  // ---- the writer itself ----

  class Writer {
    const setup: Setup
    var think: Filter.State
    var index: nat
    var textOpen: bool
    var calls: map<int, Call>
    var current: Option<int>
    var content: seq<Block>
    var usage: Usage
    var finishReason: string
    var committed: bool
    var started: bool
    var called: seq<string>
    var stopReason: string

    ghost function Now(): State
      reads this
    {
      State(think, index, textOpen, calls, current, content, usage, finishReason, committed, started, called, stopReason)
    }

    ghost predicate Valid()
      reads this
    {
      && (textOpen ==> content != [] && content[|content| - 1].Text?)
      && (current.Some? ==> current.value in calls)
    }

    constructor (setup: Setup)
      ensures this.setup == setup && Now() == FRESH && Valid()
    {
      this.setup := setup;
      think, index, textOpen, calls, current := Filter.Deciding(""), 0, false, map[], None;
      content, usage, finishReason, committed, started := [], Usage(0, 0, 0), "", false, false;
      called, stopReason := [], "end_turn";
    }

    method FeedChunk(c: Chunk) returns (usable: bool, events: seq<Event>)
      requires Valid()
      modifies this
      ensures usable <==> Feed(old(Now()), c, setup).Done?
      ensures usable ==> Valid() && Done(Now(), events) == Feed(old(Now()), c, setup)
    {
      hide Filter.Feed, WritePieces, UsageOf, WriteText;
      usable, events := true, [];
      if c.usage.Some? { usage := UsageOf(c.usage.value); }
      if c.choice.None? { return; }
      var choice := c.choice.value;
      if choice.finishReason != "" { finishReason := choice.finishReason; }
      var f := Filter.Feed(think, choice.text, setup.blank);
      think := f.state;
      if f.out != "" { events := AddText(f.out); }
      var more;
      usable, more := AddPieces(choice.calls);
      events := events + more;
    }

    method AddText(text: string) returns (events: seq<Event>)
      requires Valid()
      modifies this`started, this`committed, this`textOpen, this`content
      ensures Valid() && Done(Now(), events) == WriteText(old(Now()), text)
    {
      started, committed, events := true, true, [];
      if !textOpen {
        textOpen := true;
        content := content + [Text("")];
        events := events + [Start(index, Text(""))];
      }
      var last := |content| - 1;
      content := content[..last] + [Text(content[last].text + text)];
      events := events + [TextDelta(index, text)];
    }

    method CloseOpenText() returns (events: seq<Event>)
      modifies this`textOpen, this`index
      ensures Now() == CloseText(old(Now())) && events == CloseEvents(old(Now()))
    {
      if !textOpen { return []; }
      textOpen := false;
      events := [Stop(index)];
      index := index + 1;
    }

    method AddPieces(ps: seq<CallPiece>) returns (usable: bool, events: seq<Event>)
      requires Valid()
      modifies this
      ensures usable <==> WritePieces(old(Now()), ps, setup).Done?
      ensures usable ==> Valid() && Done(Now(), events) == WritePieces(old(Now()), ps, setup)
      decreases |ps|
    {
      hide WritePiece;
      usable, events := true, [];
      if ps == [] { return; }
      usable, events := AddPiece(ps[0]);
      if !usable { return; }
      var more;
      usable, more := AddPieces(ps[1..]);
      events := events + more;
    }

    method AddPiece(p: CallPiece) returns (usable: bool, events: seq<Event>)
      requires Valid()
      modifies this
      ensures usable <==> WritePiece(old(Now()), p, setup).Done?
      ensures usable ==> Valid() && Done(Now(), events) == WritePiece(old(Now()), p, setup)
    {
      hide Flush;
      usable, events := true, [];
      if p.index !in calls {
        usable, events := FlushCall();
        if !usable { return; }
        calls := calls[p.index := Call(p.id, p.name, "")];
        current := Some(p.index);
        started := true;
      }
      var call := calls[p.index];
      if call.name == "" && p.name != "" { call := call.(name := p.name); }
      calls := calls[p.index := call.(arguments := call.arguments + p.arguments)];
    }

    method FlushCall() returns (usable: bool, events: seq<Event>)
      requires Valid()
      modifies this
      ensures usable <==> Flush(old(Now()), setup).Done?
      ensures usable ==> Valid() && current.None? && Done(Now(), events) == Flush(old(Now()), setup)
    {
      hide BlockEvents, Arguments, Flush, Checks;
      usable, events := true, [];
      FlushIs(Now(), setup);
      if current.None? { return; }
      var call := calls[current.value];
      if !committed && !Checks(call, setup) { return false, []; }
      events := EmitCall(call);
    }

    method EmitCall(call: Call) returns (events: seq<Event>)
      requires Valid()
      modifies this`textOpen, this`index, this`current, this`content, this`called, this`committed
      ensures Valid() && current.None? && Done(Now(), events) == Emitted(old(Now()), call, setup)
    {
      hide BlockEvents, Arguments;
      var arguments := Arguments(call, setup.codec);
      var block := Tool(call.id, call.name, if arguments.Some? && arguments.value.Object? then arguments.value else EMPTY);
      events := CloseOpenText();
      events := events + BlockEvents(index, block, setup.codec);
      current, index, committed := None, index + 1, true;
      content, called := content + [block], called + [call.name];
    }

    method FinishStream() returns (usable: bool, events: seq<Event>)
      requires Valid()
      modifies this
      ensures usable <==> Finish(old(Now()), setup).Done?
      ensures usable ==> Valid() && Done(Now(), events) == Finish(old(Now()), setup)
      ensures usable ==> stopReason == (if called != [] then "tool_use" else if finishReason == "length" then "max_tokens" else "end_turn")
    {
      hide Flush;
      usable, events := FlushCall();
      if !usable { return; }
      var closing := CloseOpenText();
      var stop := if called != [] then "tool_use" else if finishReason == "length" then "max_tokens" else "end_turn";
      stopReason := stop;
      events := events + closing + [MessageDelta(Some(stop), Wire(usage)), MessageStop];
    }
  }

  /** Reads the engine until the answer is committed; then everything is relayed as it comes. */
  method Relay(items: seq<Item>, setup: Setup) returns (sent: Option<seq<Event>>)
    ensures sent == Begin(FRESH, items, [], setup)
  {
    hide Feed, Finish;
    var writer := new Writer(setup);
    var held: seq<Event>, i := [], 0;
    assert items[0..] == items;
    while !writer.committed
      invariant i <= |items| && writer.Valid() && writer.setup == setup
      invariant Begin(FRESH, items, [], setup) == Begin(writer.Now(), items[i..], held, setup)
      decreases |items| - i, writer.committed
    {
      if i == |items| {
        var usable, last := writer.FinishStream();
        if !usable || !writer.committed { return None; }
        return Some(held + last);
      }
      if !items[i].Arrives? { return None; }
      var usable, events := writer.FeedChunk(items[i].chunk);
      if !usable { return None; }
      assert items[i..][1..] == items[i + 1..];
      held, i := held + events, i + 1;
    }
    var out := held;
    var broken := false;
    while i < |items|
      invariant i <= |items| && writer.Valid() && writer.setup == setup
      invariant Begin(FRESH, items, [], setup) == Some(out + Follow(writer.Now(), items[i..], setup))
      decreases |items| - i
    {
      assert items[i..][1..] == items[i + 1..];
      var events: seq<Event> := [Ping];
      if items[i].Breaks? {
        assert out + [] == out;
        return Some(out);
      }
      if items[i].Arrives? {
        var usable;
        usable, events := writer.FeedChunk(items[i].chunk);
        if !usable {
          assert out + [] == out;
          return Some(out);
        }
      }
      assert out + (events + Follow(writer.Now(), items[i + 1..], setup))
          == (out + events) + Follow(writer.Now(), items[i + 1..], setup);
      out, i := out + events, i + 1;
    }
    assert items[|items|..] == [];
    var usable, last := writer.FinishStream();
    if usable { out := out + last; } else { assert out + [] == out; }
    return Some(out);
  }
}
