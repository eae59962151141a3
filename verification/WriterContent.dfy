/** What the writer's content is of the chunks it was fed: the text that is shown of all of them, and for
    each tool call what had arrived of it when the next one began. */
module WriterContent {
  import opened Options
  import opened Writer
  import opened TagText
  import Filter = ThinkFilter

  // ---- text ----

  /** The text blocks, joined. */
  function TextOf(blocks: seq<Block>): string {
    if blocks == [] then ""
    else TextOf(blocks[..|blocks| - 1]) + (if blocks[|blocks| - 1].Text? then blocks[|blocks| - 1].text else "")
  }

  lemma TextSnoc(blocks: seq<Block>, b: Block)
    ensures TextOf(blocks + [b]) == TextOf(blocks) + (if b.Text? then b.text else "")
  {
    assert (blocks + [b])[..|blocks|] == blocks;
  }

  /** The texts of the chunks that hold a choice. */
  function Texts(chunks: seq<Chunk>): seq<string> {
    if chunks == [] then []
    else (if chunks[0].choice.Some? then [chunks[0].choice.value.text] else []) + Texts(chunks[1..])
  }

  lemma WriteTextAdds(s: State, text: string)
    ensures WriteText(s, text).Done? && TextOf(WriteText(s, text).state.content) == TextOf(s.content) + text
    ensures WriteText(s, text).state.think == s.think
    ensures Tools(WriteText(s, text).state.content) == Tools(s.content)
    ensures SameCalls(s, WriteText(s, text).state)
  {
    if s.textOpen && s.content != [] && s.content[|s.content| - 1].Text? {
      var init, last := s.content[..|s.content| - 1], s.content[|s.content| - 1];
      TextSnoc(init, Text(last.text + text));
      ToolsSnoc(init, Text(last.text + text));
    } else {
      assert "" + text == text;
      TextSnoc(s.content, Text("" + text));
      ToolsSnoc(s.content, Text("" + text));
    }
  }

  lemma FlushAddsNoText(s: State, setup: Setup)
    ensures var o := Flush(s, setup); o.Done? ==> TextOf(o.state.content) == TextOf(s.content) && o.state.think == s.think
  {
    hide Arguments, BlockEvents, TextOf;
    var o := Flush(s, setup);
    if o.Done? && s.current.Some? && s.current.value in s.calls {
      TextSnoc(s.content, o.state.content[|s.content|]);
    }
  }

  lemma {:induction false} PiecesAddNoText(s: State, ps: seq<CallPiece>, setup: Setup)
    ensures var o := WritePieces(s, ps, setup); o.Done? ==> TextOf(o.state.content) == TextOf(s.content) && o.state.think == s.think
    decreases |ps|
  {
    hide Flush, TextOf;
    if ps != [] {
      FlushAddsNoText(s, setup);
      var o := WritePiece(s, ps[0], setup);
      if o.Done? { PiecesAddNoText(o.state, ps[1..], setup); }
    }
  }

  lemma FeedAddsVisible(s: State, c: Chunk, setup: Setup)
    ensures var o := Feed(s, c, setup);
      o.Done? ==>
        if c.choice.None? then TextOf(o.state.content) == TextOf(s.content) && o.state.think == s.think
        else
          var f := Filter.Feed(s.think, c.choice.value.text, setup.blank);
          TextOf(o.state.content) == TextOf(s.content) + f.out && o.state.think == f.state
  {
    hide TextOf, WriteText, WritePieces, UsageOf, Filter.Feed, Tools;
    if c.choice.Some? {
      var choice := c.choice.value;
      var s1 := if c.usage.Some? then s.(usage := UsageOf(c.usage.value)) else s;
      var s2 := if choice.finishReason != "" then s1.(finishReason := choice.finishReason) else s1;
      var f := Filter.Feed(s2.think, choice.text, setup.blank);
      var s3 := s2.(think := f.state);
      WriteTextAdds(s3, f.out);
      var t := if f.out != "" then WriteText(s3, f.out) else Done(s3, []);
      PiecesAddNoText(t.state, choice.calls, setup);
    }
  }

  lemma {:induction false} FeedAllAddsVisible(s: State, chunks: seq<Chunk>, setup: Setup)
    ensures var o := FeedAll(s, chunks, setup);
      o.Done? ==> TextOf(o.state.content) == TextOf(s.content) + Filter.FeedAll(s.think, Texts(chunks), setup.blank)
    decreases |chunks|
  {
    hide TextOf, Feed, Filter.Feed;
    if chunks != [] {
      var o := Feed(s, chunks[0], setup);
      FeedAddsVisible(s, chunks[0], setup);
      if o.Done? {
        FeedAllAddsVisible(o.state, chunks[1..], setup);
        TextsStep(s.think, chunks, setup.blank);
      }
    }
  }

  lemma TextsStep(think: Filter.State, chunks: seq<Chunk>, blank: Blank)
    requires chunks != []
    ensures chunks[0].choice.None? ==> Texts(chunks) == Texts(chunks[1..])
    ensures chunks[0].choice.Some? ==>
      (var f := Filter.Feed(think, chunks[0].choice.value.text, blank);
       Filter.FeedAll(think, Texts(chunks), blank) == f.out + Filter.FeedAll(f.state, Texts(chunks[1..]), blank))
  {
    hide Filter.Feed;
    if chunks[0].choice.Some? { assert Texts(chunks)[1..] == Texts(chunks[1..]); }
  }

  /** Nothing shown is dropped or added: whatever the chunks, the text blocks join to what is visible of all
      the text that arrived, and the end of the stream changes nothing of it. */
  lemma TextIsVisible(chunks: seq<Chunk>, setup: Setup)
    ensures var fed := FeedAll(FRESH, chunks, setup);
      fed.Done? ==>
        && TextOf(fed.state.content) == Filter.Visible(Concat(Texts(chunks)), setup.blank)
        && (Finish(fed.state, setup).Done? ==> TextOf(Finish(fed.state, setup).state.content) == TextOf(fed.state.content))
  {
    hide Flush, Filter.FeedAll, Filter.Visible, FeedAll;
    var fed := FeedAll(FRESH, chunks, setup);
    FeedAllAddsVisible(FRESH, chunks, setup);
    Filter.PiecesDoNotMatter(Texts(chunks), setup.blank);
    if fed.Done? { FlushAddsNoText(fed.state, setup); }
  }

  // ---- tool calls ----

  /** The tool blocks, in order. */
  function Tools(blocks: seq<Block>): seq<Block> {
    if blocks == [] then []
    else Tools(blocks[..|blocks| - 1]) + (if blocks[|blocks| - 1].Tool? then [blocks[|blocks| - 1]] else [])
  }

  lemma ToolsSnoc(blocks: seq<Block>, b: Block)
    ensures Tools(blocks + [b]) == Tools(blocks) + (if b.Tool? then [b] else [])
  {
    assert (blocks + [b])[..|blocks|] == blocks;
  }

  /** The input that a call's argument text stands for. */
  function InputFor(arguments: string, codec: Codec): Json {
    var a := codec.loads(if arguments == "" then "{}" else arguments);
    if a.Some? && a.value.Object? then a.value else EMPTY
  }

  /** The tool blocks that calls are emitted as. */
  function ToolsFor(calls: seq<Call>, codec: Codec): seq<Block> {
    if calls == [] then [] else ToolsFor(calls[..|calls| - 1], codec) + [ToolFor(calls[|calls| - 1], codec)]
  }

  function ToolFor(call: Call, codec: Codec): Block {
    Tool(call.id, call.name, InputFor(call.arguments, codec))
  }

  lemma ToolsForSnoc(calls: seq<Call>, call: Call, codec: Codec)
    ensures ToolsFor(calls + [call], codec) == ToolsFor(calls, codec) + [ToolFor(call, codec)]
  {
    assert (calls + [call])[..|calls|] == calls;
  }

  /** The indexes of the calls, in the order they began. */
  function Firsts(ps: seq<CallPiece>): (r: seq<int>)
    ensures ps != [] ==> r != []
  {
    if ps == [] then []
    else
      var init, p := ps[..|ps| - 1], ps[|ps| - 1];
      if p.index in Firsts(init) then Firsts(init) else Firsts(init) + [p.index]
  }

  /** All the argument text that arrived for an index. */
  function Arrived(ps: seq<CallPiece>, index: int): string {
    if ps == [] then ""
    else Arrived(ps[..|ps| - 1], index) + (if ps[|ps| - 1].index == index then ps[|ps| - 1].arguments else "")
  }

  /** The first name given for an index. */
  function Named(ps: seq<CallPiece>, index: int): string {
    if ps == [] then ""
    else
      var named, p := Named(ps[..|ps| - 1], index), ps[|ps| - 1];
      if named == "" && p.index == index then p.name else named
  }

  /** The id drawn at the first piece of an index. */
  function Drawn(ps: seq<CallPiece>, index: int): string {
    if ps == [] then ""
    else
      var init, p := ps[..|ps| - 1], ps[|ps| - 1];
      if p.index == index && index !in Firsts(init) then p.id else Drawn(init, index)
  }

  /** All that arrived of a call. */
  function CallOf(ps: seq<CallPiece>, index: int): Call {
    Call(Drawn(ps, index), Named(ps, index), Arrived(ps, index))
  }

  /** What had arrived of each call but the last when the next one began. */
  function Earlier(ps: seq<CallPiece>): seq<Call>
    decreases |ps|, 0
  {
    if ps == [] then []
    else
      var init, p := ps[..|ps| - 1], ps[|ps| - 1];
      if p.index in Firsts(init) then Earlier(init) else Taken(init)
  }

  /** What each call is emitted as. */
  function Taken(ps: seq<CallPiece>): seq<Call>
    decreases |ps|, 1
  {
    if ps == [] then [] else Earlier(ps) + [CallOf(ps, Firsts(ps)[|Firsts(ps)| - 1])]
  }

  /** What arrived for the index of call `k` after the next call began. */
  function Late(ps: seq<CallPiece>, index: int, k: nat): string {
    if ps == [] then ""
    else
      var init, p := ps[..|ps| - 1], ps[|ps| - 1];
      Late(init, index, k) + (if p.index == index && |Firsts(init)| > k + 1 then p.arguments else "")
  }

  predicate SameCalls(s: State, t: State) {
    t.calls == s.calls && t.current == s.current
  }

  /** The writer has exactly what arrived of each call, is writing the one that began last, and has
      emitted the others as they were when the next one began. */
  ghost predicate Follows(s: State, ps: seq<CallPiece>, setup: Setup) {
    && (forall i :: i in s.calls <==> i in Firsts(ps))
    && (forall i <- s.calls :: s.calls[i] == CallOf(ps, i))
    && s.current == (if ps == [] then None else Some(Firsts(ps)[|Firsts(ps)| - 1]))
    && Tools(s.content) == ToolsFor(Earlier(ps), setup.codec)
  }

  lemma {:induction false} ArrivedNone(ps: seq<CallPiece>, index: int, k: nat)
    requires index !in Firsts(ps)
    ensures Arrived(ps, index) == "" && Late(ps, index, k) == "" && Named(ps, index) == ""
  {
    if ps != [] { ArrivedNone(ps[..|ps| - 1], index, k); }
  }

  /** One more piece. */
  lemma More(ps: seq<CallPiece>, p: CallPiece, i: int)
    ensures Firsts(ps + [p]) == if p.index in Firsts(ps) then Firsts(ps) else Firsts(ps) + [p.index]
    ensures Arrived(ps + [p], i) == Arrived(ps, i) + (if p.index == i then p.arguments else "")
    ensures Named(ps + [p], i) == if Named(ps, i) == "" && p.index == i then p.name else Named(ps, i)
    ensures Drawn(ps + [p], i) == if p.index == i && i !in Firsts(ps) then p.id else Drawn(ps, i)
    ensures Earlier(ps + [p]) == if p.index in Firsts(ps) then Earlier(ps) else Taken(ps)
    ensures forall k: nat :: Late(ps + [p], i, k) == Late(ps, i, k) + (if p.index == i && |Firsts(ps)| > k + 1 then p.arguments else "")
  {
    assert (ps + [p])[..|ps|] == ps;
  }

  lemma ExtendFollows(s: State, ps: seq<CallPiece>, p: CallPiece, setup: Setup)
    requires Follows(s, ps, setup) && p.index in s.calls
    ensures Follows(Extend(s, p), ps + [p], setup)
  {
    hide Arrived, Named, Drawn, Earlier, Tools, ToolsFor, Firsts;
    var t := Extend(s, p);
    More(ps, p, p.index);
    forall i <- t.calls ensures t.calls[i] == CallOf(ps + [p], i) { More(ps, p, i); }
    assert ps != [] by { NoFirsts(); }
  }

  lemma NoFirsts()
    ensures Firsts([]) == []
  {
  }

  lemma FlushFollows(s: State, ps: seq<CallPiece>, setup: Setup)
    requires Follows(s, ps, setup)
    ensures var o := Flush(s, setup);
      o.Done? ==> o.state.calls == s.calls && Tools(o.state.content) == ToolsFor(Taken(ps), setup.codec)
  {
    hide BlockEvents, Arguments, Checks, Earlier, Tools, ToolsFor, Firsts, CallOf;
    FlushIs(s, setup);
    TakenIs(ps);
    if ps != [] {
      var call := s.calls[s.current.value];
      EmittedTool(s, call, setup);
      ToolsForSnoc(Earlier(ps), call, setup.codec);
    }
  }

  lemma TakenIs(ps: seq<CallPiece>)
    ensures ps == [] ==> Taken(ps) == [] && Earlier(ps) == []
    ensures ps != [] ==> Taken(ps) == Earlier(ps) + [CallOf(ps, Firsts(ps)[|Firsts(ps)| - 1])]
    ensures ps != [] ==> Firsts(ps)[|Firsts(ps)| - 1] in Firsts(ps)
  {
  }

  lemma EmittedTool(s: State, call: Call, setup: Setup)
    ensures var o := Emitted(s, call, setup);
      o.state.calls == s.calls && Tools(o.state.content) == Tools(s.content) + [ToolFor(call, setup.codec)]
  {
    hide BlockEvents, Tools;
    var o := Emitted(s, call, setup);
    ToolsSnoc(s.content, o.state.content[|s.content|]);
  }

  lemma PieceFollows(s: State, ps: seq<CallPiece>, p: CallPiece, setup: Setup)
    requires Follows(s, ps, setup)
    ensures var o := WritePiece(s, p, setup); o.Done? ==> Follows(o.state, ps + [p], setup)
  {
    hide Flush, Earlier, Taken, Tools, ToolsFor, Firsts, Arrived, Named, Drawn;
    if p.index in s.calls {
      ExtendFollows(s, ps, p, setup);
    } else {
      FlushFollows(s, ps, setup);
      var o := WritePiece(s, p, setup);
      if o.Done? {
        assert "" + p.arguments == p.arguments;
        assert o.state.calls[p.index] == Call(p.id, p.name, p.arguments);
        NewFollows(s.calls, o.state, ps, p, setup);
      }
    }
  }

  lemma NewFollows(calls: map<int, Call>, t: State, ps: seq<CallPiece>, p: CallPiece, setup: Setup)
    requires p.index !in calls && (forall i :: i in calls <==> i in Firsts(ps))
    requires forall i <- calls :: calls[i] == CallOf(ps, i)
    requires t.calls == calls[p.index := Call(p.id, p.name, p.arguments)] && t.current == Some(p.index)
    requires Tools(t.content) == ToolsFor(Taken(ps), setup.codec)
    ensures Follows(t, ps + [p], setup)
  {
    hide Earlier, Taken, Tools, ToolsFor, Firsts, Arrived, Named, Drawn;
    ArrivedNone(ps, p.index, 0);
    More(ps, p, p.index);
    forall i <- t.calls ensures t.calls[i] == CallOf(ps + [p], i) { More(ps, p, i); }
  }

  lemma {:induction false} PiecesFollow(s: State, done: seq<CallPiece>, ps: seq<CallPiece>, setup: Setup)
    requires Follows(s, done, setup)
    ensures var o := WritePieces(s, ps, setup); o.Done? ==> Follows(o.state, done + ps, setup)
    decreases |ps|
  {
    hide WritePiece, Follows;
    if ps == [] {
      assert done + ps == done;
    } else {
      PieceFollows(s, done, ps[0], setup);
      var o := WritePiece(s, ps[0], setup);
      if o.Done? {
        PiecesFollow(o.state, done + [ps[0]], ps[1..], setup);
        assert (done + [ps[0]]) + ps[1..] == done + ps;
      }
    }
  }

  /** All the pieces of the chunks. */
  function Pieces(chunks: seq<Chunk>): seq<CallPiece> {
    if chunks == [] then [] else PiecesOf(chunks[0]) + Pieces(chunks[1..])
  }

  function PiecesOf(c: Chunk): seq<CallPiece> {
    if c.choice.Some? then c.choice.value.calls else []
  }

  lemma SameFollows(s: State, t: State, ps: seq<CallPiece>, setup: Setup)
    requires Follows(s, ps, setup) && SameCalls(s, t) && Tools(t.content) == Tools(s.content)
    ensures Follows(t, ps, setup)
  {
  }

  lemma FeedFollows(s: State, done: seq<CallPiece>, c: Chunk, setup: Setup)
    requires Follows(s, done, setup)
    ensures var o := Feed(s, c, setup); o.Done? ==> Follows(o.state, done + PiecesOf(c), setup)
  {
    hide Follows, WriteText, WritePieces, UsageOf, Filter.Feed, Tools, TextOf;
    var s1 := if c.usage.Some? then s.(usage := UsageOf(c.usage.value)) else s;
    SameFollows(s, s1, done, setup);
    if c.choice.None? {
      assert done + [] == done;
    } else {
      var choice := c.choice.value;
      var s2 := if choice.finishReason != "" then s1.(finishReason := choice.finishReason) else s1;
      var f := Filter.Feed(s2.think, choice.text, setup.blank);
      var s3 := s2.(think := f.state);
      SameFollows(s1, s3, done, setup);
      WriteTextAdds(s3, f.out);
      var t := if f.out != "" then WriteText(s3, f.out) else Done(s3, []);
      SameFollows(s3, t.state, done, setup);
      PiecesFollow(t.state, done, choice.calls, setup);
    }
  }

  lemma {:induction false} FeedAllFollows(s: State, done: seq<CallPiece>, chunks: seq<Chunk>, setup: Setup)
    requires Follows(s, done, setup)
    ensures var o := FeedAll(s, chunks, setup); o.Done? ==> Follows(o.state, done + Pieces(chunks), setup)
    decreases |chunks|
  {
    hide Feed, Follows, PiecesOf;
    if chunks == [] {
      assert done + [] == done;
    } else {
      FeedFollows(s, done, chunks[0], setup);
      var o := Feed(s, chunks[0], setup);
      if o.Done? {
        FeedAllFollows(o.state, done + PiecesOf(chunks[0]), chunks[1..], setup);
        assert (done + PiecesOf(chunks[0])) + Pieces(chunks[1..]) == done + Pieces(chunks);
      }
    }
  }

  /** Each tool block is of one call, in the order the calls began: the id drawn at its first piece, its first name,
      and the input of what had arrived of it when the next one began, or the stream ended. */
  lemma CallsAreTaken(chunks: seq<Chunk>, setup: Setup)
    ensures var fed := FeedAll(FRESH, chunks, setup);
      fed.Done? && Finish(fed.state, setup).Done? ==>
        Tools(Finish(fed.state, setup).state.content) == ToolsFor(Taken(Pieces(chunks)), setup.codec)
  {
    hide FeedAll, Flush, Follows, Tools, ToolsFor, Taken;
    FreshFollows(setup);
    FeedAllFollows(FRESH, [], chunks, setup);
    assert [] + Pieces(chunks) == Pieces(chunks);
    var fed := FeedAll(FRESH, chunks, setup);
    if fed.Done? { FlushFollows(fed.state, Pieces(chunks), setup); }
  }

  lemma FreshFollows(setup: Setup)
    ensures Follows(FRESH, [], setup)
  {
  }

  /** What arrived for a call is what it is emitted with and then what came late: a call is emitted whole
      exactly when nothing arrived for it after the next one began. */
  lemma {:induction false} LateIsLost(ps: seq<CallPiece>)
    ensures |Taken(ps)| == |Firsts(ps)|
    ensures forall k :: 0 <= k < |Firsts(ps)| ==>
      Arrived(ps, Firsts(ps)[k]) == Taken(ps)[k].arguments + Late(ps, Firsts(ps)[k], k)
    ensures forall k :: 0 <= k < |Firsts(ps)| ==>
      (Taken(ps)[k].arguments == Arrived(ps, Firsts(ps)[k]) <==> Late(ps, Firsts(ps)[k], k) == "")
    ensures forall i, j :: 0 <= i < j < |Firsts(ps)| ==> Firsts(ps)[i] != Firsts(ps)[j]
    decreases |ps|
  {
    hide Taken, Earlier, Firsts, Arrived, Late;
    TakenIs(ps);
    NoFirsts();
    if ps != [] {
      var init, p := ps[..|ps| - 1], ps[|ps| - 1];
      assert ps == init + [p];
      LateIsLost(init);
      More(init, p, p.index);
      TakenIs(init);
      forall k | 0 <= k < |Firsts(ps)| ensures Arrived(ps, Firsts(ps)[k]) == Taken(ps)[k].arguments + Late(ps, Firsts(ps)[k], k) {
        LateStep(init, p, k);
      }
    }
  }

  lemma LateStep(init: seq<CallPiece>, p: CallPiece, k: nat)
    requires |Taken(init)| == |Firsts(init)| && k < |Firsts(init + [p])|
    requires forall j :: 0 <= j < |Firsts(init)| ==>
      Arrived(init, Firsts(init)[j]) == Taken(init)[j].arguments + Late(init, Firsts(init)[j], j)
    requires forall i, j :: 0 <= i < j < |Firsts(init)| ==> Firsts(init)[i] != Firsts(init)[j]
    ensures var ps := init + [p];
      k < |Taken(ps)| && Arrived(ps, Firsts(ps)[k]) == Taken(ps)[k].arguments + Late(ps, Firsts(ps)[k], k)
  {
    hide Taken, Earlier, Firsts, Arrived, Late;
    var ps := init + [p];
    More(init, p, p.index);
    var i := Firsts(ps)[k];
    More(init, p, i);
    if p.index in Firsts(init) {
      LateOld(init, p, k);
    } else {
      LateNew(init, p, k);
    }
  }

  /** A piece of a call that began before. */
  lemma LateOld(init: seq<CallPiece>, p: CallPiece, k: nat)
    requires p.index in Firsts(init) && |Taken(init)| == |Firsts(init)| && k < |Firsts(init)|
    requires Arrived(init, Firsts(init)[k]) == Taken(init)[k].arguments + Late(init, Firsts(init)[k], k)
    ensures var ps := init + [p];
      k < |Taken(ps)| && k < |Firsts(ps)| && Arrived(ps, Firsts(ps)[k]) == Taken(ps)[k].arguments + Late(ps, Firsts(ps)[k], k)
  {
    hide Taken, Earlier, Firsts, Arrived, Late;
    var ps, i, n := init + [p], Firsts(init)[k], |Firsts(init)|;
    More(init, p, i);
    NoFirsts();
    TakenIs(init);
    TakenIs(ps);
    if k == n - 1 {
      assert Late(init, i, k) == "";
      assert Taken(ps)[k].arguments == Arrived(ps, i);
    } else {
      assert Taken(ps)[k] == Taken(init)[k];
    }
  }

  /** The first piece of a call. */
  lemma LateNew(init: seq<CallPiece>, p: CallPiece, k: nat)
    requires p.index !in Firsts(init) && |Taken(init)| == |Firsts(init)| && k <= |Firsts(init)|
    requires k < |Firsts(init)| ==> Arrived(init, Firsts(init)[k]) == Taken(init)[k].arguments + Late(init, Firsts(init)[k], k)
    ensures var ps := init + [p];
      k < |Taken(ps)| && k < |Firsts(ps)| && Arrived(ps, Firsts(ps)[k]) == Taken(ps)[k].arguments + Late(ps, Firsts(ps)[k], k)
  {
    hide Taken, Earlier, Firsts, Arrived, Late;
    var ps := init + [p];
    More(init, p, p.index);
    var i := Firsts(ps)[k];
    More(init, p, i);
    TakenIs(ps);
    if k == |Firsts(init)| { ArrivedNone(init, i, k); }
  }

  // ---- how the message ends ----

  /** The last finish reason given among the chunks that hold a choice. */
  function LastReason(chunks: seq<Chunk>): string {
    if chunks == [] then ""
    else
      var later := LastReason(chunks[1..]);
      if later != "" then later else if chunks[0].choice.Some? then chunks[0].choice.value.finishReason else ""
  }

  /** The usage of the last chunk that carries one. */
  function LastUsage(chunks: seq<Chunk>): Option<RawUsage> {
    if chunks == [] then None
    else
      var later := LastUsage(chunks[1..]);
      if later.Some? then later else chunks[0].usage
  }

  /** The counts a client is told of a usage: what the engine had cached, within its prompt, as cache
      reads and the rest as input. */
  ghost predicate Tells(counts: Counts, raw: RawUsage) {
    && counts.Keys == {"input_tokens", "cache_creation_input_tokens", "cache_read_input_tokens", "output_tokens"}
    && var read := counts["cache_read_input_tokens"];
    && counts["input_tokens"] + read == raw.prompt
    && (0 <= raw.cached <= raw.prompt ==> read == raw.cached)
    && (raw.cached < 0 <= raw.prompt ==> read == 0)
    && (raw.prompt < 0 || raw.prompt < raw.cached ==> read == raw.prompt)
    && counts["cache_creation_input_tokens"] == 0
    && counts["output_tokens"] == raw.completion
  }

  const NOTHING := RawUsage(0, 0, 0)

  /** A step that leaves what was told of the end alone. */
  predicate SameEnd(s: State, t: State) {
    t.usage == s.usage && t.finishReason == s.finishReason
  }

  lemma FlushSameEnd(s: State, setup: Setup)
    ensures Flush(s, setup).Done? ==> SameEnd(s, Flush(s, setup).state)
  {
    hide Arguments, BlockEvents, Checks;
  }

  lemma {:induction false} PiecesSameEnd(s: State, ps: seq<CallPiece>, setup: Setup)
    ensures var o := WritePieces(s, ps, setup); o.Done? ==> SameEnd(s, o.state)
    decreases |ps|
  {
    hide Flush;
    if ps != [] {
      FlushSameEnd(s, setup);
      var o := WritePiece(s, ps[0], setup);
      if o.Done? { PiecesSameEnd(o.state, ps[1..], setup); }
    }
  }

  lemma TextSameEnd(s: State, text: string)
    ensures WriteText(s, text).Done? && SameEnd(s, WriteText(s, text).state)
  {
  }

  lemma FeedEnds(s: State, c: Chunk, setup: Setup)
    ensures var o := Feed(s, c, setup);
      o.Done? ==>
        && o.state.usage == (if c.usage.Some? then UsageOf(c.usage.value) else s.usage)
        && o.state.finishReason ==
             (if c.choice.Some? && c.choice.value.finishReason != "" then c.choice.value.finishReason else s.finishReason)
  {
    hide WriteText, WritePieces, UsageOf, Filter.Feed;
    if c.choice.Some? {
      var choice := c.choice.value;
      var s1 := if c.usage.Some? then s.(usage := UsageOf(c.usage.value)) else s;
      var s2 := if choice.finishReason != "" then s1.(finishReason := choice.finishReason) else s1;
      var f := Filter.Feed(s2.think, choice.text, setup.blank);
      var s3 := s2.(think := f.state);
      TextSameEnd(s3, f.out);
      var t := if f.out != "" then WriteText(s3, f.out) else Done(s3, []);
      PiecesSameEnd(t.state, choice.calls, setup);
    }
  }

  lemma {:induction false} FeedAllEnds(s: State, chunks: seq<Chunk>, setup: Setup)
    ensures var o := FeedAll(s, chunks, setup);
      o.Done? ==>
        && o.state.usage == (if LastUsage(chunks).Some? then UsageOf(LastUsage(chunks).value) else s.usage)
        && o.state.finishReason == (if LastReason(chunks) != "" then LastReason(chunks) else s.finishReason)
    decreases |chunks|
  {
    hide Feed, UsageOf;
    if chunks != [] {
      var o := Feed(s, chunks[0], setup);
      FeedEnds(s, chunks[0], setup);
      if o.Done? { FeedAllEnds(o.state, chunks[1..], setup); }
    }
  }

  lemma {:induction false} NamesAndTools(blocks: seq<Block>)
    ensures ToolNames(blocks) != [] <==> exists b <- blocks :: b.Tool?
    ensures Tools(blocks) != [] <==> ToolNames(blocks) != []
  {
    if blocks != [] {
      var init, last := blocks[..|blocks| - 1], blocks[|blocks| - 1];
      NamesAndTools(init);
      assert blocks == init + [last];
    }
  }

  lemma {:induction false} SomeTaken(ps: seq<CallPiece>, codec: Codec)
    ensures ToolsFor(Taken(ps), codec) != [] <==> ps != []
  {
    hide Taken, Earlier, Firsts, Arrived;
    TakenIs(ps);
    if ps != [] { ToolsForSnoc(Earlier(ps), CallOf(ps, Firsts(ps)[|Firsts(ps)| - 1]), codec); }
  }

  lemma UsageTells(raw: RawUsage)
    ensures Tells(Wire(UsageOf(raw)), raw)
    ensures UsageOf(NOTHING) == Usage(0, 0, 0)
  {
  }

  lemma FinishTells(s: State, setup: Setup)
    ensures var o := Finish(s, setup);
      o.Done? ==>
        && o.state.usage == s.usage
        && (o.state.stopReason == "max_tokens" <==> o.state.stopReason != "tool_use" && s.finishReason == "length")
        && (o.state.stopReason == "end_turn" <==> o.state.stopReason != "tool_use" && s.finishReason != "length")
  {
    hide Flush;
    FlushSameEnd(s, setup);
    assert "max_tokens" != "tool_use" && "end_turn" != "tool_use" && "max_tokens" != "end_turn" by {
      assert "max_tokens"[0] != "tool_use"[0] && "end_turn"[0] != "tool_use"[0] && "max_tokens"[0] != "end_turn"[0];
    }
  }

  /** How every stream that finishes ends, told of its chunks alone. The message stopped for a tool exactly when
      a piece of a tool call arrived, and then a tool block was sent; else at the output limit exactly when the
      last finish reason given was that; else at its end. And the usage is that of the last chunk with one. */
  lemma EndIsTold(chunks: seq<Chunk>, model: string, setup: Setup)
    requires Lawful(setup.codec)
    ensures var fed := FeedAll(FRESH, chunks, setup);
      fed.Done? && Finish(fed.state, setup).Done? ==>
        var r := ReadStream([Opened(model)] + (fed.events + Finish(fed.state, setup).events), setup.codec);
        && r.Reader? && r.stop.Some? && r.stop.value.Some?
        && ((exists b <- r.blocks :: b.Tool?) <==> Pieces(chunks) != [])
        && (r.stop.value.value == "tool_use" <==> Pieces(chunks) != [])
        && (r.stop.value.value == "max_tokens" <==> Pieces(chunks) == [] && LastReason(chunks) == "length")
        && (r.stop.value.value == "end_turn" <==> Pieces(chunks) == [] && LastReason(chunks) != "length")
        && Tells(r.usage, if LastUsage(chunks).Some? then LastUsage(chunks).value else NOTHING)
  {
    hide Lawful, FeedAll, Finish, ReadStream, Wire, UsageOf, Tells, Taken, Tools, ToolsFor, ToolNames;
    StreamReadsBack(chunks, model, setup);
    FeedAllEnds(FRESH, chunks, setup);
    CallsAreTaken(chunks, setup);
    SomeTaken(Pieces(chunks), setup.codec);
    UsageTells(if LastUsage(chunks).Some? then LastUsage(chunks).value else NOTHING);
    var fed := FeedAll(FRESH, chunks, setup);
    if fed.Done? {
      FinishTells(fed.state, setup);
      if Finish(fed.state, setup).Done? { NamesAndTools(Finish(fed.state, setup).state.content); }
    }
  }

  // ---- what the relay sends ----

  /** The chunks that arrive before the engine breaks off, if it does. */
  function ChunksOf(items: seq<Item>): seq<Chunk> {
    if items == [] || items[0].Breaks? then []
    else (if items[0].Arrives? then [items[0].chunk] else []) + ChunksOf(items[1..])
  }

  function WithoutPings(events: seq<Event>): seq<Event> {
    if events == [] then [] else (if events[0].Ping? then [] else [events[0]]) + WithoutPings(events[1..])
  }

  predicate Pingless(events: seq<Event>) {
    forall e <- events :: !e.Ping?
  }

  lemma {:induction false} WithoutPingsSplit(a: seq<Event>, b: seq<Event>)
    ensures WithoutPings(a + b) == WithoutPings(a) + WithoutPings(b)
  {
    if a == [] {
      assert a + b == b;
    } else {
      assert (a + b)[1..] == a[1..] + b;
      WithoutPingsSplit(a[1..], b);
    }
  }

  lemma {:induction false} PinglessStay(events: seq<Event>)
    requires Pingless(events)
    ensures WithoutPings(events) == events
  {
    if events != [] { PinglessStay(events[1..]); }
  }

  lemma FlushPingless(s: State, setup: Setup)
    ensures Flush(s, setup).Done? ==> Pingless(Flush(s, setup).events)
  {
    hide Arguments, Checks;
  }

  lemma {:induction false} PiecesPingless(s: State, ps: seq<CallPiece>, setup: Setup)
    ensures WritePieces(s, ps, setup).Done? ==> Pingless(WritePieces(s, ps, setup).events)
    decreases |ps|
  {
    hide Flush;
    if ps != [] {
      FlushPingless(s, setup);
      var o := WritePiece(s, ps[0], setup);
      if o.Done? { PiecesPingless(o.state, ps[1..], setup); }
    }
  }

  lemma FeedPingless(s: State, c: Chunk, setup: Setup)
    ensures Feed(s, c, setup).Done? ==> Pingless(Feed(s, c, setup).events)
  {
    hide WritePieces, UsageOf, Filter.Feed;
    if c.choice.Some? {
      var choice := c.choice.value;
      var s1 := if c.usage.Some? then s.(usage := UsageOf(c.usage.value)) else s;
      var s2 := if choice.finishReason != "" then s1.(finishReason := choice.finishReason) else s1;
      var f := Filter.Feed(s2.think, choice.text, setup.blank);
      var s3 := s2.(think := f.state);
      var t := if f.out != "" then WriteText(s3, f.out) else Done(s3, []);
      PiecesPingless(t.state, choice.calls, setup);
    }
  }

  lemma FinishPingless(s: State, setup: Setup)
    ensures Finish(s, setup).Done? ==> Pingless(Finish(s, setup).events)
  {
    hide Flush, StopReason;
    FlushPingless(s, setup);
  }

  /** Everything fed and, unless the engine broke off, the closing events. */
  function Whole(s: State, items: seq<Item>, setup: Setup): Option<seq<Event>> {
    var fed := FeedAll(s, ChunksOf(items), setup);
    if fed.Unusable? then None
    else if Breaks in items then Some(fed.events)
    else
      var last := Finish(fed.state, setup);
      if last.Unusable? then None else Some(fed.events + last.events)
  }

  function Behind(events: seq<Event>, rest: Option<seq<Event>>): Option<seq<Event>> {
    if rest.None? then None else Some(events + rest.value)
  }

  lemma WholeStep(s: State, items: seq<Item>, setup: Setup)
    requires items != []
    ensures items[0].Late? ==> Whole(s, items, setup) == Whole(s, items[1..], setup)
    ensures items[0].Breaks? ==> Whole(s, items, setup) == Some([])
    ensures items[0].Arrives? ==>
      var o := Feed(s, items[0].chunk, setup);
      && (o.Unusable? ==> Whole(s, items, setup).None?)
      && (o.Done? ==> Whole(s, items, setup) == Behind(o.events, Whole(o.state, items[1..], setup)))
  {
    hide Feed, Finish;
    assert items == [items[0]] + items[1..];
    var rest := ChunksOf(items[1..]);
    match items[0]
    case Late => assert [] + rest == rest;
    case Breaks =>
    case Arrives(c) =>
      assert ([c] + rest)[1..] == rest;
      var o := Feed(s, c, setup);
      if o.Done? {
        var fed := FeedAll(o.state, rest, setup);
        if fed.Done? {
          var last := Finish(fed.state, setup);
          if last.Done? { assert (o.events + fed.events) + last.events == o.events + (fed.events + last.events); }
        }
      }
  }

  lemma WholeNone(s: State, setup: Setup)
    ensures var last := Finish(s, setup); Whole(s, [], setup) == if last.Unusable? then None else Some(last.events)
  {
    hide Finish;
    var none: seq<Item> := [];
    assert ChunksOf(none) == [];
    if Finish(s, setup).Done? { assert [] + Finish(s, setup).events == Finish(s, setup).events; }
  }

  /** Once committed, all of the stream is sent, with pings between. */
  lemma {:induction false} FollowIsWhole(s: State, r: Reader, items: seq<Item>, setup: Setup)
    requires Lawful(setup.codec) && InStep(s, r) && Offered(s, setup) && s.committed
    ensures Whole(s, items, setup) == Some(WithoutPings(Follow(s, items, setup)))
    decreases |items|
  {
    hide Feed, Finish, Whole, Lawful, InStep, Offered, Read, Pingless;
    if items == [] {
      WholeNone(s, setup);
      FinishReads(s, r, setup);
      FinishPingless(s, setup);
      PinglessStay(Finish(s, setup).events);
    } else {
      WholeStep(s, items, setup);
      match items[0]
      case Late =>
        FollowIsWhole(s, r, items[1..], setup);
        assert ([Ping] + Follow(s, items[1..], setup))[1..] == Follow(s, items[1..], setup);
        assert [] + WithoutPings(Follow(s, items[1..], setup)) == WithoutPings(Follow(s, items[1..], setup));
      case Breaks =>
      case Arrives(c) =>
        var o := Feed(s, c, setup);
        FeedKeeps(s, r, c, setup);
        FollowIsWhole(o.state, Read(r, o.events, setup.codec), items[1..], setup);
        FeedPingless(s, c, setup);
        PinglessStay(o.events);
        WithoutPingsSplit(o.events, Follow(o.state, items[1..], setup));
    }
  }

  /** Whether the answer is committed before anything but a chunk comes, or at its end. */
  predicate Commits(s: State, items: seq<Item>, setup: Setup)
    decreases |items|
  {
    s.committed
    || (if items == [] then Finish(s, setup).Done? && Finish(s, setup).state.committed
        else items[0].Arrives? && Feed(s, items[0].chunk, setup).Done?
             && Commits(Feed(s, items[0].chunk, setup).state, items[1..], setup))
  }

  lemma {:induction false} BeginIsWhole(s: State, r: Reader, items: seq<Item>, held: seq<Event>, setup: Setup)
    requires Lawful(setup.codec) && InStep(s, r) && Offered(s, setup)
    requires !s.committed ==> held == []
    ensures Begin(s, items, held, setup).Some? <==> Commits(s, items, setup)
    ensures Begin(s, items, held, setup).Some? ==>
      Whole(s, items, setup).Some?
      && WithoutPings(Begin(s, items, held, setup).value) == WithoutPings(held) + Whole(s, items, setup).value
    decreases |items|
  {
    hide Feed, Finish, Whole, Lawful, InStep, Offered, Read, Pingless, Follow;
    if s.committed {
      FollowIsWhole(s, r, items, setup);
      WithoutPingsSplit(held, Follow(s, items, setup));
    } else if items == [] {
      WholeNone(s, setup);
      FinishPingless(s, setup);
      if Finish(s, setup).Done? {
        PinglessStay(Finish(s, setup).events);
        WithoutPingsSplit(held, Finish(s, setup).events);
      }
    } else if items[0].Arrives? {
      var o := Feed(s, items[0].chunk, setup);
      FeedKeeps(s, r, items[0].chunk, setup);
      WholeStep(s, items, setup);
      if o.Done? {
        BeginIsWhole(o.state, Read(r, o.events, setup.codec), items[1..], held + o.events, setup);
        FeedPingless(s, items[0].chunk, setup);
        PinglessStay(o.events);
        WithoutPingsSplit(held, o.events);
        var rest := Whole(o.state, items[1..], setup);
        if rest.Some? {
          assert (WithoutPings(held) + o.events) + rest.value == WithoutPings(held) + (o.events + rest.value);
        }
      }
    }
  }

  /** What the client gets is the whole stream of the writer but for pings: of every chunk that arrives, with the
      closing events unless the engine broke off. It gets nothing exactly when the engine is late, breaks off or
      turns out unusable before the answer commits. */
  lemma RelayIsTheStream(items: seq<Item>, setup: Setup)
    requires Lawful(setup.codec)
    ensures var sent := Begin(FRESH, items, [], setup);
      && (sent.Some? <==> Commits(FRESH, items, setup))
      && (sent.Some? ==> Whole(FRESH, items, setup) == Some(WithoutPings(sent.value)))
  {
    hide Begin, Whole, Lawful, InStep, Offered, Commits;
    FreshInStep(setup);
    BeginIsWhole(FRESH, Unread("", map[]), items, [], setup);
    var none: seq<Event> := [];
    assert WithoutPings(none) == [];
    var sent := Begin(FRESH, items, [], setup);
    if sent.Some? { assert none + Whole(FRESH, items, setup).value == Whole(FRESH, items, setup).value; }
  }
}
