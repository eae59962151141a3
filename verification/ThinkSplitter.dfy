/** Separating a reasoning model's one leading think block from its answer, as the text streams in,
    and the proof that the chunks it comes in do not matter. */
module ThinkSplitter {
  import opened TagText

  datatype State = Armed | Thinking | Literal

  datatype Parts = Parts(answer: string, reasoning: string)

  function Join(a: Parts, b: Parts): Parts { Parts(a.answer + b.answer, a.reasoning + b.reasoning) }

  // ---- the whole text ----

  /** A leading block is reasoning, up to its close tag or, unclosed, to the end; the blanks before
      it and everything after it are answer. Without one, all is answer. */
  function Split(s: string, blank: Blank): Parts {
    var w := Leading(s, blank);
    if !OccursAt(s, w, OPEN) then Parts(s, "")
    else Join(Parts(s[..w], ""), Thought(s[w + |OPEN|..]))
  }

  function Thought(s: string): Parts {
    var j := Find(s, CLOSE);
    if j < 0 then Parts("", s) else Parts(s[j + |CLOSE|..], s[..j])
  }

  function SplitFrom(state: State, s: string, blank: Blank): Parts {
    match state
    case Armed => Split(s, blank)
    case Thinking => Thought(s)
    case Literal => Parts(s, "")
  }

  // ---- one chunk ----

  /** The last `k` characters are how the tag begins. */
  predicate EndsIn(text: string, tag: string, k: nat) {
    k <= |text| && BeginsAt(text, |text| - k, tag)
  }

  /** How much of the end of a text may be the beginning of the tag, and not all of it. */
  function PartialTail(text: string, tag: string, k: nat): (r: nat)
    requires k <= |text|
    ensures r <= k && EndsIn(text, tag, r)
    ensures forall j: nat :: r < j <= k ==> !EndsIn(text, tag, j)
  {
    if k == 0 || EndsIn(text, tag, k) then k else PartialTail(text, tag, k - 1)
  }

  function Longest(text: string, tag: string): nat {
    if |text| < |tag| then |text| else if tag == "" then 0 else |tag| - 1
  }

  function Tail(text: string, tag: string): (r: nat)
    ensures r <= Longest(text, tag) && EndsIn(text, tag, r)
    ensures forall j: nat :: r < j <= Longest(text, tag) ==> !EndsIn(text, tag, j)
  {
    PartialTail(text, tag, Longest(text, tag))
  }

  method PartialTagTail(text: string, tag: string) returns (r: nat)
    requires tag != ""
    ensures r == Tail(text, tag)
  {
    var k: nat := Longest(text, tag);
    while k > 0
      invariant k <= |text|
      invariant PartialTail(text, tag, k) == Tail(text, tag)
    {
      if text[|text| - k..] == tag[..k] { AgreesFrom(text, tag, k); return k; }
      DiffersFrom(text, tag, k);
      k := k - 1;
    }
    return 0;
  }

  lemma AgreesFrom(text: string, tag: string, k: nat)
    requires k <= |text| && k <= |tag| && text[|text| - k..] == tag[..k]
    ensures EndsIn(text, tag, k)
  {
    assert forall m :: |text| - k <= m < |text| ==> text[m] == text[|text| - k..][m - (|text| - k)];
  }

  lemma DiffersFrom(text: string, tag: string, k: nat)
    requires k <= |text| && k <= |tag| && text[|text| - k..] != tag[..k]
    ensures !EndsIn(text, tag, k)
  {
    var i :| 0 <= i < k && text[|text| - k..][i] != tag[..k][i];
    assert text[|text| - k + i] != tag[i];
  }

  /** What one chunk releases, and where it leaves the splitter. */
  datatype Pushed = Pushed(state: State, held: string, parts: Parts)

  /** What an armed splitter releases when no block opens. */
  function Waits(data: string, blank: Blank): Pushed {
    var k := if Find(data, OPEN) < 0 then Tail(data, OPEN) else 0;
    if k > 0 && AllBlank(data[..|data| - k], blank) then
      Pushed(Armed, data[|data| - k..], Parts(data[..|data| - k], ""))
    else if AllBlank(data, blank) then Pushed(Armed, "", Parts(data, ""))
    else Pushed(Literal, "", Parts(data, ""))
  }

  function Push(state: State, data: string, blank: Blank): Pushed
    decreases if state.Armed? then 2 else if state.Thinking? then 1 else 0
  {
    if data == "" then Pushed(state, "", Parts("", ""))
    else match state
      case Literal => Pushed(Literal, "", Parts(data, ""))
      case Armed =>
        var i := Find(data, OPEN);
        if i >= 0 && AllBlank(data[..i], blank) then
          Front(Parts(data[..i], ""), Push(Thinking, data[i + |OPEN|..], blank))
        else
          Waits(data, blank)
      case Thinking =>
        var i := Find(data, CLOSE);
        if i >= 0 then
          Front(Parts("", data[..i]), Push(Literal, data[i + |CLOSE|..], blank))
        else
          var n := |data| - Tail(data, CLOSE);
          Pushed(Thinking, data[n..], Parts("", data[..n]))
  }

  function Front(done: Parts, p: Pushed): Pushed { p.(parts := Join(done, p.parts)) }

  lemma FrontTwice(a: Parts, b: Parts, p: Pushed)
    ensures Front(a, Front(b, p)) == Front(Join(a, b), p)
  {
    JoinAssoc(a, b, p.parts);
  }

  /** What is held back at the end of the stream belongs to the side it ended on. */
  function Flush(state: State, held: string): Parts {
    if state.Thinking? then Parts("", held) else Parts(held, "")
  }

  function Feed(state: State, held: string, chunks: seq<string>, blank: Blank): Parts
    decreases |chunks|
  {
    if chunks == [] then Flush(state, held)
    else
      var p := Push(state, held + chunks[0], blank);
      Join(p.parts, Feed(p.state, p.held, chunks[1..], blank))
  }

  class Splitter {
    const blank: Blank
    var state: State
    var held: string

    constructor (blank: Blank)
      ensures this.blank == blank && state == Armed && held == ""
    {
      this.blank, state, held := blank, Armed, "";
    }

    method PushChunk(text: string) returns (answer: string, reasoning: string)
      modifies this
      ensures Pushed(state, held, Parts(answer, reasoning)) == Push(old(state), old(held) + text, blank)
    {
      hide Find, Tail, AllBlank, OccursAt, BeginsAt, Longest;
      answer, reasoning := "", "";
      var data := held + text;
      ghost var all := Push(state, data, blank);
      held := "";
      while data != ""
        invariant held == ""
        invariant all == Front(Parts(answer, reasoning), Push(state, data, blank))
        decreases if state.Armed? then 2 else if state.Thinking? then 1 else 0
      {
        ghost var done := Parts(answer, reasoning);
        assert answer + "" == answer && reasoning + "" == reasoning;
        if state == Literal {
          answer := answer + data;
          break;
        }
        if state == Armed {
          var i := Find(data, OPEN);
          if i != -1 && AllBlank(data[..i], blank) {
              OccursFits(data, i, OPEN);
            FrontTwice(done, Parts(data[..i], ""), Push(Thinking, data[i + |OPEN|..], blank));
            answer := answer + data[..i];
            data := data[i + |OPEN|..];
            state := Thinking;
            continue;
          }
          var k := 0;
          if i == -1 { k := PartialTagTail(data, OPEN); }
          TailShort(data, OPEN);
          if k != 0 && AllBlank(data[..|data| - k], blank) {
            held := data[|data| - k..];
            answer := answer + data[..|data| - k];
            break;
          }
          if AllBlank(data, blank) {
            answer := answer + data;
            break;
          }
          state := Literal;
          answer := answer + data;
          break;
        }
        var i := Find(data, CLOSE);
        if i != -1 {
          OccursFits(data, i, CLOSE);
          FrontTwice(done, Parts("", data[..i]), Push(Literal, data[i + |CLOSE|..], blank));
          reasoning := reasoning + data[..i];
          data := data[i + |CLOSE|..];
          state := Literal;
          continue;
        }
        var k := PartialTagTail(data, CLOSE);
        TailShort(data, CLOSE);
        assert data[|data| - 0..] == "" && data[..|data| - 0] == data;
        if k != 0 {
          held := data[|data| - k..];
          data := data[..|data| - k];
        }
        reasoning := reasoning + data;
        break;
      }
    }

    method FlushHeld() returns (answer: string, reasoning: string)
      modifies this`held
      ensures held == "" && Parts(answer, reasoning) == Flush(state, old(held))
    {
      var was := held;
      held := "";
      if was == "" { return "", ""; }
      if state == Thinking { return "", was; }
      return was, "";
    }
  }

  /** A whole message split at once. */
  method SplitThink(text: string, blank: Blank) returns (answer: string, reasoning: string)
    ensures Parts(answer, reasoning) == Split(text, blank)
  {
    hide Push, Split;
    var splitter := new Splitter(blank);
    var a, r := splitter.PushChunk(text);
    var a', r' := splitter.FlushHeld();
    answer, reasoning := a + a', r + r';
    FeedOne(text, blank);
    ChunksDoNotMatter([text], blank);
  }

  lemma FeedOne(text: string, blank: Blank)
    ensures var p := Push(Armed, "" + text, blank);
      Feed(Armed, "", [text], blank) == Join(p.parts, Flush(p.state, p.held))
    ensures Concat([text]) == text
  {
    hide Push;
    assert [text][1..] == [] && text + "" == text;
    var p := Push(Armed, "" + text, blank);
    assert Feed(p.state, p.held, [], blank) == Flush(p.state, p.held);
  }

  // ---- chunks do not matter ----

  /** The text held back is shorter than the tag it may become. */
  predicate Holds(state: State, held: string) {
    match state
    case Armed => |held| < |OPEN| && held == OPEN[..|held|]
    case Thinking => |held| < |CLOSE| && held == CLOSE[..|held|]
    case Literal => held == ""
  }

  lemma PushHolds(state: State, data: string, blank: Blank)
    ensures Holds(Push(state, data, blank).state, Push(state, data, blank).held)
    decreases if state.Armed? then 2 else if state.Thinking? then 1 else 0
  {
    hide Find, Tail, AllBlank, BeginsAt, OccursAt;
    TailShort(data, OPEN);
    TailShort(data, CLOSE);
    TailIs(data, OPEN);
    TailIs(data, CLOSE);
    if data != "" && !state.Literal? && Find(data, if state.Armed? then OPEN else CLOSE) >= 0 {
      var tag := if state.Armed? then OPEN else CLOSE;
      var i := Find(data, tag);
      OccursFits(data, i, tag);
      PushHolds(if state.Armed? then Thinking else Literal, data[i + |tag|..], blank);
    }
  }

  lemma TailShort(s: string, tag: string)
    requires tag != ""
    ensures Tail(s, tag) < |tag| && Tail(s, tag) <= |s|
  {
  }

  lemma TailIs(s: string, tag: string)
    requires tag != ""
    ensures Tail(s, tag) < |tag| && Tail(s, tag) <= |s|
    ensures s[|s| - Tail(s, tag)..] == tag[..Tail(s, tag)]
  {
    hide Tail;
    var r := Tail(s, tag);
    TailShort(s, tag);
    assert EndsIn(s, tag, r);
    forall k | 0 <= k < r ensures s[|s| - r..][k] == tag[..r][k] {
    }
  }

  lemma FlushIsSplit(state: State, held: string, blank: Blank)
    requires Holds(state, held)
    ensures Flush(state, held) == SplitFrom(state, held, blank)
  {
    hide Leading;
  }

  /** Blanks in front stay in front. */
  lemma SplitBlanks(b: string, s: string, blank: Blank)
    requires AllBlank(b, blank)
    ensures Split(b + s, blank) == Join(Parts(b, ""), Split(s, blank))
  {
    hide OccursAt, Thought;
    var w := Leading(s, blank);
    LeadingIs(b + s, blank, |b| + w);
    OccursDrop(b + s, |b|, |b| + w, OPEN);
    assert (b + s)[|b|..] == s;
    assert (b + s)[..|b| + w] == b + s[..w];
    if OccursAt(s, w, OPEN) {
      OccursFits(s, w, OPEN);
      OccursFits(b + s, |b| + w, OPEN);
      DropDrop(b + s, |b|, w + |OPEN|);
      JoinAssoc(Parts(b, ""), Parts(s[..w], ""), Thought(s[w + |OPEN|..]));
    }
  }

  lemma JoinAssoc(a: Parts, b: Parts, c: Parts)
    ensures Join(Join(a, b), c) == Join(a, Join(b, c))
  {
    assert (a.answer + b.answer) + c.answer == a.answer + (b.answer + c.answer);
    assert (a.reasoning + b.reasoning) + c.reasoning == a.reasoning + (b.reasoning + c.reasoning);
  }

  lemma ThoughtCloses(data: string, t: string)
    requires Find(data, CLOSE) >= 0
    ensures var i := Find(data, CLOSE);
      i + |CLOSE| <= |data| && Thought(data + t) == Parts(data[i + |CLOSE|..] + t, data[..i])
  {
    hide Find, OccursAt;
    var i := Find(data, CLOSE);
    OccursFits(data, i, CLOSE);
    FindMore(data, t, CLOSE);
    DropMore(data, t, i + |CLOSE|);
    DropMore(data, t, i);
  }

  /** Without a close tag, all but the held tail is reasoning whatever comes next. */
  lemma ThoughtGoesOn(data: string, t: string)
    requires Find(data, CLOSE) < 0
    ensures var n := |data| - Tail(data, CLOSE);
      0 <= n <= |data| && Thought(data + t) == Join(Parts("", data[..n]), Thought(data[n..] + t))
  {
    hide Find, Tail, Thought, OccursAt, BeginsAt;
    TailShort(data, CLOSE);
    var n := |data| - Tail(data, CLOSE);
    forall j: nat | j < n ensures !OccursAt(data + t, j, CLOSE) {
      NoneEarlier(data, t, j, CLOSE);
    }
    FindDrop(data + t, n, CLOSE);
    ThoughtDrop(data + t, n);
    DropMore(data, t, n);
  }

  lemma NoneEarlier(data: string, t: string, j: nat, tag: string)
    requires tag != "" && Find(data, tag) < 0 && j < |data| - Tail(data, tag)
    ensures !OccursAt(data + t, j, tag)
  {
    hide Find, Tail;
    if j + |tag| <= |data| {
      OccursMore(data, t, j, tag);
      assert !OccursAt(data, j, tag);
    } else {
      var k: nat := |data| - j;
      assert !EndsIn(data, tag, k);
      if OccursAt(data + t, j, tag) { Straddles(data, t, j, tag); }
    }
  }

  lemma ThoughtDrop(s: string, n: nat)
    requires n <= |s| && Find(s, CLOSE) == if Find(s[n..], CLOSE) < 0 then -1 else n + Find(s[n..], CLOSE)
    ensures Thought(s) == Join(Parts("", s[..n]), Thought(s[n..]))
  {
    hide Find, OccursAt, BeginsAt;
    var r := Find(s[n..], CLOSE);
    if r >= 0 {
      OccursFits(s[n..], r, CLOSE);
      DropDrop(s, n, r + |CLOSE|);
      assert s[..n + r] == s[..n] + s[n..][..r];
    } else {
      assert s == s[..n] + s[n..];
    }
  }

  /** Where a text may open a block later, it holds back all but blanks. */
  lemma OpeningTail(data: string, w: nat, blank: Blank)
    requires w == Leading(data, blank) < |data| < w + |OPEN| && BeginsAt(data, w, OPEN)
    ensures Tail(data, OPEN) == |data| - w && AllBlank(data[..w], blank)
    ensures Find(data, OPEN) < 0
  {
    hide Tail;
    TailShort(data, OPEN);
    var k := Tail(data, OPEN);
    var m: nat := |data| - w;
    assert EndsIn(data, OPEN, m) && EndsIn(data, OPEN, k);
    assert data[|data| - k + 0] == OPEN[0] == '<';
    assert forall j: nat :: OccursAt(data, j, OPEN) ==> data[j + 0] == OPEN[0];
  }

  /** Once the answer has started, no leading block can follow. */
  lemma NoBlock(data: string, t: string, blank: Blank)
    requires !AllBlank(data, blank)
    requires Find(data, OPEN) >= 0 ==> !AllBlank(data[..Find(data, OPEN)], blank)
    requires Find(data, OPEN) < 0 ==>
      Tail(data, OPEN) == 0 || !AllBlank(data[..|data| - Tail(data, OPEN)], blank)
    ensures Split(data + t, blank) == Parts(data + t, "")
  {
    hide Tail, Find, OccursAt, BeginsAt;
    var w := Leading(data, blank);
    LeadingIs(data + t, blank, w);
    Opening(data, t, w, blank);
  }

  lemma Opening(data: string, t: string, w: nat, blank: Blank)
    requires w == Leading(data, blank) < |data|
    ensures OccursAt(data + t, w, OPEN) ==>
      (Find(data, OPEN) >= 0 && AllBlank(data[..Find(data, OPEN)], blank))
      || (Find(data, OPEN) < 0 && Tail(data, OPEN) > 0 && AllBlank(data[..|data| - Tail(data, OPEN)], blank))
  {
    hide Tail, Find, OccursAt, BeginsAt, Leading;
    if OccursAt(data + t, w, OPEN) {
      if w + |OPEN| <= |data| {
        OccursMore(data, t, w, OPEN);
        assert OccursAt(data, w, OPEN);
        assert Find(data, OPEN) <= w;
        assert forall i :: 0 <= i < w ==> blank(data[i]);
      } else {
        Straddles(data, t, w, OPEN);
        OpeningTail(data, w, blank);
      }
    }
  }

  lemma OccursHead(s: string, i: nat)
    requires OccursAt(s, i, OPEN)
    ensures i + |OPEN| <= |s| && s[i] == '<'
  {
    assert s[i + 0] == OPEN[0];
  }

  /** What is released and what is still to come together are what the whole comes to. */
  lemma PushKeeps(state: State, data: string, t: string, blank: Blank)
    ensures var p := Push(state, data, blank);
      SplitFrom(state, data + t, blank) == Join(p.parts, SplitFrom(p.state, p.held + t, blank))
    decreases if state.Armed? then 2 else if state.Thinking? then 1 else 0
  {
    hide Find, Leading, Tail, Thought, Split, OccursAt, BeginsAt, AllBlank, Longest, Waits;
    assert "" + t == t;
    if data == "" {
      assert data + t == t;
    } else if state.Thinking? {
      if Find(data, CLOSE) >= 0 {
        ThoughtCloses(data, t);
        LiteralEnds(data[Find(data, CLOSE) + |CLOSE|..], t, data[..Find(data, CLOSE)], blank);
      } else {
        ThoughtGoesOn(data, t);
      }
    } else if state.Armed? {
      var i := Find(data, OPEN);
      if i < 0 || !AllBlank(data[..i], blank) {
        WaitsKeeps(data, t, blank);
      } else {
        OpensMore(data, t, i, blank);
        PushKeeps(Thinking, data[i + |OPEN|..], t, blank);
        var q := Push(Thinking, data[i + |OPEN|..], blank);
        JoinAssoc(Parts(data[..i], ""), q.parts, SplitFrom(q.state, q.held + t, blank));
      }
    }
  }

  lemma WaitsKeeps(data: string, t: string, blank: Blank)
    requires data != ""
    requires Find(data, OPEN) >= 0 ==> !AllBlank(data[..Find(data, OPEN)], blank)
    ensures var p := Waits(data, blank);
      Split(data + t, blank) == Join(p.parts, SplitFrom(p.state, p.held + t, blank))
  {
    hide Find, Leading, Tail, Thought, Split, OccursAt, BeginsAt, AllBlank, Longest, Join, EndsIn;
    TailShort(data, OPEN);
    var k := if Find(data, OPEN) < 0 then Tail(data, OPEN) else 0;
    var n := |data| - k;
    if k > 0 && AllBlank(data[..n], blank) {
      HoldsBack(data[..n], data[n..], data, t, blank);
    } else if AllBlank(data, blank) {
      HoldsBack(data, "", data, t, blank);
    } else {
      NoBlock(data, t, blank);
      Released(data, t);
    }
  }

  lemma HoldsBack(b: string, held: string, data: string, t: string, blank: Blank)
    requires AllBlank(b, blank) && data == b + held
    ensures Split(data + t, blank) == Join(Parts(b, ""), Split(held + t, blank))
  {
    hide Split, AllBlank;
    assert data + t == b + (held + t);
    SplitBlanks(b, held + t, blank);
  }

  lemma Released(data: string, t: string)
    ensures Join(Parts(data, ""), Parts("" + t, "")) == Parts(data + t, "")
  {
    assert "" + t == t;
  }

  lemma LiteralEnds(rest: string, t: string, r: string, blank: Blank)
    ensures var p := Front(Parts("", r), Push(Literal, rest, blank));
      p.state == Literal && Join(p.parts, Parts(p.held + t, "")) == Parts(rest + t, r)
  {
    assert "" + t == t && r + "" == r && (r + "") + "" == r && "" + rest == rest;
  }

  lemma OpensMore(data: string, t: string, i: nat, blank: Blank)
    requires Find(data, OPEN) == i && AllBlank(data[..i], blank)
    ensures i + |OPEN| <= |data|
    ensures Split(data + t, blank) == Join(Parts(data[..i], ""), Thought(data[i + |OPEN|..] + t))
  {
    hide Find, Thought, OccursAt, BeginsAt;
    OccursHead(data, i);
    forall j | 0 <= j < i ensures blank((data + t)[j]) { assert (data + t)[j] == data[..i][j]; }
    LeadingIs(data + t, blank, i);
    OccursMore(data, t, i, OPEN);
    DropMore(data, t, i + |OPEN|);
    DropMore(data, t, i);
  }

  lemma {:induction false} FeedIsSplit(state: State, held: string, chunks: seq<string>, blank: Blank)
    requires Holds(state, held)
    ensures Feed(state, held, chunks, blank) == SplitFrom(state, held + Concat(chunks), blank)
    decreases |chunks|
  {
    hide SplitFrom, Push, Flush, Holds;
    if chunks == [] {
      FlushIsSplit(state, held, blank);
      assert held + "" == held;
    } else {
      var data, t := held + chunks[0], Concat(chunks[1..]);
      var p := Push(state, data, blank);
      PushHolds(state, data, blank);
      FeedIsSplit(p.state, p.held, chunks[1..], blank);
      PushKeeps(state, data, t, blank);
      assert held + (chunks[0] + t) == data + t;
    }
  }

  /** Whatever the chunks, what is released adds up to the split of the whole text. */
  lemma ChunksDoNotMatter(chunks: seq<string>, blank: Blank)
    ensures Feed(Armed, "", chunks, blank) == Split(Concat(chunks), blank)
  {
    hide Split, Feed;
    FeedIsSplit(Armed, "", chunks, blank);
    assert "" + Concat(chunks) == Concat(chunks);
  }
}
