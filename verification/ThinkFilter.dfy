/** Hiding a think block at the start of a text, together with the blanks that follow it, piece by piece. */
module ThinkFilter {
  import opened TagText
  import ThinkSplitter

  function Stripped(s: string, blank: Blank): string { s[Leading(s, blank)..] }

  /** The text may still turn out to open with the tag. */
  predicate Undecided(s: string) { |s| < |OPEN| && BeginsAt(s, 0, OPEN) }

  /** What of a text is visible: nothing while it is blank, may still open with a think block or is
      inside one; what follows the block, from its first non-blank on; all of it otherwise. A text
      that ends undecided is never shown. */
  function Visible(s: string, blank: Blank): string {
    var p := Stripped(s, blank);
    if Undecided(p) then ""
    else if !OccursAt(p, 0, OPEN) then s
    else
      var end := Find(p, CLOSE);
      if end < 0 then "" else Stripped(p[end + |CLOSE|..], blank)
  }

  datatype State = Deciding(buffer: string) | Passing(trim: bool)

  datatype Fed = Fed(state: State, out: string)

  function Trimmed(trim: bool, piece: string, blank: Blank): Fed {
    if trim then Fed(Passing(Stripped(piece, blank) == ""), Stripped(piece, blank)) else Fed(Passing(false), piece)
  }

  function Feed(state: State, piece: string, blank: Blank): Fed {
    match state
    case Passing(trim) => Trimmed(trim, piece, blank)
    case Deciding(was) =>
      var buffer := was + piece;
      var p := Stripped(buffer, blank);
      if Undecided(p) then Fed(Deciding(buffer), "")
      else if !OccursAt(p, 0, OPEN) then Fed(Passing(false), buffer)
      else
        var end := Find(p, CLOSE);
        if end < 0 then Fed(Deciding(buffer), "") else Trimmed(true, p[end + |CLOSE|..], blank)
  }

  class Filter {
    const blank: Blank
    var buffer: string
    var deciding: bool
    var trim: bool

    ghost function State(): State
      reads this
    {
      if deciding then Deciding(buffer) else Passing(trim)
    }

    constructor (blank: Blank)
      ensures this.blank == blank && State() == Deciding("")
    {
      this.blank, buffer, deciding, trim := blank, "", true, false;
    }

    method FeedPiece(piece: string) returns (out: string)
      requires deciding ==> !trim
      modifies this
      ensures deciding ==> !trim
      ensures Fed(State(), out) == Feed(old(State()), piece, blank)
    {
      if !deciding {
        out := Trim(piece);
        return;
      }
      buffer := buffer + piece;
      var stripped := Stripped(buffer, blank);
      if stripped == "" || (|stripped| < |OPEN| && stripped == OPEN[..|stripped|]) { return ""; }
      Decided(stripped);
      if !OccursAt(stripped, 0, OPEN) {
        deciding := false;
        return buffer;
      }
      var end := Find(stripped, CLOSE);
      if end < 0 { return ""; }
      deciding, trim := false, true;
      out := Trim(stripped[end + |CLOSE|..]);
    }

    method Trim(piece: string) returns (out: string)
      requires !deciding
      modifies this`trim
      ensures Fed(State(), out) == Trimmed(old(trim), piece, blank)
    {
      out := piece;
      if trim {
        out := Stripped(piece, blank);
        trim := out == "";
      }
    }
  }

  lemma Decided(s: string)
    requires |s| >= |OPEN| || s != OPEN[..|s|]
    ensures !Undecided(s)
  {
  }

  // ---- pieces do not matter ----

  function FeedAll(state: State, pieces: seq<string>, blank: Blank): string
    decreases |pieces|
  {
    if pieces == [] then ""
    else
      var f := Feed(state, pieces[0], blank);
      f.out + FeedAll(f.state, pieces[1..], blank)
  }

  /** What a state makes of all that is still to come. */
  function Rest(state: State, s: string, blank: Blank): string {
    match state
    case Deciding(buffer) => Visible(buffer + s, blank)
    case Passing(trim) => if trim then Stripped(s, blank) else s
  }

  lemma StrippedMore(s: string, t: string, blank: Blank)
    ensures Stripped(s + t, blank) ==
      if Stripped(s, blank) == "" then Stripped(t, blank) else Stripped(s, blank) + t
  {
    hide Leading;
    var w := Leading(s, blank);
    if w == |s| {
      LeadingIs(s + t, blank, w + Leading(t, blank));
      assert (s + t)[w..] == t;
      DropDrop(s + t, w, Leading(t, blank));
    } else {
      LeadingIs(s + t, blank, w);
      DropMore(s, t, w);
    }
  }

  lemma OpensMore(p: string, t: string)
    requires p != "" && !Undecided(p)
    ensures OccursAt(p + t, 0, OPEN) <==> OccursAt(p, 0, OPEN)
    ensures !Undecided(p + t)
  {
    if |p| < |OPEN| {
      var k :| 0 <= k < |OPEN| && k < |p| && p[k] != OPEN[k];
      assert (p + t)[0 + k] != OPEN[k];
    } else {
      OccursMore(p, t, 0, OPEN);
    }
  }

  lemma FeedKeeps(state: State, piece: string, t: string, blank: Blank)
    requires state.Deciding? ==> Visible(state.buffer, blank) == ""
    ensures var f := Feed(state, piece, blank);
      && Rest(state, piece + t, blank) == f.out + Rest(f.state, t, blank)
      && (f.state.Deciding? ==> Visible(f.state.buffer, blank) == "")
  {
    hide Find, Leading, OccursAt, BeginsAt, Stripped, Undecided;
    assert t == "" + t;
    match state
    case Passing(trim) =>
      StrippedMore(piece, t, blank);
      assert "" + Stripped(t, blank) == Stripped(t, blank);
    case Deciding(was) =>
      var b := was + piece;
      assert was + (piece + t) == b + t;
      var p := Stripped(b, blank);
      StrippedMore(b, t, blank);
      UndecidedShort(p);
      if Undecided(p) {
        assert "" + Visible(b + t, blank) == Visible(b + t, blank);
      } else {
        OpensMore(p, t);
        if OccursAt(p, 0, OPEN) {
          var end := Find(p, CLOSE);
          if end < 0 {
            assert "" + Visible(b + t, blank) == Visible(b + t, blank);
          } else {
            EndsMore(p, t, end, blank);
          }
        }
      }
  }

  lemma EndsMore(p: string, t: string, end: nat, blank: Blank)
    requires Find(p, CLOSE) == end
    ensures end + |CLOSE| <= |p| && Find(p + t, CLOSE) == end
    ensures var f := Trimmed(true, p[end + |CLOSE|..], blank);
      Stripped((p + t)[end + |CLOSE|..], blank) == f.out + Rest(f.state, t, blank)
  {
    hide Find, OccursAt, BeginsAt, Stripped;
    OccursFits(p, end, CLOSE);
    FindMore(p, t, CLOSE);
    var a := p[end + |CLOSE|..];
    DropMore(p, t, end + |CLOSE|);
    StrippedMore(a, t, blank);
    assert "" + Stripped(t, blank) == Stripped(t, blank);
  }

  lemma {:induction false} FeedAllIsRest(state: State, pieces: seq<string>, blank: Blank)
    requires state.Deciding? ==> Visible(state.buffer, blank) == ""
    ensures FeedAll(state, pieces, blank) == Rest(state, Concat(pieces), blank)
    decreases |pieces|
  {
    hide Visible, Feed, Stripped;
    if pieces == [] {
      EndRest(state, blank);
    } else {
      FeedKeeps(state, pieces[0], Concat(pieces[1..]), blank);
      FeedAllIsRest(Feed(state, pieces[0], blank).state, pieces[1..], blank);
    }
  }

  lemma EndRest(state: State, blank: Blank)
    requires state.Deciding? ==> Visible(state.buffer, blank) == ""
    ensures Rest(state, "", blank) == ""
  {
    if state.Deciding? { assert state.buffer + "" == state.buffer; }
  }

  /** Whatever the pieces, what comes out is what is visible of the whole text. */
  lemma PiecesDoNotMatter(pieces: seq<string>, blank: Blank)
    ensures FeedAll(Deciding(""), pieces, blank) == Visible(Concat(pieces), blank)
  {
    FeedAllIsRest(Deciding(""), pieces, blank);
    assert "" + Concat(pieces) == Concat(pieces);
  }

  /** The local route's filter and the control plane's splitter show the same answer, up to leading
      blanks, exactly when the text is not just the beginning of a tag: the filter never shows that,
      the splitter releases it at the end. */
  lemma FilterAgrees(s: string, blank: Blank)
    ensures Stripped(Visible(s, blank), blank) == Stripped(ThinkSplitter.Split(s, blank).answer, blank)
      <==> Stripped(s, blank) == "" || !Undecided(Stripped(s, blank))
  {
    hide Find, OccursAt, Leading, ThinkSplitter.Thought, Undecided, Stripped;
    var w, p := Leading(s, blank), Stripped(s, blank);
    StrippedTwice(s, blank);
    StrippedNone(blank);
    UndecidedShort(p);
    OccursStripped(s, blank);
    if OccursAt(p, 0, OPEN) {
      BlockAgrees(s, w, p, s[w + |OPEN|..], blank);
      var end := Find(p, CLOSE);
      if end >= 0 { StrippedTwice(p[end + |CLOSE|..], blank); }
    }
  }

  lemma StrippedNone(blank: Blank)
    ensures Stripped("", blank) == ""
  {
  }

  lemma UndecidedShort(p: string)
    ensures Undecided(p) ==> !OccursAt(p, 0, OPEN)
    ensures Undecided("")
  {
  }

  lemma OccursStripped(s: string, blank: Blank)
    ensures OccursAt(s, Leading(s, blank), OPEN) <==> OccursAt(Stripped(s, blank), 0, OPEN)
    ensures OccursAt(s, Leading(s, blank), OPEN) ==> Leading(s, blank) + |OPEN| <= |s|
    ensures Leading(s, blank) <= |s| && Stripped(s, blank) == s[Leading(s, blank)..]
  {
    hide Leading;
    OccursDrop(s, Leading(s, blank), Leading(s, blank), OPEN);
  }

  lemma StrippedTwice(s: string, blank: Blank)
    ensures Stripped(Stripped(s, blank), blank) == Stripped(s, blank)
  {
    LeadingIs(Stripped(s, blank), blank, 0);
  }

  /** The open tag has no close tag starting in it. */
  lemma NoCloseInOpen(p: string, j: nat)
    requires OccursAt(p, 0, OPEN) && j < |OPEN|
    ensures !OccursAt(p, j, CLOSE)
  {
    assert p[0 + j] == OPEN[j] && p[0 + 1] == OPEN[1];
    if j + |CLOSE| <= |p| {
      if j == 0 { assert p[j + 1] != CLOSE[1]; } else { assert p[j + 0] != CLOSE[0]; }
    }
  }

  lemma CloseAfterOpen(p: string)
    requires OccursAt(p, 0, OPEN)
    ensures |OPEN| <= |p|
    ensures Find(p, CLOSE) == if Find(p[|OPEN|..], CLOSE) < 0 then -1 else |OPEN| + Find(p[|OPEN|..], CLOSE)
  {
    hide Find, OccursAt;
    OccursLength(p);
    forall j: nat | j < |OPEN| ensures !OccursAt(p, j, CLOSE) {
      NoCloseInOpen(p, j);
    }
    FindDrop(p, |OPEN|, CLOSE);
  }

  lemma OccursLength(p: string)
    requires OccursAt(p, 0, OPEN)
    ensures |OPEN| <= |p|
  {
  }

  lemma ThoughtAnswer(rest: string, j: int)
    requires j == Find(rest, CLOSE)
    ensures j >= 0 ==> j + |CLOSE| <= |rest|
    ensures ThinkSplitter.Thought(rest).answer == if j < 0 then "" else rest[j + |CLOSE|..]
  {
  }

  lemma BlockAgrees(s: string, w: nat, p: string, rest: string, blank: Blank)
    requires w == Leading(s, blank) && w + |OPEN| <= |s| && p == s[w..] && rest == s[w + |OPEN|..]
    requires OccursAt(p, 0, OPEN)
    ensures var end := Find(p, CLOSE);
      && (end >= 0 ==> end + |CLOSE| <= |p|)
      && Stripped(s[..w] + ThinkSplitter.Thought(rest).answer, blank) ==
        if end < 0 then "" else Stripped(p[end + |CLOSE|..], blank)
  {
    hide Leading, Stripped, OccursAt, Find, ThinkSplitter.Thought;
    DropDrop(s, w, |OPEN|);
    CloseAfterOpen(p);
    BlankPrefix(s, w, blank);
    var j := Find(rest, CLOSE);
    ThoughtAnswer(rest, j);
    StrippedMore(s[..w], ThinkSplitter.Thought(rest).answer, blank);
    StrippedNone(blank);
    if j >= 0 { DropDrop(p, |OPEN|, j + |CLOSE|); }
  }

  lemma BlankPrefix(s: string, w: nat, blank: Blank)
    requires w == Leading(s, blank)
    ensures Stripped(s[..w], blank) == ""
  {
    LeadingIs(s[..w], blank, w);
  }
}
