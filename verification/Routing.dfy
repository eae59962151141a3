/** Applying a routing decision: the one top-level `model` string of a request body is replaced in
    the text itself, so everything else arrives as it was sent. */
module Routing {
  import opened Json
  import opened JsonScan
  import opened Options

  datatype Place = Place(start: nat, end: nat)

  // ---- what a string token means ----

  function HexValue(c: char): nat {
    if '0' <= c <= '9' then c as int - '0' as int
    else if 'a' <= c <= 'f' then c as int - 'a' as int + 10
    else if 'A' <= c <= 'F' then c as int - 'A' as int + 10
    else 0
  }

  function ShortValue(c: char): nat {
    match c
    case 'b' => 8
    case 'f' => 12
    case 'n' => 10
    case 'r' => 13
    case 't' => 9
    case _ => c as int
  }

  function Code(p: Piece): nat {
    match p
    case Plain(c) => c as int
    case Short(c) => ShortValue(c)
    case Hex(a, b, c, d) => 4096 * HexValue(a) + 256 * HexValue(b) + 16 * HexValue(c) + HexValue(d)
  }

  predicate High(p: Piece) { p.Hex? && 0xD800 <= Code(p) < 0xDC00 }

  predicate Low(p: Piece) { p.Hex? && 0xDC00 <= Code(p) < 0xE000 }

  /** The code points a string token stands for; an escaped surrogate pair is one. */
  function Decode(ps: seq<Piece>): seq<nat>
    decreases |ps|
  {
    if ps == [] then []
    else if |ps| >= 2 && High(ps[0]) && Low(ps[1])
    then [0x10000 + (Code(ps[0]) - 0xD800) * 0x400 + (Code(ps[1]) - 0xDC00)] + Decode(ps[2..])
    else [Code(ps[0])] + Decode(ps[1..])
  }

  function Codes(s: string): (r: seq<nat>)
    ensures |r| == |s|
  {
    if s == "" then [] else [s[0] as int] + Codes(s[1..])
  }

  const MODEL: seq<nat> := Codes("model")

  // ---- writing a string token ----

  function HexDigit(n: nat): (c: char)
    requires n < 16
    ensures IsHex(c) && HexValue(c) == n
  {
    if n < 10 then '0' + n as char else 'a' + (n - 10) as char
  }

  function Escape(n: nat): (p: Piece)
    requires n < 0x10000
    ensures ValidPiece(p) && p.Hex? && Code(p) == n
  {
    var a := n / 16;
    var b := a / 16;
    Hex(HexDigit(b / 16), HexDigit(b % 16), HexDigit(a % 16), HexDigit(n % 16))
  }

  /** One character as `json.dumps` writes it: ASCII only. */
  function DumpChar(c: char): (ps: seq<Piece>)
    ensures ps != [] && ValidPieces(ps)
  {
    if c == '"' || c == '\\' then [Short(c)]
    else if c == '\n' then [Short('n')]
    else if c == '\r' then [Short('r')]
    else if c == '\t' then [Short('t')]
    else if c as int == 12 then [Short('f')]
    else if c as int == 8 then [Short('b')]
    else if ' ' <= c <= '~' then [Plain(c)]
    else if c as int < 0x10000 then [Escape(c as int)]
    else [Escape(0xD800 + (c as int - 0x10000) / 0x400), Escape(0xDC00 + (c as int - 0x10000) % 0x400)]
  }

  function Dump(s: string): (ps: seq<Piece>)
    ensures ValidPieces(ps)
  {
    if s == "" then [] else DumpChar(s[0]) + Dump(s[1..])
  }

  /** What is written reads back. */
  lemma {:induction false} DumpDecodes(s: string)
    ensures Decode(Dump(s)) == Codes(s)
  {
    if s != "" {
      DumpDecodes(s[1..]);
      DumpCharDecodes(s[0], Dump(s[1..]));
    }
  }

  lemma DecodeOne(p: Piece, rest: seq<Piece>)
    requires !High(p)
    ensures Decode([p] + rest) == [Code(p)] + Decode(rest)
  {
    assert ([p] + rest)[1..] == rest;
  }

  lemma DecodePair(p: Piece, q: Piece, rest: seq<Piece>)
    requires High(p) && Low(q)
    ensures Decode([p, q] + rest) == [0x10000 + (Code(p) - 0xD800) * 0x400 + (Code(q) - 0xDC00)] + Decode(rest)
  {
    assert ([p, q] + rest)[2..] == rest;
  }

  lemma DumpCharDecodes(c: char, rest: seq<Piece>)
    ensures Decode(DumpChar(c) + rest) == [c as int] + Decode(rest)
  {
    hide Decode, HexDigit, HexValue, Escape;
    var ps := DumpChar(c);
    if c as int >= 0x10000 {
      var n := c as int - 0x10000;
      var p, q := Escape(0xD800 + n / 0x400), Escape(0xDC00 + n % 0x400);
      assert Code(p) == 0xD800 + n / 0x400 && Code(q) == 0xDC00 + n % 0x400;
      assert ps == [p, q];
      DecodePair(p, q, rest);
    } else {
      assert |ps| == 1 && ps == [ps[0]];
      DecodeOne(ps[0], rest);
    }
  }

  // ---- the body ----

  /** A body that is one JSON object with at least one member. */
  datatype Doc = Doc(before: string, members: Members, after: string)

  /** A document of the decoder's grammar: section 4 of RFC 8259, and its further words. */
  predicate ValidDoc(d: Doc) { Spaces(d.before) && ValidMembers(d.members) && Spaces(d.after) }

  /** No integer in it is longer than the decoder converts. */
  predicate BoundedDoc(d: Doc) { BoundedMembers(d.members) }

  /** A document of section 4 of RFC 8259. */
  predicate RfcDoc(d: Doc) { ValidDoc(d) && StrictMembers(d.members) }

  function DocText(d: Doc): string { d.before + ("{" + (MembersText(d.members) + d.after)) }

  predicate IsModel(m: Member) { Decode(m.key) == MODEL }

  function ModelCount(ms: Members): nat {
    (if IsModel(ms.m) then 1 else 0) + (if ms.MoreMembers? then ModelCount(ms.more) else 0)
  }

  /** Every top-level `model` is a string. */
  predicate ModelStrings(ms: Members) {
    (IsModel(ms.m) ==> ms.m.value.Str?) && (ms.MoreMembers? ==> ModelStrings(ms.more))
  }

  /** Exactly one top-level key decodes to `model`, and its value is a string. */
  predicate Routable(d: Doc) { ModelCount(d.members) == 1 && ModelStrings(d.members) }

  /** The same members with the value of every `model` replaced. */
  function Replaced(ms: Members, model: string): Members {
    var m := if IsModel(ms.m) then ms.m.(value := Str(Dump(model))) else ms.m;
    if ms.MoreMembers? then MoreMembers(m, Replaced(ms.more, model)) else LastMember(m)
  }

  /** The members as a decoder reports them: each key's code points with its value. */
  function Meaning(ms: Members): seq<(seq<nat>, Value)> {
    [(Decode(ms.m.key), ms.m.value)] + (if ms.MoreMembers? then Meaning(ms.more) else [])
  }

  /** Where a member's value begins, in a member whose text begins at `at`. */
  function ValueAt(m: Member, at: nat): nat {
    at + |m.before| + |Quoted(m.key)| + |m.colon| + 1 + |m.gap|
  }

  /** Where the value of the first `model` begins and ends, in members whose text begins at `at`. */
  function Span(ms: Members, at: nat): Place
    requires ModelCount(ms) > 0
  {
    if IsModel(ms.m) then
      Place(ValueAt(ms.m, at), ValueAt(ms.m, at) + |Text(ms.m.value)|)
    else Span(ms.more, at + |MemberText(ms.m)| + 1)
  }

  /** The whole text as a document, if it is one. */
  function ScanDoc(t: string): (r: Option<Doc>) {
    var i := Skip(t, 0);
    if i >= |t| || t[i] != '{' then None
    else
      var s := ScanMembers(t, i + 1);
      if s.Fail? || Skip(t, s.end) != |t| then None else Some(Doc(t[..i], s.value, t[s.end..]))
  }

  lemma DocSound(t: string)
    requires ScanDoc(t).Some?
    ensures ValidDoc(ScanDoc(t).value) && BoundedDoc(ScanDoc(t).value) && DocText(ScanDoc(t).value) == t
  {
    hide ScanMembers, MembersText, ValidMembers, BoundedMembers, At, Spaces, Skip;
    var i := Skip(t, 0);
    var s := ScanMembers(t, i + 1);
    MembersSound(t, i + 1);
    DocOf(t, i, s.value, s.end);
  }

  lemma DocOf(t: string, i: nat, ms: Members, e: nat)
    requires i < |t| && Spaces(t[0..i]) && t[i] == '{'
    requires ValidMembers(ms) && At(t, i + 1, MembersText(ms)) && e == i + 1 + |MembersText(ms)|
    requires e <= |t| && Spaces(t[e..|t|])
    ensures ValidDoc(Doc(t[..i], ms, t[e..])) && DocText(Doc(t[..i], ms, t[e..])) == t
  {
    hide MembersText, ValidMembers, Spaces;
    Reassemble(t, i, e);
  }

  lemma Reassemble(t: string, i: nat, e: nat)
    requires i < e <= |t|
    ensures t == t[..i] + ([t[i]] + (t[i + 1..e] + t[e..]))
    ensures t[..i] == t[0..i] && t[e..] == t[e..|t|]
  {
  }

  lemma DocExact(d: Doc)
    requires ValidDoc(d)
    ensures ScanDoc(DocText(d)) == if BoundedDoc(d) then Some(d) else None
  {
    hide ScanMembers, MembersText, At, ValidMembers, BoundedMembers, Spaces, Skip;
    var t := DocText(d);
    AtWhole(t);
    var i := |d.before|;
    AtConcat(t, 0, d.before, "{" + (MembersText(d.members) + d.after));
    AtConcat(t, i, "{", MembersText(d.members) + d.after);
    AtChar(t, i, '{');
    AtConcat(t, i + 1, MembersText(d.members), d.after);
    SkipExact(t, 0, d.before);
    MembersExact(t, i + 1, d.members);
    SkipExact(t, i + 1 + |MembersText(d.members)|, d.after);
  }

  lemma AtWhole(t: string)
    ensures At(t, 0, t)
  {
    assert t[0..|t|] == t;
  }

  // ---- the walk ----

  /** Skips blanks, as a loop. */
  method SkipLoop(text: string, from: nat) returns (index: nat)
    requires from <= |text|
    ensures index == Skip(text, from)
  {
    index := from;
    while index < |text| && IsSpace(text[index])
      invariant from <= index <= |text|
      invariant Skip(text, index) == Skip(text, from)
    {
      index := index + 1;
    }
  }

  /** The place of the one `model` value in a routable body's text. */
  function ModelSpan(t: string): (r: Option<Place>)
    ensures r.Some? ==> r.value.start <= r.value.end <= |t|
  {
    var d := ScanDoc(t);
    if d.Some? && Routable(d.value) then
      SpanLies(t);
      Some(Span(d.value.members, |d.value.before| + 1))
    else None
  }

  /** What `ms`, whose text begins at `i`, add to the `span` found before them. */
  function Outcome(ms: Members, i: nat, span: Option<Place>): Option<Place> {
    if !ModelStrings(ms) then None
    else if ModelCount(ms) == 0 then span
    else if ModelCount(ms) == 1 && span.None? then Some(Span(ms, i))
    else None
  }

  /** What the rest of the walk comes to, from the member at `i`, with `span` found before. */
  function Walk(t: string, i: nat, span: Option<Place>): Option<Place>
    requires i <= |t|
  {
    var s := ScanMembers(t, i);
    if s.Fail? || Skip(t, s.end) != |t| then None else Outcome(s.value, i, span)
  }

  /** What a walk knows after a member: nothing more to find, or the span to carry on with. */
  function Found(m: Member, i: nat, span: Option<Place>): Option<Option<Place>> {
    if !IsModel(m) then Some(span)
    else if span.Some? || !m.value.Str? then None
    else Some(Some(Place(ValueAt(m, i), ValueAt(m, i) + |Text(m.value)|)))
  }

  lemma OutcomeStep(ms: Members, i: nat, span: Option<Place>)
    ensures var found := Found(ms.m, i, span);
      Outcome(ms, i, span) ==
        if found.None? then None
        else if ms.LastMember? then found.value
        else Outcome(ms.more, i + |MemberText(ms.m)| + 1, found.value)
  {
    hide Text, MemberText, IsModel, ValueAt;
  }

  /** The parts of a scanned member: its key's quote, its colon, and its value. */
  ghost predicate MemberAt(t: string, i: nat, m: Member, j: nat, k: nat, start: nat, e: nat)
    requires i <= |t|
  {
    && ScanMember(t, i).Ok? && m == ScanMember(t, i).value
    && j == Skip(t, i) < |t| && t[j] == '"'
    && ScanPieces(t, j + 1).Ok? && ScanPieces(t, j + 1).value == m.key
    && k == Skip(t, ScanPieces(t, j + 1).end) < |t| && t[k] == ':'
    && start == Skip(t, k + 1) && start == ValueAt(m, i)
    && ScanValue(t, start).Ok? && ScanValue(t, start).value == m.value
    && e == ScanValue(t, start).end == start + |Text(m.value)|
    && ScanMember(t, i).end == Skip(t, e) == i + |MemberText(m)|
  }

  /** Where a scanned member's parts lie. */
  lemma MemberPlaces(t: string, i: nat) returns (m: Member, j: nat, k: nat, start: nat, e: nat)
    requires i <= |t| && ScanMember(t, i).Ok?
    ensures MemberAt(t, i, m, j, k, start, e)
  {
    hide At, ScanPieces, ScanValue, Skip, Text, Quoted, MemberText, Spaces, ValidPieces, Valid, ValidMember;
    MemberSound(t, i);
    m := ScanMember(t, i).value;
    j := Skip(t, i);
    QuotedSound(t, j);
    k := Skip(t, ScanPieces(t, j + 1).end);
    start := Skip(t, k + 1);
    ValueSound(t, start);
    e := ScanValue(t, start).end;
  }

  lemma MembersStep(t: string, i: nat)
    requires i <= |t|
    ensures var m, s := ScanMember(t, i), ScanMembers(t, i);
      && (m.Fail? ==> s.Fail?)
      && (m.Ok? ==> m.end <= |t|)
      && (m.Ok? && m.end < |t| && t[m.end] == '}' ==> s == Ok(LastMember(m.value), m.end + 1))
      && (m.Ok? && m.end < |t| && t[m.end] == ',' ==>
            var more := ScanMembers(t, m.end + 1);
            if more.Fail? then s.Fail? else s == Ok(MoreMembers(m.value, more.value), more.end))
      && (m.Ok? && (m.end >= |t| || t[m.end] !in ",}") ==> s.Fail?)
  {
    hide ScanMember;
  }

  lemma MemberFails(t: string, i: nat)
    requires i <= |t| && ScanMember(t, i).Fail?
    ensures var j := Skip(t, i);
      j < |t| && t[j] == '"' && ScanPieces(t, j + 1).Ok? ==>
        var k := Skip(t, ScanPieces(t, j + 1).end);
        k < |t| && t[k] == ':' ==> ScanValue(t, Skip(t, k + 1)).Fail?
  {
    hide ScanPieces, ScanValue, Skip;
  }

  /** One turn of the walk from the key at `j`: the span to carry on with and where the member ends,
      or nothing when the text cannot be routed. */
  datatype Turned = Stop | Carry(span: Option<Place>, end: nat)

  /** A turn from the colon at `k` on. */
  function TurnPast(t: string, key: Scan<seq<Piece>>, k: nat, span: Option<Place>): Turned
    requires key.Ok? && k <= |t|
  {
    if k >= |t| || t[k] != ':' || ScanValue(t, Skip(t, k + 1)).Fail? then Stop
    else
      var start := Skip(t, k + 1);
      var v := ScanValue(t, start);
      if Decode(key.value) != MODEL then Carry(span, Skip(t, v.end))
      else if span.Some? || !v.value.Str? then Stop
      else Carry(Some(Place(start, v.end)), Skip(t, v.end))
  }

  function Turn(t: string, j: nat, span: Option<Place>): Turned
    requires j <= |t|
  {
    if j >= |t| || t[j] != '"' || ScanPieces(t, j + 1).Fail? then Stop
    else TurnPast(t, ScanPieces(t, j + 1), Skip(t, ScanPieces(t, j + 1).end), span)
  }

  lemma TurnIsMember(t: string, i: nat, span: Option<Place>)
    requires i <= |t|
    ensures Turn(t, Skip(t, i), span) ==
      if ScanMember(t, i).Fail? then Stop
      else
        var found := Found(ScanMember(t, i).value, i, span);
        if found.None? then Stop else Carry(found.value, ScanMember(t, i).end)
  {
    hide ScanMember, ScanPieces, ScanValue, Skip, Decode, ValueAt, Text, MemberText, Codes;
    if ScanMember(t, i).Fail? {
      MemberFails(t, i);
    } else {
      var m, j, k, start, e := MemberPlaces(t, i);
    }
  }

  lemma WalkMember(t: string, i: nat, span: Option<Place>, m: Member, e: nat)
    requires i <= |t| && ScanMember(t, i) == Ok(m, e) && e == i + |MemberText(m)|
    ensures Walk(t, i, span) ==
      var found := Found(m, i, span);
      if found.None? then None
      else if e < |t| && t[e] == ',' then Walk(t, e + 1, found.value)
      else if e < |t| && t[e] == '}' && Skip(t, e + 1) == |t| then found.value
      else None
  {
    hide ScanMember, ScanMembers, Skip, Found, Outcome, MemberText;
    MembersStep(t, i);
    OutcomeStep(LastMember(m), i, span);
    var s := ScanMembers(t, i);
    if s.Ok? { OutcomeStep(s.value, i, span); }
  }

  lemma WalkFails(t: string, i: nat, span: Option<Place>)
    requires i <= |t| && ScanMember(t, i).Fail?
    ensures Walk(t, i, span).None?
  {
    hide ScanMember;
  }

  lemma WalkStep(t: string, i: nat, span: Option<Place>)
    requires i <= |t|
    ensures Walk(t, i, span) ==
      var turn := Turn(t, Skip(t, i), span);
      if turn.Stop? then None
      else if turn.end < |t| && t[turn.end] == ',' then Walk(t, turn.end + 1, turn.span)
      else if turn.end < |t| && t[turn.end] == '}' && Skip(t, turn.end + 1) == |t| then turn.span
      else None
  {
    hide ScanMember, ScanMembers, ScanPieces, ScanValue, ValueAt, Text, Skip, Found, MemberText, Turn, Walk;
    TurnIsMember(t, i, span);
    if ScanMember(t, i).Ok? {
      var m, j, k, start, e := MemberPlaces(t, i);
      WalkMember(t, i, span, m, ScanMember(t, i).end);
    } else {
      WalkFails(t, i, span);
    }
  }

  lemma NotAnObject(t: string)
    ensures var i := Skip(t, 0); i >= |t| || t[i] != '{' ==> ModelSpan(t).None?
  {
  }

  lemma WalkIsSpan(t: string)
    requires var i := Skip(t, 0); i < |t| && t[i] == '{'
    ensures Walk(t, Skip(t, 0) + 1, None) == ModelSpan(t)
  {
    hide ScanMembers, Skip, ModelCount, ModelStrings, Span, Spaces, MembersText;
    ScanDocIs(t);
  }

  lemma ScanDocIs(t: string)
    requires var i := Skip(t, 0); i < |t| && t[i] == '{'
    ensures var i := Skip(t, 0);
      var s := ScanMembers(t, i + 1);
      if s.Fail? || Skip(t, s.end) != |t| then ScanDoc(t).None?
      else ScanDoc(t).Some? && ScanDoc(t).value.members == s.value && |ScanDoc(t).value.before| == i
  {
    hide ScanMembers, Skip;
  }

  /** What a turn comes to at a key, and past its colon. */
  lemma TurnAt(t: string, j: nat, span: Option<Place>)
    requires j <= |t|
    ensures j >= |t| || t[j] != '"' ==> Turn(t, j, span).Stop?
    ensures j < |t| && t[j] == '"' && ScanPieces(t, j + 1).Fail? ==> Turn(t, j, span).Stop?
    ensures j < |t| && t[j] == '"' && ScanPieces(t, j + 1).Ok? ==>
      Turn(t, j, span) == TurnPast(t, ScanPieces(t, j + 1), Skip(t, ScanPieces(t, j + 1).end), span)
  {
    hide ScanPieces, ScanValue, Skip, Decode, Codes;
  }

  method FindModel(text: string) returns (result: Option<Place>)
    ensures result == ModelSpan(text)
  {
    hide ScanPieces, ScanValue, Skip, Decode, Walk, ModelSpan, Spaces, Codes, ScanDoc, IsSpace, Routable, Span;
    hide ScanMembers, ScanMember, Outcome, Found, Turn;
    var index := SkipLoop(text, 0);
    NotAnObject(text);
    if index >= |text| || text[index] != '{' { return None; }
    WalkIsSpan(text);
    var at: nat := index + 1;
    index := SkipLoop(text, index + 1);
    var span: Option<Place> := None;
    if index < |text| && text[index] == '}' {
      WalkStep(text, at, span);
      TurnAt(text, index, span);
      return None;
    }
    while true
      invariant at <= index <= |text| && index == Skip(text, at)
      invariant Walk(text, at, span) == ModelSpan(text)
      decreases |text| - index
    {
      WalkStep(text, at, span);
      TurnAt(text, index, span);
      if index >= |text| || text[index] != '"' { return None; }
      var key := ScanPieces(text, index + 1);
      if key.Fail? { return None; }
      index := SkipLoop(text, key.end);
      if index >= |text| || text[index] != ':' { return None; }
      var start := SkipLoop(text, index + 1);
      var value := ScanValue(text, start);
      if value.Fail? { return None; }
      if Decode(key.value) == MODEL {
        if span.Some? || !value.value.Str? { return None; }
        span := Some(Place(start, value.end));
      }
      index := SkipLoop(text, value.end);
      if index < |text| && text[index] == ',' {
        at := index + 1;
        index := SkipLoop(text, index + 1);
        continue;
      }
      if index < |text| && text[index] == '}' { break; }
      return None;
    }
    var end := SkipLoop(text, index + 1);
    result := if end == |text| then span else None;
  }

  // ---- the splice ----

  /** The text with another model's name, as JSON, in that place. */
  function WithModel(text: string, model: string): Option<string> {
    var span := ModelSpan(text);
    if span.None? then None
    else Some(text[..span.value.start] + (Quoted(Dump(model)) + text[span.value.end..]))
  }

  lemma NoModelSame(ms: Members, model: string)
    requires ModelCount(ms) == 0
    ensures Replaced(ms, model) == ms
  {
  }

  /** Replacing a slice of the middle of three parts. */
  lemma SpliceMiddle(p: string, x: string, v: string, y: string, w: string)
    ensures var t := p + (x + (v + y));
      t[..|p| + |x|] + (w + t[|p| + |x| + |v|..]) == p + (x + (w + y))
  {
    var t := p + (x + (v + y));
    assert t[..|p| + |x|] == p + x;
    assert t[|p| + |x| + |v|..] == y;
    assert (p + x) + (w + y) == p + (x + (w + y));
  }

  /** A member's text up to its value. */
  function MemberHead(m: Member): string {
    m.before + (Quoted(m.key) + (m.colon + (":" + m.gap)))
  }

  lemma MemberSplit(m: Member)
    ensures MemberText(m) == MemberHead(m) + (Text(m.value) + m.after)
    ensures |MemberHead(m)| == ValueAt(m, 0)
  {
    hide Text, Quoted;
    Regroup(m.before, Quoted(m.key), m.colon, ":", m.gap, Text(m.value) + m.after);
  }

  lemma Regroup(a: string, b: string, c: string, d: string, e: string, f: string)
    ensures a + (b + (c + (d + (e + f)))) == (a + (b + (c + (d + e)))) + f
  {
  }

  /** The span is where the one `model` value is: splicing there gives the text of the members with
      that value replaced. */
  lemma {:induction false} SpliceMembers(p: string, ms: Members, s: string, model: string)
    requires ModelCount(ms) == 1 && ModelStrings(ms)
    ensures var t, span := p + (MembersText(ms) + s), Span(ms, |p|);
      && |p| <= span.start <= span.end <= |t|
      && t[..span.start] + (Quoted(Dump(model)) + t[span.end..]) == p + (MembersText(Replaced(ms, model)) + s)
    decreases ms
  {
    hide Text, MemberText, Quoted, IsModel, Dump, ValueAt;
    var m := ms.m;
    var tail := if ms.MoreMembers? then "," + MembersText(ms.more) else "}";
    if IsModel(m) {
      if ms.MoreMembers? { NoModelSame(ms.more, model); }
      var w := Str(Dump(model));
      assert Text(w) == Quoted(Dump(model)) by { StrText(Dump(model)); }
      SpliceHead(p, m, tail, s, w, p + (MembersText(ms) + s), ValueAt(m, |p|));
    } else {
      var p' := p + (MemberText(m) + ",");
      SpliceMembers(p', ms.more, s, model);
      Regroup4(p, MemberText(m), ",", MembersText(ms.more), s);
      Regroup4(p, MemberText(m), ",", MembersText(Replaced(ms.more, model)), s);
    }
  }

  lemma SpanLies(t: string)
    requires ScanDoc(t).Some? && Routable(ScanDoc(t).value)
    ensures var d := ScanDoc(t).value; var span := Span(d.members, |d.before| + 1); span.start <= span.end <= |t|
  {
    hide ScanDoc, MembersText, Span;
    var d := ScanDoc(t).value;
    DocSound(t);
    SpliceMembers(d.before + "{", d.members, d.after, "");
    Regroup2(d.before, MembersText(d.members), d.after);
  }

  lemma StrText(ps: seq<Piece>)
    ensures Text(Str(ps)) == Quoted(ps)
  {
  }

  lemma Regroup4(p: string, a: string, b: string, c: string, s: string)
    ensures (p + (a + b)) + (c + s) == p + ((a + (b + c)) + s)
  {
  }

  lemma SpliceHead(p: string, m: Member, tail: string, s: string, w: Value, t: string, start: nat)
    requires t == p + ((MemberText(m) + tail) + s) && start == ValueAt(m, |p|)
    ensures |p| <= start <= start + |Text(m.value)| <= |t|
    ensures t[..start] + (Text(w) + t[start + |Text(m.value)|..]) == p + ((MemberText(m.(value := w)) + tail) + s)
  {
    HeadKept(m, w, |p|);
    hide Text, MemberText, MemberHead, ValueAt;
    MemberSplit(m);
    MemberSplit(m.(value := w));
    SpliceInner(p, MemberHead(m), Text(m.value), m.after, tail, s, Text(w));
  }

  lemma HeadKept(m: Member, w: Value, at: nat)
    ensures MemberHead(m.(value := w)) == MemberHead(m)
    ensures ValueAt(m, at) == at + ValueAt(m, 0)
  {
  }

  lemma SpliceInner(p: string, x: string, v: string, a: string, tail: string, s: string, w: string)
    ensures var t := p + (((x + (v + a)) + tail) + s);
      && |p| + |x| + |v| <= |t|
      && t[..|p| + |x|] + (w + t[|p| + |x| + |v|..]) == p + (((x + (w + a)) + tail) + s)
  {
    var y := a + tail + s;
    Regroup5(x, v, a, tail, s);
    Regroup5(x, w, a, tail, s);
    SpliceMiddle(p, x, v, y, w);
  }

  lemma Regroup5(x: string, v: string, a: string, tail: string, s: string)
    ensures ((x + (v + a)) + tail) + s == x + (v + (a + tail + s))
  {
  }

  lemma {:induction false} ReplacedValid(ms: Members, model: string)
    requires ValidMembers(ms)
    ensures ValidMembers(Replaced(ms, model))
    ensures ModelCount(Replaced(ms, model)) == ModelCount(ms) && ModelStrings(Replaced(ms, model))
    ensures BoundedMembers(ms) ==> BoundedMembers(Replaced(ms, model))
    decreases ms
  {
    assert ValidPieces(Dump(model));
    if ms.MoreMembers? { ReplacedValid(ms.more, model); }
  }

  /** The document with its `model` replaced. */
  function Routed(d: Doc, model: string): Doc { d.(members := Replaced(d.members, model)) }

  /** The splice of a routable document is the text of the same document with that one value
      replaced, which is routable again. */
  lemma SpliceRoutes(d: Doc, model: string)
    requires ValidDoc(d) && BoundedDoc(d) && Routable(d)
    ensures WithModel(DocText(d), model) == Some(DocText(Routed(d, model)))
    ensures ValidDoc(Routed(d, model)) && BoundedDoc(Routed(d, model)) && Routable(Routed(d, model))
  {
    hide MembersText, ScanDoc, Replaced, Span, Dump, Quoted, ValidMembers, BoundedMembers, ModelStrings;
    DocExact(d);
    ReplacedValid(d.members, model);
    SpliceMembers(d.before + "{", d.members, d.after, model);
    Regroup2(d.before, MembersText(d.members), d.after);
    Regroup2(d.before, MembersText(Replaced(d.members, model)), d.after);
  }

  lemma Regroup2(a: string, b: string, c: string)
    ensures (a + "{") + (b + c) == a + ("{" + (b + c))
  {
  }

  /** What can be routed: a document the decoder reads, with exactly one top-level key that decodes to
      `model`, its value a string. */
  predicate Routes(d: Doc) { ValidDoc(d) && BoundedDoc(d) && Routable(d) }

  /** A body is routed exactly when it is the text of such a document. */
  lemma SplicesExactly(text: string, model: string)
    ensures WithModel(text, model).Some? <==> exists d :: DocText(d) == text && Routes(d)
  {
    if WithModel(text, model).Some? {
      DocSound(text);
      assert Routes(ScanDoc(text).value);
    }
    hide ScanDoc, Routable, ValidDoc, BoundedDoc, DocText;
    forall d | DocText(d) == text && Routes(d) ensures WithModel(text, model).Some? {
      SpliceRoutes(d, model);
    }
  }

  /** Of the documents of RFC 8259 with exactly one `model`, a string, exactly those are routed in which
      no integer, however deep, has more digits than the decoder converts. */
  lemma RfcRouted(d: Doc, model: string)
    requires RfcDoc(d) && Routable(d)
    ensures WithModel(DocText(d), model).Some? <==> BoundedDoc(d)
  {
    hide WithModel, DocText, ValidDoc, BoundedDoc, Routable;
    if BoundedDoc(d) {
      SpliceRoutes(d, model);
    } else {
      LongRefused(d, model);
    }
  }

  lemma LongRefused(d: Doc, model: string)
    requires ValidDoc(d) && !BoundedDoc(d)
    ensures WithModel(DocText(d), model).None?
  {
    hide DocText, ScanDoc;
    DocExact(d);
  }

  /** A routed body is a document of RFC 8259 exactly when it holds none of `NaN`, `Infinity` and
      `-Infinity`, however deep. */
  lemma RoutedBeyondRfc(text: string, model: string)
    requires WithModel(text, model).Some?
    ensures ScanDoc(text).Some?
    ensures (exists d :: RfcDoc(d) && DocText(d) == text) <==> StrictMembers(ScanDoc(text).value.members)
  {
    hide DocText, StrictMembers;
    var tree := ScanDoc(text).value;
    DocSound(text);
    forall d | RfcDoc(d) && DocText(d) == text ensures d == tree { DocUnique(tree, d); }
    assert StrictMembers(tree.members) ==> RfcDoc(tree);
  }

  /** The decoder reports the same members, in order, with only the `model` value changed, and that
      value decodes to the model asked for. */
  lemma {:induction false} SpliceKeepsMeaning(ms: Members, model: string)
    ensures var was, now := Meaning(ms), Meaning(Replaced(ms, model));
      && |now| == |was|
      && (forall i :: 0 <= i < |was| ==>
            now[i] == if was[i].0 == MODEL then (MODEL, Str(Dump(model))) else was[i])
    ensures Decode(Dump(model)) == Codes(model)
    decreases ms
  {
    DumpDecodes(model);
    hide Decode, Dump, Codes;
    if ms.MoreMembers? { SpliceKeepsMeaning(ms.more, model); }
  }

  /** Splicing twice is splicing the last model once. */
  lemma SpliceTwice(text: string, first: string, second: string)
    requires WithModel(text, first).Some?
    ensures WithModel(WithModel(text, first).value, second) == WithModel(text, second)
  {
    SplicesExactly(text, first);
    var d :| DocText(d) == text && Routes(d);
    hide WithModel, DocText, ValidDoc, BoundedDoc, Routable;
    SpliceRoutes(d, first);
    SpliceRoutes(d, second);
    SpliceRoutes(Routed(d, first), second);
    ReplacedTwice(d.members, first, second);
  }

  lemma {:induction false} ReplacedTwice(ms: Members, first: string, second: string)
    ensures Replaced(Replaced(ms, first), second) == Replaced(ms, second)
    decreases ms
  {
    hide Dump, Decode, Codes;
    if ms.MoreMembers? { ReplacedTwice(ms.more, first, second); }
  }

  /** A document that the decoder reads has one reading, longer integers allowed. */
  lemma DocUnique(a: Doc, b: Doc)
    requires ValidDoc(a) && BoundedDoc(a) && ValidDoc(b) && DocText(a) == DocText(b)
    ensures a == b
  {
    DocExact(a);
    DocExact(b);
  }

  /** A member after the model one, as a document. */
  function Second(m: Member, key: seq<Piece>, v: Value): Doc {
    Doc("", MoreMembers(m, LastMember(Member("", key, "", "", v, ""))), "")
  }

  lemma SecondIs(m: Member, key: seq<Piece>, v: Value)
    requires ValidMember(m) && IsModel(m) && m.value.Str?
    requires ValidPieces(key) && Decode(key) != MODEL && Valid(v)
    ensures var d := Second(m, key, v);
      && ValidDoc(d) && Routable(d) && (BoundedDoc(d) <==> Bounded(v)) && (StrictMembers(d.members) <==> Strict(v))
      && DocText(d) == "{" + (MemberText(m) + ("," + (Quoted(key) + (":" + (Text(v) + "}")))))
  {
    hide Codes, Decode, Quoted;
    var b := Member("", key, "", "", v, "");
    assert ValidMembers(LastMember(b)) && !IsModel(b);
    assert Bounded(m.value) && Strict(m.value);
    assert BoundedMembers(LastMember(b)) <==> Bounded(v);
    assert StrictMembers(LastMember(b)) <==> Strict(v);
    assert ModelCount(LastMember(b)) == 0 && ModelStrings(LastMember(b));
    assert MemberText(b) == Quoted(key) + (":" + Text(v));
    assert MembersText(LastMember(b)) == Quoted(key) + (":" + (Text(v) + "}"));
  }

  /** Beyond RFC 8259: a body `{<model member>,<key>:NaN}` is routed. */
  lemma NotANumberRouted(m: Member, key: seq<Piece>, model: string)
    requires ValidMember(m) && IsModel(m) && m.value.Str?
    requires ValidPieces(key) && Decode(key) != MODEL
    ensures WithModel("{" + (MemberText(m) + ("," + (Quoted(key) + (":" + ("NaN" + "}"))))), model).Some?
  {
    hide WithModel, Codes, Decode, ValidDoc, BoundedDoc, Routable, DocText;
    var v := Word("NaN");
    assert Valid(v) && Text(v) == "NaN" by { assert "NaN" in WORDS; }
    SecondIs(m, key, v);
    SpliceRoutes(Second(m, key, v), model);
  }

  /** A value inside arrays. */
  function Within(v: Value, depth: nat): Value {
    if depth == 0 then v else Array(LastItem("", Within(v, depth - 1), ""))
  }

  lemma {:induction false} WithinIs(v: Value, depth: nat)
    requires Valid(v) && !Bounded(v)
    ensures Valid(Within(v, depth)) && !Bounded(Within(v, depth))
    ensures Strict(Within(v, depth)) <==> Strict(v)
  {
    if depth > 0 { WithinIs(v, depth - 1); }
  }

  /** A body of RFC 8259 that is not routed: after the model, arrays to any depth around an integer of
      more digits than the decoder converts. */
  lemma LongIntegerRefused(m: Member, key: seq<Piece>, digits: string, depth: nat, model: string)
    requires ValidMember(m) && IsModel(m) && m.value.Str?
    requires ValidPieces(key) && Decode(key) != MODEL
    requires Digits(digits) && |digits| > INTEGER_DIGITS && digits[0] != '0'
    ensures var d := Second(m, key, Within(Number(false, digits, "", ""), depth));
      RfcDoc(d) && Routable(d) && WithModel(DocText(d), model).None?
    ensures Text(Number(false, digits, "", "")) == digits
  {
    hide WithModel, Codes, Decode, DocText, Within;
    var v := Number(false, digits, "", "");
    assert Valid(v) && Strict(v) && !Bounded(v);
    WithinIs(v, depth);
    SecondIs(m, key, Within(v, depth));
    LongRefused(Second(m, key, Within(v, depth)), model);
  }
}
