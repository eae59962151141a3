/** JSON text as Python's decoder reads it: the grammar as syntax trees with their exact text, a
    recursive-descent scanner, and the proof that the two agree. The decoder takes section 4 of
    RFC 8259 and, beyond it, the words NaN, Infinity and -Infinity; it refuses an integer of more
    than `INTEGER_DIGITS` digits. */
module Json {

  const INTEGER_DIGITS: nat := 4300

  // ---- syntax trees ----

  datatype Piece = Plain(c: char) | Short(c: char) | Hex(a: char, b: char, c': char, d: char)

  datatype Value =
    | Word(word: string)
    | Number(minus: bool, whole: string, fraction: string, exponent: string)
    | Str(pieces: seq<Piece>)
    | EmptyArray(space: string)
    | Array(items: Items)
    | EmptyObject(space: string)
    | Object(members: Members)

  datatype Items = LastItem(before: string, value: Value, after: string)
                 | Item(before: string, value: Value, after: string, more: Items)

  datatype Members = LastMember(m: Member) | MoreMembers(m: Member, more: Members)

  datatype Member = Member(before: string, key: seq<Piece>, colon: string, gap: string, value: Value, after: string)

  // ---- characters ----

  predicate IsSpace(c: char) { c in " \t\n\r" }

  predicate IsDigit(c: char) { '0' <= c <= '9' }

  predicate IsHex(c: char) { '0' <= c <= '9' || 'a' <= c <= 'f' || 'A' <= c <= 'F' }

  predicate Spaces(s: string) { forall i :: 0 <= i < |s| ==> IsSpace(s[i]) }

  predicate Digits(s: string) { forall i :: 0 <= i < |s| ==> IsDigit(s[i]) }

  const WORDS: set<string> := {"null", "true", "false", "NaN", "Infinity", "-Infinity"}

  // ---- what is valid, and its text ----

  predicate ValidPiece(p: Piece) {
    match p
    case Plain(c) => c != '"' && c != '\\' && c >= ' '
    case Short(c) => c in "\"\\/bfnrt"
    case Hex(a, b, c, d) => IsHex(a) && IsHex(b) && IsHex(c) && IsHex(d)
  }

  predicate ValidPieces(ps: seq<Piece>) { forall i :: 0 <= i < |ps| ==> ValidPiece(ps[i]) }

  predicate ValidFraction(s: string) { s == "" || (|s| > 1 && s[0] == '.' && Digits(s[1..])) }

  predicate ValidExponent(s: string) {
    s == "" || (s[0] in "eE" && |s| > 1
      && (if s[1] in "+-" then |s| > 2 && Digits(s[2..]) else Digits(s[1..])))
  }

  predicate ValidNumber(v: Value)
    requires v.Number?
  {
    && v.whole != "" && Digits(v.whole) && (v.whole[0] == '0' ==> v.whole == "0")
    && ValidFraction(v.fraction) && ValidExponent(v.exponent)
  }

  /** The number is not an integer of more digits than the decoder converts. */
  predicate BoundedNumber(v: Value)
    requires v.Number?
  {
    v.fraction == "" && v.exponent == "" ==> |v.whole| <= INTEGER_DIGITS
  }

  predicate Valid(v: Value)
    decreases v
  {
    match v
    case Word(w) => w in WORDS
    case Number(_, _, _, _) => ValidNumber(v)
    case Str(ps) => ValidPieces(ps)
    case EmptyArray(s) => Spaces(s)
    case Array(items) => ValidItems(items)
    case EmptyObject(s) => Spaces(s)
    case Object(ms) => ValidMembers(ms)
  }

  predicate ValidItems(items: Items)
    decreases items
  {
    && Spaces(items.before) && Valid(items.value) && Spaces(items.after)
    && (items.Item? ==> ValidItems(items.more))
  }

  predicate ValidMember(m: Member)
    decreases m
  {
    Spaces(m.before) && ValidPieces(m.key) && Spaces(m.colon) && Spaces(m.gap) && Valid(m.value) && Spaces(m.after)
  }

  predicate ValidMembers(ms: Members)
    decreases ms
  {
    ValidMember(ms.m) && (ms.MoreMembers? ==> ValidMembers(ms.more))
  }

  // ---- what of it the decoder refuses, and what of it RFC 8259 does not know ----

  /** No integer anywhere has more digits than the decoder converts. */
  predicate Bounded(v: Value)
    decreases v
  {
    match v
    case Number(_, _, _, _) => BoundedNumber(v)
    case Array(items) => BoundedItems(items)
    case Object(ms) => BoundedMembers(ms)
    case _ => true
  }

  predicate BoundedItems(items: Items)
    decreases items
  {
    Bounded(items.value) && (items.Item? ==> BoundedItems(items.more))
  }

  predicate BoundedMembers(ms: Members)
    decreases ms
  {
    Bounded(ms.m.value) && (ms.MoreMembers? ==> BoundedMembers(ms.more))
  }

  /** None of `NaN`, `Infinity` and `-Infinity` anywhere: with that, a valid value is one of RFC 8259. */
  predicate Strict(v: Value)
    decreases v
  {
    match v
    case Word(w) => w in {"null", "true", "false"}
    case Array(items) => StrictItems(items)
    case Object(ms) => StrictMembers(ms)
    case _ => true
  }

  predicate StrictItems(items: Items)
    decreases items
  {
    Strict(items.value) && (items.Item? ==> StrictItems(items.more))
  }

  predicate StrictMembers(ms: Members)
    decreases ms
  {
    Strict(ms.m.value) && (ms.MoreMembers? ==> StrictMembers(ms.more))
  }

  function PieceText(p: Piece): string {
    match p
    case Plain(c) => [c]
    case Short(c) => ['\\', c]
    case Hex(a, b, c, d) => ['\\', 'u', a, b, c, d]
  }

  function PiecesText(ps: seq<Piece>): string {
    if ps == [] then "" else PieceText(ps[0]) + PiecesText(ps[1..])
  }

  function Quoted(ps: seq<Piece>): string { "\"" + (PiecesText(ps) + "\"") }

  function NumberText(v: Value): string
    requires v.Number?
  {
    (if v.minus then "-" else "") + (v.whole + (v.fraction + v.exponent))
  }

  function Text(v: Value): string
    decreases v
  {
    match v
    case Word(w) => w
    case Number(_, _, _, _) => NumberText(v)
    case Str(ps) => Quoted(ps)
    case EmptyArray(s) => "[" + (s + "]")
    case Array(items) => "[" + ItemsText(items)
    case EmptyObject(s) => "{" + (s + "}")
    case Object(ms) => "{" + MembersText(ms)
  }

  /** The items with the bracket that closes them. */
  function ItemsText(items: Items): string
    decreases items
  {
    items.before + (Text(items.value) + (items.after +
      (if items.Item? then "," + ItemsText(items.more) else "]")))
  }

  function MemberText(m: Member): string
    decreases m
  {
    m.before + (Quoted(m.key) + (m.colon + (":" + (m.gap + (Text(m.value) + m.after)))))
  }

  /** The members with the brace that closes them. */
  function MembersText(ms: Members): string
    decreases ms
  {
    MemberText(ms.m) + (if ms.MoreMembers? then "," + MembersText(ms.more) else "}")
  }

  // ---- the scanner ----

  datatype Scan<+T> = Fail | Ok(value: T, end: nat)

  function Skip(t: string, i: nat): (j: nat)
    requires i <= |t|
    ensures i <= j <= |t|
    ensures Spaces(t[i..j])
    ensures j < |t| ==> !IsSpace(t[j])
    decreases |t| - i
  {
    if i < |t| && IsSpace(t[i]) then Skip(t, i + 1) else i
  }

  function SkipDigits(t: string, i: nat): (j: nat)
    requires i <= |t|
    ensures i <= j <= |t|
    ensures Digits(t[i..j])
    ensures j < |t| ==> !IsDigit(t[j])
    decreases |t| - i
  {
    if i < |t| && IsDigit(t[i]) then SkipDigits(t, i + 1) else i
  }

  predicate At(t: string, i: nat, s: string) {
    i + |s| <= |t| && t[i..i + |s|] == s
  }

  /** A string's pieces, from past its opening quote to past its closing one. */
  function ScanPieces(t: string, i: nat): (r: Scan<seq<Piece>>)
    requires i <= |t|
    ensures r.Ok? ==> i < r.end <= |t|
    decreases |t| - i
  {
    if i >= |t| then Fail
    else if t[i] == '"' then Ok([], i + 1)
    else
      var p := ScanPiece(t, i);
      if p.Fail? then Fail
      else
        var rest := ScanPieces(t, p.end);
        if rest.Fail? then Fail else Ok([p.value] + rest.value, rest.end)
  }

  function ScanPiece(t: string, i: nat): (r: Scan<Piece>)
    requires i < |t|
    ensures r.Ok? ==> i < r.end <= |t|
  {
    if t[i] == '\\' then
      if i + 1 >= |t| then Fail
      else if t[i + 1] != 'u' then
        if t[i + 1] in "\"\\/bfnrt" then Ok(Short(t[i + 1]), i + 2) else Fail
      else if i + 5 < |t| && IsHex(t[i + 2]) && IsHex(t[i + 3]) && IsHex(t[i + 4]) && IsHex(t[i + 5])
      then Ok(Hex(t[i + 2], t[i + 3], t[i + 4], t[i + 5]), i + 6)
      else Fail
    else if t[i] >= ' ' && t[i] != '"' then Ok(Plain(t[i]), i + 1)
    else Fail
  }

  /** Where a number's fraction ends: a dot with no digit after it is none. */
  function FractionEnd(t: string, i: nat): (j: nat)
    requires i <= |t|
    ensures i <= j <= |t|
  {
    if i + 1 < |t| && t[i] == '.' && IsDigit(t[i + 1]) then SkipDigits(t, i + 1) else i
  }

  function ExponentEnd(t: string, i: nat): (j: nat)
    requires i <= |t|
    ensures i <= j <= |t|
  {
    if i + 1 < |t| && t[i] in "eE" then
      var k := if t[i + 1] in "+-" then i + 2 else i + 1;
      if k < |t| && IsDigit(t[k]) then SkipDigits(t, k) else i
    else i
  }

  function ScanNumber(t: string, i: nat): (r: Scan<Value>)
    requires i < |t|
    ensures r.Ok? ==> i < r.end <= |t|
  {
    var a := if t[i] == '-' then i + 1 else i;
    if a >= |t| || !IsDigit(t[a]) then Fail
    else
      var b := if t[a] == '0' then a + 1 else SkipDigits(t, a);
      var c := FractionEnd(t, b);
      var d := ExponentEnd(t, c);
      if b == d && b - a > INTEGER_DIGITS then Fail
      else if b > a then Ok(Number(t[i] == '-', t[a..b], t[b..c], t[c..d]), d)
      else Fail
  }

  function ScanScalar(t: string, i: nat): (r: Scan<Value>)
    requires i < |t|
    ensures r.Ok? ==> i < r.end <= |t|
  {
    if At(t, i, "null") then Ok(Word("null"), i + 4)
    else if At(t, i, "true") then Ok(Word("true"), i + 4)
    else if At(t, i, "false") then Ok(Word("false"), i + 5)
    else if At(t, i, "NaN") then Ok(Word("NaN"), i + 3)
    else if At(t, i, "Infinity") then Ok(Word("Infinity"), i + 8)
    else if At(t, i, "-Infinity") then Ok(Word("-Infinity"), i + 9)
    else ScanNumber(t, i)
  }

  function ScanValue(t: string, i: nat): (r: Scan<Value>)
    requires i <= |t|
    ensures r.Ok? ==> i < r.end <= |t|
    decreases |t| - i, 1
  {
    if i == |t| then Fail
    else if t[i] == '"' then
      var s := ScanPieces(t, i + 1);
      if s.Fail? then Fail else Ok(Str(s.value), s.end)
    else if t[i] == '[' then
      var j := Skip(t, i + 1);
      if j < |t| && t[j] == ']' then Ok(EmptyArray(t[i + 1..j]), j + 1)
      else
        var s := ScanItems(t, i + 1);
        if s.Fail? then Fail else Ok(Array(s.value), s.end)
    else if t[i] == '{' then
      var j := Skip(t, i + 1);
      if j < |t| && t[j] == '}' then Ok(EmptyObject(t[i + 1..j]), j + 1)
      else
        var s := ScanMembers(t, i + 1);
        if s.Fail? then Fail else Ok(Object(s.value), s.end)
    else ScanScalar(t, i)
  }

  function ScanItems(t: string, i: nat): (r: Scan<Items>)
    requires i <= |t|
    ensures r.Ok? ==> i < r.end <= |t|
    decreases |t| - i, 2
  {
    var j := Skip(t, i);
    var v := ScanValue(t, j);
    if v.Fail? then Fail
    else
      var k := Skip(t, v.end);
      if k < |t| && t[k] == ']' then Ok(LastItem(t[i..j], v.value, t[v.end..k]), k + 1)
      else if k < |t| && t[k] == ',' then
        var more := ScanItems(t, k + 1);
        if more.Fail? then Fail else Ok(Item(t[i..j], v.value, t[v.end..k], more.value), more.end)
      else Fail
  }

  /** One member, up to the comma or brace after it. */
  function ScanMember(t: string, i: nat): (r: Scan<Member>)
    requires i <= |t|
    ensures r.Ok? ==> i < r.end <= |t|
    decreases |t| - i, 2
  {
    var j := Skip(t, i);
    if j >= |t| || t[j] != '"' then Fail
    else
      var key := ScanPieces(t, j + 1);
      if key.Fail? then Fail
      else
        var k := Skip(t, key.end);
        if k >= |t| || t[k] != ':' then Fail
        else
          var start := Skip(t, k + 1);
          var v := ScanValue(t, start);
          if v.Fail? then Fail
          else
            var e := Skip(t, v.end);
            Ok(Member(t[i..j], key.value, t[key.end..k], t[k + 1..start], v.value, t[v.end..e]), e)
  }

  function ScanMembers(t: string, i: nat): (r: Scan<Members>)
    requires i <= |t|
    ensures r.Ok? ==> i < r.end <= |t|
    decreases |t| - i, 3
  {
    var m := ScanMember(t, i);
    if m.Fail? then Fail
    else if m.end < |t| && t[m.end] == '}' then Ok(LastMember(m.value), m.end + 1)
    else if m.end < |t| && t[m.end] == ',' then
      var more := ScanMembers(t, m.end + 1);
      if more.Fail? then Fail else Ok(MoreMembers(m.value, more.value), more.end)
    else Fail
  }
}
