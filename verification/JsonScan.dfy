/** The scanner reads exactly the grammar: what it accepts is the text of the tree it returns, and
    the text of any valid tree scans back to that tree, whatever follows it. */
module JsonScan {
  import opened Json

  // ---- text at a place ----

  lemma AtConcat(t: string, i: nat, a: string, b: string)
    ensures At(t, i, a + b) <==> At(t, i, a) && At(t, i + |a|, b)
  {
    if At(t, i, a + b) {
      assert t[i..i + |a|] == t[i..i + |a + b|][..|a|] == a;
      assert t[i + |a|..i + |a| + |b|] == t[i..i + |a + b|][|a|..] == b;
    }
    if At(t, i, a) && At(t, i + |a|, b) {
      assert t[i..i + |a + b|] == t[i..i + |a|] + t[i + |a|..i + |a| + |b|];
    }
  }

  lemma AtSlice(t: string, i: nat, j: nat)
    requires i <= j <= |t|
    ensures At(t, i, t[i..j])
  {
  }

  lemma AtChar(t: string, i: nat, c: char)
    ensures At(t, i, [c]) <==> i < |t| && t[i] == c
  {
  }

  lemma AtIndex(t: string, i: nat, s: string, k: nat)
    requires At(t, i, s) && k < |s|
    ensures i + k < |t| && t[i + k] == s[k]
  {
    assert t[i..i + |s|][k] == s[k];
  }

  lemma {:induction false} SkipExact(t: string, i: nat, s: string)
    requires At(t, i, s) && Spaces(s)
    requires i + |s| < |t| ==> !IsSpace(t[i + |s|])
    ensures Skip(t, i) == i + |s| && t[i..i + |s|] == s
    decreases |s|
  {
    if s != "" {
      AtIndex(t, i, s, 0);
      AtConcat(t, i, [s[0]], s[1..]);
      assert [s[0]] + s[1..] == s;
      SkipExact(t, i + 1, s[1..]);
    }
  }

  lemma {:induction false} SkipDigitsExact(t: string, i: nat, s: string)
    requires At(t, i, s) && Digits(s)
    requires i + |s| < |t| ==> !IsDigit(t[i + |s|])
    ensures SkipDigits(t, i) == i + |s|
    decreases |s|
  {
    if s != "" {
      AtIndex(t, i, s, 0);
      AtConcat(t, i, [s[0]], s[1..]);
      assert [s[0]] + s[1..] == s;
      SkipDigitsExact(t, i + 1, s[1..]);
    }
  }

  // ---- strings ----

  lemma {:induction false} PiecesSound(t: string, i: nat)
    requires i <= |t| && ScanPieces(t, i).Ok?
    ensures var r := ScanPieces(t, i);
      ValidPieces(r.value) && At(t, i, PiecesText(r.value) + "\"") && r.end == i + |PiecesText(r.value)| + 1
    decreases |t| - i
  {
    var r := ScanPieces(t, i);
    if t[i] == '"' {
      assert PiecesText([]) + "\"" == "\"";
    } else {
      var p := ScanPiece(t, i);
      PiecesSound(t, p.end);
      var rest := ScanPieces(t, p.end);
      PieceSound(t, i);
      AtConcat(t, i, PieceText(p.value), PiecesText(rest.value) + "\"");
      assert r.value[1..] == rest.value;
      assert PiecesText(r.value) + "\"" == PieceText(p.value) + (PiecesText(rest.value) + "\"");
    }
  }

  lemma PieceSound(t: string, i: nat)
    requires i < |t| && ScanPiece(t, i).Ok?
    ensures var r := ScanPiece(t, i);
      ValidPiece(r.value) && At(t, i, PieceText(r.value)) && r.end == i + |PieceText(r.value)|
  {
  }

  lemma PieceExact(t: string, i: nat, p: Piece)
    requires ValidPiece(p) && At(t, i, PieceText(p))
    ensures i < |t| && t[i] != '"' && ScanPiece(t, i) == Ok(p, i + |PieceText(p)|)
  {
    var s := PieceText(p);
    AtIndex(t, i, s, 0);
    if !p.Plain? { AtIndex(t, i, s, 1); }
    if p.Hex? {
      AtIndex(t, i, s, 2);
      AtIndex(t, i, s, 3);
      AtIndex(t, i, s, 4);
      AtIndex(t, i, s, 5);
    }
  }

  lemma {:induction false} PiecesExact(t: string, i: nat, ps: seq<Piece>)
    requires ValidPieces(ps) && At(t, i, PiecesText(ps) + "\"")
    ensures i <= |t| && ScanPieces(t, i) == Ok(ps, i + |PiecesText(ps)| + 1)
    decreases |ps|
  {
    hide At, PiecesText, PieceText, ScanPiece, ScanPieces, ValidPiece;
    PiecesStep(ps);
    if ps == [] {
      AtIndex(t, i, "\"", 0);
      ScanPiecesStep(t, i);
    } else {
      var p, rest := ps[0], ps[1..];
      AtConcat(t, i, PieceText(p), PiecesText(rest) + "\"");
      PieceExact(t, i, p);
      PiecesExact(t, i + |PieceText(p)|, rest);
      ScanPiecesStep(t, i);
      assert [p] + rest == ps;
    }
  }

  lemma PiecesStep(ps: seq<Piece>)
    ensures ps == [] ==> PiecesText(ps) == "" && PiecesText(ps) + "\"" == "\""
    ensures ps != [] ==> PiecesText(ps) + "\"" == PieceText(ps[0]) + (PiecesText(ps[1..]) + "\"")
    ensures ps != [] ==> |PiecesText(ps)| == |PieceText(ps[0])| + |PiecesText(ps[1..])|
  {
  }

  lemma ScanPiecesStep(t: string, i: nat)
    requires i < |t|
    ensures t[i] == '"' ==> ScanPieces(t, i) == Ok([], i + 1)
    ensures t[i] != '"' && ScanPiece(t, i).Ok? && ScanPieces(t, ScanPiece(t, i).end).Ok? ==>
      (var rest := ScanPieces(t, ScanPiece(t, i).end);
       ScanPieces(t, i) == Ok([ScanPiece(t, i).value] + rest.value, rest.end))
  {
    hide ScanPiece;
  }

  lemma QuotedSound(t: string, i: nat)
    requires i < |t| && t[i] == '"' && ScanPieces(t, i + 1).Ok?
    ensures var r := ScanPieces(t, i + 1);
      ValidPieces(r.value) && At(t, i, Quoted(r.value)) && r.end == i + |Quoted(r.value)|
  {
    hide PiecesText;
    PiecesSound(t, i + 1);
    AtConcat(t, i, "\"", PiecesText(ScanPieces(t, i + 1).value) + "\"");
  }

  lemma QuotedExact(t: string, i: nat, ps: seq<Piece>)
    requires ValidPieces(ps) && At(t, i, Quoted(ps))
    ensures i < |t| && t[i] == '"' && ScanPieces(t, i + 1) == Ok(ps, i + |Quoted(ps)|)
  {
    hide PiecesText;
    AtConcat(t, i, "\"", PiecesText(ps) + "\"");
    AtIndex(t, i, "\"", 0);
    PiecesExact(t, i + 1, ps);
  }

  // ---- numbers ----

  /** What may follow a value inside an object or an array, or at the end. */
  predicate Delimited(t: string, i: nat) {
    i >= |t| || IsSpace(t[i]) || t[i] == ',' || t[i] == ']' || t[i] == '}'
  }

  lemma NumberSound(t: string, i: nat)
    requires i < |t| && ScanNumber(t, i).Ok?
    ensures var r := ScanNumber(t, i);
      r.value.Number? && ValidNumber(r.value) && BoundedNumber(r.value) && At(t, i, NumberText(r.value)) && r.end == i + |NumberText(r.value)|
  {
    hide FractionEnd, ExponentEnd, ValidFraction, ValidExponent, Digits, At;
    var a := if t[i] == '-' then i + 1 else i;
    var b := if t[a] == '0' then a + 1 else SkipDigits(t, a);
    var c := FractionEnd(t, b);
    var d := ExponentEnd(t, c);
    FractionSound(t, b);
    ExponentSound(t, c);
    assert t[a..b][0] == t[a];
    assert Digits(t[a..b]) by { if t[a] == '0' { OneDigit(t[a]); assert t[a..b] == [t[a]]; } }
    assert t[i..a] == if t[i] == '-' then "-" else "";
    JoinSlices(t, i, a, b, c, d);
  }

  lemma OneDigit(c: char)
    requires IsDigit(c)
    ensures Digits([c])
  {
  }

  lemma SpaceAt(s: string, k: nat)
    requires Spaces(s) && k < |s|
    ensures IsSpace(s[k])
  {
  }

  lemma DigitAt(s: string, k: nat)
    requires Digits(s) && k < |s|
    ensures IsDigit(s[k])
  {
  }

  lemma JoinSlices(t: string, i: nat, a: nat, b: nat, c: nat, d: nat)
    requires i <= a <= b <= c <= d <= |t|
    ensures At(t, i, t[i..a] + (t[a..b] + (t[b..c] + t[c..d])))
    ensures |t[i..a] + (t[a..b] + (t[b..c] + t[c..d]))| == d - i
  {
    assert t[i..d] == t[i..a] + (t[a..b] + (t[b..c] + t[c..d]));
  }

  lemma FractionSound(t: string, i: nat)
    requires i <= |t|
    ensures ValidFraction(t[i..FractionEnd(t, i)])
  {
    var j := FractionEnd(t, i);
    if j > i {
      assert t[i..j][1..] == t[i + 1..j];
      assert t[i + 1..j] != "" by { assert IsDigit(t[i + 1]); }
    }
  }

  lemma ExponentSound(t: string, i: nat)
    requires i <= |t|
    ensures ValidExponent(t[i..ExponentEnd(t, i)])
  {
    var j := ExponentEnd(t, i);
    if j > i {
      var s := t[i..j];
      if t[i + 1] in "+-" {
        assert IsDigit(t[i + 2]);
        assert s[2..] == t[i + 2..j];
      } else {
        assert s[1..] == t[i + 1..j];
      }
    }
  }

  lemma FractionExact(t: string, i: nat, s: string)
    requires ValidFraction(s) && At(t, i, s)
    requires i + |s| < |t| ==> !IsDigit(t[i + |s|]) && t[i + |s|] != '.'
    ensures FractionEnd(t, i) == i + |s|
  {
    if s != "" {
      AtIndex(t, i, s, 0);
      AtIndex(t, i, s, 1);
      assert s == [s[0]] + s[1..];
      AtConcat(t, i, [s[0]], s[1..]);
      SkipDigitsExact(t, i + 1, s[1..]);
    }
  }

  lemma ExponentExact(t: string, i: nat, s: string)
    requires ValidExponent(s) && At(t, i, s) && Delimited(t, i + |s|)
    ensures ExponentEnd(t, i) == i + |s|
  {
    if s != "" {
      AtIndex(t, i, s, 0);
      AtIndex(t, i, s, 1);
      var k := if s[1] in "+-" then 2 else 1;
      AtIndex(t, i, s, k);
      assert s == s[..k] + s[k..];
      AtConcat(t, i, s[..k], s[k..]);
      SkipDigitsExact(t, i + k, s[k..]);
    }
  }

  lemma NumberExact(t: string, i: nat, v: Value)
    requires v.Number? && ValidNumber(v) && At(t, i, NumberText(v)) && Delimited(t, i + |NumberText(v)|)
    ensures i < |t| && (t[i] == '-' || IsDigit(t[i])) && (t[i] == '-' ==> i + 1 < |t| && IsDigit(t[i + 1]))
    ensures ScanNumber(t, i) == if BoundedNumber(v) then Ok(v, i + |NumberText(v)|) else Fail
  {
    hide FractionEnd, ExponentEnd, SkipDigits, ValidFraction, ValidExponent, At, Digits, ScanNumber, NumberText, Delimited;
    var a := i + (if v.minus then 1 else 0);
    var b := a + |v.whole|;
    var c := b + |v.fraction|;
    NumberParts(t, i, v);
    DigitAt(v.whole, 0);
    ExponentExact(t, c, v.exponent);
    EndsNumber(t, c + |v.exponent|);
    if v.exponent != "" { ExponentStart(v.exponent); }
    FractionExact(t, b, v.fraction);
    if v.fraction != "" { FractionStart(v.fraction); }
    WholeExact(t, a, v.whole);
    ScanNumberIs(t, i, a, b, c, c + |v.exponent|);
  }

  lemma EndsNumber(t: string, i: nat)
    requires Delimited(t, i)
    ensures i < |t| ==> !IsDigit(t[i]) && t[i] != '.' && t[i] !in "eE"
  {
  }

  /** Where a number's whole part ends. */
  function WholeEnd(t: string, a: nat): (b: nat)
    requires a < |t|
    ensures a <= b <= |t|
  {
    if t[a] == '0' then a + 1 else SkipDigits(t, a)
  }

  lemma WholeExact(t: string, a: nat, w: string)
    requires At(t, a, w) && w != "" && Digits(w) && (w[0] == '0' ==> w == "0")
    requires a + |w| < |t| ==> !IsDigit(t[a + |w|])
    ensures a < |t| && WholeEnd(t, a) == a + |w|
  {
    hide Digits, At;
    AtIndex(t, a, w, 0);
    if w[0] != '0' { SkipDigitsExact(t, a, w); }
  }

  /** What scanning a number comes to, its parts found. */
  lemma ScanNumberIs(t: string, i: nat, a: nat, b: nat, c: nat, d: nat)
    requires i < |t| && a == (if t[i] == '-' then i + 1 else i) && a < |t| && IsDigit(t[a])
    requires b == WholeEnd(t, a) && c == FractionEnd(t, b) && d == ExponentEnd(t, c) && b > a
    ensures ScanNumber(t, i) == if b == d && b - a > INTEGER_DIGITS then Fail
                                else Ok(Number(t[i] == '-', t[a..b], t[b..c], t[c..d]), d)
  {
  }

  /** Where the parts of a number lie. */
  lemma NumberParts(t: string, i: nat, v: Value)
    requires v.Number? && At(t, i, NumberText(v))
    ensures var sign := if v.minus then "-" else "";
      var a := i + |sign|;
      var b := a + |v.whole|;
      var c := b + |v.fraction|;
      var d := c + |v.exponent|;
      && d == i + |NumberText(v)| <= |t|
      && t[i..a] == sign && t[a..b] == v.whole && t[b..c] == v.fraction && t[c..d] == v.exponent
      && At(t, a, v.whole) && At(t, b, v.fraction) && At(t, c, v.exponent)
      && a == i + (if v.minus then 1 else 0) && (v.minus ==> i < |t| && t[i] == '-')
      && (v.whole != "" ==> a < |t| && t[a] == v.whole[0])
      && (v.fraction != "" ==> b < |t| && t[b] == v.fraction[0])
      && (v.exponent != "" ==> c < |t| && t[c] == v.exponent[0])
  {
    hide At;
    var sign := if v.minus then "-" else "";
    var a := i + |sign|;
    AtConcat(t, i, sign, v.whole + (v.fraction + v.exponent));
    AtConcat(t, a, v.whole, v.fraction + v.exponent);
    AtConcat(t, a + |v.whole|, v.fraction, v.exponent);
    AtWithin(t, i, sign);
    AtWithin(t, a, v.whole);
    AtWithin(t, a + |v.whole|, v.fraction);
    AtWithin(t, a + |v.whole| + |v.fraction|, v.exponent);
  }

  lemma AtWithin(t: string, i: nat, s: string)
    requires At(t, i, s)
    ensures i + |s| <= |t| && t[i..i + |s|] == s
    ensures forall k :: 0 <= k < |s| ==> t[i + k] == s[k]
  {
    forall k | 0 <= k < |s| ensures t[i + k] == s[k] {
      AtIndex(t, i, s, k);
    }
  }

  lemma FractionStart(s: string)
    requires ValidFraction(s) && s != ""
    ensures s[0] == '.'
  {
  }

  lemma ExponentStart(s: string)
    requires ValidExponent(s) && s != ""
    ensures s[0] in "eE"
  {
  }

  // ---- scalars ----

  lemma ScalarSound(t: string, i: nat)
    requires i < |t| && ScanScalar(t, i).Ok?
    ensures var r := ScanScalar(t, i);
      Valid(r.value) && Bounded(r.value) && At(t, i, Text(r.value)) && r.end == i + |Text(r.value)|
  {
    hide ScanNumber, NumberText, ValidNumber;
    var r := ScanScalar(t, i);
    if !r.value.Word? || ScanNumber(t, i) == r { NumberSound(t, i); }
  }

  lemma WordExact(t: string, i: nat, w: string)
    requires w in WORDS && At(t, i, w)
    ensures i < |t| && t[i] == w[0] && ScanScalar(t, i) == Ok(Word(w), i + |w|)
  {
    hide ScanNumber;
    AtIndex(t, i, w, 0);
    forall x | x in WORDS && At(t, i, x) ensures t[i] == x[0] {
      AtIndex(t, i, x, 0);
    }
  }

  /** A value starts with none of the characters that close or separate. */
  lemma FirstChar(v: Value)
    requires Valid(v)
    ensures Text(v) != "" && !IsSpace(Text(v)[0]) && Text(v)[0] != ']' && Text(v)[0] != '}'
  {
  }

  // ---- values ----

  lemma {:induction false} ValueSound(t: string, i: nat)
    requires i <= |t| && ScanValue(t, i).Ok?
    ensures var r := ScanValue(t, i);
      Valid(r.value) && Bounded(r.value) && At(t, i, Text(r.value)) && r.end == i + |Text(r.value)|
    decreases |t| - i, 1
  {
    hide At, ScanPieces, ScanItems, ScanMembers, ScanScalar, PiecesText, ItemsText, MembersText;
    if t[i] == '"' {
      QuotedSound(t, i);
    } else if t[i] == '[' {
      AtChar(t, i, '[');
      var j := Skip(t, i + 1);
      if j < |t| && t[j] == ']' {
        BracketSound(t, i, j, '[', ']');
      } else {
        ItemsSound(t, i + 1);
        AtConcat(t, i, "[", ItemsText(ScanItems(t, i + 1).value));
      }
    } else if t[i] == '{' {
      AtChar(t, i, '{');
      var j := Skip(t, i + 1);
      if j < |t| && t[j] == '}' {
        BracketSound(t, i, j, '{', '}');
      } else {
        MembersSound(t, i + 1);
        AtConcat(t, i, "{", MembersText(ScanMembers(t, i + 1).value));
      }
    } else {
      ScalarSound(t, i);
    }
  }

  lemma BracketSound(t: string, i: nat, j: nat, open: char, close: char)
    requires i < j < |t| && t[i] == open && t[j] == close
    ensures At(t, i, [open] + (t[i + 1..j] + [close]))
  {
    assert t[i..j + 1] == [open] + (t[i + 1..j] + [close]);
  }

  /** Where the parts of a list of items lie. */
  lemma ItemsParts(t: string, i: nat, items: Items)
    ensures var v, tail := i + |items.before|, if items.Item? then "," + ItemsText(items.more) else "]";
      var e := v + |Text(items.value)|;
      && (At(t, i, ItemsText(items)) <==>
            At(t, i, items.before) && At(t, v, Text(items.value)) && At(t, e, items.after) && At(t, e + |items.after|, tail))
      && i + |ItemsText(items)| == e + |items.after| + |tail|
  {
    hide At, Text;
    var v, tail := i + |items.before|, if items.Item? then "," + ItemsText(items.more) else "]";
    var e := v + |Text(items.value)|;
    AtConcat(t, i, items.before, Text(items.value) + (items.after + tail));
    AtConcat(t, v, Text(items.value), items.after + tail);
    AtConcat(t, e, items.after, tail);
  }

  lemma {:induction false} ItemsSound(t: string, i: nat)
    requires i <= |t| && ScanItems(t, i).Ok?
    ensures var r := ScanItems(t, i);
      ValidItems(r.value) && BoundedItems(r.value) && At(t, i, ItemsText(r.value)) && r.end == i + |ItemsText(r.value)|
    decreases |t| - i, 2
  {
    hide At, ScanValue, Text, Spaces, Skip, ItemsText, Valid, Bounded;
    var r := ScanItems(t, i);
    var j := Skip(t, i);
    var v := ScanValue(t, j);
    var k := Skip(t, v.end);
    ValueSound(t, j);
    ItemsParts(t, i, r.value);
    AtSlice(t, v.end, k);
    AtSlice(t, i, j);
    if r.value.Item? {
      ItemsSound(t, k + 1);
      AtChar(t, k, ',');
      AtConcat(t, k, ",", ItemsText(r.value.more));
    } else {
      AtChar(t, k, ']');
    }
  }

  lemma {:induction false} MemberSound(t: string, i: nat)
    requires i <= |t| && ScanMember(t, i).Ok?
    ensures var r := ScanMember(t, i);
      ValidMember(r.value) && Bounded(r.value.value) && At(t, i, MemberText(r.value)) && r.end == i + |MemberText(r.value)|
    decreases |t| - i, 2
  {
    hide At, ScanValue, Text, ScanPieces, Quoted, Bounded;
    var r := ScanMember(t, i);
    var j := Skip(t, i);
    var key := ScanPieces(t, j + 1);
    var k := Skip(t, key.end);
    var start := Skip(t, k + 1);
    var v := ScanValue(t, start);
    var e := Skip(t, v.end);
    QuotedSound(t, j);
    ValueSound(t, start);
    AtSlice(t, v.end, e);
    var a := Text(v.value) + t[v.end..e];
    AtConcat(t, start, Text(v.value), t[v.end..e]);
    var b := t[k + 1..start] + a;
    AtSlice(t, k + 1, start);
    AtConcat(t, k + 1, t[k + 1..start], a);
    AtChar(t, k, ':');
    AtConcat(t, k, ":", b);
    AtSlice(t, key.end, k);
    AtConcat(t, key.end, t[key.end..k], ":" + b);
    AtConcat(t, j, Quoted(key.value), t[key.end..k] + (":" + b));
    AtSlice(t, i, j);
    AtConcat(t, i, t[i..j], Quoted(key.value) + (t[key.end..k] + (":" + b)));
  }

  lemma {:induction false} MembersSound(t: string, i: nat)
    requires i <= |t| && ScanMembers(t, i).Ok?
    ensures var r := ScanMembers(t, i);
      ValidMembers(r.value) && BoundedMembers(r.value) && At(t, i, MembersText(r.value)) && r.end == i + |MembersText(r.value)|
    decreases |t| - i, 3
  {
    hide At, ScanMember, MemberText;
    var r, m := ScanMembers(t, i), ScanMember(t, i);
    MemberSound(t, i);
    if r.value.MoreMembers? {
      MembersSound(t, m.end + 1);
      AtChar(t, m.end, ',');
      AtConcat(t, m.end, ",", MembersText(r.value.more));
    } else {
      AtChar(t, m.end, '}');
    }
    AtConcat(t, i, MemberText(m.value), if r.value.MoreMembers? then "," + MembersText(r.value.more) else "}");
  }

  lemma {:induction false} ValueExact(t: string, i: nat, v: Value)
    requires Valid(v) && At(t, i, Text(v)) && Delimited(t, i + |Text(v)|)
    ensures i <= |t| && ScanValue(t, i) == if Bounded(v) then Ok(v, i + |Text(v)|) else Fail
    decreases v, 1
  {
    hide At, ScanPieces, ScanItems, ScanMembers, ScanScalar, PiecesText, ItemsText, MembersText, ScanNumber,
      NumberText, ValidNumber, Spaces;
    match v
    case Word(w) =>
      WordExact(t, i, w);
    case Number(_, _, _, _) =>
      NumberExact(t, i, v);
      NumberScalar(t, i);
    case Str(ps) =>
      QuotedExact(t, i, ps);
    case EmptyArray(s) =>
      BracketExact(t, i, s, '[', ']');
    case EmptyObject(s) =>
      BracketExact(t, i, s, '{', '}');
    case Array(items) =>
      AtConcat(t, i, "[", ItemsText(items));
      AtChar(t, i, '[');
      ItemsExact(t, i + 1, items);
    case Object(ms) =>
      AtConcat(t, i, "{", MembersText(ms));
      AtChar(t, i, '{');
      MembersExact(t, i + 1, ms);
  }

  lemma NumberScalar(t: string, i: nat)
    requires i < |t| && (t[i] == '-' || IsDigit(t[i])) && (t[i] == '-' ==> i + 1 < |t| && IsDigit(t[i + 1]))
    ensures ScanScalar(t, i) == ScanNumber(t, i)
  {
    hide ScanNumber;
    forall x | x in WORDS ensures !At(t, i, x) {
      if At(t, i, x) {
        AtIndex(t, i, x, 0);
        AtIndex(t, i, x, 1);
        assert false;
      }
    }
  }

  lemma BracketExact(t: string, i: nat, s: string, open: char, close: char)
    requires At(t, i, [open] + (s + [close])) && Spaces(s) && !IsSpace(close)
    ensures i + |s| + 1 < |t| && t[i] == open && t[i + |s| + 1] == close
    ensures Skip(t, i + 1) == i + 1 + |s| && t[i + 1..i + 1 + |s|] == s
  {
    hide At;
    AtConcat(t, i, [open], s + [close]);
    AtConcat(t, i + 1, s, [close]);
    AtChar(t, i, open);
    AtChar(t, i + 1 + |s|, close);
    SkipExact(t, i + 1, s);
  }

  lemma {:induction false} ItemsExact(t: string, i: nat, items: Items)
    requires ValidItems(items) && At(t, i, ItemsText(items))
    ensures i <= |t| && ScanItems(t, i) == if BoundedItems(items) then Ok(items, i + |ItemsText(items)|) else Fail
    ensures var j := Skip(t, i); j < |t| && t[j] != ']'
    decreases items, 0
  {
    hide At, ScanValue, Text, Valid, Bounded, ItemsText, Skip, Spaces;
    var v := items.value;
    var tail := if items.Item? then "," + ItemsText(items.more) else "]";
    ItemsParts(t, i, items);
    var j := i + |items.before|;
    FirstChar(v);
    AtIndex(t, j, Text(v), 0);
    SkipExact(t, i, items.before);
    var e := j + |Text(v)|;
    var k := e + |items.after|;
    AtIndex(t, k, tail, 0);
    SkipExact(t, e, items.after);
    if items.after != "" {
      AtIndex(t, e, items.after, 0);
      SpaceAt(items.after, 0);
    }
    ValueExact(t, j, v);
    if items.Item? {
      AtConcat(t, k, ",", ItemsText(items.more));
      ItemsExact(t, k + 1, items.more);
    }
  }

  /** Where the parts of a member lie. */
  lemma MemberParts(t: string, i: nat, m: Member) returns (key: nat, colon: nat, sep: nat, start: nat, after: nat)
    requires At(t, i, MemberText(m))
    ensures At(t, i, m.before) && key == i + |m.before|
    ensures At(t, key, Quoted(m.key)) && colon == key + |Quoted(m.key)|
    ensures At(t, colon, m.colon) && sep == colon + |m.colon|
    ensures sep < |t| && t[sep] == ':' && At(t, sep + 1, m.gap) && start == sep + 1 + |m.gap|
    ensures At(t, start, Text(m.value)) && after == start + |Text(m.value)|
    ensures At(t, after, m.after) && i + |MemberText(m)| == after + |m.after|
  {
    hide At, Text, Quoted;
    var a := Text(m.value) + m.after;
    var b := m.colon + (":" + (m.gap + a));
    key := i + |m.before|;
    colon := key + |Quoted(m.key)|;
    sep := colon + |m.colon|;
    start := sep + 1 + |m.gap|;
    after := start + |Text(m.value)|;
    AtConcat(t, i, m.before, Quoted(m.key) + b);
    AtConcat(t, key, Quoted(m.key), b);
    AtConcat(t, colon, m.colon, ":" + (m.gap + a));
    AtConcat(t, sep, ":", m.gap + a);
    AtChar(t, sep, ':');
    AtConcat(t, sep + 1, m.gap, a);
    AtConcat(t, start, Text(m.value), m.after);
  }

  /** A member's text scans to it, up to the comma or brace that follows, unless an integer in it is too long. */
  lemma {:induction false} MemberExact(t: string, i: nat, m: Member)
    requires ValidMember(m) && At(t, i, MemberText(m))
    requires var e := i + |MemberText(m)|; e < |t| && (t[e] == ',' || t[e] == '}')
    ensures i <= |t| && ScanMember(t, i) == if Bounded(m.value) then Ok(m, i + |MemberText(m)|) else Fail
    ensures var j := Skip(t, i); j < |t| && t[j] == '"'
    decreases m, 0
  {
    hide At, ScanValue, Text, Valid, Bounded, ScanPieces, Quoted, MemberText, Skip, Spaces, ValidPieces, ScanMember, Delimited;
    var key, colon, sep, start, after := MemberParts(t, i, m);
    QuotedExact(t, key, m.key);
    SkipExact(t, i, m.before);
    SkipExact(t, colon, m.colon);
    FirstChar(m.value);
    AtIndex(t, start, Text(m.value), 0);
    SkipExact(t, sep + 1, m.gap);
    SkipExact(t, after, m.after);
    DelimitedAfter(t, after, m.after);
    ValueExact(t, start, m.value);
    AtWithin(t, i, m.before);
    AtWithin(t, colon, m.colon);
    AtWithin(t, sep + 1, m.gap);
    AtWithin(t, after, m.after);
    ScanMemberIs(t, i, key, sep, start);
  }

  /** Blanks and a delimiter, or a delimiter at once, end a value. */
  lemma DelimitedAfter(t: string, i: nat, s: string)
    requires At(t, i, s) && Spaces(s) && i + |s| < |t| && t[i + |s|] in ",]}"
    ensures Delimited(t, i)
  {
    hide At;
    if s != "" {
      AtIndex(t, i, s, 0);
      SpaceAt(s, 0);
    }
  }

  /** What scanning a member comes to, its parts found. */
  lemma ScanMemberIs(t: string, i: nat, j: nat, k: nat, start: nat)
    requires i <= |t| && j == Skip(t, i) < |t| && t[j] == '"' && ScanPieces(t, j + 1).Ok?
    requires k == Skip(t, ScanPieces(t, j + 1).end) < |t| && t[k] == ':' && start == Skip(t, k + 1)
    ensures var key, v := ScanPieces(t, j + 1), ScanValue(t, start);
      ScanMember(t, i) ==
        if v.Fail? then Fail
        else Ok(Member(t[i..j], key.value, t[key.end..k], t[k + 1..start], v.value, t[v.end..Skip(t, v.end)]), Skip(t, v.end))
  {
    hide ScanValue, ScanPieces, Skip;
  }

  lemma {:induction false} MembersExact(t: string, i: nat, ms: Members)
    requires ValidMembers(ms) && At(t, i, MembersText(ms))
    ensures i <= |t| && ScanMembers(t, i) == if BoundedMembers(ms) then Ok(ms, i + |MembersText(ms)|) else Fail
    ensures var j := Skip(t, i); j < |t| && t[j] == '"'
    decreases ms, 0
  {
    hide At, ScanMember, MemberText, ValidMember;
    var tail := if ms.MoreMembers? then "," + MembersText(ms.more) else "}";
    AtConcat(t, i, MemberText(ms.m), tail);
    var e := i + |MemberText(ms.m)|;
    AtIndex(t, e, tail, 0);
    MemberExact(t, i, ms.m);
    if ms.MoreMembers? {
      AtConcat(t, e, ",", MembersText(ms.more));
      MembersExact(t, e + 1, ms.more);
    }
  }
}
