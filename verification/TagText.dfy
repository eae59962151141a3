/** Searching text for a think tag, and the blank space before one. */
module TagText {

  const OPEN: string := "<think>"
  const CLOSE: string := "</think>"

  /** What counts as blank is the caller's; a tag never starts with it. */
  type Blank = b: char -> bool | !b('<') witness (c: char) => c == ' '

  /** The tag begins at `i` of the text, as far as the text goes. */
  predicate BeginsAt(s: string, i: nat, tag: string) {
    forall k :: 0 <= k < |tag| && i + k < |s| ==> s[i + k] == tag[k]
  }

  predicate OccursAt(s: string, i: nat, tag: string) {
    i + |tag| <= |s| && BeginsAt(s, i, tag)
  }

  /** The first occurrence from `i` on, -1 if there is none. */
  function FindFrom(s: string, tag: string, i: nat): (r: int)
    ensures -1 <= r <= |s|
    ensures r >= 0 ==> i <= r && OccursAt(s, r, tag)
    ensures forall j: nat :: i <= j && OccursAt(s, j, tag) ==> 0 <= r <= j
    decreases |s| - i
  {
    if i + |tag| > |s| then -1
    else if OccursAt(s, i, tag) then i
    else if i == |s| then -1
    else FindFrom(s, tag, i + 1)
  }

  function Find(s: string, tag: string): (r: int)
    ensures -1 <= r <= |s|
    ensures r >= 0 ==> OccursAt(s, r, tag)
    ensures forall j: nat :: OccursAt(s, j, tag) ==> 0 <= r <= j
  {
    FindFrom(s, tag, 0)
  }

  function Leading(s: string, blank: Blank): (n: nat)
    ensures n <= |s|
    ensures forall i :: 0 <= i < n ==> blank(s[i])
    ensures n < |s| ==> !blank(s[n])
  {
    if s == "" || !blank(s[0]) then 0 else 1 + Leading(s[1..], blank)
  }

  predicate AllBlank(s: string, blank: Blank) { forall i :: 0 <= i < |s| ==> blank(s[i]) }

  lemma LeadingIs(s: string, blank: Blank, n: nat)
    requires n <= |s| && (forall i :: 0 <= i < n ==> blank(s[i])) && (n < |s| ==> !blank(s[n]))
    ensures Leading(s, blank) == n
  {
  }

  /** An occurrence is found where it is first. */
  lemma FindIs(s: string, tag: string, i: nat)
    requires OccursAt(s, i, tag)
    requires forall j: nat :: j < i ==> !OccursAt(s, j, tag)
    ensures Find(s, tag) == i
  {
  }

  /** What follows does not change an occurrence. */
  lemma OccursMore(s: string, t: string, i: nat, tag: string)
    requires i + |tag| <= |s|
    ensures OccursAt(s + t, i, tag) <==> OccursAt(s, i, tag)
  {
  }

  /** What precedes does not either. */
  lemma OccursDrop(s: string, n: nat, i: nat, tag: string)
    requires n <= i && n <= |s|
    ensures OccursAt(s, i, tag) <==> OccursAt(s[n..], i - n, tag)
  {
    assert forall m :: n <= m < |s| ==> s[m] == s[n..][m - n];
  }

  lemma FindMore(s: string, t: string, tag: string)
    requires Find(s, tag) >= 0
    ensures Find(s + t, tag) == Find(s, tag)
  {
    hide OccursAt;
    var i := Find(s, tag);
    OccursFits(s, i, tag);
    forall j: nat | j <= i ensures OccursAt(s + t, j, tag) <==> OccursAt(s, j, tag) {
      OccursMore(s, t, j, tag);
    }
    FindIs(s + t, tag, i);
  }

  lemma OccursFits(s: string, i: nat, tag: string)
    requires OccursAt(s, i, tag)
    ensures i + |tag| <= |s|
  {
  }

  /** Dropping a front that no occurrence starts in. */
  lemma FindDrop(s: string, n: nat, tag: string)
    requires n <= |s| && forall j: nat :: j < n ==> !OccursAt(s, j, tag)
    ensures Find(s, tag) == if Find(s[n..], tag) < 0 then -1 else n + Find(s[n..], tag)
  {
    hide OccursAt;
    var d := s[n..];
    forall j: nat | n <= j
      ensures OccursAt(s, j, tag) <==> OccursAt(d, j - n, tag)
    {
      OccursDrop(s, n, j, tag);
    }
    if Find(d, tag) >= 0 {
      FindIs(s, tag, n + Find(d, tag));
    }
  }

  /** An occurrence that starts in `s` and ends past it. */
  lemma Straddles(s: string, t: string, p: nat, tag: string)
    requires OccursAt(s + t, p, tag)
    ensures BeginsAt(s, p, tag)
  {
    assert forall m :: 0 <= m < |s| ==> s[m] == (s + t)[m];
  }

  lemma DropDrop(s: string, a: nat, b: nat)
    requires a + b <= |s|
    ensures s[a..][b..] == s[a + b..]
  {
  }

  lemma DropMore(s: string, t: string, n: nat)
    requires n <= |s|
    ensures (s + t)[n..] == s[n..] + t && (s + t)[..n] == s[..n]
  {
  }

  function Concat(chunks: seq<string>): string {
    if chunks == [] then "" else chunks[0] + Concat(chunks[1..])
  }
}
