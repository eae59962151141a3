/** The exporter's batches: the leading run of one gateway's records among the pending lines. */
module Exporter {
  import opened Spool
  import opened Options

  type Id = string

  /** What a spool line reads as. */
  datatype Kind = Blank | Junk | Record(id: Id, gateway: string)

  type Reader = seq<byte> -> Kind

  // ---- batches ----

  /** How many lines the leading run of one gateway's records spans. */
  function Run(entries: seq<Entry>, kind: Reader, gateway: Option<string>): (n: nat)
    ensures n <= |entries|
    ensures entries != [] && gateway.None? ==> n > 0
  {
    if entries == [] then 0
    else match kind(entries[0].line)
      case Record(_, g) =>
        if gateway.Some? && g != gateway.value then 0 else 1 + Run(entries[1..], kind, Some(g))
      case _ => 1 + Run(entries[1..], kind, gateway)
  }

  function Records(entries: seq<Entry>, kind: Reader): seq<Kind> {
    if entries == [] then []
    else (if kind(entries[0].line).Record? then [kind(entries[0].line)] else []) + Records(entries[1..], kind)
  }

  function Junks(entries: seq<Entry>, kind: Reader): nat {
    if entries == [] then 0
    else (if kind(entries[0].line).Junk? then 1 else 0) + Junks(entries[1..], kind)
  }

  /** A run has one gateway, and only another gateway's record ends it early. */
  lemma {:induction false} RunIsMaximal(entries: seq<Entry>, kind: Reader, gateway: Option<string>)
    returns (one: string)
    ensures forall i :: 0 <= i < Run(entries, kind, gateway) && kind(entries[i].line).Record?
                    ==> kind(entries[i].line).gateway == one
    ensures gateway.Some? ==> one == gateway.value
    ensures var n := Run(entries, kind, gateway);
      n < |entries| ==> kind(entries[n].line).Record? && kind(entries[n].line).gateway != one
  {
    if entries == [] {
      one := if gateway.Some? then gateway.value else "";
    } else {
      var k, rest := kind(entries[0].line), entries[1..];
      if k.Record? && gateway.Some? && k.gateway != gateway.value {
        one := gateway.value;
      } else {
        one := RunIsMaximal(rest, kind, if k.Record? then Some(k.gateway) else gateway);
        forall i | 0 <= i < Run(entries, kind, gateway) && kind(entries[i].line).Record?
          ensures kind(entries[i].line).gateway == one
        {
          if i > 0 { assert entries[i] == rest[i - 1]; }
        }
      }
    }
  }

  lemma RunStep(entries: seq<Entry>, i: nat, kind: Reader, gateway: Option<string>)
    requires i < |entries|
    ensures Run(entries[i..], kind, gateway) ==
      match kind(entries[i].line)
      case Record(_, g) =>
        if gateway.Some? && g != gateway.value then 0 else 1 + Run(entries[i + 1..], kind, Some(g))
      case _ => 1 + Run(entries[i + 1..], kind, gateway)
  {
    assert entries[i..][1..] == entries[i + 1..];
  }

  lemma RecordsNone(kind: Reader)
    ensures Records([], kind) == [] && Junks([], kind) == 0
  {
  }

  lemma {:induction false} RecordsSnoc(entries: seq<Entry>, e: Entry, kind: Reader)
    ensures Records(entries + [e], kind)
         == Records(entries, kind) + (if kind(e.line).Record? then [kind(e.line)] else [])
    ensures Junks(entries + [e], kind) == Junks(entries, kind) + (if kind(e.line).Junk? then 1 else 0)
  {
    if entries != [] {
      assert (entries + [e])[1..] == entries[1..] + [e];
      RecordsSnoc(entries[1..], e, kind);
    } else {
      assert [e][1..] == [];
    }
  }

  /** The records of the leading run, how many lines it spans, and how many of those were no
      record. */
  method Parse(entries: seq<Entry>, kind: Reader) returns (records: seq<Kind>, consumed: nat, unreadable: nat)
    ensures consumed == Run(entries, kind, None)
    ensures records == Records(entries[..consumed], kind)
    ensures unreadable == Junks(entries[..consumed], kind)
  {
    records, consumed, unreadable := [], 0, 0;
    ghost var gateway: Option<string> := None;
    hide Run, Records, Junks;
    assert entries[0..] == entries && entries[..0] == [];
    RecordsNone(kind);
    while consumed < |entries|
      invariant consumed <= |entries|
      invariant records == Records(entries[..consumed], kind)
      invariant unreadable == Junks(entries[..consumed], kind)
      invariant records == [] <==> gateway.None?
      invariant records != [] ==> records[0].Record? && gateway == Some(records[0].gateway)
      invariant Run(entries, kind, None) == consumed + Run(entries[consumed..], kind, gateway)
    {
      var k := kind(entries[consumed].line);
      RunStep(entries, consumed, kind, gateway);
      if k.Record? && records != [] && k.gateway != records[0].gateway { return; }
      RecordsSnoc(entries[..consumed], entries[consumed], kind);
      assert entries[..consumed] + [entries[consumed]] == entries[..consumed + 1];
      if k.Junk? { unreadable := unreadable + 1; }
      if k.Record? {
        records := records + [k];
        gateway := Some(k.gateway);
      }
      consumed := consumed + 1;
    }
  }

  /** One export with nothing interleaved: an acknowledged batch moves the cursor past exactly the
      lines it consumed, and a failed one leaves it where it was. */
  method ExportOnce(spool: Spool, limit: nat, kind: Reader, acknowledged: bool) returns (consumed: Option<nat>)
    requires spool.Valid() && limit > 0
    modifies spool`saved
    ensures var pending := Pending(spool.files, Position(old(spool.saved)));
      var n := Run(Prefix(pending, limit), kind, None);
      if consumed.None? then
        spool.saved == old(spool.saved) && Records(pending[..n], kind) != [] && !acknowledged
      else
        && consumed.value == n
        && (n == 0 <==> pending == [])
        && Pending(spool.files, Position(spool.saved)) == pending[n..]
        && (Records(pending[..n], kind) == [] || acknowledged)
  {
    hide Pending, Records, Junks, Run;
    RecordsNone(kind);
    ghost var pending := Pending(spool.files, Position(spool.saved));
    var entries := spool.Read(limit);
    var records, n, unreadable := Parse(entries, kind);
    assert entries[..n] == pending[..n];
    if n == 0 { return Some(0); }
    if records != [] && !acknowledged { return None; }
    var resumed := Resume(spool.files, Position(spool.saved), n - 1);
    spool.Commit(entries[n - 1].next);
    return Some(n);
  }
}
