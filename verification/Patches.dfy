/** Patching settings: every key is validated before anything is stored, and a secret's values live and
    die with the row that refers to them. */
module Patches {
  import opened Options
  import opened Settings

  /** The rows, the secrets they may refer to, and the next fresh reference. */
  datatype Store = Store(rows: Rows, secrets: set<Ref>, next: Ref)

  /** A value for a key; Null resets it. */
  datatype Change = Change(key: Key, value: Value)

  /** Why a change is refused: an unknown key, one its environment locks, or a value that is not valid. */
  predicate Refused(specs: map<Key, Spec>, c: Change) {
    if c.key !in specs then !c.value.Null?
    else
      !c.value.Null? && ((specs[c.key].mode.Pin? && specs[c.key].env.Some?) || specs[c.key].validate(c.value).None?)
  }

  function RefOf(rows: Rows, key: Key): set<Ref> {
    if key in rows && rows[key].Envelope? then {rows[key].ref} else {}
  }

  function Applied(specs: map<Key, Spec>, st: Store, c: Change): Store
    requires !Refused(specs, c)
  {
    if c.value.Null? then Store(st.rows - {c.key}, st.secrets - RefOf(st.rows, c.key), st.next)
    else
      var v := specs[c.key].validate(c.value).value;
      if specs[c.key].sensitive then
        var names := if v.Plain? then v.secret else [];
        Store(st.rows[c.key := Envelope(st.next, names)], st.secrets - RefOf(st.rows, c.key) + {st.next}, st.next + 1)
      else st.(rows := st.rows[c.key := v])
  }

  function AllApplied(specs: map<Key, Spec>, st: Store, changes: seq<Change>): Store
    requires forall c <- changes :: !Refused(specs, c)
  {
    if changes == [] then st
    else Applied(specs, AllApplied(specs, st, changes[..|changes| - 1]), changes[|changes| - 1])
  }

  function Errors(specs: map<Key, Spec>, changes: seq<Change>): (r: seq<Key>)
    ensures r == [] <==> forall c <- changes :: !Refused(specs, c)
  {
    if changes == [] then []
    else
      var init, last := changes[..|changes| - 1], changes[|changes| - 1];
      assert changes == init + [last];
      Errors(specs, init) + (if Refused(specs, last) then [last.key] else [])
  }

  /** A patch is applied exactly when each of its changes resets a key, or gives a known one, not locked by its
      environment, a valid value. */
  lemma AppliedExactly(specs: map<Key, Spec>, changes: seq<Change>)
    ensures Errors(specs, changes) == [] <==>
      forall c <- changes ::
        c.value == Null
        || (c.key in specs && specs[c.key].validate(c.value) != None
            && !(specs[c.key].mode == Pin && specs[c.key].env != None))
  {
  }

  class Database {
    var store: Store

    constructor ()
      ensures store == Store(map[], {}, 0)
    {
      store := Store(map[], {}, 0);
    }

    /** All of a patch or nothing of it. */
    method Patch(specs: map<Key, Spec>, changes: seq<Change>) returns (errors: seq<Key>)
      modifies this
      ensures errors == Errors(specs, changes)
      ensures store == if errors == [] then AllApplied(specs, old(store), changes) else old(store)
    {
      hide Refused, Applied;
      errors := CheckAll(specs, changes);
      if errors == [] { store := ApplyAll(specs, store, changes); }
    }
  }

  method CheckAll(specs: map<Key, Spec>, changes: seq<Change>) returns (errors: seq<Key>)
    ensures errors == Errors(specs, changes)
  {
    hide Refused;
    errors := [];
    var i := 0;
    while i < |changes|
      invariant 0 <= i <= |changes| && errors == Errors(specs, changes[..i])
    {
      assert changes[..i + 1][..i] == changes[..i];
      if Refused(specs, changes[i]) { errors := errors + [changes[i].key]; }
      i := i + 1;
    }
    assert changes[..i] == changes;
  }

  method ApplyAll(specs: map<Key, Spec>, before: Store, changes: seq<Change>) returns (st: Store)
    requires forall c <- changes :: !Refused(specs, c)
    ensures st == AllApplied(specs, before, changes)
  {
    hide Refused, Applied;
    st := before;
    var i := 0;
    while i < |changes|
      invariant 0 <= i <= |changes| && st == AllApplied(specs, before, changes[..i])
    {
      assert changes[..i + 1][..i] == changes[..i];
      st := Applied(specs, st, changes[i]);
      i := i + 1;
    }
    assert changes[..i] == changes;
  }

  // ---- secrets ----

  /** Every envelope has its secret, no two share one, and no secret is without its row. */
  ghost predicate Sound(specs: map<Key, Spec>, st: Store) {
    && (forall k <- st.rows :: st.rows[k].Envelope? ==> st.rows[k].ref in st.secrets && (k in specs ==> specs[k].sensitive))
    && (forall j <- st.rows, k <- st.rows :: j != k && st.rows[j].Envelope? && st.rows[k].Envelope? ==> st.rows[j].ref != st.rows[k].ref)
    && (forall ref <- st.secrets :: ref < st.next && exists k <- st.rows :: st.rows[k].Envelope? && st.rows[k].ref == ref)
  }

  /** Only what is sensitive is ever an envelope. */
  ghost predicate PlainUnlessSensitive(specs: map<Key, Spec>) {
    forall k, v :: k in specs && !specs[k].sensitive && specs[k].validate(v).Some? ==> !specs[k].validate(v).value.Envelope?
  }

  lemma AppliedSound(specs: map<Key, Spec>, st: Store, c: Change)
    requires !Refused(specs, c) && Sound(specs, st) && PlainUnlessSensitive(specs)
    ensures Sound(specs, Applied(specs, st, c))
  {
    var st' := Applied(specs, st, c);
    assert forall k <- st.rows :: k != c.key ==> k in st'.rows && st'.rows[k] == st.rows[k];
    forall ref <- st'.secrets
      ensures ref < st'.next && exists k <- st'.rows :: st'.rows[k].Envelope? && st'.rows[k].ref == ref
    {
      if ref in st.secrets {
        var k :| k in st.rows && st.rows[k].Envelope? && st.rows[k].ref == ref;
        assert k != c.key;
      } else {
        assert st'.rows[c.key].Envelope? && st'.rows[c.key].ref == ref;
      }
    }
  }

  lemma {:induction false} PatchSound(specs: map<Key, Spec>, st: Store, changes: seq<Change>)
    requires (forall c <- changes :: !Refused(specs, c)) && Sound(specs, st) && PlainUnlessSensitive(specs)
    ensures Sound(specs, AllApplied(specs, st, changes))
  {
    hide Sound, Refused, Applied;
    if changes != [] {
      PatchSound(specs, st, changes[..|changes| - 1]);
      AppliedSound(specs, AllApplied(specs, st, changes[..|changes| - 1]), changes[|changes| - 1]);
    }
  }

  /** A key that is no longer sensitive but still has its envelope keeps nothing of it when it is given a
      value, and the secret is left without a row. */
  lemma SecretLeftBehind(specs: map<Key, Spec>, st: Store, c: Change)
    requires !Refused(specs, c) && !c.value.Null? && !specs[c.key].sensitive && PlainUnlessSensitive(specs)
    requires c.key in st.rows && st.rows[c.key].Envelope? && st.rows[c.key].ref in st.secrets
    requires forall k <- st.rows :: k != c.key && st.rows[k].Envelope? ==> st.rows[k].ref != st.rows[c.key].ref
    ensures var after, ref := Applied(specs, st, c), st.rows[c.key].ref;
      ref in after.secrets && forall k <- after.rows :: after.rows[k].Envelope? ==> after.rows[k].ref != ref
  {
  }

  predicate Distinct(changes: seq<Change>) {
    forall i, j :: 0 <= i < j < |changes| ==> changes[i].key != changes[j].key
  }

  /** What a change leaves stored for its key: nothing, the validated value, or an envelope under a
      reference that no secret had before the patch. */
  ghost predicate Takes(specs: map<Key, Spec>, before: Store, c: Change, after: Option<Value>) {
    if c.value.Null? then after.None?
    else if c.key !in specs || after.None? then false
    else if specs[c.key].sensitive then
      var v := specs[c.key].validate(c.value);
      && after.value.Envelope? && after.value.ref >= before.next
      && v.Some? && after.value.names == (if v.value.Plain? then v.value.secret else [])
    else Some(after.value) == specs[c.key].validate(c.value)
  }

  /** After a patch each changed key holds what its change says, and every other key what it held. */
  lemma {:induction false} PatchTakes(specs: map<Key, Spec>, st: Store, changes: seq<Change>)
    requires (forall c <- changes :: !Refused(specs, c)) && Distinct(changes)
    ensures var after := AllApplied(specs, st, changes);
      && after.next >= st.next
      && (forall i :: 0 <= i < |changes| ==> Takes(specs, st, changes[i], Stored(after.rows, changes[i].key)))
      && (forall k :: (forall i :: 0 <= i < |changes| ==> changes[i].key != k) ==> Stored(after.rows, k) == Stored(st.rows, k))
  {
    if changes != [] {
      var init, last := changes[..|changes| - 1], changes[|changes| - 1];
      PatchTakes(specs, st, init);
      var mid := AllApplied(specs, st, init);
      var after := AllApplied(specs, st, changes);
      assert after == Applied(specs, mid, last);
      AppliedOnly(specs, mid, last);
      forall i | 0 <= i < |changes| ensures Takes(specs, st, changes[i], Stored(after.rows, changes[i].key)) {
        if i < |init| { assert changes[i] == init[i] && Takes(specs, st, init[i], Stored(mid.rows, init[i].key)); }
      }
      forall k | forall i :: 0 <= i < |changes| ==> changes[i].key != k ensures Stored(after.rows, k) == Stored(st.rows, k) {
        assert last.key != k;
        assert forall i :: 0 <= i < |init| ==> init[i].key != k by { assert forall i :: 0 <= i < |init| ==> init[i] == changes[i]; }
      }
    }
  }

  lemma AppliedOnly(specs: map<Key, Spec>, st: Store, c: Change)
    requires !Refused(specs, c)
    ensures var after := Applied(specs, st, c);
      && after.next >= st.next && Takes(specs, st, c, Stored(after.rows, c.key))
      && forall k :: k != c.key ==> Stored(after.rows, k) == Stored(st.rows, k)
  {
  }
}
