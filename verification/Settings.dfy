/** Platform settings: what a key resolves to, patches, and the refresh that runs live-apply hooks for
    every changed key until they come out clean. */
module Settings {
  import opened Options

  type Key = string

  type Ref = nat

  /** A setting's value. A number and a capture level are ordered; a secret's plain values
      are stored apart, and its row is an envelope naming where they are. */
  datatype Value = Null | Num(n: real) | Level(rank: nat) | Text(text: string)
    | Plain(secret: seq<string>) | Envelope(ref: Ref, names: seq<string>)

  datatype Mode = Free | Pin | Cap

  /** A catalog entry; `env` is its environment variable's value, if there is one and it parses. */
  datatype Spec = Spec(
    key: Key,
    mode: Mode,
    sensitive: bool,
    env: Option<Value>,
    default_: Value,
    validate: Value -> Option<Value>)

  datatype Source = FromEnv | FromStored | FromDefault

  /** A key's resolution; `token` is what the refresher compares. */
  datatype Resolved = Resolved(value: Value, source: Source, capped: bool, invalid: bool, token: Value)

  // ---- resolution ----

  function Rank(v: Value): real {
    match v
    case Num(n) => n
    case Level(r) => r as real
    case _ => 0.0
  }

  /** The more restrictive of a cap and a chosen value. */
  function ApplyCap(cap: Value, chosen: Value): Value {
    if Rank(chosen) < Rank(cap) then chosen else cap
  }

  /** What a stored value applies as; none when there is no valid one. */
  function Usable(spec: Spec, stored: Option<Value>): Option<Value> {
    if stored.None? then None
    else if spec.sensitive then (if stored.value.Envelope? then stored else None)
    else spec.validate(stored.value)
  }

  /** What may be read of a sensitive setting. */
  function Masked(v: Value): Value {
    if v.Envelope? then Envelope(0, v.names) else v
  }

  function Resolve(spec: Spec, stored: Option<Value>): Resolved {
    var usable := Usable(spec, stored);
    var invalid := stored.Some? && usable.None?;
    if spec.env.Some? && spec.mode.Pin? then Resolved(spec.env.value, FromEnv, false, invalid, spec.env.value)
    else
      var source := if usable.Some? then FromStored else FromDefault;
      var chosen := if usable.None? then spec.default_ else if spec.sensitive then Masked(usable.value) else usable.value;
      var token := if !spec.sensitive then chosen else if usable.Some? then usable.value else Null;
      if spec.env.Some? && spec.mode.Cap? then
        var effective := ApplyCap(spec.env.value, chosen);
        Resolved(effective, source, true, invalid, effective)
      else Resolved(chosen, source, false, invalid, token)
  }

  /** A stored value that is there and valid: of a secret, the reference to it. */
  predicate IsValid(spec: Spec, stored: Option<Value>) {
    stored.Some? && if spec.sensitive then stored.value.Envelope? else spec.validate(stored.value).Some?
  }

  /** What every key resolves to. Its environment's value pins it, or caps what is chosen; what is chosen is the
      stored value where that is valid, else the default; and of a secret only the names of its parts are read,
      while its reference is what is compared. */
  lemma ResolvesExactly(spec: Spec, stored: Option<Value>)
    ensures var r := Resolve(spec, stored);
      var chosen := if !IsValid(spec, stored) then spec.default_
                    else if spec.sensitive then Envelope(0, stored.value.names) else spec.validate(stored.value).value;
      && (r.invalid <==> stored.Some? && !IsValid(spec, stored))
      && (spec.env.Some? && spec.mode.Pin? ==> (r.value, r.source, r.capped, r.token) == (spec.env.value, FromEnv, false, spec.env.value))
      && (!(spec.env.Some? && spec.mode.Pin?) ==> r.source == if IsValid(spec, stored) then FromStored else FromDefault)
      && (spec.env.Some? && spec.mode.Cap? ==>
            r.capped && r.value == (if Rank(chosen) < Rank(spec.env.value) then chosen else spec.env.value) && r.token == r.value)
      && (spec.env.None? || spec.mode.Free? ==>
            && !r.capped && r.value == chosen
            && r.token == if !spec.sensitive then chosen else if IsValid(spec, stored) then stored.value else Null)
  {
  }

  /** What applies without a cap. */
  function Chosen(spec: Spec, stored: Option<Value>): Value {
    Resolve(spec.(env := None), stored).value
  }

  /** A capped key never exceeds its cap, whatever is stored or the default, and is what was chosen
      exactly when that is below the cap. A pinned key is its environment's value whatever is stored. */
  lemma CapsHold(spec: Spec, stored: Option<Value>)
    requires spec.env.Some?
    ensures var r := Resolve(spec, stored);
      && (spec.mode.Pin? ==> r.value == spec.env.value && r.token == r.value)
      && (spec.mode.Cap? ==> Rank(r.value) <= Rank(spec.env.value) && Rank(r.value) <= Rank(Chosen(spec, stored)))
      && (spec.mode.Cap? ==> r.value in {spec.env.value, Chosen(spec, stored)} && r.token == r.value)
      && (spec.mode.Free? ==> r.value == Chosen(spec, stored))
  {
  }

  /** A stored value that is not valid never applies: the key resolves as if nothing were stored, and
      says so. */
  lemma InvalidNeverApplies(spec: Spec, stored: Value)
    ensures var r, none := Resolve(spec, Some(stored)), Resolve(spec, None);
      Usable(spec, Some(stored)).None? ==> r == none.(invalid := true)
  {
  }

  /** Rotating a secret shows: a fresh reference is a new token, although the value read stays masked. */
  lemma RotationShows(spec: Spec, before: Ref, after: Ref, names: seq<string>)
    requires spec.sensitive && spec.env.None? && before != after
    ensures Resolve(spec, Some(Envelope(before, names))).token != Resolve(spec, Some(Envelope(after, names))).token
    ensures Resolve(spec, Some(Envelope(before, names))).value == Resolve(spec, Some(Envelope(after, names))).value
  {
  }

  // ---- hooks ----

  type HookId = nat

  /** A hook registered for a key, or for every key under a pattern ending in a dot. */
  datatype Hook = Hook(pattern: string, id: HookId)

  predicate Matches(pattern: string, key: Key) {
    key == pattern || (pattern != "" && pattern[|pattern| - 1] == '.' && pattern <= key)
  }

  /** Some registration of the hook matches the key. */
  ghost predicate Covers(hooks: seq<Hook>, id: HookId, key: Key) {
    exists i :: 0 <= i < |hooks| && hooks[i].id == id && Matches(hooks[i].pattern, key)
  }

  /** What a registration covers: the key it names, or, where it names a family by a dot at its end, every key
      that begins so. */
  lemma CoversExactly(hooks: seq<Hook>, id: HookId, key: Key)
    ensures Covers(hooks, id, key) <==>
      exists i :: 0 <= i < |hooks| && hooks[i].id == id
        && (hooks[i].pattern == key || exists family, rest :: hooks[i].pattern == family + "." && key == family + "." + rest)
  {
    forall i | 0 <= i < |hooks|
      ensures Matches(hooks[i].pattern, key) <==>
        (hooks[i].pattern == key || exists family, rest :: hooks[i].pattern == family + "." && key == family + "." + rest)
    {
      var p := hooks[i].pattern;
      if p != "" && p[|p| - 1] == '.' && p <= key {
        var family, rest := p[..|p| - 1], key[|p|..];
        assert p == family + "." && key == family + "." + rest;
      }
      if family, rest :| p == family + "." && key == family + "." + rest {
        assert p[|p| - 1] == '.' && key[..|p|] == p;
      }
    }
  }

  function Matched(pattern: string, changed: seq<Key>): (r: seq<Key>)
    ensures forall k :: k in r <==> k in changed && Matches(pattern, k)
    ensures NoRepeat(changed) ==> NoRepeat(r)
  {
    if changed == [] then []
    else
      assert forall k :: k in changed <==> k == changed[0] || k in changed[1..];
      (if Matches(pattern, changed[0]) then [changed[0]] else []) + Matched(pattern, changed[1..])
  }

  predicate NoRepeat<T(==)>(s: seq<T>) {
    forall i, j :: 0 <= i < j < |s| ==> s[i] != s[j]
  }

  /** A hook due to run, and the changed keys it is run for. */
  datatype Due = Due(id: HookId, keys: seq<Key>)

  /** The keys a hook is due for. */
  function KeysFor(due: seq<Due>, id: HookId): seq<Key> {
    if due == [] then [] else if due[0].id == id then due[0].keys else KeysFor(due[1..], id)
  }

  /** No hook is due twice, or for no key, or for a key twice. */
  predicate OnceEach(due: seq<Due>) {
    && (forall i, j :: 0 <= i < j < |due| ==> due[i].id != due[j].id)
    && (forall i :: 0 <= i < |due| ==> due[i].keys != [] && NoRepeat(due[i].keys))
  }

  /** Each hook that a changed key concerns is due once, for exactly the changed keys it covers. */
  ghost predicate AllDue(due: seq<Due>, hooks: seq<Hook>, changed: seq<Key>) {
    OnceEach(due) && forall h, k :: k in KeysFor(due, h) <==> k in changed && Covers(hooks, h, k)
  }

  lemma {:induction false} KeysForAt(due: seq<Due>, i: nat)
    requires OnceEach(due) && i < |due|
    ensures KeysFor(due, due[i].id) == due[i].keys
  {
    if i > 0 { KeysForAt(due[1..], i - 1); }
  }

  lemma {:induction false} KeysForNone(due: seq<Due>, id: HookId)
    ensures KeysFor(due, id) == [] || exists i :: 0 <= i < |due| && due[i].id == id && KeysFor(due, id) == due[i].keys
  {
    if due != [] && due[0].id != id {
      KeysForNone(due[1..], id);
      if KeysFor(due, id) != [] {
        var i :| 0 <= i < |due[1..]| && due[1..][i].id == id && KeysFor(due, id) == due[1..][i].keys;
        assert due[i + 1] == due[1..][i];
      }
    }
  }

  lemma {:induction false} KeysForSnoc(due: seq<Due>, d: Due, id: HookId)
    requires forall i :: 0 <= i < |due| ==> due[i].id != d.id
    ensures KeysFor(due + [d], id) == if id == d.id then d.keys else KeysFor(due, id)
  {
    if due != [] {
      assert (due + [d])[1..] == due[1..] + [d];
      KeysForSnoc(due[1..], d, id);
    }
  }

  lemma {:induction false} KeysForSet(due: seq<Due>, i: nat, keys: seq<Key>, id: HookId)
    requires i < |due| && forall j :: 0 <= j < i ==> due[j].id != due[i].id
    ensures KeysFor(due[i := Due(due[i].id, keys)], id) == if id == due[i].id then keys else KeysFor(due, id)
  {
    var due' := due[i := Due(due[i].id, keys)];
    if i > 0 {
      assert due'[1..] == due[1..][i - 1 := Due(due[i].id, keys)];
      KeysForSet(due[1..], i - 1, keys, id);
    } else {
      assert due'[1..] == due[1..];
    }
  }

  /** `more` without what `keys` already has. */
  function Extended(keys: seq<Key>, more: seq<Key>): (r: seq<Key>)
    requires NoRepeat(keys) && NoRepeat(more)
    ensures NoRepeat(r) && keys <= r
    ensures forall k :: k in r <==> k in keys || k in more
    decreases |more|
  {
    if more == [] then keys
    else
      assert forall k :: k in more <==> k == more[0] || k in more[1..];
      if more[0] in keys then Extended(keys, more[1..]) else Extended(keys + [more[0]], more[1..])
  }

  lemma CoversMore(hooks: seq<Hook>, h: Hook)
    ensures forall id, key :: Covers(hooks + [h], id, key) <==> Covers(hooks, id, key) || (id == h.id && Matches(h.pattern, key))
  {
    var more := hooks + [h];
    forall id, key ensures Covers(more, id, key) <==> Covers(hooks, id, key) || (id == h.id && Matches(h.pattern, key)) {
      if Covers(hooks, id, key) {
        var i :| 0 <= i < |hooks| && hooks[i].id == id && Matches(hooks[i].pattern, key);
        assert more[i] == hooks[i];
      }
      if id == h.id && Matches(h.pattern, key) { assert more[|hooks|] == h; }
    }
  }

  /** Each hook that a changed key concerns, once, with all the changed keys it covers. */
  method HooksFor(hooks: seq<Hook>, changed: seq<Key>) returns (due: seq<Due>)
    requires NoRepeat(changed)
    ensures AllDue(due, hooks, changed)
  {
    hide AllDue, Matched, Extended;
    due := [];
    var seen: map<HookId, nat> := map[];
    var n := 0;
    NoHooks(changed);
    while n < |hooks|
      invariant 0 <= n <= |hooks|
      invariant AllDue(due, hooks[..n], changed)
      invariant Seen(seen, due)
    {
      var h := hooks[n];
      assert hooks[..n + 1] == hooks[..n] + [h];
      var matched := Matched(h.pattern, changed);
      if matched == [] {
        DueNoMore(due, hooks[..n], h, changed);
      } else if h.id in seen {
        var i := seen[h.id];
        DueGrows(due, hooks[..n], h, changed, i);
        due := due[i := Due(h.id, Extended(due[i].keys, matched))];
      } else {
        DueAdds(due, hooks[..n], h, changed);
        seen := seen[h.id := |due|];
        due := due + [Due(h.id, matched)];
      }
      n := n + 1;
    }
    assert hooks[..n] == hooks;
  }

  /** Where each due hook stands. */
  predicate Seen(seen: map<HookId, nat>, due: seq<Due>) {
    && (forall h <- seen :: seen[h] < |due| && due[seen[h]].id == h)
    && (forall i :: 0 <= i < |due| ==> due[i].id in seen)
  }

  lemma NoHooks(changed: seq<Key>)
    ensures AllDue([], [], changed)
  {
  }

  lemma DueNoMore(due: seq<Due>, hooks: seq<Hook>, h: Hook, changed: seq<Key>)
    requires AllDue(due, hooks, changed) && Matched(h.pattern, changed) == []
    ensures AllDue(due, hooks + [h], changed)
  {
    hide Covers, Matches, Matched, KeysFor;
    CoversMore(hooks, h);
    forall k | k in changed ensures !Matches(h.pattern, k) { assert k !in Matched(h.pattern, changed); }
  }

  lemma DueGrows(due: seq<Due>, hooks: seq<Hook>, h: Hook, changed: seq<Key>, i: nat)
    requires AllDue(due, hooks, changed) && NoRepeat(changed) && i < |due| && due[i].id == h.id
    ensures NoRepeat(due[i].keys) && NoRepeat(Matched(h.pattern, changed))
    ensures AllDue(due[i := Due(h.id, Extended(due[i].keys, Matched(h.pattern, changed)))], hooks + [h], changed)
  {
    hide Covers, Matches, Matched, KeysFor, Extended;
    CoversMore(hooks, h);
    KeysForAt(due, i);
    var keys := Extended(due[i].keys, Matched(h.pattern, changed));
    var due' := due[i := Due(h.id, keys)];
    assert keys != [] by { assert due[i].keys <= keys; }
    forall g, k ensures k in KeysFor(due', g) <==> k in changed && Covers(hooks + [h], g, k) {
      KeysForSet(due, i, keys, g);
      assert k in KeysFor(due, g) <==> k in changed && Covers(hooks, g, k);
    }
  }

  lemma DueAdds(due: seq<Due>, hooks: seq<Hook>, h: Hook, changed: seq<Key>)
    requires AllDue(due, hooks, changed) && NoRepeat(changed) && Matched(h.pattern, changed) != []
    requires forall i :: 0 <= i < |due| ==> due[i].id != h.id
    ensures AllDue(due + [Due(h.id, Matched(h.pattern, changed))], hooks + [h], changed)
  {
    hide Covers, Matches, Matched, KeysFor;
    CoversMore(hooks, h);
    KeysForNone(due, h.id);
    var keys := Matched(h.pattern, changed);
    forall g, k ensures k in KeysFor(due + [Due(h.id, keys)], g) <==> k in changed && Covers(hooks + [h], g, k) {
      KeysForSnoc(due, Due(h.id, keys), g);
      assert k in KeysFor(due, g) <==> k in changed && Covers(hooks, g, k);
    }
  }

  // ---- the service ----

  type Rows = map<Key, Value>

  function Stored(rows: Rows, key: Key): Option<Value> {
    if key in rows then Some(rows[key]) else None
  }

  function ResolveAll(specs: map<Key, Spec>, rows: Rows): map<Key, Resolved> {
    map k | k in specs :: Resolve(specs[k], Stored(rows, k))
  }

  /** What a key's hooks last ran clean against. */
  function Baseline(applied: map<Key, Value>, key: Key): Value {
    if key in applied then applied[key] else Null
  }

  predicate HasChanged(resolved: map<Key, Resolved>, applied: map<Key, Value>, key: Key) {
    key in resolved && resolved[key].token != Baseline(applied, key)
  }

  function Changed(order: seq<Key>, resolved: map<Key, Resolved>, applied: map<Key, Value>): (r: seq<Key>)
    ensures forall k :: k in r <==> k in order && HasChanged(resolved, applied, k)
    ensures NoRepeat(order) ==> NoRepeat(r)
  {
    if order == [] then []
    else
      assert forall k :: k in order <==> k == order[0] || k in order[1..];
      (if HasChanged(resolved, applied, order[0]) then [order[0]] else []) + Changed(order[1..], resolved, applied)
  }

  /** A hook that covers the key fails. */
  ghost predicate Raises(hooks: seq<Hook>, failing: set<HookId>, key: Key) {
    exists h :: h in failing && Covers(hooks, h, key)
  }

  /** Runs what is due, whatever fails; the keys of the hooks that failed. */
  method RunHooks(due: seq<Due>, failing: set<HookId>, ghost hooks: seq<Hook>, ghost changed: seq<Key>) returns (errors: set<Key>)
    requires AllDue(due, hooks, changed)
    ensures forall k :: k in errors <==> k in changed && Raises(hooks, failing, k)
  {
    hide Covers, AllDue;
    errors := {};
    var i := 0;
    while i < |due|
      invariant 0 <= i <= |due|
      invariant forall k :: k in errors <==> FailedBefore(due, failing, i, k)
    {
      if due[i].id in failing { errors := errors + set k | k in due[i].keys; }
      i := i + 1;
    }
    FailedIsRaised(due, failing, hooks, changed);
  }

  predicate FailedBefore(due: seq<Due>, failing: set<HookId>, n: nat, key: Key)
    requires n <= |due|
  {
    exists i :: 0 <= i < n && due[i].id in failing && key in due[i].keys
  }

  lemma FailedIsRaised(due: seq<Due>, failing: set<HookId>, hooks: seq<Hook>, changed: seq<Key>)
    requires AllDue(due, hooks, changed)
    ensures forall k :: FailedBefore(due, failing, |due|, k) <==> k in changed && Raises(hooks, failing, k)
  {
    hide Covers, KeysFor;
    forall k ensures FailedBefore(due, failing, |due|, k) <==> k in changed && Raises(hooks, failing, k) {
      if FailedBefore(due, failing, |due|, k) {
        var i :| 0 <= i < |due| && due[i].id in failing && k in due[i].keys;
        KeysForAt(due, i);
        assert k in KeysFor(due, due[i].id);
      }
      if k in changed && Raises(hooks, failing, k) {
        var h :| h in failing && Covers(hooks, h, k);
        assert k in KeysFor(due, h);
        KeysForNone(due, h);
      }
    }
  }

  class SettingsService {
    const order: seq<Key>
    const specs: map<Key, Spec>
    var hooks: seq<Hook>
    var resolved: map<Key, Resolved>
    var applied: map<Key, Value>

    predicate Ok() {
      NoRepeat(order) && (forall k <- order :: k in specs) && (forall k <- specs :: k in order)
    }

    constructor (order: seq<Key>, specs: map<Key, Spec>)
      requires NoRepeat(order) && (forall k <- order :: k in specs) && (forall k <- specs :: k in order)
      ensures Ok() && this.order == order && this.specs == specs && hooks == [] && resolved == map[] && applied == map[]
    {
      this.order, this.specs, hooks, resolved, applied := order, specs, [], map[], map[];
    }

    method RegisterHook(pattern: string, id: HookId)
      modifies this`hooks
      ensures hooks == old(hooks) + [Hook(pattern, id)]
    {
      hooks := hooks + [Hook(pattern, id)];
    }

    /** Sets the baseline without running hooks: boot applies the first values itself. */
    method Load(rows: Rows)
      modifies this`resolved, this`applied
      ensures resolved == ResolveAll(specs, rows)
      ensures applied == map k | k in resolved :: resolved[k].token
    {
      resolved := ResolveAll(specs, rows);
      applied := map k | k in resolved :: resolved[k].token;
    }

    /** Reads the rows again and runs the hooks of every changed key, each at most once. A key comes out
        applied, unless a hook covering it failed: then its baseline stays, so that it is run again. */
    method Refresh(rows: Rows, failing: set<HookId>) returns (errors: set<Key>, ghost ran: seq<Due>)
      requires Ok()
      modifies this`resolved, this`applied
      ensures resolved == ResolveAll(specs, rows)
      ensures AllDue(ran, hooks, Changed(order, resolved, old(applied)))
      ensures forall k :: k in errors <==> HasChanged(resolved, old(applied), k) && Raises(hooks, failing, k)
      ensures forall k <- specs ::
        Baseline(applied, k) == if k in errors then Baseline(old(applied), k) else resolved[k].token
    {
      hide Covers, Resolve, AllDue;
      resolved := ResolveAll(specs, rows);
      var changed := Changed(order, resolved, applied);
      var due := HooksFor(hooks, changed);
      ran := due;
      errors := {};
      if changed == [] {
        return;
      }
      errors := RunHooks(due, failing, hooks, changed);
      applied := applied + map k | k in resolved && k !in errors :: resolved[k].token;
    }
  }

  // ---- whole runs ----

  /** What is stored, the baselines, what each hook last ran clean against, and the keys whose last run
      failed. */
  datatype State = State(rows: Rows, applied: map<Key, Value>, live: map<HookId, map<Key, Value>>, pending: set<Key>)

  datatype Event = Writes(rows: Rows) | Refreshes(failing: set<HookId>)

  datatype Platform = Platform(specs: map<Key, Spec>, hooks: seq<Hook>)

  function Tokens(p: Platform, rows: Rows): map<Key, Value> {
    map k | k in p.specs :: Resolve(p.specs[k], Stored(rows, k)).token
  }

  ghost predicate Runs(p: Platform, st: State, id: HookId) {
    exists k :: k in p.specs && Tokens(p, st.rows)[k] != Baseline(st.applied, k) && Covers(p.hooks, id, k)
  }

  /** The keys a refresh leaves for the next one. */
  ghost function Failed(p: Platform, st: State, failing: set<HookId>): set<Key> {
    set k | k in p.specs && Tokens(p, st.rows)[k] != Baseline(st.applied, k) && Raises(p.hooks, failing, k)
  }

  ghost function Next(p: Platform, st: State, e: Event): State {
    match e
    case Writes(rows) => st.(rows := rows)
    case Refreshes(failing) =>
      var tokens, failed := Tokens(p, st.rows), Failed(p, st, failing);
      st.(applied := st.applied + (map k | k in tokens && k !in failed :: tokens[k]),
          live := st.live + (map h | h in st.live && Runs(p, st, h) && h !in failing :: tokens),
          pending := failed + set k | k in st.pending && (k in p.specs ==> tokens[k] == Baseline(st.applied, k)))
  }

  ghost function Boot(p: Platform, rows: Rows): State {
    var tokens := Tokens(p, rows);
    State(rows, tokens, map i: nat | i < |p.hooks| :: p.hooks[i].id := tokens, {})
  }

  ghost function Run(p: Platform, rows: Rows, events: seq<Event>): State {
    if events == [] then Boot(p, rows) else Next(p, Run(p, rows, events[..|events| - 1]), events[|events| - 1])
  }

  /** A hook last ran clean with this token of the key. */
  ghost predicate LiveIs(p: Platform, st: State, key: Key, token: Value) {
    forall h :: Covers(p.hooks, h, key) ==> h in st.live && key in st.live[h] && st.live[h][key] == token
  }

  /** Every key that is not to be run again is live as its baseline says. */
  ghost predicate Inv(p: Platform, st: State) {
    && (forall h, k :: Covers(p.hooks, h, k) ==> h in st.live)
    && (forall k <- p.specs :: k in st.applied)
    && (forall k <- p.specs :: k !in st.pending ==> LiveIs(p, st, k, st.applied[k]))
  }

  lemma BootKeeps(p: Platform, rows: Rows)
    ensures Inv(p, Boot(p, rows))
  {
    hide Resolve, Matches;
  }

  lemma AppliedNext(p: Platform, st: State, failing: set<HookId>, k: Key)
    requires k in p.specs && k in st.applied
    ensures var st' := Next(p, st, Refreshes(failing));
      && st'.rows == st.rows && k in st'.applied
      && st'.applied[k] == (if k in Failed(p, st, failing) then st.applied[k] else Tokens(p, st.rows)[k])
      && (k in st'.pending <==> k in Failed(p, st, failing) || (k in st.pending && Tokens(p, st.rows)[k] == st.applied[k]))
      && (k in Failed(p, st, failing) <==> Tokens(p, st.rows)[k] != st.applied[k] && Raises(p.hooks, failing, k))
  {
    hide Resolve, Raises, Runs;
  }

  lemma LiveNext(p: Platform, st: State, failing: set<HookId>, h: HookId)
    requires h in st.live
    ensures var st' := Next(p, st, Refreshes(failing));
      h in st'.live && st'.live[h] == if Runs(p, st, h) && h !in failing then Tokens(p, st.rows) else st.live[h]
  {
    hide Runs, Failed, Tokens;
  }

  lemma RefreshKeeps(p: Platform, st: State, failing: set<HookId>)
    requires Inv(p, st)
    ensures Inv(p, Next(p, st, Refreshes(failing)))
  {
    hide Next, Failed, Raises, Runs, Covers, Tokens;
    var st', tokens := Next(p, st, Refreshes(failing)), Tokens(p, st.rows);
    TokensOf(p, st.rows);
    forall k <- p.specs ensures k in st'.applied { AppliedNext(p, st, failing, k); }
    forall h, k | Covers(p.hooks, h, k) ensures h in st'.live { LiveNext(p, st, failing, h); }
    forall k <- p.specs | k !in st'.pending ensures LiveIs(p, st', k, st'.applied[k]) {
      AppliedNext(p, st, failing, k);
      forall h | Covers(p.hooks, h, k) ensures h in st'.live && k in st'.live[h] && st'.live[h][k] == st'.applied[k] {
        LiveNext(p, st, failing, h);
        if tokens[k] != st.applied[k] { ChangedRuns(p, st, failing, h, k); }
      }
    }
  }

  lemma TokensOf(p: Platform, rows: Rows)
    ensures forall k <- p.specs :: k in Tokens(p, rows)
  {
  }

  /** A hook that covers a changed key runs, and fails only where the key is left for the next refresh. */
  lemma ChangedRuns(p: Platform, st: State, failing: set<HookId>, h: HookId, k: Key)
    requires k in p.specs && Covers(p.hooks, h, k) && k in st.applied && Tokens(p, st.rows)[k] != st.applied[k]
    ensures Runs(p, st, h)
    ensures h in failing ==> k in Failed(p, st, failing)
  {
    hide Covers, Resolve;
  }

  lemma {:induction false} RunKeeps(p: Platform, rows: Rows, events: seq<Event>)
    ensures Inv(p, Run(p, rows, events))
  {
    hide Inv, Failed, Boot, Runs, Tokens;
    if events == [] {
      BootKeeps(p, rows);
    } else {
      var init, e := events[..|events| - 1], events[|events| - 1];
      RunKeeps(p, rows, init);
      match e
      case Writes(after) => WriteKeeps(p, Run(p, rows, init), after);
      case Refreshes(failing) => RefreshKeeps(p, Run(p, rows, init), failing);
    }
  }

  lemma WriteKeeps(p: Platform, st: State, rows: Rows)
    requires Inv(p, st)
    ensures Inv(p, st.(rows := rows))
  {
    hide Covers;
    var st' := st.(rows := rows);
    forall k <- p.specs | k !in st'.pending ensures LiveIs(p, st', k, st'.applied[k]) { assert LiveIs(p, st, k, st.applied[k]); }
  }

  /** After any writes and refreshes, one more refresh applies every key whose hooks do not fail in it;
      a key whose hook fails keeps its old baseline and is run again. Hooks are then live at what the
      key resolves to, unless the key failed, or failed before and went back to its baseline unseen. */
  lemma NoChangeIsLost(p: Platform, rows: Rows, events: seq<Event>, failing: set<HookId>, k: Key)
    requires k in p.specs
    ensures var st := Run(p, rows, events);
      var st', token := Next(p, st, Refreshes(failing)), Tokens(p, st.rows)[k];
      && k in st.applied && k in st'.applied
      && (st'.applied[k] == token <==> !(token != st.applied[k] && Raises(p.hooks, failing, k)))
      && (st'.applied[k] != token ==> st'.applied[k] == st.applied[k])
      && (k in st'.pending <==> (token != st.applied[k] && Raises(p.hooks, failing, k)) || (k in st.pending && token == st.applied[k]))
      && (k !in st'.pending ==> LiveIs(p, st', k, token))
  {
    hide Next, Failed, Raises, Runs, LiveIs, Covers, Tokens;
    var st := Run(p, rows, events);
    RunKeeps(p, rows, events);
    RefreshKeeps(p, st, failing);
    AppliedNext(p, st, failing, k);
  }

  /** The rows when a hook last ran clean, or at boot. */
  ghost function LastClean(p: Platform, rows: Rows, events: seq<Event>, h: HookId): Rows {
    if events == [] then rows
    else
      var init, e := events[..|events| - 1], events[|events| - 1];
      var st := Run(p, rows, init);
      if e.Refreshes? && Runs(p, st, h) && h !in e.failing then st.rows else LastClean(p, rows, init, h)
  }

  /** What a registered hook has live, after any run: the tokens at its last clean run. */
  lemma {:induction false} LiveIsLastClean(p: Platform, rows: Rows, events: seq<Event>, h: HookId)
    requires exists i :: 0 <= i < |p.hooks| && p.hooks[i].id == h
    ensures var st := Run(p, rows, events); h in st.live && st.live[h] == Tokens(p, LastClean(p, rows, events, h))
  {
    hide Next, Runs, Tokens;
    if events != [] {
      var init, e := events[..|events| - 1], events[|events| - 1];
      LiveIsLastClean(p, rows, init, h);
      match e
      case Writes(after) => NextWrites(p, Run(p, rows, init), after);
      case Refreshes(failing) => LiveNext(p, Run(p, rows, init), failing, h);
    }
  }

  /** A hook has live what a key resolves to after a refresh exactly when it ran in it and did not fail, or
      the key resolved to the same when it last ran clean. */
  lemma HookIsLive(p: Platform, rows: Rows, events: seq<Event>, failing: set<HookId>, h: HookId, k: Key)
    requires k in p.specs && Covers(p.hooks, h, k)
    ensures var st := Run(p, rows, events);
      var st', last, token := Next(p, st, Refreshes(failing)), Tokens(p, LastClean(p, rows, events, h)), Tokens(p, st.rows)[k];
      && h in st'.live && k in st'.live[h] && k in last
      && (st'.live[h][k] == token <==> (Runs(p, st, h) && h !in failing) || last[k] == token)
  {
    hide Next, Runs, Matches, Tokens;
    var st := Run(p, rows, events);
    LiveIsLastClean(p, rows, events, h);
    LiveNext(p, st, failing, h);
    TokensOf(p, st.rows);
    TokensOf(p, LastClean(p, rows, events, h));
  }

  /** A change that one hook took and another failed on, undone before the next refresh, is not undone in
      the hook that took it: nothing looks changed. */
  lemma UndoneBeforeRetried(spec: Spec)
    requires spec.mode.Free? && !spec.sensitive && spec.default_ == Num(0.0) && spec.validate(Num(1.0)) == Some(Num(1.0))
    ensures var p := Platform(map["k" := spec], [Hook("k", 0), Hook("k", 1)]);
      var st := Run(p, map[], [Writes(map["k" := Num(1.0)]), Refreshes({1}), Writes(map[]), Refreshes({})]);
      && Tokens(p, st.rows)["k"] == Num(0.0) && st.applied["k"] == Num(0.0)
      && 0 in st.live && "k" in st.live[0] && st.live[0]["k"] == Num(1.0)
  {
    hide Next, Failed, Raises, Runs, LiveIs, Matches;
    var p := Platform(map["k" := spec], [Hook("k", 0), Hook("k", 1)]);
    var a, b, c, d := Writes(map["k" := Num(1.0)]), Refreshes({1}), Writes(map[]), Refreshes({});
    var s0 := Boot(p, map[]);
    var s1 := s0.(rows := map["k" := Num(1.0)]);
    var s2 := Next(p, s1, b);
    var s3 := s2.(rows := map[]);
    assert Covers(p.hooks, 0, "k") && Covers(p.hooks, 1, "k") by { MatchesItself("k"); assert p.hooks[0].id == 0 && p.hooks[1].id == 1; }
    assert Tokens(p, map[]) == map["k" := Num(0.0)] && Tokens(p, s1.rows) == map["k" := Num(1.0)];
    assert Raises(p.hooks, {1}, "k") by { assert 1 in {1}; RaisesBy(p.hooks, {1}, "k", 1); }
    RunLast(p, map[], [], a);
    RunLast(p, map[], [a], b);
    RunLast(p, map[], [a, b], c);
    RunLast(p, map[], [a, b, c], d);
    assert [] + [a] == [a] && [a] + [b] == [a, b] && [a, b] + [c] == [a, b, c] && [a, b, c] + [d] == [a, b, c, d];
    assert 0 in s0.live by { assert p.hooks[0].id == 0; }
    NextWrites(p, s0, s1.rows);
    NextWrites(p, s2, map[]);
    AppliedNext(p, s1, {1}, "k");
    ChangedRuns(p, s1, {1}, 0, "k");
    LiveNext(p, s1, {1}, 0);
    assert s2.live[0] == map["k" := Num(1.0)];
    assert s2.applied["k"] == Num(0.0);
    AppliedNext(p, s3, {}, "k");
    LiveNext(p, s3, {}, 0);
    NothingRuns(p, s3, 0);
  }

  lemma MatchesItself(k: Key)
    ensures Matches(k, k)
  {
  }

  lemma RaisesBy(hooks: seq<Hook>, failing: set<HookId>, k: Key, h: HookId)
    requires h in failing && Covers(hooks, h, k)
    ensures Raises(hooks, failing, k)
  {
  }

  lemma RunLast(p: Platform, rows: Rows, events: seq<Event>, e: Event)
    ensures Run(p, rows, events + [e]) == Next(p, Run(p, rows, events), e)
    ensures Run(p, rows, []) == Boot(p, rows)
  {
    assert (events + [e])[..|events|] == events;
  }

  lemma NextWrites(p: Platform, st: State, rows: Rows)
    ensures Next(p, st, Writes(rows)) == st.(rows := rows)
  {
  }

  lemma NothingRuns(p: Platform, st: State, h: HookId)
    requires forall k <- p.specs :: k in st.applied && Tokens(p, st.rows)[k] == st.applied[k]
    ensures !Runs(p, st, h)
  {
  }
}
