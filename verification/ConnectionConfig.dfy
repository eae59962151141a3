/** Stripping credentials from a connection's configuration, and telling which ones must be entered again. */
module ConnectionConfig {
  /** A JSON value; a scalar is a number, a boolean or null. */
  datatype Node = Text(text: string) | Scalar(text: string) | Array(items: Nodes) | Object(fields: Fields)

  datatype Nodes = NoNodes | MoreNodes(head: Node, tail: Nodes)

  datatype Fields = NoFields | MoreFields(key: string, value: Node, rest: Fields)

  const SECRETISH: set<string> := {"secret", "password", "token", "apiKey", "api_key", "authToken", "clientSecret"}

  predicate Secretish(key: string) {
    key in SECRETISH
  }

  /** A map of names to values: a subprocess's environment, or a request's headers. */
  predicate NamesValues(key: string, value: Node) {
    key in {"env", "headers"} && value.Object?
  }

  // ---- sanitizing ----

  function Clean(v: Node): Node {
    match v
    case Object(fields) => Object(CleanFields(fields))
    case Array(items) => Array(CleanItems(items))
    case _ => v
  }

  function CleanItems(vs: Nodes): Nodes {
    match vs
    case NoNodes => NoNodes
    case MoreNodes(v, rest) => MoreNodes(Clean(v), CleanItems(rest))
  }

  function CleanFields(fs: Fields): Fields {
    match fs
    case NoFields => NoFields
    case MoreFields(key, value, rest) =>
      if Secretish(key) then CleanFields(rest)
      else MoreFields(key, if NamesValues(key, value) then Object(CleanValues(value.fields)) else Clean(value), CleanFields(rest))
  }

  /** Names survive; strings are blanked. */
  function CleanValues(fs: Fields): Fields {
    match fs
    case NoFields => NoFields
    case MoreFields(key, value, rest) =>
      MoreFields(key, if value.Text? then Text("") else Clean(value), CleanValues(rest))
  }

  /** What is stored of a configuration. */
  function Stripped(config: Node): Node {
    if config.Object? then Clean(config) else Object(NoFields)
  }

  // ---- entering values again ----

  predicate HoldsBlank(fs: Fields) {
    fs.MoreFields? && (fs.value == Text("") || HoldsBlank(fs.rest))
  }

  predicate NeedsReentry(v: Node) {
    match v
    case Object(fields) => FieldsNeedReentry(fields)
    case Array(items) => ItemsNeedReentry(items)
    case _ => false
  }

  predicate FieldsNeedReentry(fs: Fields) {
    fs.MoreFields?
    && ((NamesValues(fs.key, fs.value) && HoldsBlank(fs.value.fields)) || NeedsReentry(fs.value) || FieldsNeedReentry(fs.rest))
  }

  predicate ItemsNeedReentry(vs: Nodes) {
    vs.MoreNodes? && (NeedsReentry(vs.head) || ItemsNeedReentry(vs.tail))
  }

  // ---- idempotence ----

  /** Sanitizing what was sanitized changes nothing. */
  lemma {:induction false} CleanTwice(v: Node)
    ensures Clean(Clean(v)) == Clean(v)
  {
    match v
    case Object(fields) => CleanFieldsTwice(fields);
    case Array(items) => CleanItemsTwice(items);
    case _ =>
  }

  lemma {:induction false} CleanItemsTwice(vs: Nodes)
    ensures CleanItems(CleanItems(vs)) == CleanItems(vs)
  {
    match vs
    case NoNodes =>
    case MoreNodes(v, rest) =>
      CleanTwice(v);
      CleanItemsTwice(rest);
  }

  lemma {:induction false} CleanFieldsTwice(fs: Fields)
    ensures CleanFields(CleanFields(fs)) == CleanFields(fs)
  {
    match fs
    case NoFields =>
    case MoreFields(key, value, rest) =>
      CleanFieldsTwice(rest);
      if NamesValues(key, value) { CleanValuesTwice(value.fields); }
      CleanTwice(value);
  }

  lemma {:induction false} CleanValuesTwice(fs: Fields)
    ensures CleanValues(CleanValues(fs)) == CleanValues(fs)
  {
    match fs
    case NoFields =>
    case MoreFields(_, value, rest) =>
      CleanTwice(value);
      CleanValuesTwice(rest);
  }

  lemma StrippedTwice(config: Node)
    ensures Stripped(Stripped(config)) == Stripped(config)
  {
    CleanTwice(config);
  }

  // ---- what is stripped, and what is kept ----

  /** Nothing to strip, at any depth: no secret's name but as a name in an env or headers map, and there no string
      but the empty one. */
  predicate Harmless(v: Node) {
    match v
    case Object(fields) => HarmlessIn(fields)
    case Array(items) => HarmlessAmong(items)
    case _ => true
  }

  predicate HarmlessIn(fs: Fields) {
    fs.MoreFields? ==>
      && fs.key !in {"secret", "password", "token", "apiKey", "api_key", "authToken", "clientSecret"}
      && (if (fs.key == "env" || fs.key == "headers") && fs.value.Object? then HarmlessInside(fs.value.fields) else Harmless(fs.value))
      && HarmlessIn(fs.rest)
  }

  /** Inside an env or headers map. */
  predicate HarmlessInside(fs: Fields) {
    fs.MoreFields? ==> (if fs.value.Text? then fs.value.text == "" else Harmless(fs.value)) && HarmlessInside(fs.rest)
  }

  predicate HarmlessAmong(vs: Nodes) {
    vs.MoreNodes? ==> Harmless(vs.head) && HarmlessAmong(vs.tail)
  }

  /** Sanitizing leaves nothing to strip, and leaves a configuration as it is exactly when it had nothing. */
  lemma {:induction false} HarmlessExactly(v: Node)
    ensures Harmless(Clean(v))
    ensures Clean(v) == v <==> Harmless(v)
  {
    match v
    case Object(fields) => HarmlessExactlyIn(fields);
    case Array(items) => HarmlessExactlyAmong(items);
    case _ =>
  }

  lemma {:induction false} HarmlessExactlyAmong(vs: Nodes)
    ensures HarmlessAmong(CleanItems(vs))
    ensures CleanItems(vs) == vs <==> HarmlessAmong(vs)
  {
    if vs.MoreNodes? {
      HarmlessExactly(vs.head);
      HarmlessExactlyAmong(vs.tail);
    }
  }

  lemma {:induction false} HarmlessExactlyIn(fs: Fields)
    ensures HarmlessIn(CleanFields(fs))
    ensures CleanFields(fs) == fs <==> HarmlessIn(fs)
  {
    if fs.MoreFields? {
      HarmlessExactlyIn(fs.rest);
      if Secretish(fs.key) {
        NoLonger(fs.rest);
      } else if NamesValues(fs.key, fs.value) {
        HarmlessExactlyInside(fs.value.fields);
      } else {
        HarmlessExactly(fs.value);
      }
    }
  }

  lemma {:induction false} HarmlessExactlyInside(fs: Fields)
    ensures HarmlessInside(CleanValues(fs))
    ensures CleanValues(fs) == fs <==> HarmlessInside(fs)
  {
    if fs.MoreFields? {
      HarmlessExactlyInside(fs.rest);
      HarmlessExactly(fs.value);
    }
  }

  function Names(fs: Fields): seq<string> {
    if fs.NoFields? then [] else [fs.key] + Names(fs.rest)
  }

  function NotSecret(names: seq<string>): seq<string> {
    if names == [] then [] else (if Secretish(names[0]) then [] else [names[0]]) + NotSecret(names[1..])
  }

  lemma {:induction false} NoLonger(fs: Fields)
    ensures |Names(CleanFields(fs))| <= |Names(fs)|
  {
    if fs.MoreFields? { NoLonger(fs.rest); }
  }

  /** Of an object every other name stays, in order; in an env or headers map every name. */
  lemma {:induction false} NamesAreKept(fs: Fields)
    ensures Names(CleanFields(fs)) == NotSecret(Names(fs)) && Names(CleanValues(fs)) == Names(fs)
  {
    if fs.MoreFields? {
      NamesAreKept(fs.rest);
      assert Names(fs)[1..] == Names(fs.rest);
    }
  }

  /** What is stored is always an object with nothing to strip, and the configuration itself exactly when that was
      one. */
  lemma StrippedExactly(config: Node)
    ensures Stripped(config).Object? && Harmless(Stripped(config))
    ensures Stripped(config) == config <==> config.Object? && Harmless(config)
    ensures config.Object? ==> Names(Stripped(config).fields) == NotSecret(Names(config.fields))
  {
    HarmlessExactly(config);
    if config.Object? { NamesAreKept(config.fields); }
  }

  // ---- what was held ----

  predicate HoldsString(fs: Fields) {
    fs.MoreFields? && (fs.value.Text? || HoldsString(fs.rest))
  }

  /** A string, or if not `any` an empty one, under a name that survives sanitizing. */
  predicate KeepsString(fs: Fields, any: bool) {
    fs.MoreFields? && ((!Secretish(fs.key) && fs.value.Text? && (any || fs.value.text == "")) || KeepsString(fs.rest, any))
  }

  /** A string other than the empty one under a name that survives sanitizing. */
  predicate KeepsValue(fs: Fields) {
    fs.MoreFields? && ((!Secretish(fs.key) && fs.value.Text? && fs.value.text != "") || KeepsValue(fs.rest))
  }

  /** A surviving env or headers map held a string; of such a map directly inside another, unless `any`,
      only empty strings are looked for. */
  predicate Held(v: Node, any: bool) {
    match v
    case Object(fields) => HeldIn(fields, any)
    case Array(items) => HeldAmong(items, any)
    case _ => false
  }

  predicate HeldIn(fs: Fields, any: bool) {
    fs.MoreFields?
    && ((!Secretish(fs.key)
         && if NamesValues(fs.key, fs.value) then HoldsString(fs.value.fields) || HeldInside(fs.value.fields, any)
            else Held(fs.value, any))
        || HeldIn(fs.rest, any))
  }

  /** Inside an env or headers map, where no name is dropped. */
  predicate HeldInside(fs: Fields, any: bool) {
    fs.MoreFields?
    && ((NamesValues(fs.key, fs.value) && KeepsString(fs.value.fields, any)) || Held(fs.value, any) || HeldInside(fs.rest, any))
  }

  predicate HeldAmong(vs: Nodes, any: bool) {
    vs.MoreNodes? && (Held(vs.head, any) || HeldAmong(vs.tail, any))
  }

  /** An env or headers map directly inside another holds a string that is not empty: it is not one of
      the values that are blanked. */
  predicate Nested(v: Node) {
    match v
    case Object(fields) => NestedIn(fields)
    case Array(items) => NestedAmong(items)
    case _ => false
  }

  predicate NestedIn(fs: Fields) {
    fs.MoreFields?
    && ((!Secretish(fs.key)
         && if NamesValues(fs.key, fs.value) then NestedInside(fs.value.fields) else Nested(fs.value))
        || NestedIn(fs.rest))
  }

  predicate NestedInside(fs: Fields) {
    fs.MoreFields?
    && ((NamesValues(fs.key, fs.value) && KeepsValue(fs.value.fields)) || Nested(fs.value) || NestedInside(fs.rest))
  }

  predicate NestedAmong(vs: Nodes) {
    vs.MoreNodes? && (Nested(vs.head) || NestedAmong(vs.tail))
  }

  // ---- the report tells ----

  /** What is told after sanitizing, of every configuration. */
  lemma {:induction false} ReentryIs(v: Node)
    ensures NeedsReentry(Clean(v)) <==> Held(v, false)
  {
    match v
    case Object(fields) => ReentryIsIn(fields);
    case Array(items) => ReentryIsAmong(items);
    case _ =>
  }

  lemma {:induction false} ReentryIsAmong(vs: Nodes)
    ensures ItemsNeedReentry(CleanItems(vs)) <==> HeldAmong(vs, false)
  {
    if vs.MoreNodes? {
      ReentryIs(vs.head);
      ReentryIsAmong(vs.tail);
    }
  }

  lemma {:induction false} ReentryIsIn(fs: Fields)
    ensures FieldsNeedReentry(CleanFields(fs)) <==> HeldIn(fs, false)
  {
    if fs.MoreFields? {
      ReentryIsIn(fs.rest);
      if !Secretish(fs.key) {
        if NamesValues(fs.key, fs.value) {
          BlankedAreBlank(fs.value.fields);
          ReentryIsInside(fs.value.fields);
        } else {
          ReentryIs(fs.value);
        }
      }
    }
  }

  lemma {:induction false} ReentryIsInside(fs: Fields)
    ensures FieldsNeedReentry(CleanValues(fs)) <==> HeldInside(fs, false)
  {
    if fs.MoreFields? {
      ReentryIsInside(fs.rest);
      ReentryIs(fs.value);
      if NamesValues(fs.key, fs.value) { KeptAreKept(fs.value.fields); }
    }
  }

  /** Whether values must be entered again is told exactly when a surviving env or headers map held a
      string, unless all that were held are values of such a map directly inside another. */
  lemma ReentryIsTold(v: Node)
    ensures (NeedsReentry(Clean(v)) <==> Held(v, true)) <==> (Held(v, true) ==> Held(v, false))
    ensures !Nested(v) ==> (NeedsReentry(Clean(v)) <==> Held(v, true))
  {
    ReentryIs(v);
    HeldMore(v);
    if !Nested(v) { NotNested(v); }
  }

  lemma {:induction false} HeldMore(v: Node)
    ensures Held(v, false) ==> Held(v, true)
  {
    match v
    case Object(fields) => HeldMoreIn(fields);
    case Array(items) => HeldMoreAmong(items);
    case _ =>
  }

  lemma {:induction false} HeldMoreAmong(vs: Nodes)
    ensures HeldAmong(vs, false) ==> HeldAmong(vs, true)
  {
    if vs.MoreNodes? {
      HeldMore(vs.head);
      HeldMoreAmong(vs.tail);
    }
  }

  lemma {:induction false} HeldMoreIn(fs: Fields)
    ensures HeldIn(fs, false) ==> HeldIn(fs, true)
  {
    if fs.MoreFields? {
      HeldMoreIn(fs.rest);
      if NamesValues(fs.key, fs.value) { HeldMoreInside(fs.value.fields); }
      HeldMore(fs.value);
    }
  }

  lemma {:induction false} HeldMoreInside(fs: Fields)
    ensures HeldInside(fs, false) ==> HeldInside(fs, true)
  {
    if fs.MoreFields? {
      HeldMoreInside(fs.rest);
      HeldMore(fs.value);
      if NamesValues(fs.key, fs.value) { KeepsMore(fs.value.fields); }
    }
  }

  lemma {:induction false} KeepsMore(fs: Fields)
    ensures KeepsString(fs, false) ==> KeepsString(fs, true)
  {
    if fs.MoreFields? { KeepsMore(fs.rest); }
  }

  lemma {:induction false} NotNested(v: Node)
    requires !Nested(v)
    ensures Held(v, true) <==> Held(v, false)
  {
    match v
    case Object(fields) => NotNestedIn(fields);
    case Array(items) => NotNestedAmong(items);
    case _ =>
  }

  lemma {:induction false} NotNestedAmong(vs: Nodes)
    requires !NestedAmong(vs)
    ensures HeldAmong(vs, true) <==> HeldAmong(vs, false)
  {
    if vs.MoreNodes? {
      NotNested(vs.head);
      NotNestedAmong(vs.tail);
    }
  }

  lemma {:induction false} NotNestedIn(fs: Fields)
    requires !NestedIn(fs)
    ensures HeldIn(fs, true) <==> HeldIn(fs, false)
  {
    if fs.MoreFields? {
      NotNestedIn(fs.rest);
      if !Secretish(fs.key) {
        if NamesValues(fs.key, fs.value) { NotNestedInside(fs.value.fields); } else { NotNested(fs.value); }
      }
    }
  }

  lemma {:induction false} NotNestedInside(fs: Fields)
    requires !NestedInside(fs)
    ensures HeldInside(fs, true) <==> HeldInside(fs, false)
  {
    if fs.MoreFields? {
      NotNestedInside(fs.rest);
      NotNested(fs.value);
      if NamesValues(fs.key, fs.value) { NoValueKept(fs.value.fields); }
    }
  }

  lemma {:induction false} NoValueKept(fs: Fields)
    requires !KeepsValue(fs)
    ensures KeepsString(fs, true) <==> KeepsString(fs, false)
  {
    if fs.MoreFields? { NoValueKept(fs.rest); }
  }

  lemma {:induction false} BlankedAreBlank(fs: Fields)
    ensures HoldsBlank(CleanValues(fs)) <==> HoldsString(fs)
  {
    if fs.MoreFields? { BlankedAreBlank(fs.rest); }
  }

  lemma {:induction false} KeptAreKept(fs: Fields)
    ensures HoldsBlank(CleanFields(fs)) <==> KeepsString(fs, false)
    ensures HoldsValue(CleanFields(fs)) <==> KeepsValue(fs)
  {
    if fs.MoreFields? { KeptAreKept(fs.rest); }
  }

  // ---- nothing but names survives ----

  predicate HoldsValue(fs: Fields) {
    fs.MoreFields? && ((fs.value.Text? && fs.value.text != "") || HoldsValue(fs.rest))
  }

  /** Every env and headers map, however deep, has only empty strings. */
  predicate AllBlank(v: Node) {
    match v
    case Object(fields) => AllBlankIn(fields)
    case Array(items) => AllBlankAmong(items)
    case _ => true
  }

  predicate AllBlankIn(fs: Fields) {
    fs.MoreFields? ==>
      (NamesValues(fs.key, fs.value) ==> !HoldsValue(fs.value.fields)) && AllBlank(fs.value) && AllBlankIn(fs.rest)
  }

  predicate AllBlankAmong(vs: Nodes) {
    vs.MoreNodes? ==> AllBlank(vs.head) && AllBlankAmong(vs.tail)
  }

  /** No value survives in an env or headers map, exactly when no such map sits directly inside another
      with a value of its own. */
  lemma {:induction false} ValuesAreBlanked(v: Node)
    ensures AllBlank(Clean(v)) <==> !Nested(v)
  {
    match v
    case Object(fields) => ValuesAreBlankedIn(fields);
    case Array(items) => ValuesAreBlankedAmong(items);
    case _ =>
  }

  lemma {:induction false} ValuesAreBlankedAmong(vs: Nodes)
    ensures AllBlankAmong(CleanItems(vs)) <==> !NestedAmong(vs)
  {
    if vs.MoreNodes? {
      ValuesAreBlanked(vs.head);
      ValuesAreBlankedAmong(vs.tail);
    }
  }

  lemma {:induction false} ValuesAreBlankedIn(fs: Fields)
    ensures AllBlankIn(CleanFields(fs)) <==> !NestedIn(fs)
  {
    if fs.MoreFields? {
      ValuesAreBlankedIn(fs.rest);
      if !Secretish(fs.key) {
        if NamesValues(fs.key, fs.value) {
          NoValueLeft(fs.value.fields);
          ValuesAreBlankedInside(fs.value.fields);
        } else {
          ValuesAreBlanked(fs.value);
        }
      }
    }
  }

  lemma {:induction false} ValuesAreBlankedInside(fs: Fields)
    ensures AllBlankIn(CleanValues(fs)) <==> !NestedInside(fs)
  {
    if fs.MoreFields? {
      ValuesAreBlankedInside(fs.rest);
      ValuesAreBlanked(fs.value);
      if NamesValues(fs.key, fs.value) { KeptAreKept(fs.value.fields); }
    }
  }

  lemma {:induction false} NoValueLeft(fs: Fields)
    ensures !HoldsValue(CleanValues(fs))
  {
    if fs.MoreFields? { NoValueLeft(fs.rest); }
  }

  /** A header's value kept under `env` survives, and is not told of. */
  lemma NestedValueSurvives(name: string, value: string)
    requires !Secretish(name) && value != ""
    ensures var inner := Object(MoreFields(name, Text(value), NoFields));
      var config := Object(MoreFields("env", Object(MoreFields("headers", inner, NoFields)), NoFields));
      Clean(config) == config && Held(config, true) && !NeedsReentry(Clean(config))
  {
    var fs := MoreFields(name, Text(value), NoFields);
    var inner := Object(fs);
    var env := MoreFields("headers", inner, NoFields);
    assert "env" !in SECRETISH && "headers" !in SECRETISH;
    assert CleanFields(fs) == fs;
    assert CleanValues(env) == env;
    assert KeepsString(fs, true) && !HoldsBlank(fs) && !FieldsNeedReentry(fs);
    assert !HoldsBlank(env) && !NeedsReentry(inner) && !FieldsNeedReentry(env);
    assert !FieldsNeedReentry(MoreFields("env", Object(env), NoFields));
  }
}
