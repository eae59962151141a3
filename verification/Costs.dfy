/** What a request costs on a model, and what it would cost where nothing of it is cached. */
module Costs {
  import opened Options

  const PER_MILLION := 1000000.0

  /** USD per million tokens. */
  datatype Rates = Rates(input: real, output: real, write5m: real, write1h: real, read: real)

  datatype Usage = Usage(input: nat, output: nat, read: nat, write5m: nat, write1h: nat)

  datatype Tier = Tier(over: nat, rates: Rates)

  /** What a model charges: ordinarily, for long prompts, and in fast mode. */
  datatype ModelPrices = ModelPrices(base: Rates, longContext: Option<Tier>, fast: Option<Rates>)

  type Book = map<string, ModelPrices>

  /** The model an id names: without a context suffix or a snapshot date. */
  type BaseOf = string -> string

  datatype Ttl = FiveMinutes | OneHour

  // ---- cost ----

  function Prompt(u: Usage): nat {
    u.input + u.read + u.write5m + u.write1h
  }

  function Charge(tokens: nat, rate: real): real {
    tokens as real * rate
  }

  function Sum(r: Rates, u: Usage): real {
    Charge(u.input, r.input) + Charge(u.output, r.output) + Charge(u.read, r.read)
    + Charge(u.write5m, r.write5m) + Charge(u.write1h, r.write1h)
  }

  /** The rates a prompt of this size is charged at. */
  function RatesAt(p: ModelPrices, size: nat, fast: bool): Rates {
    if fast && p.fast.Some? then p.fast.value
    else if p.longContext.Some? && size > p.longContext.value.over then p.longContext.value.rates
    else p.base
  }

  function RatesFor(p: ModelPrices, u: Usage, fast: bool): Rates {
    RatesAt(p, Prompt(u), fast)
  }

  function Find(book: Book, base: BaseOf, model: Option<string>): Option<ModelPrices> {
    if model.Some? && model.value != "" && base(model.value) in book then Some(book[base(model.value)]) else None
  }

  /** What a usage costs on a model, if its prices are known. */
  function Cost(book: Book, base: BaseOf, model: Option<string>, u: Usage, fast: bool): Option<real> {
    var p := Find(book, base, model);
    if p.None? then None else Some(Sum(RatesFor(p.value, u, fast), u) / PER_MILLION)
  }

  /** The same request with the tokens it read from cache written instead. */
  function Cold(u: Usage, ttl: Ttl): Usage {
    u.(read := 0, write5m := u.write5m + (if ttl.FiveMinutes? then u.read else 0),
       write1h := u.write1h + (if ttl.OneHour? then u.read else 0))
  }

  function CostCold(book: Book, base: BaseOf, model: Option<string>, u: Usage, ttl: Ttl, fast: bool): Option<real> {
    Cost(book, base, model, Cold(u, ttl), fast)
  }

  function WriteRate(r: Rates, ttl: Ttl): real {
    if ttl.FiveMinutes? then r.write5m else r.write1h
  }

  lemma ChargeSplits(a: nat, b: nat, rate: real)
    ensures Charge(a + b, rate) == Charge(a, rate) + Charge(b, rate)
  {
  }

  lemma ChargeDiffers(n: nat, a: real, b: real)
    ensures Charge(n, a) - Charge(n, b) == n as real * (a - b)
    ensures Charge(0, a) == 0.0 && Charge(1, a) == a
  {
  }

  /** What the tokens cost at these rates, in USD. */
  function At(r: Rates, u: Usage): real {
    (u.input as real * r.input + u.output as real * r.output + u.read as real * r.read
     + u.write5m as real * r.write5m + u.write1h as real * r.write1h) / 1000000.0
  }

  /** Which of a model's rates a request is charged at. Fast rates win over those for long prompts, however long
      the prompt; without fast rates a fast request costs what any does; and that is the long-context rates
      exactly when the whole prompt, cached or not, is over the threshold. */
  lemma RatesExactly(book: Book, base: BaseOf, model: string, u: Usage)
    ensures var fast, ordinary := Cost(book, base, Some(model), u, true), Cost(book, base, Some(model), u, false);
      if model == "" || base(model) !in book then fast.None? && ordinary.None?
      else
        var p, size := book[base(model)], u.input + u.read + u.write5m + u.write1h;
        && fast == (if p.fast.Some? then Some(At(p.fast.value, u)) else ordinary)
        && ordinary == Some(At(if p.longContext.Some? && p.longContext.value.over < size then p.longContext.value.rates else p.base, u))
    ensures Cost(book, base, None, u, true).None? && Cost(book, base, None, u, false).None?
  {
    forall r: Rates ensures At(r, u) == Sum(r, u) / PER_MILLION { AtIs(r, u); }
    hide At, Sum;
  }

  lemma AtIs(r: Rates, u: Usage)
    ensures At(r, u) == Sum(r, u) / PER_MILLION
  {
  }

  /** Going cold keeps the prompt's size, so it is charged at the same tier, and costs exactly the
      moved tokens at the write rate instead of the read rate. */
  lemma ColdCostsTheMove(book: Book, base: BaseOf, model: Option<string>, u: Usage, ttl: Ttl, fast: bool)
    ensures Prompt(Cold(u, ttl)) == Prompt(u)
    ensures CostCold(book, base, model, u, ttl, fast).Some? <==> Cost(book, base, model, u, fast).Some?
    ensures var p := Find(book, base, model);
      p.Some? ==>
        (var r := RatesFor(p.value, u, fast);
         CostCold(book, base, model, u, ttl, fast).value - Cost(book, base, model, u, fast).value
         == u.read as real * (WriteRate(r, ttl) - r.read) / PER_MILLION)
  {
    hide Sum, Find;
    var p := Find(book, base, model);
    if p.Some? {
      var r, c := RatesFor(p.value, u, fast), Cold(u, ttl);
      assert RatesFor(p.value, c, fast) == r;
      SumCold(r, u, ttl);
    }
  }

  lemma SumCold(r: Rates, u: Usage, ttl: Ttl)
    ensures Sum(r, Cold(u, ttl)) - Sum(r, u) == u.read as real * (WriteRate(r, ttl) - r.read)
  {
    hide Charge;
    ChargeSplits(u.write5m, u.read, r.write5m);
    ChargeSplits(u.write1h, u.read, r.write1h);
    ChargeDiffers(u.read, WriteRate(r, ttl), r.read);
    ChargeDiffers(0, r.read, r.read);
  }

  // ---- contracted rates ----

  /** A tier's ratio to the base price, applied to a contracted price; a tier over a base of nothing
      keeps its own. */
  function Ratio(tier: real, base: real, onto: real): real {
    if base != 0.0 then onto * (tier / base) else tier
  }

  function Scaled(tier: Rates, base: Rates, onto: Rates): Rates {
    Rates(Ratio(tier.input, base.input, onto.input), Ratio(tier.output, base.output, onto.output),
          Ratio(tier.write5m, base.write5m, onto.write5m), Ratio(tier.write1h, base.write1h, onto.write1h),
          Ratio(tier.read, base.read, onto.read))
  }

  function Contracted(p: ModelPrices, rates: Rates): ModelPrices {
    ModelPrices(rates,
      if p.longContext.Some? then Some(Tier(p.longContext.value.over, Scaled(p.longContext.value.rates, p.base, rates))) else None,
      if p.fast.Some? then Some(Scaled(p.fast.value, p.base, rates)) else None)
  }

  /** Contracting is the tier whose share of its base price is what it was. */
  lemma RatioKept(tier: real, base: real, onto: real)
    ensures base != 0.0 ==> Ratio(tier, base, onto) * base == onto * tier
    ensures base != 0.0 && onto != 0.0 ==> Ratio(tier, base, onto) / onto == tier / base
    ensures Ratio(tier, base, base) == tier
  {
  }

  /** Contracting a contracted price again comes to contracting once, unless a price of nothing on the
      way lost the ratio, or made one where the list had none. */
  lemma RatioTwice(tier: real, base: real, first: real, second: real)
    ensures Ratio(Ratio(tier, base, first), first, second) == Ratio(tier, base, second)
      <==> (base != 0.0 <==> first != 0.0) || tier == 0.0 || second == (if base != 0.0 then 0.0 else first)
  {
    hide Ratio;
    RatioIs(tier, base, first);
    RatioIs(tier, base, second);
    RatioIs(Ratio(tier, base, first), first, second);
    if base != 0.0 {
      var q := tier / base;
      if first != 0.0 { TimesOver(first, q); } else { NoneOf(second, q, tier, base); }
    } else if first != 0.0 {
      SameShare(tier, first, second);
    }
  }

  lemma RatioIs(tier: real, base: real, onto: real)
    ensures Ratio(tier, base, onto) == if base != 0.0 then onto * (tier / base) else tier
  {
  }

  lemma TimesOver(a: real, q: real)
    requires a != 0.0
    ensures (a * q) / a == q
  {
  }

  lemma NoneOf(second: real, q: real, tier: real, base: real)
    requires base != 0.0 && q == tier / base
    ensures 0.0 * q == 0.0 && (0.0 == second * q <==> tier == 0.0 || second == 0.0)
  {
    assert q * base == tier;
    assert second != 0.0 && q != 0.0 ==> second * q != 0.0;
  }

  lemma SameShare(tier: real, first: real, second: real)
    requires first != 0.0
    ensures second * (tier / first) == tier <==> tier == 0.0 || second == first
  {
    var q := tier / first;
    assert q * first == tier;
    Cancel(q, second, first);
    assert q == 0.0 <==> tier == 0.0;
  }

  lemma Cancel(t: real, a: real, b: real)
    ensures a * t == t * b <==> t == 0.0 || a == b
  {
    assert a * t - t * b == t * (a - b);
  }

  /** Every tier's ratio to the base price, field by field. */
  predicate SameRatios(tier: Rates, base: Rates, tier': Rates, base': Rates) {
    && tier'.input * base.input == base'.input * tier.input
    && tier'.output * base.output == base'.output * tier.output
    && tier'.write5m * base.write5m == base'.write5m * tier.write5m
    && tier'.write1h * base.write1h == base'.write1h * tier.write1h
    && tier'.read * base.read == base'.read * tier.read
  }

  predicate Priced(r: Rates) {
    r.input != 0.0 && r.output != 0.0 && r.write5m != 0.0 && r.write1h != 0.0 && r.read != 0.0
  }

  /** A contracted override keeps every tier-to-base ratio and every threshold, and overriding with
      the list's own rates changes nothing. */
  lemma ContractKeepsRatios(p: ModelPrices, rates: Rates)
    ensures var c := Contracted(p, rates);
      && c.base == rates && c.longContext.Some? == p.longContext.Some? && c.fast.Some? == p.fast.Some?
      && (p.longContext.Some? ==> c.longContext.value.over == p.longContext.value.over)
      && (Priced(p.base) && p.longContext.Some? ==>
            SameRatios(p.longContext.value.rates, p.base, c.longContext.value.rates, rates))
      && (Priced(p.base) && p.fast.Some? ==> SameRatios(p.fast.value, p.base, c.fast.value, rates))
    ensures Contracted(p, p.base) == p
  {
    if p.longContext.Some? {
      ScaledKeeps(p.longContext.value.rates, p.base, rates);
    }
    if p.fast.Some? {
      ScaledKeeps(p.fast.value, p.base, rates);
    }
  }

  lemma ScaledKeeps(tier: Rates, base: Rates, onto: Rates)
    ensures Priced(base) ==> SameRatios(tier, base, Scaled(tier, base, onto), onto)
    ensures Scaled(tier, base, base) == tier
  {
    RatioKept(tier.input, base.input, onto.input);
    RatioKept(tier.output, base.output, onto.output);
    RatioKept(tier.write5m, base.write5m, onto.write5m);
    RatioKept(tier.write1h, base.write1h, onto.write1h);
    RatioKept(tier.read, base.read, onto.read);
  }

  // ---- overrides ----

  datatype Override = Override(model: string, rates: Rates)

  /** One override merged on top of a book, whatever is listed for the model its id names. */
  function Merge(book: Book, base: BaseOf, o: Override): Book {
    book[o.model := if base(o.model) in book then Contracted(book[base(o.model)], o.rates)
                    else ModelPrices(o.rates, None, None)]
  }

  function MergeAll(book: Book, base: BaseOf, os: seq<Override>): Book {
    if os == [] then book else Merge(MergeAll(book, base, os[..|os| - 1]), base, os[|os| - 1])
  }

  method WithOverrides(book: Book, base: BaseOf, os: seq<Override>) returns (merged: Book)
    ensures merged == MergeAll(book, base, os)
  {
    merged := book;
    var i := 0;
    while i < |os|
      invariant 0 <= i <= |os| && merged == MergeAll(book, base, os[..i])
    {
      assert os[..i + 1][..i] == os[..i];
      merged := Merge(merged, base, os[i]);
      i := i + 1;
    }
    assert os[..i] == os;
  }

  predicate Distinct(os: seq<Override>) {
    forall i, j :: 0 <= i < j < |os| ==> os[i].model != os[j].model
  }

  /** What the list price of a model becomes under the overrides. */
  function Overridden(book: Book, os: seq<Override>, model: string): Option<ModelPrices> {
    if os != [] && os[|os| - 1].model == model then
      Some(if model in book then Contracted(book[model], os[|os| - 1].rates)
           else ModelPrices(os[|os| - 1].rates, None, None))
    else if os == [] then (if model in book then Some(book[model]) else None)
    else Overridden(book, os[..|os| - 1], model)
  }

  lemma {:induction false} NotOverridden(book: Book, os: seq<Override>, model: string)
    requires forall i :: 0 <= i < |os| ==> os[i].model != model
    ensures Overridden(book, os, model) == if model in book then Some(book[model]) else None
  {
    if os != [] { NotOverridden(book, os[..|os| - 1], model); }
  }

  /** Each model keeps its list price or is contracted from it, whatever order the overrides come in. */
  lemma {:induction false} OverridesAreIndependent(book: Book, base: BaseOf, os: seq<Override>, model: string)
    requires Distinct(os) && base(model) == model
    ensures (if model in MergeAll(book, base, os) then Some(MergeAll(book, base, os)[model]) else None)
      == Overridden(book, os, model)
  {
    if os != [] {
      var init, last := os[..|os| - 1], os[|os| - 1];
      OverridesAreIndependent(book, base, init, model);
      if last.model == model { NotOverridden(book, init, model); }
    }
  }

  /** An override whose id carries a suffix or a date is priced under that id, and no cost is ever
      looked up there. */
  lemma SuffixedOverrideUnused(book: Book, base: BaseOf, o: Override, model: Option<string>, u: Usage, fast: bool)
    requires forall m :: base(base(m)) == base(m)
    requires base(o.model) != o.model
    ensures Cost(Merge(book, base, o), base, model, u, fast) == Cost(book, base, model, u, fast)
  {
    if model.Some? {
      assert base(base(model.value)) == base(model.value);
    }
  }

  /** Overriding every listed model with its own list rates changes no cost. */
  lemma {:induction false} ListRatesChangeNothing(book: Book, base: BaseOf, os: seq<Override>)
    requires forall i :: 0 <= i < |os| ==> base(os[i].model) == os[i].model && os[i].model in book
    requires forall i :: 0 <= i < |os| ==> os[i].rates == book[os[i].model].base
    ensures MergeAll(book, base, os) == book
  {
    if os != [] {
      ListRatesChangeNothing(book, base, os[..|os| - 1]);
      ContractKeepsRatios(book[os[|os| - 1].model], os[|os| - 1].rates);
    }
  }

  // ---- which costs less ----

  function BaseRates(book: Book, base: BaseOf, model: Option<string>): Option<Rates> {
    var p := Find(book, base, model);
    if p.None? then None else Some(p.value.base)
  }

  predicate NoneHigher(there: Rates, here: Rates) {
    && there.input <= here.input && there.output <= here.output && there.write5m <= here.write5m
    && there.write1h <= here.write1h && there.read <= here.read
  }

  /** Both are priced, each rate is at most the other model's, and some rate is less. */
  predicate CostsLess(book: Book, base: BaseOf, target: string, requested: Option<string>) {
    var there, here := BaseRates(book, base, Some(target)), BaseRates(book, base, requested);
    && there.Some? && here.Some?
    && NoneHigher(there.value, here.value) && there.value != here.value
  }

  lemma ChargeMonotone(n: nat, a: real, b: real)
    requires a <= b
    ensures Charge(n, a) <= Charge(n, b)
  {
  }

  lemma SumMonotone(a: Rates, b: Rates, u: Usage)
    requires NoneHigher(a, b)
    ensures Sum(a, u) <= Sum(b, u)
  {
    hide Charge;
    ChargeMonotone(u.input, a.input, b.input);
    ChargeMonotone(u.output, a.output, b.output);
    ChargeMonotone(u.read, a.read, b.read);
    ChargeMonotone(u.write5m, a.write5m, b.write5m);
    ChargeMonotone(u.write1h, a.write1h, b.write1h);
  }

  /** One token of one kind. */
  function One(kind: nat): Usage {
    Usage(if kind == 0 then 1 else 0, if kind == 1 then 1 else 0, if kind == 2 then 1 else 0,
          if kind == 3 then 1 else 0, if kind == 4 then 1 else 0)
  }

  lemma SumOne(r: Rates)
    ensures Sum(r, One(0)) == r.input && Sum(r, One(1)) == r.output && Sum(r, One(2)) == r.read
    ensures Sum(r, One(3)) == r.write5m && Sum(r, One(4)) == r.write1h
  {
    hide Charge;
    ChargeDiffers(0, r.input, 0.0);
    ChargeDiffers(0, r.output, 0.0);
    ChargeDiffers(0, r.read, 0.0);
    ChargeDiffers(0, r.write5m, 0.0);
    ChargeDiffers(0, r.write1h, 0.0);
  }

  /** Costing less is costing no more for every usage at base rates, and less for one. */
  lemma CostsLessIsLess(a: Rates, b: Rates)
    ensures NoneHigher(a, b) && a != b
      <==> (forall u :: Sum(a, u) <= Sum(b, u)) && (exists u :: Sum(a, u) < Sum(b, u))
  {
    hide Sum;
    SumOne(a);
    SumOne(b);
    if NoneHigher(a, b) {
      forall u ensures Sum(a, u) <= Sum(b, u) { SumMonotone(a, b, u); }
      if a != b {
        assert Sum(a, One(0)) < Sum(b, One(0)) || Sum(a, One(1)) < Sum(b, One(1)) || Sum(a, One(2)) < Sum(b, One(2))
          || Sum(a, One(3)) < Sum(b, One(3)) || Sum(a, One(4)) < Sum(b, One(4));
      }
    }
  }

  /** A request is charged at the model's base tier. */
  predicate AtBase(p: ModelPrices, u: Usage, fast: bool) {
    RatesFor(p, u, fast) == p.base
  }

  /** A target known to cost less never costs more for a request at both models' base tiers. */
  lemma CheaperCostsNoMore(book: Book, base: BaseOf, target: string, requested: Option<string>, u: Usage, fast: bool)
    requires CostsLess(book, base, target, requested)
    requires AtBase(Find(book, base, Some(target)).value, u, fast) && AtBase(Find(book, base, requested).value, u, fast)
    ensures Cost(book, base, Some(target), u, fast).value <= Cost(book, base, requested, u, fast).value
  {
    SumMonotone(Find(book, base, Some(target)).value.base, Find(book, base, requested).value.base, u);
  }

  // ---- which never costs more ----

  /** No rate is higher for any prompt size and either speed; with no prompt only output is charged. */
  ghost predicate NeverHigher(p: ModelPrices, q: ModelPrices) {
    && (forall n: nat, fast :: n > 0 ==> NoneHigher(RatesAt(p, n, fast), RatesAt(q, n, fast)))
    && (forall fast :: RatesAt(p, 0, fast).output <= RatesAt(q, 0, fast).output)
  }

  /** Whatever is used and at either speed, the first model costs no more. */
  ghost predicate NeverDearer(p: ModelPrices, q: ModelPrices) {
    forall u, fast :: Sum(RatesFor(p, u, fast), u) <= Sum(RatesFor(q, u, fast), u)
  }

  /** One model never costs more than another exactly when none of its rates is higher at any prompt size
      and either speed: its long-prompt and fast rates count as much as its base rates. */
  lemma NeverDearerExactly(p: ModelPrices, q: ModelPrices)
    ensures NeverDearer(p, q) <==> NeverHigher(p, q)
  {
    hide Sum, RatesAt, NoneHigher;
    if NeverHigher(p, q) {
      forall u, fast ensures Sum(RatesFor(p, u, fast), u) <= Sum(RatesFor(q, u, fast), u) {
        NoDearer(RatesAt(p, Prompt(u), fast), RatesAt(q, Prompt(u), fast), u);
      }
    }
    if NeverDearer(p, q) {
      forall n: nat, fast | n > 0 ensures NoneHigher(RatesAt(p, n, fast), RatesAt(q, n, fast)) {
        HigherShows(p, q, n, fast);
      }
      forall fast ensures RatesAt(p, 0, fast).output <= RatesAt(q, 0, fast).output {
        OutputShows(p, q, 0, fast);
      }
    }
  }

  /** With no prompt, only the output rate matters. */
  lemma NoDearer(a: Rates, b: Rates, u: Usage)
    requires if Prompt(u) > 0 then NoneHigher(a, b) else a.output <= b.output
    ensures Sum(a, u) <= Sum(b, u)
  {
    hide Charge;
    if Prompt(u) > 0 {
      SumMonotone(a, b, u);
    } else {
      ChargeMonotone(u.output, a.output, b.output);
      forall rate: real ensures Charge(0, rate) == 0.0 { ChargeDiffers(0, rate, rate); }
    }
  }

  /** A prompt of tokens of one kind, and some output. */
  function OfKind(kind: nat, n: nat, output: nat): Usage
    requires kind < 4
  {
    Usage(if kind == 0 then n else 0, output, if kind == 1 then n else 0, if kind == 2 then n else 0, if kind == 3 then n else 0)
  }

  function KindRate(r: Rates, kind: nat): real
    requires kind < 4
  {
    if kind == 0 then r.input else if kind == 1 then r.read else if kind == 2 then r.write5m else r.write1h
  }

  lemma SumOfKind(r: Rates, kind: nat, n: nat, output: nat)
    requires kind < 4
    ensures Prompt(OfKind(kind, n, output)) == n
    ensures Sum(r, OfKind(kind, n, output)) == Charge(n, KindRate(r, kind)) + Charge(output, r.output)
  {
    hide Charge;
    forall rate: real ensures Charge(0, rate) == 0.0 { ChargeDiffers(0, rate, rate); }
  }

  /** A rate that is higher at some size shows in what some usage of that size costs. */
  lemma HigherShows(p: ModelPrices, q: ModelPrices, n: nat, fast: bool)
    requires NeverDearer(p, q) && n > 0
    ensures NoneHigher(RatesAt(p, n, fast), RatesAt(q, n, fast))
  {
    hide Sum, RatesAt;
    KindShows(p, q, n, fast, 0);
    KindShows(p, q, n, fast, 1);
    KindShows(p, q, n, fast, 2);
    KindShows(p, q, n, fast, 3);
    OutputShows(p, q, n, fast);
  }

  lemma KindShows(p: ModelPrices, q: ModelPrices, n: nat, fast: bool, kind: nat)
    requires NeverDearer(p, q) && n > 0 && kind < 4
    ensures KindRate(RatesAt(p, n, fast), kind) <= KindRate(RatesAt(q, n, fast), kind)
  {
    hide Sum, RatesAt, Charge, KindRate;
    var a, b, u := RatesAt(p, n, fast), RatesAt(q, n, fast), OfKind(kind, n, 0);
    SumOfKind(a, kind, n, 0);
    SumOfKind(b, kind, n, 0);
    assert Sum(RatesFor(p, u, fast), u) <= Sum(RatesFor(q, u, fast), u);
    ChargeDiffers(0, a.output, a.output);
    ChargeDiffers(0, b.output, b.output);
    ChargeReflects(n, KindRate(a, kind), KindRate(b, kind));
  }

  lemma ChargeReflects(n: nat, a: real, b: real)
    requires n > 0 && Charge(n, a) <= Charge(n, b)
    ensures a <= b
  {
    assert n as real * (b - a) >= 0.0;
  }

  /** Enough output makes a higher output rate show, whatever the prompt. */
  lemma OutputShows(p: ModelPrices, q: ModelPrices, n: nat, fast: bool)
    requires NeverDearer(p, q)
    ensures RatesAt(p, n, fast).output <= RatesAt(q, n, fast).output
  {
    hide Sum, RatesAt, Charge;
    var a, b := RatesAt(p, n, fast), RatesAt(q, n, fast);
    var k := Enough(Charge(n, b.input) - Charge(n, a.input), a.output - b.output);
    var u := OfKind(0, n, k);
    SumOfKind(a, 0, n, k);
    SumOfKind(b, 0, n, k);
    assert Sum(RatesFor(p, u, fast), u) <= Sum(RatesFor(q, u, fast), u);
    ChargeDiffers(k, a.output, b.output);
  }

  /** So many of any positive amount are more than `x`. */
  lemma Enough(x: real, d: real) returns (k: nat)
    ensures d > 0.0 ==> k as real * d > x
  {
    k := 0;
    if d > 0.0 && x >= 0.0 {
      k := (x / d).Floor + 1;
      assert k as real > x / d;
      assert (x / d) * d == x;
      TimesMore(k as real, x / d, d);
    }
  }

  lemma TimesMore(a: real, b: real, d: real)
    requires a > b && d > 0.0
    ensures a * d > b * d
  {
  }

  /** The first size past a model's threshold. */
  function Past(p: ModelPrices): nat {
    if p.longContext.Some? then p.longContext.value.over + 1 else 1
  }

  /** Rates change only past the two thresholds: four sizes decide for all. */
  lemma FourSizesDecide(p: ModelPrices, q: ModelPrices)
    ensures NeverHigher(p, q) <==>
      && (forall fast, n <- {1, Past(p), Past(q)} :: NoneHigher(RatesAt(p, n, fast), RatesAt(q, n, fast)))
      && (forall fast :: RatesAt(p, 0, fast).output <= RatesAt(q, 0, fast).output)
  {
    hide NoneHigher;
    if forall fast, n <- {1, Past(p), Past(q)} :: NoneHigher(RatesAt(p, n, fast), RatesAt(q, n, fast)) {
      forall n: nat, fast | n > 0 ensures NoneHigher(RatesAt(p, n, fast), RatesAt(q, n, fast)) {
        var m := if Past(p) <= n && (Past(q) <= Past(p) || n < Past(q)) then Past(p) else if Past(q) <= n then Past(q) else 1;
        assert RatesAt(p, n, fast) == RatesAt(p, m, fast) && RatesAt(q, n, fast) == RatesAt(q, m, fast);
      }
    }
    assert Past(p) > 0 && Past(q) > 0;
  }

  /** On a book: of two priced models the target never costs more exactly when it is never higher. */
  lemma TargetNeverCostsMore(book: Book, base: BaseOf, target: string, requested: Option<string>)
    requires BaseRates(book, base, Some(target)).Some? && BaseRates(book, base, requested).Some?
    ensures (forall u, fast ::
               Cost(book, base, Some(target), u, fast).value <= Cost(book, base, requested, u, fast).value)
      <==> NeverHigher(Find(book, base, Some(target)).value, Find(book, base, requested).value)
  {
    hide Sum, RatesFor, NeverHigher;
    var p, q := Find(book, base, Some(target)).value, Find(book, base, requested).value;
    NeverDearerExactly(p, q);
    forall u, fast ensures
        Cost(book, base, Some(target), u, fast).value <= Cost(book, base, requested, u, fast).value
        <==> Sum(RatesFor(p, u, fast), u) <= Sum(RatesFor(q, u, fast), u)
    {
      PerMillion(Sum(RatesFor(p, u, fast), u), Sum(RatesFor(q, u, fast), u));
    }
  }

  lemma PerMillion(a: real, b: real)
    ensures a / PER_MILLION <= b / PER_MILLION <==> a <= b
  {
  }

  /** Past a tier's threshold it can cost more: only base rates are compared. */
  lemma CheaperMayCostMoreLong(base: BaseOf)
    requires base("small") == "small" && base("large") == "large"
    ensures exists book: Book, u: Usage ::
      && CostsLess(book, base, "small", Some("large"))
      && Cost(book, base, Some("small"), u, false).value > Cost(book, base, Some("large"), u, false).value
  {
    hide Sum;
    var low, high, over := Rates(1.0, 1.0, 1.0, 1.0, 1.0), Rates(2.0, 2.0, 2.0, 2.0, 2.0), Rates(3.0, 3.0, 3.0, 3.0, 3.0);
    var book: Book := map["small" := ModelPrices(low, Some(Tier(0, over)), None), "large" := ModelPrices(high, None, None)];
    var u := One(0);
    assert Find(book, base, Some("small")) == Some(book["small"]) && Find(book, base, Some("large")) == Some(book["large"]);
    SumOne(over);
    SumOne(high);
    assert CostsLess(book, base, "small", Some("large"));
    assert Cost(book, base, Some("small"), u, false) == Some(Sum(over, u) / PER_MILLION);
  }

  /** In fast mode it can cost more too, with no long prompt at all. */
  lemma CheaperMayCostMoreFast(base: BaseOf)
    requires base("small") == "small" && base("large") == "large"
    ensures exists book: Book, u: Usage ::
      && CostsLess(book, base, "small", Some("large"))
      && Cost(book, base, Some("small"), u, true).value > Cost(book, base, Some("large"), u, true).value
  {
    hide Sum;
    var low, high, fast := Rates(1.0, 1.0, 1.0, 1.0, 1.0), Rates(2.0, 2.0, 2.0, 2.0, 2.0), Rates(3.0, 3.0, 3.0, 3.0, 3.0);
    var book: Book := map["small" := ModelPrices(low, None, Some(fast)), "large" := ModelPrices(high, None, None)];
    var u := One(0);
    assert Find(book, base, Some("small")) == Some(book["small"]) && Find(book, base, Some("large")) == Some(book["large"]);
    SumOne(fast);
    SumOne(high);
    assert CostsLess(book, base, "small", Some("large"));
    assert Cost(book, base, Some("small"), u, true) == Some(Sum(fast, u) / PER_MILLION);
  }
}
