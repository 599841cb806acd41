/**
 * What a run cost, grouped by model (packages/core/src/runtime/cost/run-cost-reporter.service.ts and
 * cost-calculator.service.ts, packages/core/src/domain/cost/model-price.value-object.ts).
 * Money is whole pico dollars, as it is in the source.
 */
module RunCosts {
  import opened Folds
  import opened Options

  type Model = string
  type Pico = nat

  datatype Usage = Usage(input: nat, output: nat, cached: nat, reportsCaching: bool) {
    function Tokens(): nat {
      input + output
    }

    function Plus(other: Usage): Usage {
      Usage(input + other.input, output + other.output, cached + other.cached,
            reportsCaching || other.reportsCaching)
    }
  }

  const NO_USAGE := Usage(0, 0, 0, false)

  function OrElse<T>(first: Option<T>, second: Option<T>): Option<T> {
    if first.Some? then first else second
  }

  function OrRate(declared: Option<Pico>, otherwise: Pico): Pico {
    if declared.Some? then declared.value else otherwise
  }

  // ---------------------------------------------------------------- prices and their bands

  datatype Band = Band(above: nat, input: Option<Pico>, output: Option<Pico>, cacheRead: Option<Pico>)

  datatype Rates = Rates(input: Pico, output: Pico, cacheRead: Option<Pico>)

  function Insert(sorted: seq<Band>, band: Band): seq<Band>
    decreases |sorted|
  {
    if sorted == [] then [band]
    else
      var last := |sorted| - 1;
      if sorted[last].above <= band.above then sorted + [band]
      else Insert(sorted[..last], band) + [sorted[last]]
  }

  /** The bands by their threshold, those of one threshold as they were declared. */
  function Sorted(bands: seq<Band>): seq<Band>
    decreases |bands|
  {
    if bands == [] then [] else Insert(Sorted(bands[..|bands| - 1]), bands[|bands| - 1])
  }

  datatype Price = Price(base: Rates, declared: seq<Band>) {
    function Bands(): seq<Band> {
      Sorted(declared)
    }
  }

  function Override(rates: Rates, band: Band): Rates {
    Rates(OrRate(band.input, rates.input), OrRate(band.output, rates.output), OrElse(band.cacheRead, rates.cacheRead))
  }

  function Resolved(bands: seq<Band>, promptTokens: nat, base: Rates): Rates
    decreases |bands|
  {
    if bands == [] then base
    else
      var before, last := Resolved(bands[..|bands| - 1], promptTokens, base), bands[|bands| - 1];
      if promptTokens > last.above then Override(before, last) else before
  }

  method ResolveRates(price: Price, promptTokens: nat) returns (rates: Rates)
    ensures rates == Resolved(price.Bands(), promptTokens, price.base)
  {
    var bands := price.Bands();
    var input, output, cacheRead := price.base.input, price.base.output, price.base.cacheRead;
    for next := 0 to |bands|
      invariant Rates(input, output, cacheRead) == Resolved(bands[..next], promptTokens, price.base)
    {
      assert bands[..next + 1][..next] == bands[..next];
      var band := bands[next];
      if promptTokens <= band.above {
        continue;
      }
      input := OrRate(band.input, input);
      output := OrRate(band.output, output);
      cacheRead := OrElse(band.cacheRead, cacheRead);
    }
    assert bands[..|bands|] == bands;
    rates := Rates(input, output, cacheRead);
  }

  /** One of the rates a band may declare. */
  datatype Kind = Input | Output | CacheRead

  function Declares(band: Band, kind: Kind): Option<Pico> {
    match kind case Input => band.input case Output => band.output case CacheRead => band.cacheRead
  }

  function Rate(rates: Rates, kind: Kind): Option<Pico> {
    match kind case Input => Some(rates.input) case Output => Some(rates.output) case CacheRead => rates.cacheRead
  }

  predicate Governs(band: Band, promptTokens: nat, kind: Kind) {
    promptTokens > band.above && Declares(band, kind).Some?
  }

  /** A rate is what the highest band that applies and declares it says, and the base rate without one. */
  ghost predicate IsRate(bands: seq<Band>, promptTokens: nat, kind: Kind, base: Rates, rate: Option<Pico>) {
    if forall band :: band in bands ==> !Governs(band, promptTokens, kind) then rate == Rate(base, kind)
    else exists band :: band in bands && Governs(band, promptTokens, kind) && rate == Declares(band, kind)
           && forall other :: other in bands && Governs(other, promptTokens, kind) ==> other.above <= band.above
  }

  ghost predicate Ascending(bands: seq<Band>) {
    forall i, j :: 0 <= i < j < |bands| ==> bands[i].above <= bands[j].above
  }

  lemma {:induction false} InsertHolds(sorted: seq<Band>, band: Band)
    ensures multiset(Insert(sorted, band)) == multiset(sorted) + multiset{band}
    decreases |sorted|
  {
    if sorted != [] {
      var last := |sorted| - 1;
      assert sorted == sorted[..last] + [sorted[last]];
      if sorted[last].above > band.above {
        InsertHolds(sorted[..last], band);
      }
    }
  }

  lemma {:induction false} InsertKeepsOrder(sorted: seq<Band>, band: Band, most: nat)
    requires Ascending(sorted) && band.above <= most
    requires forall i :: 0 <= i < |sorted| ==> sorted[i].above <= most
    ensures Ascending(Insert(sorted, band))
    ensures forall i :: 0 <= i < |Insert(sorted, band)| ==> Insert(sorted, band)[i].above <= most
    decreases |sorted|
  {
    if sorted != [] {
      var last := |sorted| - 1;
      if sorted[last].above > band.above {
        InsertKeepsOrder(sorted[..last], band, sorted[last].above);
      }
    }
  }

  lemma {:induction false} Highest(bands: seq<Band>) returns (highest: nat)
    ensures forall band :: band in bands ==> band.above <= highest
    decreases |bands|
  {
    highest := 0;
    if bands != [] {
      var last := |bands| - 1;
      var before := Highest(bands[..last]);
      highest := if before < bands[last].above then bands[last].above else before;
      assert forall band :: band in bands <==> band in bands[..last] || band == bands[last];
    }
  }

  lemma {:induction false} SortedKeeps(bands: seq<Band>)
    ensures Ascending(Sorted(bands)) && multiset(Sorted(bands)) == multiset(bands)
    decreases |bands|
  {
    if bands != [] {
      var front, last := bands[..|bands| - 1], bands[|bands| - 1];
      var sorted := Sorted(front);
      assert bands == front + [last];
      SortedKeeps(front);
      InsertHolds(sorted, last);
      var highest := HighestOfAll(sorted, front, last);
      InsertKeepsOrder(sorted, last, highest);
    }
  }

  lemma {:induction false} HighestOfAll(sorted: seq<Band>, front: seq<Band>, last: Band) returns (highest: nat)
    requires multiset(sorted) == multiset(front)
    ensures last.above <= highest && forall i :: 0 <= i < |sorted| ==> sorted[i].above <= highest
  {
    var below := Highest(front);
    highest := if below < last.above then last.above else below;
    forall i | 0 <= i < |sorted|
      ensures sorted[i].above <= highest
    {
      assert sorted[i] in multiset(front);
      assert sorted[i] in front;
    }
  }

  lemma {:induction false} OneBandMore(
    front: seq<Band>, last: Band, bands: seq<Band>, promptTokens: nat, kind: Kind, base: Rates, rate: Option<Pico>)
    requires IsRate(front, promptTokens, kind, base, rate)
    requires forall band :: band in front ==> band.above <= last.above
    requires forall band :: band in bands <==> band in front || band == last
    ensures IsRate(bands, promptTokens, kind, base, if Governs(last, promptTokens, kind) then Declares(last, kind) else rate)
  {
    if Governs(last, promptTokens, kind) {
      assert last in bands;
    } else if exists band :: band in front && Governs(band, promptTokens, kind) {
      var band :| band in front && Governs(band, promptTokens, kind) && rate == Declares(band, kind)
        && forall other :: other in front && Governs(other, promptTokens, kind) ==> other.above <= band.above;
      assert band in bands;
    }
  }

  lemma {:induction false} LastBandSpeaks(bands: seq<Band>, promptTokens: nat, base: Rates, kind: Kind)
    requires bands != []
    ensures Rate(Resolved(bands, promptTokens, base), kind) ==
      var last := bands[|bands| - 1];
      if Governs(last, promptTokens, kind) then Declares(last, kind)
      else Rate(Resolved(bands[..|bands| - 1], promptTokens, base), kind)
  {
  }

  lemma {:induction false} ResolvedIsHighest(bands: seq<Band>, promptTokens: nat, base: Rates, kind: Kind)
    requires Ascending(bands)
    ensures IsRate(bands, promptTokens, kind, base, Rate(Resolved(bands, promptTokens, base), kind))
    decreases |bands|
  {
    if bands != [] {
      var front, last := bands[..|bands| - 1], bands[|bands| - 1];
      ResolvedIsHighest(front, promptTokens, base, kind);
      LastBandSpeaks(bands, promptTokens, base, kind);
      OneBandMore(front, last, bands, promptTokens, kind, base, Rate(Resolved(front, promptTokens, base), kind));
    }
  }

  /**
   * Whatever order the bands are declared in, each rate is the one of the highest band that declares it.
   */
  lemma {:induction false} RatesComeFromTheHighestBand(price: Price, promptTokens: nat, kind: Kind)
    ensures IsRate(price.declared, promptTokens, kind, price.base,
      Rate(Resolved(price.Bands(), promptTokens, price.base), kind))
  {
    SortedKeeps(price.declared);
    ResolvedIsHighest(price.Bands(), promptTokens, price.base, kind);
    forall band
      ensures band in price.declared <==> band in price.Bands()
    {
      assert band in price.declared <==> band in multiset(price.declared);
      assert band in price.Bands() <==> band in multiset(price.Bands());
    }
  }

  /** Declared in any other order, bands of different thresholds resolve to the same rates. */
  lemma {:induction false} DeclarationOrderDoesNotMatter(price: Price, other: Price, promptTokens: nat)
    requires price.base == other.base && multiset(price.declared) == multiset(other.declared)
    requires forall some, more :: some in price.declared && more in price.declared && some.above == more.above ==> some == more
    ensures Resolved(price.Bands(), promptTokens, price.base) == Resolved(other.Bands(), promptTokens, other.base)
  {
    var rates, others := Resolved(price.Bands(), promptTokens, price.base), Resolved(other.Bands(), promptTokens, other.base);
    forall band
      ensures band in price.declared <==> band in other.declared
    {
      assert band in price.declared <==> band in multiset(price.declared);
      assert band in other.declared <==> band in multiset(other.declared);
    }
    forall kind: Kind
      ensures Rate(rates, kind) == Rate(others, kind)
    {
      RatesComeFromTheHighestBand(price, promptTokens, kind);
      RatesComeFromTheHighestBand(other, promptTokens, kind);
    }
    assert Rate(rates, Input) == Rate(others, Input) && Rate(rates, Output) == Rate(others, Output)
      && Rate(rates, CacheRead) == Rate(others, CacheRead);
  }

  /** Of two bands with one threshold the one declared later stands, so there the order does matter. */
  lemma {:induction false} LaterOfTwoStands(base: Rates, first: Band, second: Band, promptTokens: nat)
    requires first.above == second.above < promptTokens
    ensures Resolved(Price(base, [first, second]).Bands(), promptTokens, base) == Override(Override(base, first), second)
  {
    var declared: seq<Band> := [first, second];
    assert declared[..1] == [first];
    var one: seq<Band> := [first];
    assert one[..0] == [];
    assert Sorted(one) == one;
    assert Sorted(declared) == declared;
    assert Resolved(one, promptTokens, base) == Override(base, first);
    assert Resolved(declared, promptTokens, base) == Override(Resolved(one, promptTokens, base), second);
  }

  // ---------------------------------------------------------------- one call

  datatype Breakdown = Breakdown(input: Pico, output: Pico, cached: Pico) {
    function Plus(other: Breakdown): Breakdown {
      Breakdown(input + other.input, output + other.output, cached + other.cached)
    }

    function Total(): Pico {
      input + output + cached
    }
  }

  const NO_COST := Breakdown(0, 0, 0)

  function Cached(usage: Usage): nat {
    if usage.cached < usage.input then usage.cached else usage.input
  }

  function CostAt(rates: Rates, usage: Usage): Breakdown {
    Breakdown(rates.input * (usage.input - Cached(usage)),
              rates.output * usage.output,
              OrRate(rates.cacheRead, rates.input) * Cached(usage))
  }

  function CostOf(price: Price, usage: Usage): Breakdown {
    CostAt(Resolved(price.Bands(), usage.input, price.base), usage)
  }

  method CalculateCost(price: Price, usage: Usage) returns (cost: Breakdown)
    ensures cost == CostOf(price, usage)
  {
    var rates := ResolveRates(price, usage.input);
    var cached := Cached(usage);
    var uncached := usage.input - cached;
    cost := Breakdown(rates.input * uncached, rates.output * usage.output, OrRate(rates.cacheRead, rates.input) * cached);
  }

  /**
   * Every token is charged once: the cached ones, of which there are no more than there are tokens in, at
   * the rate for cached tokens, or at that of the others where none is declared; the rest of the input and
   * the output at theirs. So caching costs or saves the cached tokens at the difference of the rates.
   */
  lemma {:induction false} CachingOnlyMovesTheRate(rates: Rates, usage: Usage) returns (cached: nat)
    ensures cached <= usage.input && cached <= usage.cached && (cached == usage.input || cached == usage.cached)
    ensures var cost := CostAt(rates, usage);
      var rate := if rates.cacheRead.Some? then rates.cacheRead.value else rates.input;
      && cost.input == rates.input * (usage.input - cached)
      && cost.output == rates.output * usage.output
      && cost.cached == rate * cached
      && cost.Total() + rates.input * cached
         == rates.input * usage.input + rates.output * usage.output + rate * cached
  {
    cached := Cached(usage);
    assert rates.input * (usage.input - cached) + rates.input * cached == rates.input * usage.input;
  }

  /** A call is charged at the rates of the highest bands below its own prompt, its input, cached tokens and all. */
  lemma {:induction false} CallIsCharged(price: Price, usage: Usage) returns (rates: Rates, cached: nat)
    ensures IsRate(price.declared, usage.input, Input, price.base, Some(rates.input))
    ensures IsRate(price.declared, usage.input, Output, price.base, Some(rates.output))
    ensures IsRate(price.declared, usage.input, CacheRead, price.base, rates.cacheRead)
    ensures cached <= usage.input && cached <= usage.cached && (cached == usage.input || cached == usage.cached)
    ensures var cost := CostOf(price, usage);
      && cost.input == rates.input * (usage.input - cached)
      && cost.output == rates.output * usage.output
      && cost.cached == (if rates.cacheRead.Some? then rates.cacheRead.value else rates.input) * cached
  {
    rates := Resolved(price.Bands(), usage.input, price.base);
    RatesComeFromTheHighestBand(price, usage.input, Input);
    RatesComeFromTheHighestBand(price, usage.input, Output);
    RatesComeFromTheHighestBand(price, usage.input, CacheRead);
    cached := CachingOnlyMovesTheRate(rates, usage);
  }

  // ---------------------------------------------------------------- a run

  datatype Call = Call(model: Model, usage: Usage)

  type Source = Option<Model -> Option<Price>>

  datatype Reason = NoSource | NoUsage | UnknownModel

  datatype Notice = Notice(model: Model, reason: Reason, tokens: nat)

  datatype ModelCost = ModelCost(model: Model, calls: nat, usage: Usage, breakdown: Breakdown) {
    function Including(more: Usage, cost: Breakdown): ModelCost {
      ModelCost(model, calls + 1, usage.Plus(more), breakdown.Plus(cost))
    }
  }

  function NoneOf(model: Model): ModelCost {
    ModelCost(model, 0, NO_USAGE, NO_COST)
  }

  datatype RunCost = RunCost(byModel: seq<ModelCost>, unpriced: seq<Model>)

  function PriceFor(source: Source, call: Call): Option<Price> {
    if call.usage.Tokens() == 0 || source.None? then None else source.value(call.model)
  }

  /** Where a list that keeps its keys distinct holds a model, or its length. */
  function IndexOf(list: seq<ModelCost>, model: Model): (at: nat)
    ensures at <= |list| && (at < |list| ==> list[at].model == model)
    ensures forall i :: 0 <= i < at ==> list[i].model != model
  {
    if list == [] || list[0].model == model then 0 else 1 + IndexOf(list[1..], model)
  }

  function Charged(list: seq<ModelCost>, call: Call, cost: Breakdown): seq<ModelCost> {
    var at := IndexOf(list, call.model);
    if at < |list| then list[at := list[at].Including(call.usage, cost)]
    else list + [NoneOf(call.model).Including(call.usage, cost)]
  }

  /** The priced calls grouped by model, the models in the order they were first charged. */
  function Grouped(source: Source, calls: seq<Call>): seq<ModelCost>
    decreases |calls|
  {
    if calls == [] then []
    else
      var before, last := Grouped(source, calls[..|calls| - 1]), calls[|calls| - 1];
      match PriceFor(source, last)
      case None => before
      case Some(price) => Charged(before, last, CostOf(price, last.usage))
  }

  /** One more call of a run, as far as the model of this entry is concerned. */
  function Billed(source: Source, entry: ModelCost, call: Call): ModelCost {
    match PriceFor(source, call)
    case None => entry
    case Some(price) =>
      if call.model == entry.model then entry.Including(call.usage, CostOf(price, call.usage)) else entry
  }

  /** What one model was charged for, call by call. */
  function Entry(source: Source, calls: seq<Call>, model: Model): ModelCost {
    Folded(Biller(source), NoneOf(model), calls)
  }

  function Biller(source: Source): (ModelCost, Call) -> ModelCost {
    (entry, call) => Billed(source, entry, call)
  }

  function Amount(source: Source, call: Call): Pico {
    match PriceFor(source, call)
    case None => 0
    case Some(price) => CostOf(price, call.usage).Total()
  }

  /** The sum of what the single calls cost. */
  function SumOfCalls(source: Source, calls: seq<Call>): int {
    Folded(Adder(source), 0, calls)
  }

  function Adder(source: Source): (int, Call) -> int {
    (sum, call) => sum + Amount(source, call)
  }

  function PricedCount(source: Source, calls: seq<Call>): nat
    decreases |calls|
  {
    if calls == [] then 0
    else PricedCount(source, calls[..|calls| - 1]) + if PriceFor(source, calls[|calls| - 1]).Some? then 1 else 0
  }

  function Total(list: seq<ModelCost>): Pico
    decreases |list|
  {
    if list == [] then 0 else Total(list[..|list| - 1]) + list[|list| - 1].breakdown.Total()
  }

  function TotalCalls(list: seq<ModelCost>): nat
    decreases |list|
  {
    if list == [] then 0 else TotalCalls(list[..|list| - 1]) + list[|list| - 1].calls
  }

  ghost predicate DistinctModels(list: seq<ModelCost>) {
    forall i, j :: 0 <= i < j < |list| ==> list[i].model != list[j].model
  }

  lemma {:induction false} TotalOfUpdate(list: seq<ModelCost>, at: nat, entry: ModelCost)
    requires at < |list|
    ensures Total(list[at := entry]) + list[at].breakdown.Total() == Total(list) + entry.breakdown.Total()
    ensures TotalCalls(list[at := entry]) + list[at].calls == TotalCalls(list) + entry.calls
    decreases |list|
  {
    var last := |list| - 1;
    if at < last {
      TotalOfUpdate(list[..last], at, entry);
      assert list[at := entry][..last] == list[..last][at := entry];
    } else {
      assert list[at := entry][..last] == list[..last];
    }
  }

  lemma {:induction false} ChargingAdds(list: seq<ModelCost>, call: Call, cost: Breakdown)
    requires DistinctModels(list)
    ensures var next := Charged(list, call, cost);
      && DistinctModels(next)
      && Total(next) == Total(list) + cost.Total() && TotalCalls(next) == TotalCalls(list) + 1
  {
    var at, next := IndexOf(list, call.model), Charged(list, call, cost);
    if at < |list| {
      TotalOfUpdate(list, at, list[at].Including(call.usage, cost));
    } else {
      assert next[..|list|] == list;
    }
  }

  /** Grouping loses and invents nothing: the groups add up to the single calls, and each call is in one. */
  lemma {:induction false} GroupingConserves(source: Source, calls: seq<Call>)
    ensures DistinctModels(Grouped(source, calls))
    ensures Total(Grouped(source, calls)) == SumOfCalls(source, calls)
    ensures TotalCalls(Grouped(source, calls)) == PricedCount(source, calls)
    decreases |calls|
  {
    if calls != [] {
      var front, last := calls[..|calls| - 1], calls[|calls| - 1];
      GroupingConserves(source, front);
      var price := PriceFor(source, last);
      if price.Some? {
        ChargingAdds(Grouped(source, front), last, CostOf(price.value, last.usage));
      }
    }
  }

  /** What a list of groups says of one model. */
  function Held(list: seq<ModelCost>, model: Model): ModelCost {
    var at := IndexOf(list, model);
    if at < |list| then list[at] else NoneOf(model)
  }

  lemma {:induction false} ChargingIsPerModel(list: seq<ModelCost>, call: Call, cost: Breakdown, model: Model)
    requires DistinctModels(list)
    ensures Held(Charged(list, call, cost), model)
      == if call.model == model then Held(list, model).Including(call.usage, cost) else Held(list, model)
  {
    var next, at := Charged(list, call, cost), IndexOf(list, model);
    assert forall i :: 0 <= i < |list| ==> next[i].model == list[i].model;
    if at < |list| {
      IndexIsFirst(next, model, at);
    } else if call.model == model {
      IndexIsFirst(next, model, |list|);
    } else {
      IndexIsFirst(next, model, |next|);
    }
  }

  lemma {:induction false} IndexIsFirst(list: seq<ModelCost>, model: Model, at: nat)
    requires at <= |list| && forall i :: 0 <= i < at ==> list[i].model != model
    requires at < |list| ==> list[at].model == model
    ensures IndexOf(list, model) == at
  {
    var found := IndexOf(list, model);
  }

  /** Each group is exactly what its model was charged for. */
  lemma {:induction false} EachGroupIsItsModel(source: Source, calls: seq<Call>, model: Model)
    ensures Held(Grouped(source, calls), model) == Entry(source, calls, model)
    decreases |calls|
  {
    if calls != [] {
      var front, last := calls[..|calls| - 1], calls[|calls| - 1];
      EachGroupIsItsModel(source, front, model);
      GroupingConserves(source, front);
      var price := PriceFor(source, last);
      if price.Some? {
        ChargingIsPerModel(Grouped(source, front), last, CostOf(price.value, last.usage), model);
      }
    }
  }

  /** A call is priced when it used anything, and the source knows its model. */
  ghost predicate IsPriced(source: Source, call: Call) {
    source.Some? && (call.usage.input > 0 || call.usage.output > 0) && source.value(call.model).Some?
  }

  /** Some number of every priced call of a model, added up. */
  ghost function SumFor(source: Source, calls: seq<Call>, model: Model, number: Call -> nat): nat
    decreases |calls|
  {
    if calls == [] then 0
    else
      var last := calls[|calls| - 1];
      SumFor(source, calls[..|calls| - 1], model, number)
      + if last.model == model && IsPriced(source, last) then number(last) else 0
  }

  function InputOf(call: Call): nat { call.usage.input }
  function OutputOf(call: Call): nat { call.usage.output }
  function CachedOf(call: Call): nat { call.usage.cached }
  function OneEach(call: Call): nat { 1 }

  function CostOfCall(source: Source, call: Call): Breakdown {
    match PriceFor(source, call)
    case None => NO_COST
    case Some(price) => CostOf(price, call.usage)
  }

  function InputCost(source: Source): Call -> nat { (call: Call) => CostOfCall(source, call).input }
  function OutputCost(source: Source): Call -> nat { (call: Call) => CostOfCall(source, call).output }
  function CachedCost(source: Source): Call -> nat { (call: Call) => CostOfCall(source, call).cached }

  /** Every number of a group is that number of its priced calls, added up. */
  lemma {:induction false} GroupsAddUp(source: Source, calls: seq<Call>, model: Model)
    ensures var group := Held(Grouped(source, calls), model);
      && group.model == model
      && group.calls == SumFor(source, calls, model, OneEach)
      && group.usage.input == SumFor(source, calls, model, InputOf)
      && group.usage.output == SumFor(source, calls, model, OutputOf)
      && group.usage.cached == SumFor(source, calls, model, CachedOf)
      && group.breakdown.input == SumFor(source, calls, model, InputCost(source))
      && group.breakdown.output == SumFor(source, calls, model, OutputCost(source))
      && group.breakdown.cached == SumFor(source, calls, model, CachedCost(source))
    decreases |calls|
  {
    if calls != [] {
      var front, last := calls[..|calls| - 1], calls[|calls| - 1];
      GroupsAddUp(source, front, model);
      GroupingConserves(source, front);
      if PriceFor(source, last).Some? {
        ChargingIsPerModel(Grouped(source, front), last, CostOf(PriceFor(source, last).value, last.usage), model);
      }
    }
  }

  /** Neither the total nor any group depends on the order the calls were made in. */
  lemma {:induction false} CallOrderDoesNotMatter(source: Source, calls: seq<Call>, others: seq<Call>, model: Model)
    requires multiset(calls) == multiset(others)
    ensures Total(Grouped(source, calls)) == Total(Grouped(source, others))
    ensures Held(Grouped(source, calls), model) == Held(Grouped(source, others), model)
  {
    GroupingConserves(source, calls);
    GroupingConserves(source, others);
    EachGroupIsItsModel(source, calls, model);
    EachGroupIsItsModel(source, others, model);
    BillingCommutes(source);
    OrderDoesNotMatter(Biller(source), NoneOf(model), calls, others);
    OrderDoesNotMatter(Adder(source), 0, calls, others);
  }

  lemma {:induction false} BillingCommutes(source: Source)
    ensures Commutes(Biller(source)) && Commutes(Adder(source))
  {
    forall entry, x, y
      ensures Biller(source)(Biller(source)(entry, x), y) == Biller(source)(Biller(source)(entry, y), x)
    {
      BilledSwaps(source, entry, x, y);
    }
  }

  lemma {:induction false} BilledSwaps(source: Source, entry: ModelCost, x: Call, y: Call)
    ensures Billed(source, Billed(source, entry, x), y) == Billed(source, Billed(source, entry, y), x)
  {
    var first, second := PriceFor(source, x), PriceFor(source, y);
    if first.Some? && second.Some? {
      IncludingSwaps(entry, x.usage, CostOf(first.value, x.usage), y.usage, CostOf(second.value, y.usage));
    }
  }

  lemma {:induction false} IncludingSwaps(entry: ModelCost, usage: Usage, cost: Breakdown, other: Usage, otherCost: Breakdown)
    ensures entry.Including(usage, cost).Including(other, otherCost) == entry.Including(other, otherCost).Including(usage, cost)
  {
  }

  // ---------------------------------------------------------------- what is left unpriced

  function Adding(models: seq<Model>, model: Model): seq<Model> {
    if model in models then models else models + [model]
  }

  /** The models of some calls, each once, in the order they first come. */
  function Models(calls: seq<Call>): seq<Model>
    decreases |calls|
  {
    if calls == [] then [] else Adding(Models(calls[..|calls| - 1]), calls[|calls| - 1].model)
  }

  method Distinct(calls: seq<Call>) returns (models: seq<Model>)
    ensures models == Models(calls)
  {
    models := [];
    for next := 0 to |calls|
      invariant models == Models(calls[..next])
    {
      assert calls[..next + 1][..next] == calls[..next];
      models := Adding(models, calls[next].model);
    }
    assert calls[..|calls|] == calls;
  }

  lemma {:induction false} ModelsOfExactly(calls: seq<Call>, model: Model)
    ensures model in Models(calls) <==> exists call :: call in calls && call.model == model
    decreases |calls|
  {
    if calls != [] {
      var front, last := calls[..|calls| - 1], calls[|calls| - 1];
      ModelsOfExactly(front, model);
      assert forall call :: call in calls <==> call in front || call == last;
    }
  }

  predicate HasUsage(call: Call) {
    call.usage.Tokens() > 0
  }

  function Filtered(calls: seq<Call>, keep: Call -> bool): seq<Call>
    decreases |calls|
  {
    if calls == [] then []
    else
      var last := calls[|calls| - 1];
      Filtered(calls[..|calls| - 1], keep) + if keep(last) then [last] else []
  }

  predicate HasNoUsage(call: Call) {
    !HasUsage(call)
  }

  function IsUnknown(source: Source): Call -> bool {
    (call: Call) => FindPrice(source, call.model).None?
  }

  /** The calls that stay out of the total: those without usage first, then those of unknown models. */
  function Unpriced(source: Source, calls: seq<Call>): seq<Call> {
    if source.None? then calls
    else Filtered(calls, HasNoUsage) + Filtered(Filtered(calls, HasUsage), IsUnknown(source))
  }

  function NoticeOf(source: Source, call: Call): Notice {
    Notice(call.model,
      if source.None? then NoSource else if HasUsage(call) then UnknownModel else NoUsage, call.usage.Tokens())
  }

  function Notices(source: Source, calls: seq<Call>): seq<Notice>
    ensures |Notices(source, calls)| == |calls|
    decreases |calls|
  {
    if calls == [] then []
    else Notices(source, calls[..|calls| - 1]) + [NoticeOf(source, calls[|calls| - 1])]
  }

  function FindPrice(source: Source, model: Model): Option<Price> {
    if source.None? then None else source.value(model)
  }

  /** One question to the source for each model. */
  method FindPrices(source: Source, calls: seq<Call>) returns (prices: map<Model, Option<Price>>)
    ensures forall call :: call in calls ==> call.model in prices
    ensures forall model :: model in prices ==> prices[model] == FindPrice(source, model)
  {
    prices := map[];
    var models := Distinct(calls);
    for next := 0 to |models|
      invariant forall i :: 0 <= i < next ==> models[i] in prices
      invariant forall model :: model in prices ==> prices[model] == FindPrice(source, model)
    {
      prices := prices[models[next] := FindPrice(source, models[next])];
    }
    forall call | call in calls
      ensures call.model in prices
    {
      ModelsOfExactly(calls, call.model);
    }
  }

  lemma {:induction false} OneUnpricedMore(source: Source, calls: seq<Call>, call: Call)
    ensures Models(calls + [call]) == Adding(Models(calls), call.model)
    ensures Notices(source, calls + [call]) == Notices(source, calls) + [NoticeOf(source, call)]
  {
    assert (calls + [call])[..|calls|] == calls;
  }

  lemma {:induction false} FilteredGoesOn(calls: seq<Call>, at: nat, keep: Call -> bool)
    requires at < |calls|
    ensures Filtered(calls[..at + 1], keep)
      == if keep(calls[at]) then Filtered(calls[..at], keep) + [calls[at]] else Filtered(calls[..at], keep)
  {
    assert calls[..at + 1][..at] == calls[..at];
  }

  lemma {:induction false} LastFiltered(calls: seq<Call>, keep: Call -> bool)
    requires calls != []
    ensures var front, last := calls[..|calls| - 1], calls[|calls| - 1];
      Filtered(calls, keep) == if keep(last) then Filtered(front, keep) + [last] else Filtered(front, keep)
  {
  }

  /** The calls that can be billed; the others are reported and their models set aside. */
  method SetAside(source: Source, calls: seq<Call>) returns (billable: seq<Call>, unpriced: seq<Model>, notices: seq<Notice>)
    requires source.Some?
    ensures billable == Filtered(calls, HasUsage)
    ensures unpriced == Models(Filtered(calls, HasNoUsage)) && notices == Notices(source, Filtered(calls, HasNoUsage))
  {
    billable, unpriced, notices := [], [], [];
    for next := 0 to |calls|
      invariant billable == Filtered(calls[..next], HasUsage)
      invariant unpriced == Models(Filtered(calls[..next], HasNoUsage))
      invariant notices == Notices(source, Filtered(calls[..next], HasNoUsage))
    {
      var call := calls[next];
      FilteredGoesOn(calls, next, HasUsage);
      FilteredGoesOn(calls, next, HasNoUsage);
      if HasUsage(call) {
        billable := billable + [call];
        continue;
      }
      OneUnpricedMore(source, Filtered(calls[..next], HasNoUsage), call);
      notices := notices + [Notice(call.model, NoUsage, call.usage.Tokens())];
      unpriced := Adding(unpriced, call.model);
    }
    assert calls[..|calls|] == calls;
  }

  method Charge(source: Source, billable: seq<Call>, prices: map<Model, Option<Price>>, ghost aside: seq<Call>,
    unpricedBefore: seq<Model>, noticesBefore: seq<Notice>)
    returns (byModel: seq<ModelCost>, unpriced: seq<Model>, notices: seq<Notice>)
    requires source.Some? && forall call :: call in billable ==> HasUsage(call) && call.model in prices
    requires forall model :: model in prices ==> prices[model] == FindPrice(source, model)
    requires unpricedBefore == Models(aside) && noticesBefore == Notices(source, aside)
    ensures byModel == Grouped(source, billable)
    ensures unpriced == Models(aside + Filtered(billable, IsUnknown(source)))
    ensures notices == Notices(source, aside + Filtered(billable, IsUnknown(source)))
  {
    byModel, unpriced, notices := [], unpricedBefore, noticesBefore;
    ghost var left := aside;
    for next := 0 to |billable|
      invariant left == Left(source, aside, billable[..next]) && byModel == Grouped(source, billable[..next])
      invariant unpriced == Models(left) && notices == Notices(source, left)
    {
      var call := billable[next];
      LeftGoesOn(source, aside, billable, next);
      var price := prices[call.model];
      if price.None? {
        OneUnpricedMore(source, left, call);
        notices := notices + [Notice(call.model, UnknownModel, call.usage.Tokens())];
        unpriced := Adding(unpriced, call.model);
        left := left + [call];
        continue;
      }
      var cost := CalculateCost(price.value, call.usage);
      byModel := Charged(byModel, call, cost);
    }
    assert billable[..|billable|] == billable;
  }

  function Left(source: Source, aside: seq<Call>, billable: seq<Call>): seq<Call> {
    aside + Filtered(billable, IsUnknown(source))
  }

  lemma {:induction false} LeftGoesOn(source: Source, aside: seq<Call>, billable: seq<Call>, at: nat)
    requires source.Some? && at < |billable| && HasUsage(billable[at])
    ensures var call := billable[at];
      match FindPrice(source, call.model)
      case None =>
        && Left(source, aside, billable[..at + 1]) == Left(source, aside, billable[..at]) + [call]
        && Grouped(source, billable[..at + 1]) == Grouped(source, billable[..at])
      case Some(price) =>
        && Left(source, aside, billable[..at + 1]) == Left(source, aside, billable[..at])
        && Grouped(source, billable[..at + 1])
             == Charged(Grouped(source, billable[..at]), call, CostOf(price, call.usage))
  {
    FilteredGoesOn(billable, at, IsUnknown(source));
    assert billable[..at + 1][..at] == billable[..at];
  }

  lemma {:induction false} UnusedCallsCostNothing(source: Source, calls: seq<Call>)
    ensures Grouped(source, Filtered(calls, HasUsage)) == Grouped(source, calls)
    decreases |calls|
  {
    if calls != [] {
      var front, last := calls[..|calls| - 1], calls[|calls| - 1];
      UnusedCallsCostNothing(source, front);
      LastFiltered(calls, HasUsage);
      var kept := Filtered(front, HasUsage);
      assert (kept + [last])[..|kept|] == kept;
    }
  }

  lemma {:induction false} FilteredKeeps(calls: seq<Call>, keep: Call -> bool)
    ensures forall call :: call in Filtered(calls, keep) <==> call in calls && keep(call)
    decreases |calls|
  {
    if calls != [] {
      FilteredKeeps(calls[..|calls| - 1], keep);
      assert forall call :: call in calls <==> call in calls[..|calls| - 1] || call == calls[|calls| - 1];
    }
  }

  method Report(source: Source, calls: seq<Call>) returns (cost: RunCost, notices: seq<Notice>)
    ensures cost.byModel == Grouped(source, calls)
    ensures cost.unpriced == Models(Unpriced(source, calls)) && notices == Notices(source, Unpriced(source, calls))
  {
    notices := [];
    if calls == [] {
      return RunCost([], []), [];
    }
    if source.None? {
      for next := 0 to |calls|
        invariant notices == Notices(source, calls[..next])
      {
        assert calls[..next + 1][..next] == calls[..next];
        notices := notices + [Notice(calls[next].model, NoSource, calls[next].usage.Tokens())];
      }
      assert calls[..|calls|] == calls;
      var models := Distinct(calls);
      NothingWithoutSource(calls);
      return RunCost([], models), notices;
    }
    var billable, unpriced, reported := SetAside(source, calls);
    UnusedCallsCostNothing(source, calls);
    FilteredKeeps(calls, HasUsage);
    if billable == [] {
      assert Unpriced(source, calls) == Filtered(calls, HasNoUsage);
      return RunCost([], unpriced), reported;
    }
    var prices := FindPrices(source, billable);
    var byModel;
    byModel, unpriced, notices := Charge(source, billable, prices, Filtered(calls, HasNoUsage), unpriced, reported);
    cost := RunCost(byModel, unpriced);
  }

  lemma {:induction false} NothingWithoutSource(calls: seq<Call>)
    ensures Grouped(None, calls) == []
    decreases |calls|
  {
    if calls != [] {
      NothingWithoutSource(calls[..|calls| - 1]);
    }
  }

  lemma {:induction false} FilteredCount(calls: seq<Call>, source: Source)
    requires source.Some?
    ensures PricedCount(source, calls) + |Filtered(calls, HasNoUsage)|
      + |Filtered(Filtered(calls, HasUsage), IsUnknown(source))| == |calls|
    decreases |calls|
  {
    if calls != [] {
      var front, last := calls[..|calls| - 1], calls[|calls| - 1];
      FilteredCount(front, source);
      LastFiltered(calls, HasUsage);
      LastFiltered(calls, HasNoUsage);
      if HasUsage(last) {
        var billable := Filtered(calls, HasUsage);
        assert billable[..|billable| - 1] == Filtered(front, HasUsage);
        LastFiltered(billable, IsUnknown(source));
      }
    }
  }

  lemma {:induction false} NoneCountedWithoutSource(calls: seq<Call>)
    ensures PricedCount(None, calls) == 0
    decreases |calls|
  {
    if calls != [] {
      NoneCountedWithoutSource(calls[..|calls| - 1]);
    }
  }

  /**
   * Every call is either in exactly one group or reported once, its model listed as unpriced; and the
   * cost is complete exactly when every call could be priced.
   */
  lemma {:induction false} EveryCallIsPricedOrReported(source: Source, calls: seq<Call>)
    ensures TotalCalls(Grouped(source, calls)) + |Unpriced(source, calls)| == |calls|
    ensures forall call :: call in Unpriced(source, calls) <==> call in calls && PriceFor(source, call).None?
    ensures forall call :: call in Unpriced(source, calls) <==> call in calls && !IsPriced(source, call)
    ensures Models(Unpriced(source, calls)) == [] <==> forall call :: call in calls ==> PriceFor(source, call).Some?
  {
    GroupingConserves(source, calls);
    if source.None? {
      NoneCountedWithoutSource(calls);
    } else {
      FilteredCount(calls, source);
    }
    UnpricedExactly(source, calls);
    var unpriced := Unpriced(source, calls);
    if unpriced != [] {
      assert unpriced[0] in unpriced;
      ModelsOfExactly(unpriced, unpriced[0].model);
    }
  }

  /** The notices are those of the unpriced calls, in their order: which model, why, and how many tokens. */
  lemma {:induction false} NoticesTell(source: Source, calls: seq<Call>, at: nat)
    requires at < |calls|
    ensures var notice, usage := Notices(source, calls)[at], calls[at].usage;
      && notice.model == calls[at].model && notice.tokens == usage.input + usage.output
      && notice.reason ==
        (if source.None? then NoSource else if usage.input == 0 && usage.output == 0 then NoUsage else UnknownModel)
    decreases |calls|
  {
    if at < |calls| - 1 {
      NoticesTell(source, calls[..|calls| - 1], at);
    }
  }

  lemma {:induction false} UnpricedExactly(source: Source, calls: seq<Call>)
    ensures forall call :: call in Unpriced(source, calls) <==> call in calls && PriceFor(source, call).None?
  {
    if source.Some? {
      FilteredKeeps(calls, HasNoUsage);
      FilteredKeeps(calls, HasUsage);
      FilteredKeeps(Filtered(calls, HasUsage), IsUnknown(source));
    }
  }
}
