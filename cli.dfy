/**
 * The parts of `HdrHistogramCLI` behind the `test` command: validating the
 * count, assembling the supplier from the options, generating `count`
 * values, and the dispatch of `testMerge` to a comparator.
 *
 * A consumer that `processX` pushes values into is modelled by returning
 * the values, in generation order; the caller then feeds them to the
 * comparator. Nothing is lost by this: a comparator with a non-zero batch
 * size never fails and never touches the random source.
 */
module Cli {
  import opened Wrappers
  import opened JavaArith
  import opened RandomSource
  import opened Events
  import opened Supplier
  import opened MergeCompare

  datatype HistType = INT | LONG | DOUBLE

  /** The parsed command line: `-s`, `-b`, `-e ...`, `-t` and the count. */
  datatype Options = Options(
    seed: Option<int>,
    baseOption: Option<EventProbability>,
    eventsOption: seq<EventProbability>,
    histType: HistType,
    count: int)

  datatype CliError =
    | CountBelowOne   // the ParameterException of validate
    | NegativeLimit   // the IllegalArgumentException of Stream.limit
    | NullBase        // the NullPointerException of the first draw without -b
    | Exhausted       // a retry loop ran out of fuel

  /** `validate()`: the count must be at least 1. */
  function Validate(count: int): (r: Outcome<CliError>)
    ensures r.Pass? <==> count >= 1
    ensures r.Fail? ==> r.error == CountBelowOne
  {
    if count < 1 then Fail(CountBelowOne) else Pass
  }

  /** The list `getProbabilitySupplier` builds: `add(baseOption)`, then `addAll(eventsOption)`. */
  function EventList(base: EventProbability, events: seq<EventProbability>): (list: seq<EventProbability>)
    ensures |list| == |events| + 1 && list[0] == base && list[1..] == events
  {
    [base] + events
  }

  /** The random stream a new supplier draws from: the seeded one iff a seed is given. */
  function StartStream(seed: Option<int>, entropy: Stream, seeding: int -> Stream): (s: Stream)
    ensures seed.Some? ==> s == seeding(seed.value)
    ensures seed.None? ==> s == entropy
  {
    match seed
    case Some(v) => seeding(v)
    case None => entropy
  }

  /** `getProbabilitySupplier()`, given the base event (see `NullBase` for a missing one). */
  method GetProbabilitySupplier(o: Options, base: EventProbability, entropy: Stream, seeding: int -> Stream)
    returns (supplier: ProbabilitySupplier)
    ensures fresh(supplier) && fresh(supplier.random)
    ensures supplier.eventProbabilities == EventList(base, o.eventsOption)
    ensures supplier.random.stream == StartStream(o.seed, entropy, seeding) && supplier.random.pos == 0
  {
    var eventProbabilities := [base];
    eventProbabilities := eventProbabilities + o.eventsOption;
    if o.seed.None? {
      supplier := new ProbabilitySupplier(eventProbabilities, entropy);
    } else {
      supplier := new ProbabilitySupplier.Seeded(eventProbabilities, o.seed.value, entropy, seeding);
    }
  }

  // ---------------------------------------------------------------------
  // Generating `count` values

  /** Values generated in order, and the stream position reached. */
  datatype Batch<T> = Batch(values: seq<T>, next: nat)

  /** `n` successive `getAsInt` / `getAsLong` calls on one supplier. */
  function GenerateFixed(w: Width, events: seq<EventProbability>, s: Stream, pos: nat, n: nat, fuel: nat): (r: Option<Batch<int>>)
    ensures r.Some? ==> |r.value.values| == n && r.value.next >= pos
    decreases n
  {
    if n == 0 then Some(Batch([], pos))
    else
      match RetryFixed(w, events, s, pos, 0, fuel, fuel)
      case None => None
      case Some(x) =>
        match GenerateFixed(w, events, s, x.next, n - 1, fuel)
        case None => None
        case Some(rest) => Some(Batch([x.acc] + rest.values, rest.next))
  }

  /** `n` successive `getAsDouble` calls on one supplier. */
  function GenerateDouble(events: seq<EventProbability>, s: Stream, pos: nat, n: nat, fuel: nat): (r: Option<Batch<real>>)
    ensures r.Some? ==> |r.value.values| == n && r.value.next >= pos
    decreases n
  {
    if n == 0 then Some(Batch([], pos))
    else
      match RetryDouble(events, s, pos, 0.0, fuel)
      case None => None
      case Some(x) =>
        match GenerateDouble(events, s, x.next, n - 1, fuel)
        case None => None
        case Some(rest) => Some(Batch([x.acc] + rest.values, rest.next))
  }

  /** Records values generated before those of `b`. */
  function PrependValues<T>(values: seq<T>, b: Option<Batch<T>>): Option<Batch<T>>
  {
    match b
    case None => None
    case Some(x) => Some(Batch(values + x.values, x.next))
  }

  lemma PrependValuesNothing<T>(b: Option<Batch<T>>)
    ensures PrependValues([], b) == b
  {
    assert b.Some? ==> [] + b.value.values == b.value.values;
  }

  lemma PrependValuesDone<T>(values: seq<T>, pos: nat)
    ensures PrependValues(values, Some(Batch([], pos))) == Some(Batch(values, pos))
  {
    assert values + [] == values;
  }

  /** One call of `getAsInt` / `getAsLong` that finishes with `x`, followed by the remaining `n - 1`. */
  lemma GenerateFixedAdvance(w: Width, events: seq<EventProbability>, s: Stream, pos: nat, n: nat, fuel: nat,
                             values: seq<int>, x: Round<int>)
    requires n > 0 && RetryFixed(w, events, s, pos, 0, fuel, fuel) == Some(x)
    ensures PrependValues(values, GenerateFixed(w, events, s, pos, n, fuel))
         == PrependValues(values + [x.acc], GenerateFixed(w, events, s, x.next, n - 1, fuel))
  {
    var b := GenerateFixed(w, events, s, x.next, n - 1, fuel);
    assert b.Some? ==> values + ([x.acc] + b.value.values) == (values + [x.acc]) + b.value.values;
  }

  /** One call of `getAsInt` / `getAsLong` that runs out of fuel ends the generation. */
  lemma GenerateFixedStop(w: Width, events: seq<EventProbability>, s: Stream, pos: nat, n: nat, fuel: nat)
    requires n > 0 && RetryFixed(w, events, s, pos, 0, fuel, fuel).None?
    ensures GenerateFixed(w, events, s, pos, n, fuel).None?
  {
  }

  /** One call of `getAsDouble` that finishes with `x`, followed by the remaining `n - 1`. */
  lemma GenerateDoubleAdvance(events: seq<EventProbability>, s: Stream, pos: nat, n: nat, fuel: nat,
                              values: seq<real>, x: Round<real>)
    requires n > 0 && RetryDouble(events, s, pos, 0.0, fuel) == Some(x)
    ensures PrependValues(values, GenerateDouble(events, s, pos, n, fuel))
         == PrependValues(values + [x.acc], GenerateDouble(events, s, x.next, n - 1, fuel))
  {
    var b := GenerateDouble(events, s, x.next, n - 1, fuel);
    assert b.Some? ==> values + ([x.acc] + b.value.values) == (values + [x.acc]) + b.value.values;
  }

  /** One call of `getAsDouble` that runs out of fuel ends the generation. */
  lemma GenerateDoubleStop(events: seq<EventProbability>, s: Stream, pos: nat, n: nat, fuel: nat)
    requires n > 0 && RetryDouble(events, s, pos, 0.0, fuel).None?
    ensures GenerateDouble(events, s, pos, n, fuel).None?
  {
  }

  /** Generating `n` values yields exactly `n` values, each in (0, MAX_VALUE]. */
  lemma {:induction false} GenerateFixedValues(w: Width, events: seq<EventProbability>, s: Stream, pos: nat, n: nat, fuel: nat)
    requires GenerateFixed(w, events, s, pos, n, fuel).Some?
    ensures var b := GenerateFixed(w, events, s, pos, n, fuel).value;
            |b.values| == n && forall i :: 0 <= i < n ==> 0 < b.values[i] <= MaxValue(w)
    decreases n
  {
    if n > 0 {
      var x := RetryFixed(w, events, s, pos, 0, fuel, fuel).value;
      RetryFixedSum(w, events, s, pos, 0, fuel, fuel, x);
      var rest := GenerateFixed(w, events, s, x.next, n - 1, fuel).value;
      GenerateFixedValues(w, events, s, x.next, n - 1, fuel);
      var values := [x.acc] + rest.values;
      assert GenerateFixed(w, events, s, pos, n, fuel).value.values == values;
      forall i | 0 <= i < n ensures 0 < values[i] <= MaxValue(w) {
        if i > 0 {
          assert values[i] == rest.values[i - 1];
        }
      }
    }
  }

  /** Generating `n` doubles yields exactly `n` values, each strictly positive. */
  lemma {:induction false} GenerateDoubleValues(events: seq<EventProbability>, s: Stream, pos: nat, n: nat, fuel: nat)
    requires GenerateDouble(events, s, pos, n, fuel).Some?
    ensures var b := GenerateDouble(events, s, pos, n, fuel).value;
            |b.values| == n && forall i :: 0 <= i < n ==> b.values[i] > 0.0
    decreases n
  {
    if n > 0 {
      var x := RetryDouble(events, s, pos, 0.0, fuel).value;
      RetryDoubleSum(events, s, pos, 0.0, fuel, x);
      var rest := GenerateDouble(events, s, x.next, n - 1, fuel).value;
      GenerateDoubleValues(events, s, x.next, n - 1, fuel);
      var values := [x.acc] + rest.values;
      assert GenerateDouble(events, s, pos, n, fuel).value.values == values;
      forall i | 0 <= i < n ensures values[i] > 0.0 {
        if i > 0 {
          assert values[i] == rest.values[i - 1];
        }
      }
    }
  }

  /** With a seed, the generated values do not depend on the unseeded entropy. */
  lemma SeededGenerationIgnoresEntropy(o: Options, base: EventProbability, e1: Stream, e2: Stream,
                                       seeding: int -> Stream, w: Width, n: nat, fuel: nat)
    requires o.seed.Some?
    ensures GenerateFixed(w, EventList(base, o.eventsOption), StartStream(o.seed, e1, seeding), 0, n, fuel)
         == GenerateFixed(w, EventList(base, o.eventsOption), StartStream(o.seed, e2, seeding), 0, n, fuel)
    ensures GenerateDouble(EventList(base, o.eventsOption), StartStream(o.seed, e1, seeding), 0, n, fuel)
         == GenerateDouble(EventList(base, o.eventsOption), StartStream(o.seed, e2, seeding), 0, n, fuel)
  {
  }

  /** The supplier call the stream makes: `getAsInt` for an `IntStream`, `getAsLong` for a `LongStream`. */
  method NextFixed(supplier: ProbabilitySupplier, w: Width, fuel: nat) returns (v: Option<int>)
    modifies supplier.random
    ensures supplier.random.stream == old(supplier.random.stream)
    ensures var x := RetryFixed(w, supplier.eventProbabilities, old(supplier.random.stream), old(supplier.random.pos), 0, fuel, fuel);
            v == Accumulated(x) && (x.Some? ==> supplier.random.pos == x.value.next)
  {
    if w == Int32 {
      v := supplier.GetAsInt(fuel);
    } else {
      v := supplier.GetAsLong(fuel);
    }
  }

  /**
   * `IntStream.generate(supplier).limit(n)` / `LongStream...`, consumed in
   * order: `n` supplier calls, stopping at the first that runs out of fuel.
   */
  method StreamFixed(supplier: ProbabilitySupplier, w: Width, n: nat, fuel: nat) returns (r: Option<seq<int>>)
    modifies supplier.random
    ensures var g := GenerateFixed(w, supplier.eventProbabilities, old(supplier.random.stream), old(supplier.random.pos), n, fuel);
            r == if g.None? then None else Some(g.value.values)
  {
    ghost var events, s, start := supplier.eventProbabilities, supplier.random.stream, supplier.random.pos;
    var values: seq<int> := [];
    var i := 0;
    ghost var all := GenerateFixed(w, events, s, start, n, fuel);
    ghost var pos, rest := start, n;
    PrependValuesNothing(all);
    while i < n
      invariant 0 <= i <= n && rest == n - i
      invariant supplier.random.stream == s && supplier.random.pos == pos
      invariant all == PrependValues(values, GenerateFixed(w, events, s, pos, rest, fuel))
      decreases n - i
    {
      ghost var x := RetryFixed(w, events, s, pos, 0, fuel, fuel);
      var v := NextFixed(supplier, w, fuel);
      if v.None? {
        GenerateFixedStop(w, events, s, pos, rest, fuel);
        return None;
      }
      GenerateFixedAdvance(w, events, s, pos, rest, fuel, values, x.value);
      values := values + [v.value];
      i := i + 1;
      pos, rest := x.value.next, rest - 1;
    }
    PrependValuesDone(values, pos);
    r := Some(values);
  }

  /** `DoubleStream.generate(supplier).limit(n)`, consumed in order. */
  method StreamDouble(supplier: ProbabilitySupplier, n: nat, fuel: nat) returns (r: Option<seq<real>>)
    modifies supplier.random
    ensures var g := GenerateDouble(supplier.eventProbabilities, old(supplier.random.stream), old(supplier.random.pos), n, fuel);
            r == if g.None? then None else Some(g.value.values)
  {
    ghost var events, s, start := supplier.eventProbabilities, supplier.random.stream, supplier.random.pos;
    var values: seq<real> := [];
    var i := 0;
    ghost var all := GenerateDouble(events, s, start, n, fuel);
    ghost var pos, rest := start, n;
    PrependValuesNothing(all);
    while i < n
      invariant 0 <= i <= n && rest == n - i
      invariant supplier.random.stream == s && supplier.random.pos == pos
      invariant all == PrependValues(values, GenerateDouble(events, s, pos, rest, fuel))
      decreases n - i
    {
      ghost var x := RetryDouble(events, s, pos, 0.0, fuel);
      var v := supplier.GetAsDouble(fuel);
      if v.None? {
        GenerateDoubleStop(events, s, pos, rest, fuel);
        return None;
      }
      GenerateDoubleAdvance(events, s, pos, rest, fuel, values, x.value);
      values := values + [v.value];
      i := i + 1;
      pos, rest := x.value.next, rest - 1;
    }
    PrependValuesDone(values, pos);
    r := Some(values);
  }

  /**
   * The shared shape of `processInt` and `processLong`:
   * `XStream.generate(supplier).limit(count)` over one fresh supplier.
   */
  method ProcessFixed(o: Options, w: Width, entropy: Stream, seeding: int -> Stream, fuel: nat)
    returns (r: Result<seq<int>, CliError>)
    ensures o.count < 0 ==> r == Failure(NegativeLimit)
    ensures o.count == 0 ==> r == Success([])
    ensures o.count > 0 && o.baseOption.None? ==> r == Failure(NullBase)
    ensures o.count > 0 && o.baseOption.Some? ==>
              var g := GenerateFixed(w, EventList(o.baseOption.value, o.eventsOption),
                                     StartStream(o.seed, entropy, seeding), 0, o.count, fuel);
              r == if g.None? then Failure(Exhausted) else Success(g.value.values)
    ensures r.Success? ==> |r.value| == o.count && forall i :: 0 <= i < |r.value| ==> 0 < r.value[i] <= MaxValue(w)
  {
    if o.count < 0 {
      return Failure(NegativeLimit);
    }
    if o.count == 0 {
      return Success([]);
    }
    if o.baseOption.None? {
      return Failure(NullBase);
    }
    var supplier := GetProbabilitySupplier(o, o.baseOption.value, entropy, seeding);
    var values := StreamFixed(supplier, w, o.count, fuel);
    if values.None? {
      return Failure(Exhausted);
    }
    GenerateFixedValues(w, supplier.eventProbabilities, StartStream(o.seed, entropy, seeding), 0, o.count, fuel);
    r := Success(values.value);
  }

  /** `processInt(consumer)`: `count` values of `getAsInt`. */
  method ProcessInt(o: Options, entropy: Stream, seeding: int -> Stream, fuel: nat) returns (r: Result<seq<int>, CliError>)
    ensures o.count < 0 ==> r == Failure(NegativeLimit)
    ensures o.count == 0 ==> r == Success([])
    ensures o.count > 0 && o.baseOption.None? ==> r == Failure(NullBase)
    ensures o.count > 0 && o.baseOption.Some? ==>
              var g := GenerateFixed(Int32, EventList(o.baseOption.value, o.eventsOption),
                                     StartStream(o.seed, entropy, seeding), 0, o.count, fuel);
              r == if g.None? then Failure(Exhausted) else Success(g.value.values)
    ensures r.Success? ==> |r.value| == o.count && forall i :: 0 <= i < |r.value| ==> 0 < r.value[i] <= MaxValue(Int32)
  {
    r := ProcessFixed(o, Int32, entropy, seeding, fuel);
  }

  /** `processLong(consumer)`: `count` values of `getAsLong`. */
  method ProcessLong(o: Options, entropy: Stream, seeding: int -> Stream, fuel: nat) returns (r: Result<seq<int>, CliError>)
    ensures o.count < 0 ==> r == Failure(NegativeLimit)
    ensures o.count == 0 ==> r == Success([])
    ensures o.count > 0 && o.baseOption.None? ==> r == Failure(NullBase)
    ensures o.count > 0 && o.baseOption.Some? ==>
              var g := GenerateFixed(Int64, EventList(o.baseOption.value, o.eventsOption),
                                     StartStream(o.seed, entropy, seeding), 0, o.count, fuel);
              r == if g.None? then Failure(Exhausted) else Success(g.value.values)
    ensures r.Success? ==> |r.value| == o.count && forall i :: 0 <= i < |r.value| ==> 0 < r.value[i] <= MaxValue(Int64)
  {
    r := ProcessFixed(o, Int64, entropy, seeding, fuel);
  }

  /** `processDouble(consumer)`: `count` values of `getAsDouble`. */
  method ProcessDouble(o: Options, entropy: Stream, seeding: int -> Stream, fuel: nat) returns (r: Result<seq<real>, CliError>)
    ensures o.count < 0 ==> r == Failure(NegativeLimit)
    ensures o.count == 0 ==> r == Success([])
    ensures o.count > 0 && o.baseOption.None? ==> r == Failure(NullBase)
    ensures o.count > 0 && o.baseOption.Some? ==>
              var g := GenerateDouble(EventList(o.baseOption.value, o.eventsOption),
                                      StartStream(o.seed, entropy, seeding), 0, o.count, fuel);
              r == if g.None? then Failure(Exhausted) else Success(g.value.values)
    ensures r.Success? ==> |r.value| == o.count && forall i :: 0 <= i < |r.value| ==> r.value[i] > 0.0
  {
    if o.count < 0 {
      return Failure(NegativeLimit);
    }
    if o.count == 0 {
      return Success([]);
    }
    if o.baseOption.None? {
      return Failure(NullBase);
    }
    var supplier := GetProbabilitySupplier(o, o.baseOption.value, entropy, seeding);
    var values := StreamDouble(supplier, o.count, fuel);
    if values.None? {
      return Failure(Exhausted);
    }
    GenerateDoubleValues(supplier.eventProbabilities, StartStream(o.seed, entropy, seeding), 0, o.count, fuel);
    r := Success(values.value);
  }

  /** The consumer `comparator::accrue`, applied to every generated value in order. */
  method AccrueAll<T(==)>(comparator: HistogramCompare<T>, values: seq<T>)
    requires comparator.Valid() && comparator.batchSize != 0
    modifies comparator.Repr
    ensures comparator.Valid() && fresh(comparator.Repr - old(comparator.Repr))
    ensures comparator.allHistogram.contents == old(comparator.allHistogram.contents) + multiset(values)
    ensures comparator.valueCount == old(comparator.valueCount) + |values|
  {
    var i := 0;
    while i < |values|
      invariant 0 <= i <= |values|
      invariant comparator.Valid() && fresh(comparator.Repr - old(comparator.Repr))
      invariant comparator.allHistogram.contents == old(comparator.allHistogram.contents) + multiset(values[..i])
      invariant comparator.valueCount == old(comparator.valueCount) + i
      decreases |values| - i
    {
      var outcome := comparator.Accrue(values[i]);
      assert outcome.Pass?;
      assert values[..i + 1] == values[..i] + [values[i]];
      i := i + 1;
    }
    assert values[..i] == values;
  }

  /**
   * Whether generation for `testMerge` finishes within the fuel: INT and
   * LONG both generate with `processLong`, DOUBLE with `processDouble`.
   */
  ghost predicate MergeInputCompletes(o: Options, base: EventProbability, entropy: Stream, seeding: int -> Stream, fuel: nat)
    requires o.count >= 0
  {
    var events, s := EventList(base, o.eventsOption), StartStream(o.seed, entropy, seeding);
    match o.histType
    case INT => GenerateFixed(Int64, events, s, 0, o.count, fuel).Some?
    case LONG => GenerateFixed(Int64, events, s, 0, o.count, fuel).Some?
    case DOUBLE => GenerateDouble(events, s, 0, o.count, fuel).Some?
  }

  /**
   * One arm of `testMerge` for INT and LONG: a fresh comparator with the
   * default batch size fed by `processLong`, then `compare()`. The
   * `IntHistogramCompare` of the INT arm and the `LongHistogramCompare` of
   * the LONG arm are the same comparator here.
   */
  method MergeLongValues(o: Options, entropy: Stream, seeding: int -> Stream, fuel: nat) returns (r: Result<bool, CliError>)
    requires o.count >= 1
    ensures o.baseOption.None? ==> r == Failure(NullBase)
    ensures o.baseOption.Some? ==>
              (r.Success? <==> GenerateFixed(Int64, EventList(o.baseOption.value, o.eventsOption),
                                             StartStream(o.seed, entropy, seeding), 0, o.count, fuel).Some?)
    ensures r.Failure? ==> r.error == NullBase || r.error == Exhausted
    ensures r.Success? ==> r.value
  {
    var comparator := new HistogramCompare<int>.Default();
    var values := ProcessLong(o, entropy, seeding, fuel);
    if values.Failure? {
      return Failure(values.error);
    }
    AccrueAll(comparator, values.value);
    var compareResult := comparator.Compare();
    r := Success(compareResult);
  }

  /** The DOUBLE arm of `testMerge`: a `DoubleHistogramCompare` fed by `processDouble`. */
  method MergeDoubleValues(o: Options, entropy: Stream, seeding: int -> Stream, fuel: nat) returns (r: Result<bool, CliError>)
    requires o.count >= 1
    ensures o.baseOption.None? ==> r == Failure(NullBase)
    ensures o.baseOption.Some? ==>
              (r.Success? <==> GenerateDouble(EventList(o.baseOption.value, o.eventsOption),
                                              StartStream(o.seed, entropy, seeding), 0, o.count, fuel).Some?)
    ensures r.Failure? ==> r.error == NullBase || r.error == Exhausted
    ensures r.Success? ==> r.value
  {
    var comparator := new HistogramCompare<real>.Default();
    var values := ProcessDouble(o, entropy, seeding, fuel);
    if values.Failure? {
      return Failure(values.error);
    }
    AccrueAll(comparator, values.value);
    var compareResult := comparator.Compare();
    r := Success(compareResult);
  }

  /**
   * `testMerge()`: validate, generate `count` values into a fresh
   * comparator of the type's kind, and report `compare()`. Whenever it
   * completes, the comparison holds.
   */
  method TestMerge(o: Options, entropy: Stream, seeding: int -> Stream, fuel: nat) returns (r: Result<bool, CliError>)
    ensures o.count < 1 ==> r == Failure(CountBelowOne)
    ensures o.count >= 1 && o.baseOption.None? ==> r == Failure(NullBase)
    ensures o.count >= 1 && o.baseOption.Some? ==>
              (r.Success? <==> MergeInputCompletes(o, o.baseOption.value, entropy, seeding, fuel))
    ensures r.Failure? ==> r.error != NegativeLimit
    ensures r.Success? ==> r.value
  {
    var valid := Validate(o.count);
    if valid.Fail? {
      return Failure(valid.error);
    }
    if o.histType == INT || o.histType == LONG {
      r := MergeLongValues(o, entropy, seeding, fuel);
    } else {
      r := MergeDoubleValues(o, entropy, seeding, fuel);
    }
  }
}
