/**
 * `ProbabilitySupplier`: an ordered list of events and the random source it
 * owns. One call sums one contribution of every event, in list order, into
 * a single accumulator, and repeats while the accumulator is not positive;
 * the accumulator is never reset between rounds.
 */
module Supplier {
  import opened Wrappers
  import opened JavaArith
  import opened RandomSource
  import opened Events

  /** The accumulator, every contribution drawn (in order) and the stream position reached. */
  datatype Round<T> = Round(acc: T, drawn: seq<T>, next: nat)

  function Extend<T>(d: seq<T>, r: Round<T>): Round<T>
  {
    Round(r.acc, d + r.drawn, r.next)
  }

  /** Records contributions drawn before those of `r`. */
  function Prepend<T>(d: seq<T>, r: Option<Round<T>>): Option<Round<T>>
  {
    match r
    case None => None
    case Some(x) => Some(Extend(d, x))
  }

  lemma PrependPrepend<T>(a: seq<T>, b: seq<T>, r: Option<Round<T>>)
    ensures Prepend(a, Prepend(b, r)) == Prepend(a + b, r)
  {
    assert r.Some? ==> a + (b + r.value.drawn) == (a + b) + r.value.drawn;
  }

  lemma PrependNothing<T>(r: Option<Round<T>>)
    ensures Prepend([], r) == r
  {
    assert r.Some? ==> [] + r.value.drawn == r.value.drawn;
  }

  /** The accumulator a call returns, if it finished within its fuel. */
  function Accumulated<T>(r: Option<Round<T>>): Option<T>
  {
    match r
    case None => None
    case Some(x) => Some(x.acc)
  }

  function SumInt(xs: seq<int>): int
    decreases |xs|
  {
    if xs == [] then 0 else xs[0] + SumInt(xs[1..])
  }

  function SumReal(xs: seq<real>): real
    decreases |xs|
  {
    if xs == [] then 0.0 else xs[0] + SumReal(xs[1..])
  }

  lemma {:induction false} SumIntAppend(a: seq<int>, b: seq<int>)
    ensures SumInt(a + b) == SumInt(a) + SumInt(b)
    decreases |a|
  {
    if a != [] {
      assert (a + b)[1..] == a[1..] + b;
      SumIntAppend(a[1..], b);
    } else {
      assert a + b == b;
    }
  }

  lemma {:induction false} SumRealAppend(a: seq<real>, b: seq<real>)
    ensures SumReal(a + b) == SumReal(a) + SumReal(b)
    decreases |a|
  {
    if a != [] {
      assert (a + b)[1..] == a[1..] + b;
      SumRealAppend(a[1..], b);
    } else {
      assert a + b == b;
    }
  }

  lemma {:induction false} SumIntNonNegative(xs: seq<int>)
    requires forall i :: 0 <= i < |xs| ==> xs[i] >= 0
    ensures SumInt(xs) >= 0
    decreases |xs|
  {
    if xs != [] {
      SumIntNonNegative(xs[1..]);
    }
  }

  /** Non-negative contributions sum to 0 only when every one of them is 0. */
  lemma {:induction false} SumIntZero(xs: seq<int>)
    requires forall i :: 0 <= i < |xs| ==> xs[i] >= 0
    requires SumInt(xs) == 0
    ensures forall i :: 0 <= i < |xs| ==> xs[i] == 0
    decreases |xs|
  {
    if xs != [] {
      SumIntNonNegative(xs[1..]);
      SumIntZero(xs[1..]);
      forall i | 1 <= i < |xs| ensures xs[i] == 0 {
        assert xs[i] == xs[1..][i - 1];
      }
    }
  }

  // ---------------------------------------------------------------------
  // getAsInt / getAsLong

  /**
   * The for-each loop of one round: `value += nextInt(random)` (or
   * `nextLong`) for every event in order, each addition wrapping at the
   * type's width. `fuel` bounds each inner resampling loop.
   */
  function RoundFixed(w: Width, events: seq<EventProbability>, s: Stream, pos: nat, acc: int, fuel: nat): (r: Option<Round<int>>)
    ensures r.Some? && InRange(w, acc) ==> InRange(w, r.value.acc)
    ensures r.Some? ==> r.value.next >= pos
    decreases |events|
  {
    if events == [] then Some(Round(acc, [], pos))
    else
      match BoundedDraw(events[0], w, s, pos, fuel)
      case None => None
      case Some(d) => Prepend([d.value], RoundFixed(w, events[1..], s, d.next, Wrap(w, acc + d.value), fuel))
  }

  /**
   * The do-while loop: rounds continue from the accumulator the previous
   * round left, until it is strictly positive; at most `rounds` rounds.
   */
  function RetryFixed(w: Width, events: seq<EventProbability>, s: Stream, pos: nat, acc: int, fuel: nat, rounds: nat): (r: Option<Round<int>>)
    ensures r.Some? ==> r.value.acc > 0 && r.value.next >= pos
    decreases rounds
  {
    if rounds == 0 then None
    else
      match RoundFixed(w, events, s, pos, acc, fuel)
      case None => None
      case Some(rd) =>
        if rd.acc > 0 then Some(rd)
        else Prepend(rd.drawn, RetryFixed(w, events, s, rd.next, rd.acc, fuel, rounds - 1))
  }

  /** Every contribution lies in [0, MAX_VALUE], the range of `nextInt` / `nextLong`. */
  ghost predicate WithinBounds(w: Width, xs: seq<int>)
  {
    forall i :: 0 <= i < |xs| ==> 0 <= xs[i] <= MaxValue(w)
  }

  lemma WithinBoundsAppend(w: Width, a: seq<int>, b: seq<int>)
    requires WithinBounds(w, a) && WithinBounds(w, b)
    ensures WithinBounds(w, a + b)
  {
    forall i | 0 <= i < |a + b| ensures 0 <= (a + b)[i] <= MaxValue(w) {
      if i >= |a| {
        assert (a + b)[i] == b[i - |a|];
      }
    }
  }

  /** Adding one contribution and then the rest wraps like adding them all at once. */
  lemma WrapCons(w: Width, acc: int, x: int, mid: int, rest: seq<int>, result: int)
    requires mid == Wrap(w, acc + x)
    requires result == Wrap(w, mid + SumInt(rest))
    ensures result == Wrap(w, acc + SumInt([x] + rest))
  {
    assert ([x] + rest)[1..] == rest;
    WrapAdd(w, acc + x, SumInt(rest));
  }

  /** A round that starts with contribution `x` keeps the wrapped-sum relation of the rest of the round. */
  lemma ExtendWraps(w: Width, acc: int, x: int, rest: Round<int>, r: Round<int>)
    requires r == Extend([x], rest)
    requires rest.acc == Wrap(w, Wrap(w, acc + x) + SumInt(rest.drawn))
    ensures r.acc == Wrap(w, acc + SumInt(r.drawn))
  {
    WrapCons(w, acc, x, Wrap(w, acc + x), rest.drawn, rest.acc);
  }

  /** A round followed by further rounds keeps the wrapped-sum relation over all their contributions. */
  lemma RoundsWrap(w: Width, acc: int, rd: Round<int>, rest: Round<int>, x: Round<int>)
    requires x == Extend(rd.drawn, rest)
    requires rd.acc == Wrap(w, acc + SumInt(rd.drawn))
    requires rest.acc == Wrap(w, rd.acc + SumInt(rest.drawn))
    ensures x.acc == Wrap(w, acc + SumInt(x.drawn))
  {
    WrapAdd(w, acc + SumInt(rd.drawn), SumInt(rest.drawn));
    SumIntAppend(rd.drawn, rest.drawn);
  }

  /** A round over no events leaves an in-range start unchanged. */
  lemma EmptyRoundWraps(w: Width, acc: int, r: Round<int>)
    requires InRange(w, acc) && r.acc == acc && r.drawn == []
    ensures r.acc == Wrap(w, acc + SumInt(r.drawn))
  {
  }

  /** A round draws one contribution per event, each in [0, MAX_VALUE]. */
  lemma {:induction false} RoundFixedDrawn(w: Width, events: seq<EventProbability>, s: Stream, pos: nat, acc: int, fuel: nat,
                                           r: Round<int>)
    requires RoundFixed(w, events, s, pos, acc, fuel) == Some(r)
    ensures |r.drawn| == |events| && WithinBounds(w, r.drawn)
    decreases |events|
  {
    if events != [] {
      var d := BoundedDraw(events[0], w, s, pos, fuel).value;
      var rest := RoundFixed(w, events[1..], s, d.next, Wrap(w, acc + d.value), fuel).value;
      assert r == Extend([d.value], rest);
      RoundFixedDrawn(w, events[1..], s, d.next, Wrap(w, acc + d.value), fuel, rest);
      WithinBoundsAppend(w, [d.value], rest.drawn);
    }
  }

  /** A round leaves the accumulator equal to the wrapped sum of its start and every contribution. */
  lemma {:induction false} RoundFixedSum(w: Width, events: seq<EventProbability>, s: Stream, pos: nat, acc: int, fuel: nat,
                                         r: Round<int>)
    requires InRange(w, acc)
    requires RoundFixed(w, events, s, pos, acc, fuel) == Some(r)
    ensures r.acc == Wrap(w, acc + SumInt(r.drawn))
    decreases |events|
  {
    if events != [] {
      var d := BoundedDraw(events[0], w, s, pos, fuel).value;
      var next := Wrap(w, acc + d.value);
      var rest := RoundFixed(w, events[1..], s, d.next, next, fuel).value;
      assert r == Extend([d.value], rest);
      RoundFixedSum(w, events[1..], s, d.next, next, fuel, rest);
      ExtendWraps(w, acc, d.value, rest, r);
    } else {
      EmptyRoundWraps(w, acc, r);
    }
  }

  /** A finished call draws at least one contribution per event, each in [0, MAX_VALUE]. */
  lemma {:induction false} RetryFixedDrawn(w: Width, events: seq<EventProbability>, s: Stream, pos: nat, acc: int, fuel: nat,
                                           rounds: nat, x: Round<int>)
    requires RetryFixed(w, events, s, pos, acc, fuel, rounds) == Some(x)
    ensures |x.drawn| >= |events| && WithinBounds(w, x.drawn)
    decreases rounds
  {
    var rd := RoundFixed(w, events, s, pos, acc, fuel).value;
    RoundFixedDrawn(w, events, s, pos, acc, fuel, rd);
    if rd.acc <= 0 {
      var rest := RetryFixed(w, events, s, rd.next, rd.acc, fuel, rounds - 1).value;
      assert x == Extend(rd.drawn, rest);
      RetryFixedDrawn(w, events, s, rd.next, rd.acc, fuel, rounds - 1, rest);
      WithinBoundsAppend(w, rd.drawn, rest.drawn);
    } else {
      assert x == rd;
    }
  }

  /**
   * A finished call returns a value in (0, MAX_VALUE], the wrapped sum of
   * its start and every contribution of every round.
   */
  lemma {:induction false} RetryFixedSum(w: Width, events: seq<EventProbability>, s: Stream, pos: nat, acc: int, fuel: nat,
                                         rounds: nat, x: Round<int>)
    requires InRange(w, acc)
    requires RetryFixed(w, events, s, pos, acc, fuel, rounds) == Some(x)
    ensures 0 < x.acc <= MaxValue(w)
    ensures x.acc == Wrap(w, acc + SumInt(x.drawn))
    decreases rounds
  {
    var rd := RoundFixed(w, events, s, pos, acc, fuel).value;
    RoundFixedSum(w, events, s, pos, acc, fuel, rd);
    if rd.acc <= 0 {
      var rest := RetryFixed(w, events, s, rd.next, rd.acc, fuel, rounds - 1).value;
      assert x == Extend(rd.drawn, rest);
      RetryFixedSum(w, events, s, rd.next, rd.acc, fuel, rounds - 1, rest);
      RoundsWrap(w, acc, rd, rest, x);
    } else {
      assert x == rd;
    }
  }

  /**
   * Without overflow the result is the plain sum of every contribution
   * drawn in every round, and a round was repeated only because all its
   * contributions were 0: every contribution before the last round is 0.
   */
  lemma {:induction false} RetryWithoutOverflow(w: Width, events: seq<EventProbability>, s: Stream, pos: nat, fuel: nat,
                                                rounds: nat, x: Round<int>)
    requires RetryFixed(w, events, s, pos, 0, fuel, rounds) == Some(x)
    requires SumInt(x.drawn) <= MaxValue(w)
    ensures x.acc == SumInt(x.drawn)
    ensures forall i :: 0 <= i < |x.drawn| - |events| ==> x.drawn[i] == 0
    decreases rounds
  {
    var rd := RoundFixed(w, events, s, pos, 0, fuel).value;
    RoundFixedSum(w, events, s, pos, 0, fuel, rd);
    RoundFixedDrawn(w, events, s, pos, 0, fuel, rd);
    if rd.acc <= 0 {
      var rest := RetryFixed(w, events, s, rd.next, rd.acc, fuel, rounds - 1).value;
      assert x == Extend(rd.drawn, rest);
      RetryFixedDrawn(w, events, s, rd.next, rd.acc, fuel, rounds - 1, rest);
      SumIntAppend(rd.drawn, rest.drawn);
      SumIntNonNegative(rest.drawn);
      FailedRoundIsZero(w, rd);
      RetryWithoutOverflow(w, events, s, rd.next, fuel, rounds - 1, rest);
      forall i | 0 <= i < |x.drawn| - |events| ensures x.drawn[i] == 0 {
        if i >= |rd.drawn| {
          assert x.drawn[i] == rest.drawn[i - |rd.drawn|];
        }
      }
    } else {
      assert x == rd;
      SumIntNonNegative(x.drawn);
    }
  }

  /** A round from 0 that does not overflow and ends at or below 0 drew only zeros. */
  lemma FailedRoundIsZero(w: Width, rd: Round<int>)
    requires rd.acc == Wrap(w, SumInt(rd.drawn)) && rd.acc <= 0
    requires WithinBounds(w, rd.drawn)
    requires SumInt(rd.drawn) <= MaxValue(w)
    ensures rd.acc == 0 && SumInt(rd.drawn) == 0
    ensures forall i :: 0 <= i < |rd.drawn| ==> rd.drawn[i] == 0
  {
    SumIntNonNegative(rd.drawn);
    SumIntZero(rd.drawn);
  }

  // ---------------------------------------------------------------------
  // getAsDouble

  /** One round of `value += nextDouble(random)` over the events in order. */
  function RoundDouble(events: seq<EventProbability>, s: Stream, pos: nat, acc: real): (r: Round<real>)
    ensures |r.drawn| == |events| && r.next >= pos + |events|
    decreases |events|
  {
    if events == [] then Round(acc, [], pos)
    else
      var d := DoubleDraw(events[0], s, pos);
      Extend([d.value], RoundDouble(events[1..], s, d.next, acc + d.value))
  }

  /**
   * The do-while loop of `getAsDouble`: a round that leaves the sum at or
   * below 0 carries that sum, negative or not, into the next round.
   */
  function RetryDouble(events: seq<EventProbability>, s: Stream, pos: nat, acc: real, rounds: nat): (r: Option<Round<real>>)
    ensures r.Some? ==> r.value.acc > 0.0 && r.value.next >= pos
    decreases rounds
  {
    if rounds == 0 then None
    else
      var rd := RoundDouble(events, s, pos, acc);
      if rd.acc > 0.0 then Some(rd)
      else Prepend(rd.drawn, RetryDouble(events, s, rd.next, rd.acc, rounds - 1))
  }

  /** A round draws one contribution per event and adds all of them to the accumulator. */
  lemma {:induction false} RoundDoubleSum(events: seq<EventProbability>, s: Stream, pos: nat, acc: real)
    ensures var r := RoundDouble(events, s, pos, acc);
            r.acc == acc + SumReal(r.drawn) && |r.drawn| == |events|
    decreases |events|
  {
    if events != [] {
      var d := DoubleDraw(events[0], s, pos);
      var rest := RoundDouble(events[1..], s, d.next, acc + d.value);
      RoundDoubleSum(events[1..], s, d.next, acc + d.value);
      assert ([d.value] + rest.drawn)[1..] == rest.drawn;
    }
  }

  /** A finished `getAsDouble` returns a positive value: its start plus every contribution of every round. */
  lemma {:induction false} RetryDoubleSum(events: seq<EventProbability>, s: Stream, pos: nat, acc: real, rounds: nat,
                                          x: Round<real>)
    requires RetryDouble(events, s, pos, acc, rounds) == Some(x)
    ensures x.acc > 0.0 && x.acc == acc + SumReal(x.drawn)
    decreases rounds
  {
    var rd := RoundDouble(events, s, pos, acc);
    RoundDoubleSum(events, s, pos, acc);
    if rd.acc <= 0.0 {
      var rest := RetryDouble(events, s, rd.next, rd.acc, rounds - 1).value;
      assert x == Extend(rd.drawn, rest);
      RetryDoubleSum(events, s, rd.next, rd.acc, rounds - 1, rest);
      SumRealAppend(rd.drawn, rest.drawn);
    } else {
      assert x == rd;
    }
  }

  /** One step of the for-each loop of `getAsDouble`, given what `nextDouble` returned. */
  lemma RoundDoubleAdvance(events: seq<EventProbability>, i: nat, s: Stream, pos: nat, acc: real, drawn: seq<real>,
                           d: Draw<real>)
    requires i < |events| && DoubleDraw(events[i], s, pos) == d
    ensures Extend(drawn, RoundDouble(events[i..], s, pos, acc))
         == Extend(drawn + [d.value], RoundDouble(events[i + 1..], s, d.next, acc + d.value))
  {
    assert events[i..][0] == events[i] && events[i..][1..] == events[i + 1..];
    var rest := RoundDouble(events[i + 1..], s, d.next, acc + d.value);
    assert drawn + ([d.value] + rest.drawn) == (drawn + [d.value]) + rest.drawn;
  }

  /** A turn of `getAsDouble` whose round ends positive returns that round. */
  lemma RetryDoubleDone(events: seq<EventProbability>, s: Stream, pos: nat, acc: real, rounds: nat,
                        drawn: seq<real>, rd: Round<real>)
    requires rounds > 0 && RoundDouble(events, s, pos, acc) == rd && rd.acc > 0.0
    ensures Prepend(drawn, RetryDouble(events, s, pos, acc, rounds)) == Some(Extend(drawn, rd))
  {
  }

  /** A turn of `getAsDouble` whose round ends at most 0 continues from that round. */
  lemma RetryDoubleAdvance(events: seq<EventProbability>, s: Stream, pos: nat, acc: real, rounds: nat,
                           drawn: seq<real>, rd: Round<real>)
    requires rounds > 0 && RoundDouble(events, s, pos, acc) == rd && rd.acc <= 0.0
    ensures Prepend(drawn, RetryDouble(events, s, pos, acc, rounds))
         == Prepend(drawn + rd.drawn, RetryDouble(events, s, rd.next, rd.acc, rounds - 1))
  {
    PrependPrepend(drawn, rd.drawn, RetryDouble(events, s, rd.next, rd.acc, rounds - 1));
  }

  /** A step of the for-each loop of `getAsInt` / `getAsLong` whose sample runs out of fuel ends the round. */
  lemma RoundFixedStop(w: Width, events: seq<EventProbability>, i: nat, s: Stream, pos: nat, acc: int, fuel: nat,
                       drawn: seq<int>)
    requires i < |events| && BoundedDraw(events[i], w, s, pos, fuel).None?
    ensures Prepend(drawn, RoundFixed(w, events[i..], s, pos, acc, fuel)) == None
  {
    assert events[i..][0] == events[i];
  }

  /** One step of the for-each loop of `getAsInt` / `getAsLong`, given the sample drawn. */
  lemma RoundFixedAdvance(w: Width, events: seq<EventProbability>, i: nat, s: Stream, pos: nat, acc: int, fuel: nat,
                          drawn: seq<int>, d: Draw<int>)
    requires i < |events| && BoundedDraw(events[i], w, s, pos, fuel) == Some(d)
    ensures Prepend(drawn, RoundFixed(w, events[i..], s, pos, acc, fuel))
         == Prepend(drawn + [d.value], RoundFixed(w, events[i + 1..], s, d.next, Wrap(w, acc + d.value), fuel))
  {
    assert events[i..][0] == events[i] && events[i..][1..] == events[i + 1..];
    PrependPrepend(drawn, [d.value], RoundFixed(w, events[i + 1..], s, d.next, Wrap(w, acc + d.value), fuel));
  }

  /** A call of `getAsInt` / `getAsLong` with no rounds left has run out of fuel. */
  lemma RetryFixedOut(w: Width, events: seq<EventProbability>, s: Stream, pos: nat, acc: int, fuel: nat,
                      drawn: seq<int>)
    ensures Prepend(drawn, RetryFixed(w, events, s, pos, acc, fuel, 0)) == None
  {
  }

  /** A turn of `getAsInt` / `getAsLong` whose round runs out of fuel ends the call. */
  lemma RetryFixedStop(w: Width, events: seq<EventProbability>, s: Stream, pos: nat, acc: int, fuel: nat, rounds: nat,
                       drawn: seq<int>)
    requires rounds > 0 && RoundFixed(w, events, s, pos, acc, fuel).None?
    ensures Prepend(drawn, RetryFixed(w, events, s, pos, acc, fuel, rounds)) == None
  {
  }

  /** A turn of `getAsInt` / `getAsLong` whose round ends positive returns that round. */
  lemma RetryFixedDone(w: Width, events: seq<EventProbability>, s: Stream, pos: nat, acc: int, fuel: nat, rounds: nat,
                       drawn: seq<int>, rd: Round<int>)
    requires rounds > 0 && RoundFixed(w, events, s, pos, acc, fuel) == Some(rd) && rd.acc > 0
    ensures Prepend(drawn, RetryFixed(w, events, s, pos, acc, fuel, rounds)) == Some(Extend(drawn, rd))
  {
  }

  /** A turn of `getAsInt` / `getAsLong` whose round ends at most 0 continues from that round. */
  lemma RetryFixedAdvance(w: Width, events: seq<EventProbability>, s: Stream, pos: nat, acc: int, fuel: nat, rounds: nat,
                          drawn: seq<int>, rd: Round<int>)
    requires rounds > 0 && RoundFixed(w, events, s, pos, acc, fuel) == Some(rd) && rd.acc <= 0
    ensures Prepend(drawn, RetryFixed(w, events, s, pos, acc, fuel, rounds))
         == Prepend(drawn + rd.drawn, RetryFixed(w, events, s, rd.next, rd.acc, fuel, rounds - 1))
  {
    PrependPrepend(drawn, rd.drawn, RetryFixed(w, events, s, rd.next, rd.acc, fuel, rounds - 1));
  }

  // ---------------------------------------------------------------------
  // The supplier object

  class ProbabilitySupplier {
    const random: Random
    const eventProbabilities: seq<EventProbability>

    /** `ProbabilitySupplier(eventProbabilities)`: an unseeded `new Random()`. */
    constructor (eventProbabilities: seq<EventProbability>, entropy: Stream)
      ensures this.eventProbabilities == eventProbabilities
      ensures fresh(random) && random.stream == entropy && random.pos == 0
    {
      this.eventProbabilities := eventProbabilities;
      random := new Random(entropy);
    }

    /** `ProbabilitySupplier(eventProbabilities, seed)`: `new Random()`, then `setSeed(seed)`. */
    constructor Seeded(eventProbabilities: seq<EventProbability>, seed: int, entropy: Stream, seeding: int -> Stream)
      ensures this.eventProbabilities == eventProbabilities
      ensures fresh(random) && random.stream == seeding(seed) && random.pos == 0
    {
      this.eventProbabilities := eventProbabilities;
      random := new Random(entropy);
      new;
      random.SetSeed(seed, seeding);
    }

    /**
     * The for-each loop of `getAsInt` / `getAsLong`: `value += next(random)`
     * for every event in order, from the accumulator `startValue`.
     */
    method SampleRoundFixed(w: Width, fuel: nat, startValue: int) returns (r: Option<int>, ghost roundDrawn: seq<int>)
      requires InRange(w, startValue)
      modifies random
      ensures random.stream == old(random.stream)
      ensures var rd := RoundFixed(w, eventProbabilities, old(random.stream), old(random.pos), startValue, fuel);
              && (rd.None? ==> r.None?)
              && (rd.Some? ==> r == Some(rd.value.acc) && rd.value == Round(rd.value.acc, roundDrawn, random.pos))
      ensures r.Some? ==> InRange(w, r.value)
    {
      var events := eventProbabilities;
      ghost var s, start := random.stream, random.pos;
      var value := startValue;
      roundDrawn := [];
      var i := 0;
      ghost var all, pos := RoundFixed(w, events, s, start, startValue, fuel), start;
      assert events[0..] == events;
      PrependNothing(all);
      while i < |events|
        invariant 0 <= i <= |events| && random.stream == s && random.pos == pos && InRange(w, value)
        invariant all == Prepend(roundDrawn, RoundFixed(w, events[i..], s, pos, value, fuel))
        decreases |events| - i
      {
        var c := NextBounded(events[i], w, random, fuel);
        if c.None? {
          RoundFixedStop(w, events, i, s, pos, value, fuel, roundDrawn);
          return None, roundDrawn;
        }
        RoundFixedAdvance(w, events, i, s, pos, value, fuel, roundDrawn, Draw(c.value, random.pos));
        value := Wrap(w, value + c.value);
        roundDrawn := roundDrawn + [c.value];
        i := i + 1;
        pos := random.pos;
      }
      assert events[i..] == [];
      r := Some(value);
    }

    /** The loop shared by `getAsInt` and `getAsLong`; at most `fuel` rounds and `fuel` attempts per sample. */
    method GetAsFixed(w: Width, fuel: nat) returns (r: Option<int>)
      modifies random
      ensures random.stream == old(random.stream)
      ensures var x := RetryFixed(w, eventProbabilities, old(random.stream), old(random.pos), 0, fuel, fuel);
              r == Accumulated(x) && (x.Some? ==> random.pos == x.value.next)
      ensures r.Some? ==> 0 < r.value <= MaxValue(w)
    {
      var events := eventProbabilities;
      ghost var s, pos0 := random.stream, random.pos;
      var value := 0;
      var round := 0;
      ghost var drawn: seq<int> := [];
      ghost var all, pos, rounds := RetryFixed(w, events, s, pos0, 0, fuel, fuel), pos0, fuel;
      PrependNothing(all);
      while round < fuel
        invariant 0 <= round <= fuel && rounds == fuel - round
        invariant random.stream == s && random.pos == pos && InRange(w, value)
        invariant all == Prepend(drawn, RetryFixed(w, events, s, pos, value, fuel, rounds))
        decreases fuel - round
      {
        ghost var startValue := value;
        var sum;
        ghost var roundDrawn;
        sum, roundDrawn := SampleRoundFixed(w, fuel, value);
        if sum.None? {
          RetryFixedStop(w, events, s, pos, startValue, fuel, rounds, drawn);
          return None;
        }
        value := sum.value;
        ghost var rd := Round(value, roundDrawn, random.pos);
        if value > 0 {
          RetryFixedDone(w, events, s, pos, startValue, fuel, rounds, drawn, rd);
          return Some(value);
        }
        RetryFixedAdvance(w, events, s, pos, startValue, fuel, rounds, drawn, rd);
        drawn := drawn + roundDrawn;
        round := round + 1;
        pos, rounds := rd.next, rounds - 1;
      }
      RetryFixedOut(w, events, s, pos, value, fuel, drawn);
      return None;
    }

    /** `getAsInt`: a strictly positive int, sums wrapping at 32 bits. */
    method GetAsInt(fuel: nat) returns (r: Option<int>)
      modifies random
      ensures random.stream == old(random.stream)
      ensures var x := RetryFixed(Int32, eventProbabilities, old(random.stream), old(random.pos), 0, fuel, fuel);
              r == Accumulated(x) && (x.Some? ==> random.pos == x.value.next)
      ensures r.Some? ==> 0 < r.value <= MaxValue(Int32)
    {
      r := GetAsFixed(Int32, fuel);
    }

    /** `getAsLong`: a strictly positive long, sums wrapping at 64 bits. */
    method GetAsLong(fuel: nat) returns (r: Option<int>)
      modifies random
      ensures random.stream == old(random.stream)
      ensures var x := RetryFixed(Int64, eventProbabilities, old(random.stream), old(random.pos), 0, fuel, fuel);
              r == Accumulated(x) && (x.Some? ==> random.pos == x.value.next)
      ensures r.Some? ==> 0 < r.value <= MaxValue(Int64)
    {
      r := GetAsFixed(Int64, fuel);
    }

    /** The for-each loop of `getAsDouble`: `value += nextDouble(random)` for every event in order. */
    method SampleRoundDouble(startValue: real) returns (value: real, ghost roundDrawn: seq<real>)
      modifies random
      ensures random.stream == old(random.stream)
      ensures RoundDouble(eventProbabilities, old(random.stream), old(random.pos), startValue)
           == Round(value, roundDrawn, random.pos)
    {
      var events := eventProbabilities;
      ghost var s, start := random.stream, random.pos;
      value := startValue;
      roundDrawn := [];
      var i := 0;
      ghost var all, pos := RoundDouble(events, s, start, startValue), start;
      assert events[0..] == events;
      assert Extend([], all) == all;
      while i < |events|
        invariant 0 <= i <= |events| && random.stream == s && random.pos == pos
        invariant all == Extend(roundDrawn, RoundDouble(events[i..], s, pos, value))
        decreases |events| - i
      {
        var c := NextDouble(events[i], random);
        RoundDoubleAdvance(events, i, s, pos, value, roundDrawn, Draw(c, random.pos));
        value := value + c;
        roundDrawn := roundDrawn + [c];
        i := i + 1;
        pos := random.pos;
      }
      assert events[i..] == [];
    }

    /** `getAsDouble`: a strictly positive sum; at most `fuel` rounds. */
    method GetAsDouble(fuel: nat) returns (r: Option<real>)
      modifies random
      ensures random.stream == old(random.stream)
      ensures var x := RetryDouble(eventProbabilities, old(random.stream), old(random.pos), 0.0, fuel);
              r == Accumulated(x) && (x.Some? ==> random.pos == x.value.next)
      ensures r.Some? ==> r.value > 0.0
    {
      var events := eventProbabilities;
      ghost var s, pos0 := random.stream, random.pos;
      var value := 0.0;
      var round := 0;
      ghost var drawn: seq<real> := [];
      ghost var all, pos, rounds := RetryDouble(events, s, pos0, 0.0, fuel), pos0, fuel;
      PrependNothing(all);
      while round < fuel
        invariant 0 <= round <= fuel && rounds == fuel - round
        invariant random.stream == s && random.pos == pos
        invariant all == Prepend(drawn, RetryDouble(events, s, pos, value, rounds))
        decreases fuel - round
      {
        ghost var startValue := value;
        ghost var roundDrawn;
        value, roundDrawn := SampleRoundDouble(value);
        ghost var rd := Round(value, roundDrawn, random.pos);
        if value > 0.0 {
          RetryDoubleDone(events, s, pos, startValue, rounds, drawn, rd);
          return Some(value);
        }
        RetryDoubleAdvance(events, s, pos, startValue, rounds, drawn, rd);
        drawn := drawn + roundDrawn;
        round := round + 1;
        pos, rounds := rd.next, rounds - 1;
      }
      return None;
    }
  }
}
