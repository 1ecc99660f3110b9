/**
 * One latency-contributing cause (the `EventProbability` record): its
 * constructor checks, the two convenience constructors, the samplers
 * `nextDouble`, `nextLong` and `nextInt`, and the two command-line converters.
 */
module Events {
  import opened Wrappers
  import opened JavaArith
  import opened RandomSource

  /** probability of firing, |g| shaping flag, mean impact and its deviation. */
  datatype EventProbability = EventProbability(probability: real, flatten: bool, mean: real, deviation: real)

  /** The three IllegalArgumentExceptions of the canonical constructor, in the order it checks them. */
  datatype EventError = ProbabilityOutOfRange | MeanNotPositive | DeviationNotPositive

  predicate Valid(e: EventProbability)
  {
    0.0 <= e.probability <= 1.0 && e.mean > 0.0 && e.deviation > 0.0
  }

  /** The canonical record constructor `EventProbability(probability, flatten, mean, deviation)`. */
  function New(probability: real, flatten: bool, mean: real, deviation: real): (r: Result<EventProbability, EventError>)
    ensures r.Success? <==> 0.0 <= probability <= 1.0 && mean > 0.0 && deviation > 0.0
    ensures r.Success? ==> Valid(r.value) && r.value == EventProbability(probability, flatten, mean, deviation)
    ensures r == Failure(ProbabilityOutOfRange) <==> probability < 0.0 || probability > 1.0
    ensures r == Failure(MeanNotPositive) <==> 0.0 <= probability <= 1.0 && mean <= 0.0
    ensures r == Failure(DeviationNotPositive) <==> 0.0 <= probability <= 1.0 && mean > 0.0 && deviation <= 0.0
  {
    if probability < 0.0 || probability > 1.0 then Failure(ProbabilityOutOfRange)
    else if mean <= 0.0 then Failure(MeanNotPositive)
    else if deviation <= 0.0 then Failure(DeviationNotPositive)
    else Success(EventProbability(probability, flatten, mean, deviation))
  }

  /** `EventProbability(mean, deviation)`: the base latency, always firing, non-negative shaping. */
  function NewBase(mean: real, deviation: real): (r: Result<EventProbability, EventError>)
    ensures r.Success? <==> mean > 0.0 && deviation > 0.0
    ensures r.Success? ==> r.value.probability == 1.0 && r.value.flatten
    ensures r.Success? ==> r.value.mean == mean && r.value.deviation == deviation
  {
    New(1.0, true, mean, deviation)
  }

  /** `EventProbability(probability, mean, deviation)`: an incident without shaping. */
  function NewEvent(probability: real, mean: real, deviation: real): (r: Result<EventProbability, EventError>)
    ensures r.Success? <==> 0.0 <= probability <= 1.0 && mean > 0.0 && deviation > 0.0
    ensures r.Success? ==> !r.value.flatten
    ensures r.Success? ==> r.value.probability == probability && r.value.mean == mean && r.value.deviation == deviation
  {
    New(probability, false, mean, deviation)
  }

  // ---------------------------------------------------------------------
  // Sampling

  /** A sampled value together with the stream position after the draws it consumed. */
  datatype Draw<T> = Draw(value: T, next: nat)

  function Abs(x: real): real
  {
    if x < 0.0 then -x else x
  }

  /** `Math.max(0.0, x)`. */
  function Clamp(x: real): real
  {
    if x > 0.0 then x else 0.0
  }

  /** The event fires when the uniform draw at `pos` is at most its probability. */
  predicate Fires(e: EventProbability, s: Stream, pos: nat)
  {
    s.uniform(pos) <= e.probability
  }

  /**
   * `nextDouble`: one uniform draw; if the event fires, one Gaussian draw g
   * (taken as |g| when flattening) and the impact mean + g * deviation,
   * otherwise 0 and no Gaussian draw.
   */
  function DoubleDraw(e: EventProbability, s: Stream, pos: nat): (r: Draw<real>)
    ensures r.next == (if Fires(e, s, pos) then pos + 2 else pos + 1)
    ensures !Fires(e, s, pos) ==> r.value == 0.0
  {
    if Fires(e, s, pos) then
      var g := s.gaussian(pos + 1);
      Draw(e.mean + (if e.flatten then Abs(g) else g) * e.deviation, pos + 2)
    else
      Draw(0.0, pos + 1)
  }

  /** A draw that does not fire consumes exactly one position and contributes 0. */
  lemma SilentDrawIsZero(e: EventProbability, s: Stream, pos: nat)
    requires !Fires(e, s, pos)
    ensures DoubleDraw(e, s, pos) == Draw(0.0, pos + 1)
  {
  }

  /** A firing draw consumes the uniform and exactly one Gaussian. */
  lemma FiringDrawUsesGaussian(e: EventProbability, s: Stream, pos: nat)
    requires Fires(e, s, pos)
    ensures DoubleDraw(e, s, pos).next == pos + 2
    ensures !e.flatten ==> DoubleDraw(e, s, pos).value == e.mean + s.gaussian(pos + 1) * e.deviation
  {
  }

  /** With probability 1.0 the event fires on every well-formed stream, since nextDouble < 1. */
  lemma CertainEventFires(e: EventProbability, s: Stream, pos: nat)
    requires WellFormed(s) && e.probability == 1.0
    ensures Fires(e, s, pos)
  {
  }

  /** A flattened event that fires never contributes less than its mean. */
  lemma FlattenedAtLeastMean(e: EventProbability, s: Stream, pos: nat)
    requires Valid(e) && e.flatten && Fires(e, s, pos)
    ensures DoubleDraw(e, s, pos).value >= e.mean
  {
    var g := Abs(s.gaussian(pos + 1));
    assert g * e.deviation >= 0.0;
  }

  /** The k-th `nextDouble` attempt (counting from 0) made from position `pos`. */
  function AttemptAt(e: EventProbability, s: Stream, pos: nat, k: nat): Draw<real>
    decreases k
  {
    var d := DoubleDraw(e, s, pos);
    if k == 0 then d else AttemptAt(e, s, d.next, k - 1)
  }

  /** Attempt k is the first whose clamped value does not exceed the type's maximum. */
  ghost predicate FirstInRange(e: EventProbability, w: Width, s: Stream, pos: nat, k: nat)
  {
    && Clamp(AttemptAt(e, s, pos, k).value) <= Threshold(w)
    && forall j :: 0 <= j < k ==> Clamp(AttemptAt(e, s, pos, j).value) > Threshold(w)
  }

  /**
   * `nextInt` / `nextLong`: resample `max(0, nextDouble)` while it exceeds the
   * type's maximum, then truncate; `fuel` bounds the number of attempts.
   */
  function BoundedDraw(e: EventProbability, w: Width, s: Stream, pos: nat, fuel: nat): (r: Option<Draw<int>>)
    ensures r.Some? ==> 0 <= r.value.value <= MaxValue(w)
    ensures r.Some? ==> r.value.next > pos
    decreases fuel
  {
    if fuel == 0 then None
    else
      var d := DoubleDraw(e, s, pos);
      var value := Clamp(d.value);
      if value > Threshold(w) then BoundedDraw(e, w, s, d.next, fuel - 1)
      else Some(Draw(Truncate(w, value), d.next))
  }

  /** If attempt k (within the fuel) is the first in range, the sampler returns its truncation. */
  lemma {:induction false} BoundedDrawTakesFirstInRange(e: EventProbability, w: Width, s: Stream, pos: nat, fuel: nat, k: nat)
    requires k < fuel && FirstInRange(e, w, s, pos, k)
    decreases fuel
    ensures BoundedDraw(e, w, s, pos, fuel)
         == Some(Draw(Truncate(w, Clamp(AttemptAt(e, s, pos, k).value)), AttemptAt(e, s, pos, k).next))
  {
    if k > 0 {
      var d := DoubleDraw(e, s, pos);
      assert Clamp(AttemptAt(e, s, pos, 0).value) > Threshold(w);
      assert FirstInRange(e, w, s, d.next, k - 1) by {
        forall j | 0 <= j < k - 1
          ensures Clamp(AttemptAt(e, s, d.next, j).value) > Threshold(w)
        {
          assert AttemptAt(e, s, pos, j + 1) == AttemptAt(e, s, d.next, j);
        }
      }
      BoundedDrawTakesFirstInRange(e, w, s, d.next, fuel - 1, k - 1);
    }
  }

  /** Conversely, whatever the sampler returns is the truncation of the first in-range attempt. */
  lemma {:induction false} BoundedDrawIsFirstInRange(e: EventProbability, w: Width, s: Stream, pos: nat, fuel: nat)
    requires BoundedDraw(e, w, s, pos, fuel).Some?
    decreases fuel
    ensures exists k :: 0 <= k < fuel && FirstInRange(e, w, s, pos, k)
                     && BoundedDraw(e, w, s, pos, fuel).value
                        == Draw(Truncate(w, Clamp(AttemptAt(e, s, pos, k).value)), AttemptAt(e, s, pos, k).next)
  {
    var d := DoubleDraw(e, s, pos);
    if Clamp(d.value) > Threshold(w) {
      BoundedDrawIsFirstInRange(e, w, s, d.next, fuel - 1);
      var k :| 0 <= k < fuel - 1 && FirstInRange(e, w, s, d.next, k)
               && BoundedDraw(e, w, s, d.next, fuel - 1).value
                  == Draw(Truncate(w, Clamp(AttemptAt(e, s, d.next, k).value)), AttemptAt(e, s, d.next, k).next);
      assert AttemptAt(e, s, pos, k + 1) == AttemptAt(e, s, d.next, k);
      forall j | 0 <= j < k + 1
        ensures Clamp(AttemptAt(e, s, pos, j).value) > Threshold(w)
      {
        if j > 0 {
          assert AttemptAt(e, s, pos, j) == AttemptAt(e, s, d.next, j - 1);
        }
      }
      assert FirstInRange(e, w, s, pos, k + 1);
    } else {
      assert FirstInRange(e, w, s, pos, 0);
    }
  }

  /**
   * A flattened, always-firing event sampled as an integer is at least the
   * integer part of its mean (or the saturated maximum, reachable only when
   * the mean is at least 2^63).
   */
  lemma {:induction false} FlattenedBoundedAtLeastMean(e: EventProbability, w: Width, s: Stream, pos: nat, fuel: nat)
    requires Valid(e) && e.flatten && e.probability == 1.0 && WellFormed(s)
    requires BoundedDraw(e, w, s, pos, fuel).Some?
    ensures BoundedDraw(e, w, s, pos, fuel).value.value >= e.mean.Floor
         || BoundedDraw(e, w, s, pos, fuel).value.value == MaxValue(w)
    decreases fuel
  {
    var d := DoubleDraw(e, s, pos);
    CertainEventFires(e, s, pos);
    FlattenedAtLeastMean(e, s, pos);
    if Clamp(d.value) > Threshold(w) {
      FlattenedBoundedAtLeastMean(e, w, s, d.next, fuel - 1);
    }
  }

  method NextDouble(e: EventProbability, random: Random) returns (value: real)
    modifies random
    ensures DoubleDraw(e, old(random.stream), old(random.pos)) == Draw(value, random.pos)
    ensures random.stream == old(random.stream)
  {
    ghost var s, pos := random.stream, random.pos;
    value := 0.0;
    var u := random.NextDouble();
    if u <= e.probability {
      var g := random.NextGaussian();
      var gaussian := if e.flatten then Abs(g) else g;
      value := e.mean + gaussian * e.deviation;
      assert DoubleDraw(e, s, pos).value == value;
    }
  }

  /** The do-while loop shared by `nextInt` and `nextLong`, with at most `fuel` attempts. */
  method NextBounded(e: EventProbability, w: Width, random: Random, fuel: nat) returns (r: Option<int>)
    modifies random
    ensures random.stream == old(random.stream)
    ensures var d := BoundedDraw(e, w, old(random.stream), old(random.pos), fuel);
            && (d.None? ==> r.None?)
            && (d.Some? ==> r == Some(d.value.value) && random.pos == d.value.next)
  {
    ghost var s, pos0 := random.stream, random.pos;
    var tries := 0;
    while tries < fuel
      invariant 0 <= tries <= fuel && random.stream == s
      invariant BoundedDraw(e, w, s, pos0, fuel) == BoundedDraw(e, w, s, random.pos, fuel - tries)
      decreases fuel - tries
    {
      var d := NextDouble(e, random);
      var value := Clamp(d);
      if value <= Threshold(w) {
        return Some(Truncate(w, value));
      }
      tries := tries + 1;
    }
    return None;
  }

  /** `nextLong`: a value in [0, Long.MAX_VALUE]. */
  method NextLong(e: EventProbability, random: Random, fuel: nat) returns (r: Option<int>)
    modifies random
    ensures random.stream == old(random.stream)
    ensures var d := BoundedDraw(e, Int64, old(random.stream), old(random.pos), fuel);
            && (d.None? ==> r.None?)
            && (d.Some? ==> r == Some(d.value.value) && random.pos == d.value.next)
    ensures r.Some? ==> 0 <= r.value <= MaxValue(Int64)
  {
    r := NextBounded(e, Int64, random, fuel);
  }

  /** `nextInt`: a value in [0, Integer.MAX_VALUE]. */
  method NextInt(e: EventProbability, random: Random, fuel: nat) returns (r: Option<int>)
    modifies random
    ensures random.stream == old(random.stream)
    ensures var d := BoundedDraw(e, Int32, old(random.stream), old(random.pos), fuel);
            && (d.None? ==> r.None?)
            && (d.Some? ==> r == Some(d.value.value) && random.pos == d.value.next)
    ensures r.Some? ==> 0 <= r.value <= MaxValue(Int32)
  {
    r := NextBounded(e, Int32, random, fuel);
  }
}

/**
 * The picocli converters for `-b mean:deviation` and
 * `-e probability:mean:deviation`: Java's `String.split(":")` and the
 * part-count check. `Double.parseDouble` is the parameter `parse`.
 */
module Converters {
  import opened Wrappers
  import opened Events

  /** The parts separated by single ':' characters, glued back together. */
  function Join(parts: seq<string>): string
    requires |parts| >= 1
    decreases |parts|
  {
    if |parts| == 1 then parts[0] else parts[0] + ":" + Join(parts[1..])
  }

  /** Every ':' separates two parts; empty parts are kept. */
  function SplitAll(s: string): (parts: seq<string>)
    ensures |parts| >= 1
    ensures forall i :: 0 <= i < |parts| ==> ':' !in parts[i]
    ensures Join(parts) == s
  {
    if s == [] then [[]]
    else
      var rest := SplitAll(s[1..]);
      if s[0] == ':' then
        assert ([[]] + rest)[1..] == rest;
        [[]] + rest
      else
        var parts := [[s[0]] + rest[0]] + rest[1..];
        assert |rest| > 1 ==> parts[1..] == rest[1..] && Join(rest) == rest[0] + ":" + Join(rest[1..]);
        assert s == [s[0]] + s[1..];
        parts
  }

  /** Removes the empty parts at the end, as `split` with limit 0 does. */
  function DropTrailingEmpty(parts: seq<string>): (r: seq<string>)
    ensures r <= parts
    ensures forall i :: |r| <= i < |parts| ==> parts[i] == ""
    ensures r == [] || r[|r| - 1] != ""
    decreases |parts|
  {
    if parts == [] then []
    else if parts[|parts| - 1] == "" then DropTrailingEmpty(parts[..|parts| - 1])
    else parts
  }

  /**
   * `s.split(":")`: the input itself when it holds no ':', otherwise its
   * parts without the trailing empty ones.
   */
  function Split(s: string): (parts: seq<string>)
    ensures forall i :: 0 <= i < |parts| ==> ':' !in parts[i]
    ensures ':' !in s ==> parts == [s]
    ensures ':' in s ==> && parts <= SplitAll(s)
                         && (forall i :: |parts| <= i < |SplitAll(s)| ==> SplitAll(s)[i] == "")
                         && (parts == [] || parts[|parts| - 1] != "")
  {
    if ':' !in s then [s] else DropTrailingEmpty(SplitAll(s))
  }

  /** Why a command-line value was refused. */
  datatype ConvertError = InvalidFormat | NumberFormat(text: string) | Rejected(cause: EventError)

  /** `BaseEventProbabilityConverter.convert`: exactly two parts, built by the two-argument constructor. */
  function ConvertBase(value: string, parse: string -> Option<real>): (r: Result<EventProbability, ConvertError>)
    ensures r == Failure(InvalidFormat) <==> |Split(value)| != 2
    ensures r.Success? ==> && |Split(value)| == 2
                           && parse(Split(value)[0]).Some? && parse(Split(value)[1]).Some?
                           && NewBase(parse(Split(value)[0]).value, parse(Split(value)[1]).value) == Success(r.value)
    ensures r.Success? ==> r.value.probability == 1.0 && r.value.flatten
    ensures r.Success? <==> && |Split(value)| == 2
                            && parse(Split(value)[0]).Some? && parse(Split(value)[1]).Some?
                            && NewBase(parse(Split(value)[0]).value, parse(Split(value)[1]).value).Success?
    ensures |Split(value)| == 2 && parse(Split(value)[0]).None? ==> r == Failure(NumberFormat(Split(value)[0]))
    ensures |Split(value)| == 2 && parse(Split(value)[0]).Some? && parse(Split(value)[1]).None?
            ==> r == Failure(NumberFormat(Split(value)[1]))
    ensures |Split(value)| == 2 && parse(Split(value)[0]).Some? && parse(Split(value)[1]).Some?
            && NewBase(parse(Split(value)[0]).value, parse(Split(value)[1]).value).Failure?
            ==> r == Failure(Rejected(NewBase(parse(Split(value)[0]).value, parse(Split(value)[1]).value).error))
  {
    var parts := Split(value);
    if |parts| == 2 then
      match parse(parts[0])
      case None => Failure(NumberFormat(parts[0]))
      case Some(mean) =>
        match parse(parts[1])
        case None => Failure(NumberFormat(parts[1]))
        case Some(deviation) =>
          match NewBase(mean, deviation)
          case Success(e) => Success(e)
          case Failure(err) => Failure(Rejected(err))
    else
      Failure(InvalidFormat)
  }

  /** `EventProbabilityConverter.convert`: exactly three parts, built by the three-argument constructor. */
  function ConvertEvent(value: string, parse: string -> Option<real>): (r: Result<EventProbability, ConvertError>)
    ensures r == Failure(InvalidFormat) <==> |Split(value)| != 3
    ensures r.Success? ==> && |Split(value)| == 3
                           && parse(Split(value)[0]).Some? && parse(Split(value)[1]).Some?
                           && parse(Split(value)[2]).Some?
                           && NewEvent(parse(Split(value)[0]).value, parse(Split(value)[1]).value,
                                       parse(Split(value)[2]).value) == Success(r.value)
    ensures r.Success? ==> Valid(r.value) && !r.value.flatten
    ensures r.Success? <==> && |Split(value)| == 3
                            && parse(Split(value)[0]).Some? && parse(Split(value)[1]).Some?
                            && parse(Split(value)[2]).Some?
                            && NewEvent(parse(Split(value)[0]).value, parse(Split(value)[1]).value,
                                        parse(Split(value)[2]).value).Success?
    ensures |Split(value)| == 3 && parse(Split(value)[0]).None? ==> r == Failure(NumberFormat(Split(value)[0]))
    ensures |Split(value)| == 3 && parse(Split(value)[0]).Some? && parse(Split(value)[1]).None?
            ==> r == Failure(NumberFormat(Split(value)[1]))
    ensures |Split(value)| == 3 && parse(Split(value)[0]).Some? && parse(Split(value)[1]).Some?
            && parse(Split(value)[2]).None?
            ==> r == Failure(NumberFormat(Split(value)[2]))
    ensures |Split(value)| == 3 && parse(Split(value)[0]).Some? && parse(Split(value)[1]).Some?
            && parse(Split(value)[2]).Some?
            && NewEvent(parse(Split(value)[0]).value, parse(Split(value)[1]).value,
                        parse(Split(value)[2]).value).Failure?
            ==> r == Failure(Rejected(NewEvent(parse(Split(value)[0]).value, parse(Split(value)[1]).value,
                                               parse(Split(value)[2]).value).error))
  {
    var parts := Split(value);
    if |parts| == 3 then
      match parse(parts[0])
      case None => Failure(NumberFormat(parts[0]))
      case Some(probability) =>
        match parse(parts[1])
        case None => Failure(NumberFormat(parts[1]))
        case Some(mean) =>
          match parse(parts[2])
          case None => Failure(NumberFormat(parts[2]))
          case Some(deviation) =>
            match NewEvent(probability, mean, deviation)
            case Success(e) => Success(e)
            case Failure(err) => Failure(Rejected(err))
    else
      Failure(InvalidFormat)
  }

  /** A part without ':' splits to itself. */
  lemma {:induction false} SplitAllPart(a: string)
    requires ':' !in a
    ensures SplitAll(a) == [a]
  {
    if a != [] {
      SplitAllPart(a[1..]);
    }
  }

  /** A leading part followed by ':' becomes the first element of the split. */
  lemma {:induction false} SplitAllCons(a: string, b: string)
    requires ':' !in a
    ensures SplitAll(a + ":" + b) == [a] + SplitAll(b)
  {
    var s := a + ":" + b;
    if a == [] {
      assert s[1..] == b;
    } else {
      assert s[1..] == a[1..] + ":" + b;
      SplitAllCons(a[1..], b);
      var rest := [a[1..]] + SplitAll(b);
      assert rest[0] == a[1..] && rest[1..] == SplitAll(b);
      assert [s[0]] + a[1..] == a;
    }
  }

  /** `a:b` with a non-empty last part splits into exactly two parts. */
  lemma SplitTwo(a: string, b: string)
    requires ':' !in a && ':' !in b && b != ""
    ensures Split(a + ":" + b) == [a, b]
  {
    SplitAllCons(a, b);
    SplitAllPart(b);
    assert (a + ":" + b)[|a|] == ':';
  }

  /** `a:b:c` with a non-empty last part splits into exactly three parts. */
  lemma SplitThree(a: string, b: string, c: string)
    requires ':' !in a && ':' !in b && ':' !in c && c != ""
    ensures Split(a + ":" + b + ":" + c) == [a, b, c]
  {
    var s := a + ":" + b + ":" + c;
    assert s == a + ":" + (b + ":" + c);
    SplitAllCons(a, b + ":" + c);
    SplitAllCons(b, c);
    SplitAllPart(c);
    var all := [a] + ([b] + [c]);
    assert SplitAll(s) == all && all == [a, b, c];
    assert s[|a|] == ':';
    assert DropTrailingEmpty(all) == all;
  }

  /** A trailing ':' is dropped, so `mean:deviation:` still has two parts. */
  lemma SplitTrailingSeparator(a: string, b: string)
    requires ':' !in a && ':' !in b && b != ""
    ensures Split(a + ":" + b + ":") == [a, b]
  {
    var s := a + ":" + b + ":";
    assert s == a + ":" + (b + ":" + "");
    SplitAllCons(a, b + ":" + "");
    SplitAllCons(b, "");
    assert SplitAll(s) == [a, b, ""];
    assert s[|a|] == ':';
    assert SplitAll(s)[..2] == [a, b];
  }

  /** The command-line values the tests refuse for their part count. */
  lemma WrongPartCounts(parse: string -> Option<real>)
    ensures ConvertBase("50", parse) == Failure(InvalidFormat)
    ensures ConvertBase("string", parse) == Failure(InvalidFormat)
    ensures ConvertEvent("string", parse) == Failure(InvalidFormat)
    ensures ConvertEvent("0.01:200", parse) == Failure(InvalidFormat)
  {
    SplitTwo("0.01", "200");
    assert "0.01" + ":" + "200" == "0.01:200";
  }

  /** `-b 50:aa` has two parts, but its second is not a number. */
  lemma NonNumericPartRefused(parse: string -> Option<real>)
    requires parse("50") == Some(50.0) && parse("aa").None?
    ensures ConvertBase("50:aa", parse) == Failure(NumberFormat("aa"))
  {
    SplitTwo("50", "aa");
    assert "50" + ":" + "aa" == "50:aa";
  }

  /** `-e 101:200:4` has the right shape but is refused by the constructor's probability check. */
  lemma ProbabilityAboveOneRefused(parse: string -> Option<real>)
    requires parse("101") == Some(101.0) && parse("200") == Some(200.0) && parse("4") == Some(4.0)
    ensures ConvertEvent("101:200:4", parse) == Failure(Rejected(ProbabilityOutOfRange))
  {
    SplitThree("101", "200", "4");
    assert "101" + ":" + "200" + ":" + "4" == "101:200:4";
  }
}
