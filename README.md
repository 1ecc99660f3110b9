# HdrHistogram CLI latency generator, modelled in Dafny

`HdrHistogramCLI` is a command-line generator of simulated latencies. A
latency is the sum of one contribution per *event*. An `EventProbability`
fires with some probability. When it fires it contributes `mean + g *
deviation`, where `g` is a Gaussian draw (taken as `|g|` for the base event
`-b`). When it does not fire it contributes 0. A `ProbabilitySupplier` adds
one contribution of every event, base event first. It repeats that round
while the sum is not positive, and it never resets the accumulator between
rounds. The `test` command (`testMerge`) feeds `count` generated values into
a comparator. The comparator records each value into one histogram and into
batches of 10000. It merges the batches through an encode/decode round trip
and checks that the merged histogram equals the single one.

The model has these modules:

- `JavaArith`: Java `int`/`long` two's-complement wrap-around of `+=`, and
  the saturating double-to-integer casts.
- `RandomSource`: `java.util.Random` as a fixed stream of uniform and
  Gaussian draws, read one position per call.
- `Events`:
  - the record's validating constructor and its two convenience constructors;
  - `nextDouble`;
  - the resampling loops of `nextLong` / `nextInt`, as the spec function
    `BoundedDraw`, characterised in both directions as "the truncation of
    the first in-range attempt".
- `Converters`:
  - `String.split(":")`, including the removal of trailing empty parts;
  - the two picocli converters.
- `Supplier`:
  - the rounds and retry loops of `getAsInt` / `getAsLong` / `getAsDouble`,
    as spec functions (`RoundFixed`, `RetryFixed`, `RoundDouble`,
    `RetryDouble`) with lemmas about them;
  - the imperative methods of the `ProbabilitySupplier` class, proved equal
    to those functions.
- `Histograms`: the part of the HdrHistogram API the comparators use. A
  histogram is the multiset of its recorded values.
- `MergeCompare`: one generic `HistogramCompare<T>` class, which stands for
  `LongHistogramCompare`, `IntHistogramCompare` and `DoubleHistogramCompare`
  (the three differ only in the histogram class and the value type: `int`
  for the first two, `real` for the third; `DoubleHistogramCompare.compare`
  also prints, see "## Left out"). It carries the invariant
  "merged values + pending batch = all values", which makes `compare()`
  return true.
- `Cli`: `validate`, `getProbabilitySupplier`, `processInt` / `processLong` /
  `processDouble` and the dispatch of `testMerge`.

All retry loops (`nextInt`/`nextLong` resampling and the `getAsX` rounds)
are bounded by a `fuel` parameter. Running out of fuel is an explicit
`None` / `Exhausted` result.

## Model

| member | source | states |
|---|---|---|
| Events.New | src/main/java/net/edmison/HdrHistogram/cli/EventProbability.java:9-23 | construction succeeds iff 0 <= probability <= 1, mean > 0 and deviation > 0; each failure names the first check that fails, in the source's order, and a success holds exactly the given fields |
| Events.NewBase | src/main/java/net/edmison/HdrHistogram/cli/EventProbability.java:25-27 | the two-argument form succeeds iff mean and deviation are positive, and then always fires (probability 1.0) with flattening on |
| Events.NewEvent | src/main/java/net/edmison/HdrHistogram/cli/EventProbability.java:29-31 | the three-argument form has the canonical constructor's success condition and never flattens |
| Events.DoubleDraw | src/main/java/net/edmison/HdrHistogram/cli/EventProbability.java:39-61 | one draw consumes one position when the event does not fire (contributing 0) and two when it fires |
| Events.SilentDrawIsZero | src/main/java/net/edmison/HdrHistogram/cli/EventProbability.java:56-60 | an event that does not fire contributes 0 and consumes only its uniform draw |
| Events.FiringDrawUsesGaussian | src/main/java/net/edmison/HdrHistogram/cli/EventProbability.java:56-58 | a firing event consumes exactly one Gaussian after the uniform; unflattened, it contributes mean + g * deviation |
| Events.CertainEventFires | src/main/java/net/edmison/HdrHistogram/cli/EventProbability.java:56 | with probability 1.0 the event fires on every draw, since `nextDouble` is below 1 |
| Events.FlattenedAtLeastMean | src/main/java/net/edmison/HdrHistogram/cli/EventProbability.java:57-58 | a flattened event that fires never contributes less than its mean |
| Events.NextDouble | src/main/java/net/edmison/HdrHistogram/cli/EventProbability.java:39-61 | the method returns the value and stream position that the `DoubleDraw` spec gives for the old position |
| Events.BoundedDraw | src/main/java/net/edmison/HdrHistogram/cli/EventProbability.java:63-77 | a finished resampling returns a value in [0, MAX_VALUE] and has consumed at least one draw |
| Events.BoundedDrawTakesFirstInRange | src/main/java/net/edmison/HdrHistogram/cli/EventProbability.java:63-77 | if attempt k is the first whose max(0, v) does not exceed (double) MAX_VALUE, the sampler returns its truncation and stops right after it |
| Events.BoundedDrawIsFirstInRange | src/main/java/net/edmison/HdrHistogram/cli/EventProbability.java:63-77 | conversely, every value the sampler returns is the truncation of the first in-range attempt |
| Events.FlattenedBoundedAtLeastMean | src/test/java/net/edmison/HdrHistogram/cli/EventProbabilityTest.java:44-49 | an always-firing flattened event sampled as an integer is at least the integer part of its mean (or the saturated maximum) |
| Events.NextBounded | src/main/java/net/edmison/HdrHistogram/cli/EventProbability.java:63-77 | the do-while loop returns what `BoundedDraw` specifies and leaves the stream at its end position |
| Events.NextLong | src/main/java/net/edmison/HdrHistogram/cli/EventProbability.java:63-69 | `nextLong` is `BoundedDraw` at 64 bits, with a result in [0, Long.MAX_VALUE] |
| Events.NextInt | src/main/java/net/edmison/HdrHistogram/cli/EventProbability.java:71-77 | `nextInt` is `BoundedDraw` at 32 bits, with a result in [0, Integer.MAX_VALUE] |
| JavaArith.Wrap | src/main/java/net/edmison/HdrHistogram/cli/ProbabilitySupplier.java:28 | an `int`/`long` `+=` stores an in-range value, and leaves an in-range sum unchanged |
| JavaArith.WrapAdd | src/main/java/net/edmison/HdrHistogram/cli/ProbabilitySupplier.java:25-31 | wrapping after every addition equals wrapping the plain sum once |
| JavaArith.Truncate | src/main/java/net/edmison/HdrHistogram/cli/EventProbability.java:68 | the cast of a value in [0, (double) MAX_VALUE] lies in [0, MAX_VALUE], is at most the value, is its floor below MAX_VALUE + 1, and saturates to MAX_VALUE at and above it (`(long) 2^63 == Long.MAX_VALUE`) |
| RandomSource.Random.constructor | src/main/java/net/edmison/HdrHistogram/cli/ProbabilitySupplier.java:11 | `new Random()` starts an entropy-derived stream at position 0 |
| RandomSource.Random.SetSeed | src/main/java/net/edmison/HdrHistogram/cli/ProbabilitySupplier.java:21 | after `setSeed` the stream is the one the seed determines, from its start |
| RandomSource.Random.NextDouble | src/main/java/net/edmison/HdrHistogram/cli/EventProbability.java:56 | returns the uniform draw at the current position and advances by one |
| RandomSource.Random.NextGaussian | src/main/java/net/edmison/HdrHistogram/cli/EventProbability.java:57 | returns the Gaussian draw at the current position and advances by one |
| Converters.SplitAll | src/main/java/net/edmison/HdrHistogram/cli/EventProbability.java:82 | the parts contain no ':' and joining them with ':' gives back the input |
| Converters.DropTrailingEmpty | src/main/java/net/edmison/HdrHistogram/cli/EventProbability.java:82 | the result is a prefix, everything removed is empty, and the last part kept is non-empty |
| Converters.Split | src/main/java/net/edmison/HdrHistogram/cli/EventProbability.java:93 | `split(":")` gives `[s]` when there is no ':'; otherwise it gives the full split minus its trailing empty parts |
| Converters.ConvertBase | src/main/java/net/edmison/HdrHistogram/cli/EventProbability.java:80-89 | succeeds iff the value splits into two parts that both parse and pass the two-argument constructor, and then yields that constructor's event; otherwise it is refused for its format iff it does not split into two parts, with `NumberFormat` of the first part that does not parse, or with the constructor's own error |
| Converters.ConvertEvent | src/main/java/net/edmison/HdrHistogram/cli/EventProbability.java:91-101 | succeeds iff the value splits into three parts that all parse and pass the three-argument constructor, and then yields that constructor's event; otherwise it is refused for its format iff it does not split into three parts, with `NumberFormat` of the first part that does not parse, or with the constructor's own error |
| Converters.SplitTwo | src/main/java/net/edmison/HdrHistogram/cli/EventProbability.java:82-84 | `a:b` with ':'-free parts and a non-empty `b` splits into exactly `[a, b]` |
| Converters.SplitThree | src/main/java/net/edmison/HdrHistogram/cli/EventProbability.java:93-96 | `a:b:c` with ':'-free parts and a non-empty `c` splits into exactly `[a, b, c]` |
| Converters.SplitTrailingSeparator | src/main/java/net/edmison/HdrHistogram/cli/EventProbability.java:82-83 | `a:b:` still has two parts, because the trailing empty part is dropped |
| Converters.WrongPartCounts | src/test/java/net/edmison/HdrHistogram/cli/HDRHistogramCLITest.java:124-174 | `-b 50`, `-b string`, `-e string` and `-e 0.01:200` are refused for their part count |
| Converters.NonNumericPartRefused | src/test/java/net/edmison/HdrHistogram/cli/HDRHistogramCLITest.java:136-138 | `-b 50:aa` is refused at the number parse of `aa` |
| Converters.ProbabilityAboveOneRefused | src/test/java/net/edmison/HdrHistogram/cli/HDRHistogramCLITest.java:172-174 | `-e 101:200:4` is refused by the constructor's probability check |
| Supplier.RoundFixed | src/main/java/net/edmison/HdrHistogram/cli/ProbabilitySupplier.java:27-29 | a finished round keeps an in-range accumulator in range and never moves the stream backwards |
| Supplier.RetryFixed | src/main/java/net/edmison/HdrHistogram/cli/ProbabilitySupplier.java:24-43 | a finished do-while loop ends with a strictly positive accumulator |
| Supplier.RoundDouble | src/main/java/net/edmison/HdrHistogram/cli/ProbabilitySupplier.java:49-51 | a double round draws exactly one contribution per event, each consuming at least one position |
| Supplier.RetryDouble | src/main/java/net/edmison/HdrHistogram/cli/ProbabilitySupplier.java:45-54 | a finished `getAsDouble` loop ends with a strictly positive accumulator |
| Supplier.RoundFixedDrawn | src/main/java/net/edmison/HdrHistogram/cli/ProbabilitySupplier.java:27-29 | a round draws exactly one contribution per event, each in [0, MAX_VALUE] |
| Supplier.RoundFixedSum | src/main/java/net/edmison/HdrHistogram/cli/ProbabilitySupplier.java:27-29 | a round leaves the accumulator at the wrapped sum of its start and all its contributions |
| Supplier.RetryFixedDrawn | src/main/java/net/edmison/HdrHistogram/cli/ProbabilitySupplier.java:24-43 | a finished call draws at least one full round, and every contribution is in [0, MAX_VALUE] |
| Supplier.RetryFixedSum | src/main/java/net/edmison/HdrHistogram/cli/ProbabilitySupplier.java:24-43 | a finished call returns a value in (0, MAX_VALUE] equal to the wrapped sum of every contribution of every round (the accumulator is never reset) |
| Supplier.RetryWithoutOverflow | src/main/java/net/edmison/HdrHistogram/cli/ProbabilitySupplier.java:24-43 | when the total does not overflow, the result is the plain sum, and every round before the last drew only zeros |
| Supplier.FailedRoundIsZero | src/main/java/net/edmison/HdrHistogram/cli/ProbabilitySupplier.java:30 | a first round that ends at or below 0 without overflow drew only zeros |
| Supplier.RoundDoubleSum | src/main/java/net/edmison/HdrHistogram/cli/ProbabilitySupplier.java:49-51 | a double round draws one contribution per event and adds all of them to the accumulator |
| Supplier.RetryDoubleSum | src/main/java/net/edmison/HdrHistogram/cli/ProbabilitySupplier.java:45-54 | a finished `getAsDouble` returns a positive value equal to the sum of every contribution of every round |
| Supplier.ProbabilitySupplier.constructor | src/main/java/net/edmison/HdrHistogram/cli/ProbabilitySupplier.java:14-16 | keeps the event list and owns a fresh unseeded generator at position 0 |
| Supplier.ProbabilitySupplier.Seeded | src/main/java/net/edmison/HdrHistogram/cli/ProbabilitySupplier.java:18-21 | keeps the event list and owns a fresh generator on the seed's stream, at position 0 |
| Supplier.ProbabilitySupplier.SampleRoundFixed | src/main/java/net/edmison/HdrHistogram/cli/ProbabilitySupplier.java:27-29 | the for-each loop computes the `RoundFixed` accumulator and end position, keeping the accumulator in range |
| Supplier.ProbabilitySupplier.GetAsFixed | src/main/java/net/edmison/HdrHistogram/cli/ProbabilitySupplier.java:24-43 | the do-while loop returns the `RetryFixed` result and end position; a result is in (0, MAX_VALUE] |
| Supplier.ProbabilitySupplier.GetAsInt | src/main/java/net/edmison/HdrHistogram/cli/ProbabilitySupplier.java:24-32 | `getAsInt` is `RetryFixed` at 32 bits; a result is in (0, Integer.MAX_VALUE] |
| Supplier.ProbabilitySupplier.GetAsLong | src/main/java/net/edmison/HdrHistogram/cli/ProbabilitySupplier.java:34-43 | `getAsLong` is `RetryFixed` at 64 bits; a result is in (0, Long.MAX_VALUE] |
| Supplier.ProbabilitySupplier.SampleRoundDouble | src/main/java/net/edmison/HdrHistogram/cli/ProbabilitySupplier.java:49-51 | the for-each loop computes the `RoundDouble` accumulator, contributions and end position |
| Supplier.ProbabilitySupplier.GetAsDouble | src/main/java/net/edmison/HdrHistogram/cli/ProbabilitySupplier.java:45-54 | the do-while loop returns the `RetryDouble` result and end position; a result is positive |
| Histograms.Histogram.constructor | src/main/java/net/edmison/HdrHistogram/cli/LongHistogramCompare.java:8 | a new histogram holds no values |
| Histograms.Histogram.RecordValue | src/main/java/net/edmison/HdrHistogram/cli/LongHistogramCompare.java:26-27 | recording adds exactly one occurrence of the value; the total count grows by one |
| Histograms.Histogram.Add | src/main/java/net/edmison/HdrHistogram/cli/LongHistogramCompare.java:43 | `add` takes in every value of the other histogram and leaves that one unchanged |
| Histograms.Histogram.EncodeIntoByteBuffer | src/main/java/net/edmison/HdrHistogram/cli/LongHistogramCompare.java:39-41 | the buffer encodes exactly the recorded values |
| Histograms.Histogram.DecodeFromByteBuffer | src/main/java/net/edmison/HdrHistogram/cli/LongHistogramCompare.java:42 | decoding gives a new histogram holding what the buffer encodes |
| Histograms.Histogram.Equals | src/main/java/net/edmison/HdrHistogram/cli/LongHistogramCompare.java:51 | a histogram equals itself, and equal histograms hold the same number of values; under the multiset abstraction, equality is equality of recorded values |
| MergeCompare.HistogramCompare.constructor | src/main/java/net/edmison/HdrHistogram/cli/LongHistogramCompare.java:21-23 | empty histograms, no merger yet, counts 0, the given batch size, and the conservation invariant |
| MergeCompare.HistogramCompare.Default | src/main/java/net/edmison/HdrHistogram/cli/LongHistogramCompare.java:17-19 | the same state, with batch size 10000 |
| MergeCompare.HistogramCompare.Accrue | src/main/java/net/edmison/HdrHistogram/cli/LongHistogramCompare.java:25-32 | the value goes into the single histogram and the count grows by one; it fails iff the batch size is 0; a batch is reduced exactly when the count reaches a multiple of the batch size, and is otherwise extended by the value; the invariant is kept |
| MergeCompare.HistogramCompare.Reduce | src/main/java/net/edmison/HdrHistogram/cli/LongHistogramCompare.java:34-47 | `merger1` ends up holding the previously merged values plus the batch; the first reduce adopts the batch itself without counting a merge, later ones count one; a fresh empty batch is installed |
| MergeCompare.HistogramCompare.Compare | src/main/java/net/edmison/HdrHistogram/cli/LongHistogramCompare.java:49-52 | runs one more reduce (its new state: one more reduce, the merge count and `merger1` as `Reduce` gives, a fresh empty batch, the single histogram and value count unchanged), after which `merger1` holds exactly the single histogram's values, so `compare()` returns true |
| Cli.Validate | src/main/java/net/edmison/HdrHistogram/cli/HdrHistogramCLI.java:109-114 | passes iff the count is at least 1 |
| Cli.EventList | src/main/java/net/edmison/HdrHistogram/cli/HdrHistogramCLI.java:132-134 | the list is the base event followed by the `-e` events in order |
| Cli.StartStream | src/main/java/net/edmison/HdrHistogram/cli/HdrHistogramCLI.java:136-138 | the supplier draws from the seeded stream iff a seed is given |
| Cli.GetProbabilitySupplier | src/main/java/net/edmison/HdrHistogram/cli/HdrHistogramCLI.java:131-140 | a fresh supplier over that list and that stream, at position 0 |
| Cli.GenerateFixed | src/main/java/net/edmison/HdrHistogram/cli/HdrHistogramCLI.java:116-124 | `n` supplier calls that all finish yield exactly `n` values |
| Cli.GenerateDouble | src/main/java/net/edmison/HdrHistogram/cli/HdrHistogramCLI.java:126-129 | `n` supplier calls that all finish yield exactly `n` values |
| Cli.GenerateFixedValues | src/main/java/net/edmison/HdrHistogram/cli/HdrHistogramCLI.java:116-124 | generating n integers that completes yields exactly n values, each in (0, MAX_VALUE] |
| Cli.GenerateDoubleValues | src/main/java/net/edmison/HdrHistogram/cli/HdrHistogramCLI.java:126-129 | generating n doubles that completes yields exactly n positive values |
| Cli.SeededGenerationIgnoresEntropy | src/main/java/net/edmison/HdrHistogram/cli/HdrHistogramCLI.java:136-138 | with `-s`, the generated values do not depend on the unseeded entropy; this is the determinism the stream abstraction gives directly, since a seeded supplier reads only the seed's stream |
| Cli.NextFixed | src/main/java/net/edmison/HdrHistogram/cli/HdrHistogramCLI.java:116-124 | the supplier call an `IntStream` or `LongStream` makes is `RetryFixed` at the stream's width |
| Cli.StreamFixed | src/main/java/net/edmison/HdrHistogram/cli/HdrHistogramCLI.java:116-124 | `generate(supplier).limit(n)` yields the `GenerateFixed` values in order, or nothing if a call runs out of fuel |
| Cli.StreamDouble | src/main/java/net/edmison/HdrHistogram/cli/HdrHistogramCLI.java:126-129 | `generate(supplier).limit(n)` yields the `GenerateDouble` values in order, or nothing if a call runs out of fuel |
| Cli.ProcessFixed | src/main/java/net/edmison/HdrHistogram/cli/HdrHistogramCLI.java:116-124 | a negative count fails at `limit`; count 0 yields nothing; a missing base fails at the first draw; otherwise the result is the `GenerateFixed` values, exactly `count` of them, each in (0, MAX_VALUE] |
| Cli.ProcessInt | src/main/java/net/edmison/HdrHistogram/cli/HdrHistogramCLI.java:116-119 | the same at 32 bits |
| Cli.ProcessLong | src/main/java/net/edmison/HdrHistogram/cli/HdrHistogramCLI.java:121-124 | the same at 64 bits |
| Cli.ProcessDouble | src/main/java/net/edmison/HdrHistogram/cli/HdrHistogramCLI.java:126-129 | the same error cases; otherwise the `GenerateDouble` values, exactly `count` of them, each positive |
| Cli.AccrueAll | src/main/java/net/edmison/HdrHistogram/cli/HdrHistogramCLI.java:150 | feeding values to `accrue` in order adds exactly them to the single histogram and keeps the comparator's invariant |
| Cli.MergeLongValues | src/main/java/net/edmison/HdrHistogram/cli/HdrHistogramCLI.java:148-156 | the INT and LONG arms: they succeed iff 64-bit generation completes, and a success always reports equal histograms |
| Cli.MergeDoubleValues | src/main/java/net/edmison/HdrHistogram/cli/HdrHistogramCLI.java:158-161 | the DOUBLE arm: it succeeds iff double generation completes, and a success always reports equal histograms |
| Cli.TestMerge | src/main/java/net/edmison/HdrHistogram/cli/HdrHistogramCLI.java:143-172 | a count below 1 is refused first; a missing base fails; otherwise it succeeds iff generation completes (INT and LONG both by `processLong`, DOUBLE by `processDouble`); it never hits the negative `limit`; every completed run reports "Histograms are equal" |

## Left out

- `java.util.Random` internals: the 48-bit LCG, the polar method of `nextGaussian`, and how `new Random()` picks its seed. The generator is an abstract stream of draws. The unseeded stream (`entropy`) and the seed-to-stream map (`seeding`) are parameters.
- Floating point: doubles are exact reals. Rounding, NaN and infinities are not modelled. `(double) Long.MAX_VALUE` is the exact 2^63 that Java rounds to, and the saturating `(long)` cast of 2^63 is modelled.
- `Double.parseDouble` is the parameter `parse` of the converters. Its grammar is not modelled.
- Fuel: the unbounded do-while loops of `nextInt`/`nextLong` and of `getAsInt`/`getAsLong`/`getAsDouble` stop after `fuel` attempts. Runs that would loop longer end in `None` or `Exhausted`, which Java never returns.
- Stream consumers: `forEachOrdered(consumer)` is modelled by returning the generated values in order; `testMerge` then passes them to `accrue`. This is equivalent because `accrue` never fails at the default batch size and never touches the generator.
- HdrHistogram internals: bucketing, significant digits, auto-resize and the byte-buffer wire format. A histogram is the multiset of its values. The encode/decode round trip is lossless by construction, which is an assumption about the library. `equals` compares the recorded values.
- Cli.MergeDoubleValues: the proved `equal` is a fact about the multiset abstraction only. A real `DoubleHistogram` auto-resizes and rescales its buckets, so `allHistogram.equals(merger1)` may be false in the library, and the DOUBLE arm of `testMerge` (and so Cli.TestMerge) may then print "Histograms are not equal".
- `IntCountsHistogram`'s 32-bit count overflow, and overflow of `valueCount` (a `long`) and `mergeCount` (an `int`), are not modelled.
- MergeCompare.HistogramCompare.Accrue: Dafny's `%` differs from Java's for negative operands. The model only compares it with 0, and the count never goes negative, so the two agree.
- `DoubleHistogramCompare.compare` also prints the minimum and maximum values (src/main/java/net/edmison/HdrHistogram/cli/DoubleHistogramCompare.java:51-52). Printing is not modelled.
- `testMerge`'s "Histograms are (not) equal" message is the returned boolean. The `default` branch of its switch is unreachable over the three-value enum.
- picocli parsing, option defaults and exit codes; `main`/`execute`; the `data`, `histogram` and URL-generating commands (`dataGen`, `generate`, `generateLink`); URL encoding. These are outside the generator core.
- The statistical tests (flattening, probability effect) are about distributions over many seeds. Only their deterministic parts are modelled (`FlattenedBoundedAtLeastMean`).
