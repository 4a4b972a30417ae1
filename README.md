# bottles — the "99 Bottles of Beer" verse emitter, modelled in Dafny

The Java library `Bottles` emits the song "99 Bottles of Beer" through callbacks
that the caller supplies. `emitLine` looks up one of five fixed templates by line
index. Lines 0 and 1 each ask the `start` supplier for a number; they ask again
for each line and never cache the first answer. Line 2 runs the `takenDown` hook
and falls through to emit its literal. Line 3 emits a literal. Line 4 asks the
`next` supplier. `emitVerse` calls `emitLine` for the indices 0 to 4 in order.
Each of the two methods has a second, three-argument form whose `takenDown` is a
no-op. The library keeps no state and takes no locks: whatever is shared lives in
the caller's callbacks.

The model has three modules.

- `Formatting` (Formatting.dfy) covers the parts of the Java library that the
  templates rely on: the 32-bit `int`, `Integer.toString` (what `%s` does with an
  int), and `String.formatted` with one argument.
- `Bottles` (Bottles.dfy) holds the template table, the callbacks and the four
  emitting methods.
- `BottlesTest` (BottlesTest.dfy) holds the three sequential drivers of the test
  suite and the whole-song facts they assert.

The callbacks are data:

- a number supplier is `Constant(n)` (the lambda `() -> n`) or `CounterGet` (the
  shared counter's `get`);
- the `takenDown` hook is `NoOp` (`() -> {}`) or `CounterDecrementAndGet`.

A `Caller` object holds the state those callbacks act on. `output` is the list
that the emitter (`result::add`) appends to. `counter` is the shared counter.
`trace` logs every callback invocation in order, so the contracts can say which
callbacks ran, how often and in what order. Each emitting method is proved
against a pure specification function on a `World` value (output, counter,
trace). The properties the source promises are lemmas about those functions.

Each driver is a method that makes its own `Caller` and returns the result list,
just as each test builds its own `ArrayList`. The driver's postconditions are the
test's assertions.

## Model

| member | source | states |
|---|---|---|
| `Formatting.NatDigits` | src/main/java/net/bzethmayr/bottles/Bottles.java:46 | rendering a number with `%s` gives at least one character, all of them decimal digits, with no leading zero unless the number is 0 |
| `Formatting.Decimal` | src/main/java/net/bzethmayr/bottles/Bottles.java:46 | the rendered int is never empty; it starts with a minus sign exactly when the number is negative, and starts with '0' only for 0 |
| `Formatting.DecimalRoundTrip` | src/main/java/net/bzethmayr/bottles/Bottles.java:46 | the number can be read back from its rendered text, so the rendering loses nothing |
| `Formatting.DecimalInjective` | src/main/java/net/bzethmayr/bottles/Bottles.java:54 | two numbers render to the same text if and only if they are equal, so equal output lines mean equal supplied numbers |
| `Formatting.Formatted` | src/main/java/net/bzethmayr/bottles/Bottles.java:46 | a format with no conversion comes back unchanged, as Java returns it when the argument is surplus; a format with a "%s" grows by the argument's length less the two placeholder characters |
| `Formatting.FormattedReplaces` | src/main/java/net/bzethmayr/bottles/Bottles.java:46 | the argument takes the place of the first "%s", and the text before and after it is kept as it is |
| `Bottles.FormatsAreLines` | src/main/java/net/bzethmayr/bottles/Bottles.java:18-24 | templates 0 and 4 filled with n give "n bottles of beer on the wall"; template 1 gives "n bottles of beer"; templates 2 and 3 are the literals "take one down" and "pass it around" |
| `Bottles.EmitLineSpec` | src/main/java/net/bzethmayr/bottles/Bottles.java:42-58 | a line succeeds if and only if its index is in 0..4; any other index fails with ArrayIndexOutOfBounds for that index, from the table lookup, before the switch |
| `Bottles.EmitLineCases` | src/main/java/net/bzethmayr/bottles/Bottles.java:43-58 | per index: 0 and 1 each ask `start` once and emit the wall line or the beer line for that fresh value; 2 runs `takenDown` and then emits "take one down"; 3 only emits "pass it around"; 4 asks `next` once and emits its wall line |
| `Bottles.EmitLineOutput` | src/main/java/net/bzethmayr/bottles/Bottles.java:43-58 | each valid index appends exactly one line, the song's line at that index, and leaves every earlier line unchanged; only index 2 can change the counter, and only through `takenDown` |
| `Bottles.EmitLineTrace` | src/main/java/net/bzethmayr/bottles/Bottles.java:44-55 | each valid index logs exactly its own callback invocations, in source order (the hook before the emit on line 2), after the earlier ones |
| `Bottles.EmitLineCalls` | src/main/java/net/bzethmayr/bottles/Bottles.java:44-55 | `start` is called once by lines 0 and 1 and never by the others; `takenDown` is called once by line 2 only; `next` once by line 4 only; the emitter once by every line |
| `Bottles.EmitLinesSpec` | src/main/java/net/bzethmayr/bottles/Bottles.java:100-101 | after the first k line indices the output has grown by exactly k lines and its earlier contents are intact |
| `Bottles.EmitVerseSteps` | src/main/java/net/bzethmayr/bottles/Bottles.java:100-101 | a verse is the five line steps in index order 0..4, each acting on the state the previous step left |
| `Bottles.EmitVerseEffect` | src/main/java/net/bzethmayr/bottles/Bottles.java:97-102 | a verse appends exactly the five lines of the song for the start value and the next value, in order; `start` is asked twice with no caching; `takenDown` runs just before "take one down"; `next` is read after the hook ran; the counter changes only through the hook |
| `Bottles.EmitVerseCalls` | src/main/java/net/bzethmayr/bottles/Bottles.java:97-102 | per verse, `start` is called twice, `takenDown` once, `next` once and the emitter five times |
| `Bottles.DecrementedIsIntSubtraction` | src/test/java/net/bzethmayr/bottles/BottlesTest.java:112 | `decrementAndGet` gives Java's int subtraction of one: the exact difference reduced to its low 32 bits, so the 32-bit minimum wraps to the maximum |
| `Bottles.SharedCounterVerse` | src/test/java/net/bzethmayr/bottles/BottlesTest.java:111-112 | for every counter value c, with one shared counter read by both suppliers and decremented by the hook, a verse emits the same lines as the independent suppliers c and c-1 (int subtraction, wrapping like the decrement) with a no-op hook, and leaves the counter at c-1 |
| `Bottles.Caller.constructor` | src/test/java/net/bzethmayr/bottles/BottlesTest.java:108-109 | a fresh caller has an empty result list, the given counter value and no callback invocations |
| `Bottles.Caller.GetAsInt` | src/main/java/net/bzethmayr/bottles/Bottles.java:46 | a constant supplier returns its value and a counter read returns the current counter; the only state change is logging the call |
| `Bottles.Caller.Run` | src/main/java/net/bzethmayr/bottles/Bottles.java:49 | the no-op hook changes nothing but the log; the counter hook lowers the counter by one, wrapping at the 32-bit minimum |
| `Bottles.Caller.Accept` | src/main/java/net/bzethmayr/bottles/Bottles.java:46 | the emitter appends the line to the end of the result list |
| `Bottles.EmitLine` | src/main/java/net/bzethmayr/bottles/Bottles.java:35-59 | leaves the caller's state exactly as `EmitLineSpec` says; an out-of-range index fails and leaves the caller's state unchanged; the default branch is unreachable |
| `Bottles.EmitLineNoTakenDown` | src/main/java/net/bzethmayr/bottles/Bottles.java:70-74 | behaves exactly like `EmitLine` with a no-op `takenDown` |
| `Bottles.EmitVerse` | src/main/java/net/bzethmayr/bottles/Bottles.java:97-102 | leaves the caller's state exactly as `EmitVerseSpec` says: lines 0..4 in order |
| `Bottles.EmitVerseNoTakenDown` | src/main/java/net/bzethmayr/bottles/Bottles.java:84-87 | behaves exactly like `EmitVerse` with a no-op `takenDown` |
| `BottlesTest.SongLength` | src/test/java/net/bzethmayr/bottles/BottlesTest.java:69-73 | looping n from top down to n+1 with suppliers n and n-1 yields exactly five lines per verse |
| `BottlesTest.SongOpening` | src/test/java/net/bzethmayr/bottles/BottlesTest.java:29-35 | a song that is not empty opens with the verse of its top count |
| `BottlesTest.SongEnding` | src/test/java/net/bzethmayr/bottles/BottlesTest.java:56-58 | a song that is not empty ends with the wall line of its last `next` value |
| `BottlesTest.ExpectedLines` | src/test/java/net/bzethmayr/bottles/BottlesTest.java:25-35 | the verse for 99 and 98 is exactly the four expected opening lines plus "98 bottles of beer on the wall" |
| `BottlesTest.WallLiteral0` | src/test/java/net/bzethmayr/bottles/BottlesTest.java:56-58 | the wall line for 0 is "0 bottles of beer on the wall", the line the full song must end with |
| `BottlesTest.FullSong` | src/test/java/net/bzethmayr/bottles/BottlesTest.java:72-76 | the 99-verse song has 495 lines, opens with the four expected lines and ends with "0 bottles of beer on the wall" |
| `BottlesTest.EmitVerseGivenIndependentSuppliersEmitsExpected` | src/test/java/net/bzethmayr/bottles/BottlesTest.java:44-53 | one verse with suppliers 99 and 98 is exactly the five expected lines |
| `BottlesTest.EmitVersesGivenIndependentSuppliersEmitsAll` | src/test/java/net/bzethmayr/bottles/BottlesTest.java:66-77 | the sequential loop from 99 down to 1 with independent suppliers emits the whole song: 495 lines, the expected opening and the expected last line |
| `BottlesTest.EmitVersesGivenDependentSuppliersEmitsFromSharedValue` | src/test/java/net/bzethmayr/bottles/BottlesTest.java:107-119 | the same loop with one shared counter emits exactly the song of the independent suppliers, line for line, and leaves the counter at 0 |

## Left out

- `multipleEmitters_givenIndependentSuppliers_emitsWithOnlyTerminalGuarantees` (BottlesTest.java:85-100): it runs the 495-line song in 100 concurrent runs into one `CopyOnWriteArrayList` through the external `concurrently` helper, for 49,500 lines in an unspecified order. Threads and interleavings are not modelled.
- The atomicity of `AtomicInteger`: the counter is a plain field, because the modelled drivers run on one thread.
- The `default` branch's `becauseIllegal(...)` IllegalArgumentException ("isn't a valid line number", Bottles.java:56-57): the array lookup at Bottles.java:42 throws ArrayIndexOutOfBoundsException first, so this branch cannot run. The model follows the lookup: it states the branch's unreachability with `assert false` and has no error value for it.
- Callbacks in general: suppliers are limited to constants and counter reads, hooks to the no-op and the counter decrement, and the emitter to appending to the caller's list. These are the only callbacks the tests pass. A callback that throws is not modelled.
- `Formatting.Formatted`: it models `String.formatted` only for formats with at most one `%s` and no other conversion, which covers every verse template. It does not model Java's format engine.
- The Hamcrest and fungu-test matchers: they become postconditions on the returned list.
- build.gradle.kts: build configuration only.
