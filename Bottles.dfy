/**
 * The verse emitter. `EmitLine` picks one of five fixed templates by line
 * index and runs the caller's callbacks in a fixed order; `EmitVerse` runs
 * it for the indices 0 to 4.
 *
 * The callbacks are data: a number supplier is either a constant or a read
 * of the caller's shared counter, and the "taken down" hook either does
 * nothing or decrements that counter. Their shared state lives in a
 * `Caller` object: the list the emitter appends to, the counter, and a log
 * of every callback invocation, in order, so that the contracts can say
 * which callbacks ran, how often and in what order.
 */
module Bottles {
  import opened Formatting

  // The fixed text of the song's lines.

  const OnTheWallText: string := " bottles of beer on the wall"
  const OfBeerText: string := " bottles of beer"
  const TakeOneDown: string := "take one down"
  const PassItAround: string := "pass it around"

  /** The well-known verse formats, one per line index. */
  const VerseFormats: seq<string> := [
    "%s" + OnTheWallText,
    "%s" + OfBeerText,
    TakeOneDown,
    PassItAround,
    "%s" + OnTheWallText
  ]

  // The song's lines, written out without the format table.

  function OnTheWall(n: int): string { Decimal(n) + OnTheWallText }

  function OfBeer(n: int): string { Decimal(n) + OfBeerText }

  /** One verse, for the numbers the two suppliers give. */
  function VerseLines(start: int, next: int): seq<string>
  {
    [OnTheWall(start), OfBeer(start), TakeOneDown, PassItAround, OnTheWall(next)]
  }

  /** The only failure: the array lookup of an index outside the table. */
  datatype Error = ArrayIndexOutOfBounds(index: int)

  datatype Result<T> = Success(value: T) | Failure(error: Error)

  /** An int supplier: a fixed value (`() -> n`) or the shared counter's `get`. */
  datatype IntSupplier = Constant(value: int32) | CounterGet

  /** The "taken down" hook: `() -> {}` or the shared counter's `decrementAndGet`. */
  datatype Runnable = NoOp | CounterDecrementAndGet

  /** Which supplier parameter a number was asked of. */
  datatype Role = Start | Next

  /** One callback invocation, as an observer of the callbacks sees it. */
  datatype Event = Supplied(role: Role, value: int32) | TakenDown | Accepted(line: string)

  /** The caller's state: the emitted lines, the shared counter and the log of callback invocations. */
  datatype World = World(output: seq<string>, counter: int32, trace: seq<Event>)

  /** AtomicInteger.decrementAndGet on a 32-bit counter, which wraps at the bottom. */
  function Decremented(counter: int32): int32
  {
    if counter == MinInt32 then MaxInt32 else counter - 1
  }

  /** The decrement is Java's int subtraction of one: the low 32 bits of the exact difference. */
  lemma DecrementedIsIntSubtraction(counter: int32)
    ensures Decremented(counter) == (counter - 1 - MinInt32) % 0x1_0000_0000 + MinInt32
  {
  }

  function Supply(counter: int32, supplier: IntSupplier): int32
  {
    match supplier
    case Constant(v) => v
    case CounterGet => counter
  }

  // How each callback changes the caller's state.

  function AfterGet(w: World, role: Role, value: int32): World
  {
    w.(trace := w.trace + [Supplied(role, value)])
  }

  function AfterRun(w: World, takenDown: Runnable): World
  {
    var counter := if takenDown == CounterDecrementAndGet then Decremented(w.counter) else w.counter;
    w.(counter := counter, trace := w.trace + [TakenDown])
  }

  function AfterAccept(w: World, line: string): World
  {
    w.(output := w.output + [line], trace := w.trace + [Accepted(line)])
  }

  /**
   * What one `emitLine` call does to the caller's state. The table lookup
   * comes first, so an index outside it fails before any callback runs.
   */
  function EmitLineSpec(w: World, start: IntSupplier, takenDown: Runnable, next: IntSupplier, verseLine: int): (r: Result<World>)
    ensures r.Success? <==> 0 <= verseLine < |VerseFormats|
    ensures r.Failure? ==> r.error == ArrayIndexOutOfBounds(verseLine)
  {
    if !(0 <= verseLine < |VerseFormats|) then Failure(ArrayIndexOutOfBounds(verseLine))
    else
      var format := VerseFormats[verseLine];
      if verseLine == 0 || verseLine == 1 then
        var n := Supply(w.counter, start);
        Success(AfterAccept(AfterGet(w, Start, n), Formatted(format, Decimal(n))))
      else if verseLine == 2 then
        Success(AfterAccept(AfterRun(w, takenDown), format))
      else if verseLine == 3 then
        Success(AfterAccept(w, format))
      else
        var n := Supply(w.counter, next);
        Success(AfterAccept(AfterGet(w, Next, n), Formatted(format, Decimal(n))))
  }

  /** The caller's state after the lines 0 .. count - 1, emitted in order. */
  function EmitLinesSpec(w: World, start: IntSupplier, takenDown: Runnable, next: IntSupplier, count: nat): (r: World)
    requires count <= |VerseFormats|
    ensures |r.output| == |w.output| + count
    ensures r.output[..|w.output|] == w.output
    decreases count
  {
    if count == 0 then w
    else
      var before := EmitLinesSpec(w, start, takenDown, next, count - 1);
      EmitLineSpec(before, start, takenDown, next, count - 1).value
  }

  /** What one `emitVerse` call does to the caller's state. */
  function EmitVerseSpec(w: World, start: IntSupplier, takenDown: Runnable, next: IntSupplier): World
  {
    EmitLinesSpec(w, start, takenDown, next, |VerseFormats|)
  }

  /** The callback invocations of one verse, in order. */
  function VerseEvents(start: int32, next: int32): seq<Event>
  {
    [ Supplied(Start, start), Accepted(OnTheWall(start)),
      Supplied(Start, start), Accepted(OfBeer(start)),
      TakenDown, Accepted(TakeOneDown),
      Accepted(PassItAround),
      Supplied(Next, next), Accepted(OnTheWall(next)) ]
  }

  /** The callbacks whose invocations are counted. */
  datatype Callback = StartSupplier | TakenDownHook | NextSupplier | Emitter

  function CallbackOf(e: Event): Callback
  {
    match e
    case Supplied(Start, _) => StartSupplier
    case Supplied(Next, _) => NextSupplier
    case TakenDown => TakenDownHook
    case Accepted(_) => Emitter
  }

  /** How many times `callback` was invoked in `trace`. */
  function Calls(trace: seq<Event>, callback: Callback): nat
  {
    if trace == [] then 0
    else Calls(trace[..|trace| - 1], callback) + (if CallbackOf(trace[|trace| - 1]) == callback then 1 else 0)
  }

  /** Logging one more invocation adds one to its callback's count and nothing to the others. */
  lemma CallsPush(trace: seq<Event>, e: Event, callback: Callback)
    ensures Calls(trace + [e], callback) == Calls(trace, callback) + (if CallbackOf(e) == callback then 1 else 0)
  {
    assert (trace + [e])[..|trace|] == trace;
  }

  /** Logging one or two more invocations, as one line does. */
  lemma CallsAppendShort(trace: seq<Event>, added: seq<Event>, callback: Callback)
    requires 1 <= |added| <= 2
    ensures Calls(trace + added, callback)
      == Calls(trace, callback) + (if CallbackOf(added[0]) == callback then 1 else 0)
         + (if |added| == 2 && CallbackOf(added[1]) == callback then 1 else 0)
  {
    CallsPush(trace, added[0], callback);
    if |added| == 2 {
      assert trace + added == (trace + [added[0]]) + [added[1]];
      CallsPush(trace + [added[0]], added[1], callback);
    } else {
      assert trace + added == trace + [added[0]];
    }
  }

  // The templates, filled in, are the song's lines.

  lemma FormatsAreLines(n: int)
    ensures Formatted(VerseFormats[0], Decimal(n)) == OnTheWall(n)
    ensures Formatted(VerseFormats[1], Decimal(n)) == OfBeer(n)
    ensures Formatted(VerseFormats[4], Decimal(n)) == OnTheWall(n)
    ensures VerseFormats[2] == TakeOneDown && VerseFormats[3] == PassItAround
  {
  }

  /** Each valid line index, written out with the song's lines in place of the filled-in templates. */
  lemma EmitLineCases(w: World, start: IntSupplier, takenDown: Runnable, next: IntSupplier, verseLine: int)
    requires 0 <= verseLine < |VerseFormats|
    ensures var a := Supply(w.counter, start);
            var b := Supply(w.counter, next);
            EmitLineSpec(w, start, takenDown, next, verseLine) == Success(
              if verseLine == 0 then AfterAccept(AfterGet(w, Start, a), OnTheWall(a))
              else if verseLine == 1 then AfterAccept(AfterGet(w, Start, a), OfBeer(a))
              else if verseLine == 2 then AfterAccept(AfterRun(w, takenDown), TakeOneDown)
              else if verseLine == 3 then AfterAccept(w, PassItAround)
              else AfterAccept(AfterGet(w, Next, b), OnTheWall(b)))
  {
    FormatsAreLines(Supply(w.counter, start));
    FormatsAreLines(Supply(w.counter, next));
  }

  /**
   * One valid line index appends exactly one line, the one the song has at
   * that index, and changes nothing already emitted; only line 2 can touch
   * the counter, and only through `takenDown`.
   */
  lemma EmitLineOutput(w: World, start: IntSupplier, takenDown: Runnable, next: IntSupplier, verseLine: int)
    requires 0 <= verseLine < |VerseFormats|
    ensures EmitLineSpec(w, start, takenDown, next, verseLine).Success?
    ensures var r := EmitLineSpec(w, start, takenDown, next, verseLine).value;
      && |r.output| == |w.output| + 1
      && r.output[..|w.output|] == w.output
      && r.output[|w.output|] == VerseLines(Supply(w.counter, start), Supply(w.counter, next))[verseLine]
      && r.counter == (if verseLine == 2 then AfterRun(w, takenDown).counter else w.counter)
  {
    EmitLineCases(w, start, takenDown, next, verseLine);
  }

  /** The callback invocations of one line, given what `start` and `next` supply. */
  function LineEvents(verseLine: int, start: int32, next: int32): seq<Event>
  {
    if verseLine == 0 then [Supplied(Start, start), Accepted(OnTheWall(start))]
    else if verseLine == 1 then [Supplied(Start, start), Accepted(OfBeer(start))]
    else if verseLine == 2 then [TakenDown, Accepted(TakeOneDown)]
    else if verseLine == 3 then [Accepted(PassItAround)]
    else [Supplied(Next, next), Accepted(OnTheWall(next))]
  }

  /** One valid line index logs exactly its own invocations, in order, after those already logged. */
  lemma EmitLineTrace(w: World, start: IntSupplier, takenDown: Runnable, next: IntSupplier, verseLine: int)
    requires 0 <= verseLine < |VerseFormats|
    ensures EmitLineSpec(w, start, takenDown, next, verseLine).Success?
    ensures EmitLineSpec(w, start, takenDown, next, verseLine).value.trace
              == w.trace + LineEvents(verseLine, Supply(w.counter, start), Supply(w.counter, next))
  {
    EmitLineCases(w, start, takenDown, next, verseLine);
  }

  /**
   * One valid line index: lines 0 and 1 each ask `start` once, line 2 runs
   * `takenDown` once, line 4 asks `next` once, every line calls the emitter
   * once, and no other callback runs.
   */
  lemma EmitLineCalls(w: World, start: IntSupplier, takenDown: Runnable, next: IntSupplier, verseLine: int)
    requires 0 <= verseLine < |VerseFormats|
    ensures var r := EmitLineSpec(w, start, takenDown, next, verseLine).value;
      && Calls(r.trace, StartSupplier) == Calls(w.trace, StartSupplier) + (if verseLine <= 1 then 1 else 0)
      && Calls(r.trace, TakenDownHook) == Calls(w.trace, TakenDownHook) + (if verseLine == 2 then 1 else 0)
      && Calls(r.trace, NextSupplier) == Calls(w.trace, NextSupplier) + (if verseLine == 4 then 1 else 0)
      && Calls(r.trace, Emitter) == Calls(w.trace, Emitter) + 1
  {
    var added := LineEvents(verseLine, Supply(w.counter, start), Supply(w.counter, next));
    EmitLineTrace(w, start, takenDown, next, verseLine);
    CallsAppendShort(w.trace, added, StartSupplier);
    CallsAppendShort(w.trace, added, TakenDownHook);
    CallsAppendShort(w.trace, added, NextSupplier);
    CallsAppendShort(w.trace, added, Emitter);
  }

  /** The five line steps of a verse, one after another. */
  lemma EmitVerseSteps(w: World, start: IntSupplier, takenDown: Runnable, next: IntSupplier)
    ensures var a := Supply(w.counter, start);
            var w2 := AfterAccept(AfterGet(AfterAccept(AfterGet(w, Start, a), OnTheWall(a)), Start, a), OfBeer(a));
            var w4 := AfterAccept(AfterAccept(AfterRun(w2, takenDown), TakeOneDown), PassItAround);
            var b := Supply(w4.counter, next);
            EmitVerseSpec(w, start, takenDown, next) == AfterAccept(AfterGet(w4, Next, b), OnTheWall(b))
  {
    var a := Supply(w.counter, start);
    var w1 := EmitLinesSpec(w, start, takenDown, next, 1);
    var w2 := EmitLinesSpec(w, start, takenDown, next, 2);
    var w3 := EmitLinesSpec(w, start, takenDown, next, 3);
    var w4 := EmitLinesSpec(w, start, takenDown, next, 4);
    EmitLineCases(w, start, takenDown, next, 0);
    EmitLineCases(w1, start, takenDown, next, 1);
    EmitLineCases(w2, start, takenDown, next, 2);
    EmitLineCases(w3, start, takenDown, next, 3);
    EmitLineCases(w4, start, takenDown, next, 4);
  }

  /**
   * One verse: the five lines in index order, `start` asked twice (no
   * caching), `takenDown` run once just before "take one down" is emitted,
   * `next` asked once after it; the counter changes only through `takenDown`.
   */
  lemma EmitVerseEffect(w: World, start: IntSupplier, takenDown: Runnable, next: IntSupplier)
    ensures var a := Supply(w.counter, start);
            var after := AfterRun(w, takenDown).counter;
            var b := Supply(after, next);
            EmitVerseSpec(w, start, takenDown, next)
              == World(w.output + VerseLines(a, b), after, w.trace + VerseEvents(a, b))
  {
    EmitVerseSteps(w, start, takenDown, next);
    var r := EmitVerseSpec(w, start, takenDown, next);
    var a := Supply(w.counter, start);
    var b := Supply(AfterRun(w, takenDown).counter, next);
    assert r.counter == AfterRun(w, takenDown).counter;
    assert r.output == w.output + [OnTheWall(a)] + [OfBeer(a)] + [TakeOneDown] + [PassItAround] + [OnTheWall(b)];
    assert r.trace == w.trace + [Supplied(Start, a)] + [Accepted(OnTheWall(a))]
                              + [Supplied(Start, a)] + [Accepted(OfBeer(a))]
                              + [TakenDown] + [Accepted(TakeOneDown)] + [Accepted(PassItAround)]
                              + [Supplied(Next, b)] + [Accepted(OnTheWall(b))];
  }

  /** Per verse: `start` twice, `takenDown` once, `next` once, the emitter five times. */
  lemma EmitVerseCalls(w: World, start: IntSupplier, takenDown: Runnable, next: IntSupplier)
    ensures var r := EmitVerseSpec(w, start, takenDown, next);
      && Calls(r.trace, StartSupplier) == Calls(w.trace, StartSupplier) + 2
      && Calls(r.trace, TakenDownHook) == Calls(w.trace, TakenDownHook) + 1
      && Calls(r.trace, NextSupplier) == Calls(w.trace, NextSupplier) + 1
      && Calls(r.trace, Emitter) == Calls(w.trace, Emitter) + 5
  {
    var w1 := EmitLinesSpec(w, start, takenDown, next, 1);
    var w2 := EmitLinesSpec(w, start, takenDown, next, 2);
    var w3 := EmitLinesSpec(w, start, takenDown, next, 3);
    var w4 := EmitLinesSpec(w, start, takenDown, next, 4);
    EmitLineCalls(w, start, takenDown, next, 0);
    EmitLineCalls(w1, start, takenDown, next, 1);
    EmitLineCalls(w2, start, takenDown, next, 2);
    EmitLineCalls(w3, start, takenDown, next, 3);
    EmitLineCalls(w4, start, takenDown, next, 4);
  }

  /**
   * A shared counter c read by both suppliers and decremented by the hook
   * emits the same lines as the independent suppliers c and c - 1 (int
   * subtraction, which wraps like the decrement) with a no-op hook, and
   * leaves the counter one lower.
   */
  lemma SharedCounterVerse(w: World)
    ensures var shared := EmitVerseSpec(w, CounterGet, CounterDecrementAndGet, CounterGet);
            var independent := EmitVerseSpec(w, Constant(w.counter), NoOp, Constant(Decremented(w.counter)));
            && shared.output == independent.output == w.output + VerseLines(w.counter, Decremented(w.counter))
            && shared.counter == Decremented(w.counter)
            && independent.counter == w.counter
  {
    EmitVerseEffect(w, CounterGet, CounterDecrementAndGet, CounterGet);
    EmitVerseEffect(w, Constant(w.counter), NoOp, Constant(Decremented(w.counter)));
  }

  /** The caller-owned objects the callbacks act on. */
  class Caller {
    /** The list the emitter (`result::add`) appends to. */
    var output: seq<string>
    /** The shared counter (the test's AtomicInteger). */
    var counter: int32
    /** Every callback invocation so far, in order. */
    ghost var trace: seq<Event>

    constructor (initial: int32)
      ensures State() == World([], initial, [])
    {
      output, counter, trace := [], initial, [];
    }

    ghost function State(): World
      reads this
    {
      World(output, counter, trace)
    }

    /** `getAsInt` on a supplier passed as `role`. */
    method GetAsInt(supplier: IntSupplier, role: Role) returns (n: int32)
      modifies this
      ensures n == Supply(old(counter), supplier)
      ensures State() == AfterGet(old(State()), role, n)
    {
      match supplier {
        case Constant(v) => n := v;
        case CounterGet => n := counter;
      }
      trace := trace + [Supplied(role, n)];
    }

    /** `run` on the "taken down" hook. */
    method Run(takenDown: Runnable)
      modifies this
      ensures State() == AfterRun(old(State()), takenDown)
    {
      if takenDown == CounterDecrementAndGet {
        counter := Decremented(counter);
      }
      trace := trace + [TakenDown];
    }

    /** `accept` on the emitter. */
    method Accept(line: string)
      modifies this
      ensures State() == AfterAccept(old(State()), line)
    {
      output := output + [line];
      trace := trace + [Accepted(line)];
    }
  }

  /** Emits one line according to the well-known rules. */
  method EmitLine(caller: Caller, start: IntSupplier, takenDown: Runnable, next: IntSupplier, verseLine: int32)
    returns (outcome: Result<()>)
    modifies caller
    ensures outcome.Failure? ==> unchanged(caller)
    ensures EmitLineSpec(old(caller.State()), start, takenDown, next, verseLine)
              == if outcome.Success? then Success(caller.State()) else Failure(outcome.error)
  {
    if !(0 <= verseLine < |VerseFormats|) {
      // VERSE_FORMATS[verseLine] throws before the switch is reached.
      return Failure(ArrayIndexOutOfBounds(verseLine));
    }
    var verseFormat := VerseFormats[verseLine];
    outcome := Success(());
    if verseLine == 0 || verseLine == 1 {
      var n := caller.GetAsInt(start, Start);
      caller.Accept(Formatted(verseFormat, Decimal(n)));
    } else if verseLine == 2 || verseLine == 3 {
      if verseLine == 2 {
        // case 2 runs the hook and falls through into case 3
        caller.Run(takenDown);
      }
      caller.Accept(verseFormat);
    } else if verseLine == 4 {
      var n := caller.GetAsInt(next, Next);
      caller.Accept(Formatted(verseFormat, Decimal(n)));
    } else {
      // the default branch: the lookup above has already ruled it out
      assert false;
    }
  }

  /** Emits one line, doing nothing when the song says a bottle is taken down. */
  method EmitLineNoTakenDown(caller: Caller, start: IntSupplier, next: IntSupplier, verseLine: int32)
    returns (outcome: Result<()>)
    modifies caller
    ensures outcome.Failure? ==> unchanged(caller)
    ensures EmitLineSpec(old(caller.State()), start, NoOp, next, verseLine)
              == if outcome.Success? then Success(caller.State()) else Failure(outcome.error)
  {
    outcome := EmitLine(caller, start, NoOp, next, verseLine);
  }

  /** Emits a verse: the lines 0 to 4, in order. */
  method EmitVerse(caller: Caller, start: IntSupplier, takenDown: Runnable, next: IntSupplier)
    modifies caller
    ensures caller.State() == EmitVerseSpec(old(caller.State()), start, takenDown, next)
  {
    for n := 0 to |VerseFormats|
      invariant caller.State() == EmitLinesSpec(old(caller.State()), start, takenDown, next, n)
    {
      var outcome := EmitLine(caller, start, takenDown, next, n);
    }
  }

  /** Emits a verse, doing nothing when the song says a bottle is taken down. */
  method EmitVerseNoTakenDown(caller: Caller, start: IntSupplier, next: IntSupplier)
    modifies caller
    ensures caller.State() == EmitVerseSpec(old(caller.State()), start, NoOp, next)
  {
    for n := 0 to |VerseFormats|
      invariant caller.State() == EmitLinesSpec(old(caller.State()), start, NoOp, next, n)
    {
      var outcome := EmitLineNoTakenDown(caller, start, next, n);
    }
  }
}
