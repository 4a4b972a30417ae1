/**
 * The sequential drivers of the test suite, as methods that build their own
 * result list and return it, and the whole-song facts they assert.
 */
module BottlesTest {
  import opened Formatting
  import opened Bottles

  /** The verses for the counts top, top - 1, ..., n + 1, each ending on its count less one. */
  function SongDownTo(top: int, n: int): seq<string>
    requires n <= top
    decreases top - n
  {
    if n == top then [] else SongDownTo(top, n + 1) + VerseLines(n + 1, n)
  }

  /** The first four lines every full song must open with. */
  const StartingLines: seq<string> := ["99 bottles of beer on the wall", "99 bottles of beer", "take one down", "pass it around"]

  /** The line every full song must close with. */
  const EndingLine: string := "0 bottles of beer on the wall"

  /** A song of top - n verses has five lines per verse. */
  lemma {:induction false} SongLength(top: int, n: int)
    requires n <= top
    ensures |SongDownTo(top, n)| == 5 * (top - n)
    decreases top - n
  {
    if n < top {
      SongLength(top, n + 1);
    }
  }

  /** A song that is not empty opens with the verse of its top count. */
  lemma {:induction false} SongOpening(top: int, n: int)
    requires n < top
    ensures SongDownTo(top, n)[..5] == VerseLines(top, top - 1)
    decreases top - n
  {
    if n + 1 < top {
      SongOpening(top, n + 1);
      SongLength(top, n + 1);
      assert SongDownTo(top, n)[..5] == SongDownTo(top, n + 1)[..5];
    }
  }

  /** A song that is not empty closes on the wall count its last verse's `next` gives. */
  lemma SongEnding(top: int, n: int)
    requires n < top
    ensures SongDownTo(top, n)[|SongDownTo(top, n)| - 1] == OnTheWall(n)
  {
  }

  // The literal lines the test suite expects, as the song's lines render them.

  lemma DecimalLiterals()
    ensures Decimal(99) == "99" && Decimal(98) == "98" && Decimal(0) == "0"
  {
    assert NatDigits(99) == NatDigits(9) + [DigitChar(9)];
    assert NatDigits(98) == NatDigits(9) + [DigitChar(8)];
  }

  lemma WallLiteral99()
    ensures OnTheWall(99) == "99 bottles of beer on the wall"
  {
    DecimalLiterals();
  }

  lemma BeerLiteral99()
    ensures OfBeer(99) == "99 bottles of beer"
  {
    DecimalLiterals();
  }

  lemma WallLiteral98()
    ensures OnTheWall(98) == "98 bottles of beer on the wall"
  {
    DecimalLiterals();
  }

  lemma WallLiteral0()
    ensures OnTheWall(0) == EndingLine
  {
    DecimalLiterals();
  }

  lemma ExpectedLines()
    ensures VerseLines(99, 98) == StartingLines + ["98 bottles of beer on the wall"]
  {
    WallLiteral99();
    BeerLiteral99();
    WallLiteral98();
  }

  /** The ninety-nine verse song has 495 lines, the expected opening and the expected ending. */
  lemma FullSong()
    ensures |SongDownTo(99, 0)| == 495
    ensures SongDownTo(99, 0)[..4] == StartingLines
    ensures SongDownTo(99, 0)[494] == EndingLine
  {
    SongLength(99, 0);
    SongOpening(99, 0);
    SongEnding(99, 0);
    ExpectedLines();
    WallLiteral0();
    assert SongDownTo(99, 0)[..4] == SongDownTo(99, 0)[..5][..4];
  }

  /** One verse with the independent suppliers 99 and 98. */
  method EmitVerseGivenIndependentSuppliersEmitsExpected() returns (result: seq<string>)
    ensures |result| == 5
    ensures result == StartingLines + ["98 bottles of beer on the wall"]
  {
    var caller := new Caller(0);
    EmitVerseNoTakenDown(caller, Constant(99), Constant(98));
    EmitVerseEffect(World([], 0, []), Constant(99), NoOp, Constant(98));
    result := caller.output;
    ExpectedLines();
  }

  /** Every verse from 99 down to 1, each with its own independent suppliers n and n - 1. */
  method EmitVersesGivenIndependentSuppliersEmitsAll() returns (result: seq<string>)
    ensures result == SongDownTo(99, 0)
    ensures |result| == 495
    ensures result[..4] == StartingLines
    ensures result[494] == EndingLine
  {
    var caller := new Caller(0);
    var n: int32 := 99;
    while n > 0
      invariant 0 <= n <= 99
      invariant caller.output == SongDownTo(99, n)
    {
      ghost var before := caller.State();
      EmitVerseNoTakenDown(caller, Constant(n), Constant(n - 1));
      EmitVerseEffect(before, Constant(n), NoOp, Constant(n - 1));
      n := n - 1;
    }
    result := caller.output;
    FullSong();
  }

  /**
   * Every verse from one shared counter starting at 99: `start` and `next`
   * read it and `takenDown` decrements it. The lines are those of the
   * independent suppliers, and the counter ends at 0.
   */
  method EmitVersesGivenDependentSuppliersEmitsFromSharedValue() returns (result: seq<string>, counter: int32)
    ensures result == SongDownTo(99, 0)
    ensures |result| == 495
    ensures result[..4] == StartingLines
    ensures result[494] == EndingLine
    ensures counter == 0
  {
    var caller := new Caller(99);
    var n: int32 := 99;
    while n > 0
      invariant 0 <= n <= 99
      invariant caller.counter == n
      invariant caller.output == SongDownTo(99, n)
    {
      ghost var before := caller.State();
      EmitVerse(caller, CounterGet, CounterDecrementAndGet, CounterGet);
      SharedCounterVerse(before);
      n := n - 1;
    }
    result, counter := caller.output, caller.counter;
    FullSong();
  }
}
