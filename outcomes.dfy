/**
 * The outcome generator of the round engine (generateOutcome in
 * backend/src/roundManager.js). The three random draws are parameters:
 * each is the index Math.floor(Math.random() * 6) would produce.
 * The symbol list is local to the generator: roundManager.js exports no
 * PAY_SYMBOLS, so the paytable route of server.js, which imports that name,
 * serves an undefined paytable.
 */
module Outcomes {

  /** The six reel symbols, in the order the generator lists them. */
  const Symbols: seq<string> :=
    ["\U{1F352}", "\U{1F514}", "7\U{FE0F}\U{20E3}", "\U{1F34B}", "\U{2B50}", "\U{1F48E}"]

  /** The multiplier of a line win; every other outcome pays nothing. */
  const LineWinMultiplier: int := 10

  /** One reel draw: an index into Symbols. */
  type ReelIndex = i: int | 0 <= i < 6

  datatype Outcome = Outcome(reels: seq<string>, lineWin: bool, payoutMultiplier: int)

  /** Three reels drawn from Symbols; a line win when every reel equals the first. */
  function GenerateOutcome(d0: ReelIndex, d1: ReelIndex, d2: ReelIndex): (o: Outcome)
    ensures |o.reels| == 3
    ensures forall k :: 0 <= k < |o.reels| ==> o.reels[k] in Symbols
    ensures o.lineWin <==> o.reels[0] == o.reels[1] == o.reels[2]
    ensures o.payoutMultiplier == if o.lineWin then LineWinMultiplier else 0
    ensures o.payoutMultiplier >= 0
  {
    var reels := [Symbols[d0], Symbols[d1], Symbols[d2]];
    var lineWin := forall k | 0 <= k < |reels| :: reels[k] == reels[0];
    Outcome(reels, lineWin, if lineWin then LineWinMultiplier else 0)
  }

  /** No symbol occurs twice in the list, so a reel determines the draw. */
  lemma SymbolsDistinct(i: ReelIndex, j: ReelIndex)
    ensures Symbols[i] == Symbols[j] <==> i == j
  {
    if i != j {
      assert Symbols[i][0] != Symbols[j][0];
    }
  }

  /** A line win happens exactly when the three draws coincide. */
  lemma LineWinIffSameDraw(d0: ReelIndex, d1: ReelIndex, d2: ReelIndex)
    ensures GenerateOutcome(d0, d1, d2).lineWin <==> d0 == d1 && d1 == d2
  {
    SymbolsDistinct(d0, d1);
    SymbolsDistinct(d1, d2);
  }

  /** Every triple of symbols is produced by some draw. */
  lemma EveryReelTripleReachable(s0: string, s1: string, s2: string)
    requires s0 in Symbols && s1 in Symbols && s2 in Symbols
    ensures exists d0: ReelIndex, d1: ReelIndex, d2: ReelIndex :: GenerateOutcome(d0, d1, d2).reels == [s0, s1, s2]
  {
    var d0 :| 0 <= d0 < 6 && Symbols[d0] == s0;
    var d1 :| 0 <= d1 < 6 && Symbols[d1] == s1;
    var d2 :| 0 <= d2 < 6 && Symbols[d2] == s2;
    assert GenerateOutcome(d0, d1, d2).reels == [s0, s1, s2];
  }

  /** The diagonal draws (a, a, a) number six. */
  lemma DiagonalCount()
    ensures |set a: int | 0 <= a < 6 :: (a, a, a)| == 6
  {
    var diag := set a: int | 0 <= a < 6 :: (a, a, a);
    forall t | t in diag
      ensures t in {(0, 0, 0), (1, 1, 1), (2, 2, 2), (3, 3, 3), (4, 4, 4), (5, 5, 5)}
    {
      var a :| 0 <= a < 6 && t == (a, a, a);
      if a == 0 {} else if a == 1 {} else if a == 2 {} else if a == 3 {} else if a == 4 {} else {}
    }
    assert (0, 0, 0) in diag && (1, 1, 1) in diag && (2, 2, 2) in diag;
    assert (3, 3, 3) in diag && (4, 4, 4) in diag && (5, 5, 5) in diag;
    assert diag == {(0, 0, 0), (1, 1, 1), (2, 2, 2), (3, 3, 3), (4, 4, 4), (5, 5, 5)};
  }

  /** Of the 6 * 6 * 6 equally likely draws, exactly 6 are line wins (one in 36). */
  lemma WinningDrawCount()
    ensures |set d0: int, d1: int, d2: int
              | 0 <= d0 < 6 && 0 <= d1 < 6 && 0 <= d2 < 6 && GenerateOutcome(d0, d1, d2).lineWin
              :: (d0, d1, d2)| == 6
  {
    var wins := set d0: int, d1: int, d2: int
                | 0 <= d0 < 6 && 0 <= d1 < 6 && 0 <= d2 < 6 && GenerateOutcome(d0, d1, d2).lineWin
                :: (d0, d1, d2);
    var diag := set a: int | 0 <= a < 6 :: (a, a, a);
    forall t | t in wins ensures t in diag {
      var d0, d1, d2 :| 0 <= d0 < 6 && 0 <= d1 < 6 && 0 <= d2 < 6 &&
                        GenerateOutcome(d0, d1, d2).lineWin && t == (d0, d1, d2);
      LineWinIffSameDraw(d0, d1, d2);
    }
    forall t | t in diag ensures t in wins {
      var a :| 0 <= a < 6 && t == (a, a, a);
      LineWinIffSameDraw(a, a, a);
    }
    assert wins == diag;
    DiagonalCount();
  }
}
