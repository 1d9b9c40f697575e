/**
 * A client of the engine: one full round with one bettor, showing what a
 * caller can conclude from the contracts alone.
 */
module Scenarios {
  import opened Wrappers
  import opened Outcomes
  import opened Records
  import opened Store
  import opened Rounds

  /** Betting opens only with players present. */
  method OpenRound() returns (engine: RoundManager)
    ensures engine.Valid() && engine.state == BETTING && engine.currentRound == Some(0)
    ensures engine.db.bets == [] && 1 in engine.db.users && engine.db.users[1].balance == 1000
  {
    var alice := UserRow("alice", "hash", 1000, None, Player);
    var db := new Database(map[1 := alice], map[]);
    engine := new RoundManager(db);

    engine.Tick(false);
    assert engine.state == IDLE && db.rounds == [];

    engine.Tick(true);
  }

  /** One bet per user is taken, and none once SPINNING has begun. */
  method BetOnceThenSpin(engine: RoundManager)
    requires engine.Valid() && engine.state == BETTING && engine.currentRound == Some(0)
    requires engine.db.bets == [] && 1 in engine.db.users && engine.db.users[1].balance == 1000
    modifies engine, engine.db
    ensures engine.Valid() && engine.state == SPINNING && engine.currentRound == Some(0)
    ensures engine.db.bets == [Bet(1, 100, 0)] && 1 in engine.db.users
    ensures engine.db.users[1].balance == 900
  {
    var db := engine.db;
    var reply := engine.PlaceBet(1, 100, true);
    assert reply == Accepted(0);
    assert db.users[1].balance == 900;
    assert db.bets == [Bet(1, 100, 0)];

    assert HasBet(db.bets, 1, 0) by { assert db.bets[0] == Bet(1, 100, 0); }
    assert BetRefusal(engine.state, engine.currentRound, db.users, db.bets, 1, 50) == Some("Bet already placed");
    var again := engine.PlaceBet(1, 50, true);
    assert again == Refused("Bet already placed");

    engine.EnterSpinning();
    assert BetRefusal(engine.state, engine.currentRound, db.users, db.bets, 1, 10) == Some("Betting closed");
    var late := engine.PlaceBet(1, 10, true);
    assert late == Refused("Betting closed");
  }

  /** A line win pays the bettor ten times the stake. */
  method SettleWinningRound(engine: RoundManager)
    requires engine.Valid() && engine.state == SPINNING && engine.currentRound == Some(0)
    requires engine.db.bets == [Bet(1, 100, 0)] && 1 in engine.db.users
    requires engine.db.users[1].balance == 900
    modifies engine, engine.db
    ensures engine.state == IDLE && 1 in engine.db.users && engine.db.users[1].balance == 1900
  {
    var db := engine.db;
    assert BetsOfRound(db.bets, 0) == [Bet(1, 100, 0)];
    assert GenerateOutcome(4, 4, 4).payoutMultiplier == 10 by { LineWinIffSameDraw(4, 4, 4); }
    assert [Bet(1, 100, 0)][..0] == [];
    var settled := engine.EnterResult(4, 4, 4, true);
    assert settled && engine.state == RESULT;
    assert db.users[1].balance == 1900;

    engine.Reset();
    assert engine.state == IDLE && engine.currentRound == None;
  }
}
