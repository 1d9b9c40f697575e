/**
 * The round engine (RoundManager in backend/src/roundManager.js): a cyclic
 * state machine IDLE -> BETTING -> SPINNING -> RESULT -> IDLE that opens a
 * round when players are present, accepts one bet per user during BETTING,
 * draws an outcome and settles payouts on entering RESULT.
 *
 * Collaborators become state or parameters: the broadcast callback is the
 * `events` log, the hasPlayers callback is the argument of Tick, each
 * setTimeout call is an entry of the `scheduled` log, setInterval is the
 * `timer` handle, Math.random is the three reel indices of EnterResult, and
 * the outcome of committing a database transaction is a boolean argument.
 * The server also passes an onBalanceChange callback; the constructor in
 * the source ignores it, so it has no counterpart here.
 */
module Rounds {
  import opened Wrappers
  import opened Outcomes
  import opened Records
  import opened Store

  const TickMs: nat := 1000
  const BettingMs: nat := 8000
  const SpinningMs: nat := 3000
  const ResultMs: nat := 2000

  /** The transitions a one-shot timer can fire. */
  datatype Callback = CallEnterSpinning | CallEnterResult | CallReset

  /** One setTimeout call: what it will run and after how many milliseconds. */
  datatype Timeout = Timeout(callback: Callback, delayMs: nat)

  /** The user part of a BET_PLACED message. */
  datatype BetUser = BetUser(id: UserId, username: string, balance: int)

  /** The messages the engine broadcasts to every connected client. */
  datatype Event =
    | RoundStateEvent(state: RoundState, roundId: RoundId, bettingMs: Option<nat>, spinningMs: Option<nat>)
    | RoundResultEvent(roundId: RoundId, result: Outcome)
    | BetPlacedEvent(roundId: RoundId, user: BetUser, amount: int)

  /** What placeBet gives back: the new bet, a named rejection, or a failed commit. */
  datatype BetReply = Accepted(betId: BetId) | Refused(message: string) | TxFailed

  /**
   * The first check of placeBet that fails, or None when the bet is
   * accepted. The amount is not checked for positivity.
   */
  function BetRefusal(state: RoundState, current: Option<RoundId>, users: map<UserId, UserRow>,
                      bets: seq<Bet>, userId: UserId, amount: int): (r: Option<string>)
    ensures r.None? <==>
      state == BETTING && current.Some? && userId in users &&
      users[userId].balance >= amount && !HasBet(bets, userId, current.value)
    ensures r == Some("Betting closed") <==> state != BETTING || current.None?
    ensures r == Some("User missing") <==> state == BETTING && current.Some? && userId !in users
    ensures r == Some("Insufficient balance") <==>
      state == BETTING && current.Some? && userId in users && users[userId].balance < amount
    ensures r == Some("Bet already placed") <==>
      state == BETTING && current.Some? && userId in users && users[userId].balance >= amount &&
      HasBet(bets, userId, current.value)
  {
    if state != BETTING || current.None? then Some("Betting closed")
    else if userId !in users then Some("User missing")
    else if users[userId].balance < amount then Some("Insufficient balance")
    else if HasBet(bets, userId, current.value) then Some("Bet already placed")
    else None
  }

  /** Settling one bet: a positive win is added to the bettor's balance, if the bettor still exists. */
  function PayBet(users: map<UserId, UserRow>, b: Bet, m: int): (paid: map<UserId, UserRow>)
    ensures paid.Keys == users.Keys
    ensures forall u :: u in users && u != b.userId ==> paid[u] == users[u]
    ensures b.userId in users ==>
      paid[b.userId] == users[b.userId].(balance := users[b.userId].balance + Win(b, b.userId, m))
  {
    var win := b.amount * m;
    if win > 0 && b.userId in users
    then users[b.userId := users[b.userId].(balance := users[b.userId].balance + win)]
    else users
  }

  /** The balances after settling the bets in order, as the payout loop does. */
  function Settle(users: map<UserId, UserRow>, bets: seq<Bet>, m: int): (settled: map<UserId, UserRow>)
    ensures settled.Keys == users.Keys
    decreases |bets|
  {
    if bets == [] then users
    else PayBet(Settle(users, bets[..|bets| - 1], m), bets[|bets| - 1], m)
  }

  /** What bet b wins for user u under multiplier m. */
  function Win(b: Bet, u: UserId, m: int): (win: int) {
    if b.userId == u && b.amount * m > 0 then b.amount * m else 0
  }

  /** The total user u wins from the given bets. */
  function Winnings(bets: seq<Bet>, u: UserId, m: int): (total: int)
    decreases |bets|
  {
    if bets == [] then 0 else Winnings(bets[..|bets| - 1], u, m) + Win(bets[|bets| - 1], u, m)
  }

  /**
   * Settling credits every existing user exactly their winnings, changes no
   * other column, and adds or removes no user.
   */
  lemma {:induction false} SettleCredits(users: map<UserId, UserRow>, bets: seq<Bet>, m: int)
    ensures Settle(users, bets, m).Keys == users.Keys
    ensures forall u :: u in users ==>
      Settle(users, bets, m)[u] == users[u].(balance := users[u].balance + Winnings(bets, u, m))
    decreases |bets|
  {
    if bets != [] {
      var init, last := bets[..|bets| - 1], bets[|bets| - 1];
      SettleCredits(users, init, m);
    }
  }

  lemma {:induction false} WinningsNonNegative(bets: seq<Bet>, u: UserId, m: int)
    ensures Winnings(bets, u, m) >= 0
    decreases |bets|
  {
    if bets != [] {
      WinningsNonNegative(bets[..|bets| - 1], u, m);
    }
  }

  /** A user with no bet among them wins nothing. */
  lemma {:induction false} NoBetNoWinnings(bets: seq<Bet>, u: UserId, m: int)
    requires forall i :: 0 <= i < |bets| ==> bets[i].userId != u
    ensures Winnings(bets, u, m) == 0
    decreases |bets|
  {
    if bets != [] {
      NoBetNoWinnings(bets[..|bets| - 1], u, m);
    }
  }

  /** Under multiplier 0 nobody wins anything. */
  lemma {:induction false} ZeroMultiplierNoWinnings(bets: seq<Bet>, u: UserId)
    ensures Winnings(bets, u, 0) == 0
    decreases |bets|
  {
    if bets != [] {
      ZeroMultiplierNoWinnings(bets[..|bets| - 1], u);
    }
  }

  /** Settling under multiplier 0 leaves every balance as it was. */
  lemma SettleWithoutMultiplier(users: map<UserId, UserRow>, bets: seq<Bet>)
    ensures Settle(users, bets, 0) == users
  {
    SettleCredits(users, bets, 0);
    forall u | u in users ensures Settle(users, bets, 0)[u] == users[u] {
      ZeroMultiplierNoWinnings(bets, u);
    }
  }

  /** Settlement never lowers a balance, and a user without bets keeps theirs. */
  lemma SettleOnlyRaises(users: map<UserId, UserRow>, bets: seq<Bet>, m: int, u: UserId)
    requires u in users
    ensures u in Settle(users, bets, m)
    ensures Settle(users, bets, m)[u].balance >= users[u].balance
    ensures (forall i :: 0 <= i < |bets| ==> bets[i].userId != u) ==> Settle(users, bets, m)[u] == users[u]
  {
    SettleCredits(users, bets, m);
    WinningsNonNegative(bets, u, m);
    if forall i :: 0 <= i < |bets| ==> bets[i].userId != u {
      NoBetNoWinnings(bets, u, m);
    }
  }

  /**
   * The payout loop of one transaction: credits each bet's winnings in turn
   * to the balances staged so far, skipping bets whose owner is missing.
   */
  method StagePayouts(users: map<UserId, UserRow>, bets: seq<Bet>, m: int) returns (staged: map<UserId, UserRow>)
    ensures staged == Settle(users, bets, m)
  {
    staged := users;
    var i := 0;
    while i < |bets|
      invariant 0 <= i <= |bets|
      invariant staged == Settle(users, bets[..i], m)
    {
      var bet := bets[i];
      ghost var before := staged;
      var win := bet.amount * m;
      if win > 0 && bet.userId in staged {
        staged := staged[bet.userId := staged[bet.userId].(balance := staged[bet.userId].balance + win)];
      }
      assert staged == PayBet(before, bet, m);
      SettleStep(users, bets, i, m);
      i := i + 1;
    }
    assert bets[..i] == bets;
  }

  /** One more bet settled is one more PayBet on the balances so far. */
  lemma SettleStep(users: map<UserId, UserRow>, bets: seq<Bet>, i: nat, m: int)
    requires i < |bets|
    ensures Settle(users, bets[..i + 1], m) == PayBet(Settle(users, bets[..i], m), bets[i], m)
  {
    assert bets[..i + 1][..i] == bets[..i];
  }

  /** Settlement keeps balances non-negative and usernames unique. */
  lemma SettleKeepsAccounts(users: map<UserId, UserRow>, bets: seq<Bet>, m: int)
    requires forall u :: u in users ==> users[u].balance >= 0
    requires UniqueUsernames(users)
    ensures forall u :: u in Settle(users, bets, m) ==> Settle(users, bets, m)[u].balance >= 0
    ensures UniqueUsernames(Settle(users, bets, m))
  {
    SettleCredits(users, bets, m);
    forall u | u in users ensures Settle(users, bets, m)[u].balance >= 0 {
      WinningsNonNegative(bets, u, m);
    }
  }

  /** The amount is not checked: a negative stake passes every check of placeBet. */
  lemma NegativeStakeAccepted(users: map<UserId, UserRow>, bets: seq<Bet>, userId: UserId, r: RoundId, amount: int)
    requires userId in users && users[userId].balance >= 0 && amount < 0
    requires !HasBet(bets, userId, r)
    ensures BetRefusal(BETTING, Some(r), users, bets, userId, amount) == None
    ensures users[userId].balance - amount > users[userId].balance
  {
  }

  /** A bet debit records no ledger entry, so a non-zero stake is never audited. */
  lemma BetDebitIsUnaudited(users: map<UserId, UserRow>, ledger: seq<LedgerEntry>, u: UserId, amount: int)
    requires u in users && amount != 0
    ensures !Audited(users, ledger, users[u := users[u].(balance := users[u].balance - amount)], ledger)
  {
    var users' := users[u := users[u].(balance := users[u].balance - amount)];
    assert users'[u].balance - users[u].balance != LedgerTotal(ledger, u) - LedgerTotal(ledger, u);
  }

  class RoundManager {
    const db: Database
    var state: RoundState
    var currentRound: Option<RoundId>
    /** The setInterval handle of the tick clock, once started. */
    var timer: Option<nat>
    /** Whether the tick interval is running (the effect of setInterval and clearInterval). */
    var intervalLive: bool
    /** Every message broadcast so far, in order. */
    var events: seq<Event>
    /** Every one-shot timer scheduled so far, in order. */
    var scheduled: seq<Timeout>

    /** A round is current exactly when the machine is not IDLE, and it exists. */
    ghost predicate Valid()
      reads this, db
    {
      db.Valid() &&
      (state == IDLE <==> currentRound.None?) &&
      (currentRound.Some? ==> currentRound.value < |db.rounds|)
    }

    constructor (db: Database)
      requires db.Valid()
      ensures Valid() && this.db == db
      ensures state == IDLE && currentRound == None
      ensures timer == None && !intervalLive && events == [] && scheduled == []
    {
      this.db := db;
      state := IDLE;
      currentRound := None;
      timer := None;
      intervalLive := false;
      events := [];
      scheduled := [];
    }

    /** Starts the tick clock; does nothing while a handle is held. */
    method Start(handle: nat)
      modifies this`timer, this`intervalLive
      ensures old(timer).Some? ==> timer == old(timer) && intervalLive == old(intervalLive)
      ensures old(timer).None? ==> timer == Some(handle) && intervalLive
    {
      if timer.Some? {
        return;
      }
      timer := Some(handle);
      intervalLive := true;
    }

    /** Stops the tick clock. The handle is kept, so a later Start does nothing. */
    method Stop()
      modifies this`intervalLive
      ensures intervalLive == (old(intervalLive) && timer.None?)
    {
      if timer.Some? {
        intervalLive := false;
      }
    }

    /** Back to IDLE with no current round; pending timers are not cancelled. */
    method Reset()
      requires Valid()
      modifies this`state, this`currentRound
      ensures Valid()
      ensures state == IDLE && currentRound == None
    {
      state := IDLE;
      currentRound := None;
    }

    /** Opens a new round: a BETTING row, a ROUND_STATE message, and the timer to SPINNING. */
    method EnterBetting()
      requires Valid()
      modifies this`state, this`currentRound, this`events, this`scheduled, db`rounds
      ensures Valid()
      ensures state == BETTING && currentRound == Some(|old(db.rounds)|)
      ensures db.rounds == old(db.rounds) + [RoundRow(BETTING, None)]
      ensures events == old(events) + [RoundStateEvent(BETTING, |old(db.rounds)|, Some(BettingMs), None)]
      ensures scheduled == old(scheduled) + [Timeout(CallEnterSpinning, BettingMs)]
    {
      state := BETTING;
      var id := |db.rounds|;
      db.rounds := db.rounds + [RoundRow(BETTING, None)];
      currentRound := Some(id);
      events := events + [RoundStateEvent(state, id, Some(BettingMs), None)];
      scheduled := scheduled + [Timeout(CallEnterSpinning, BettingMs)];
    }

    /** The periodic poll: with players present and the machine IDLE, a round opens. */
    method Tick(hasPlayers: bool)
      requires Valid()
      modifies this`state, this`currentRound, this`events, this`scheduled, db`rounds
      ensures Valid()
      ensures !(hasPlayers && old(state) == IDLE) ==>
        state == old(state) && currentRound == old(currentRound) && events == old(events) &&
        scheduled == old(scheduled) && db.rounds == old(db.rounds)
      ensures hasPlayers && old(state) == IDLE ==>
        state == BETTING && currentRound == Some(|old(db.rounds)|) &&
        db.rounds == old(db.rounds) + [RoundRow(BETTING, None)] &&
        events == old(events) + [RoundStateEvent(BETTING, |old(db.rounds)|, Some(BettingMs), None)] &&
        scheduled == old(scheduled) + [Timeout(CallEnterSpinning, BettingMs)]
    {
      if !hasPlayers {
        return;
      }
      if state == IDLE {
        EnterBetting();
      }
    }

    /** Closes betting; without a current round it resets instead. */
    method EnterSpinning()
      requires Valid()
      modifies this`state, this`currentRound, this`events, this`scheduled, db`rounds
      ensures Valid()
      ensures old(currentRound).None? ==>
        state == IDLE && currentRound == None && db.rounds == old(db.rounds) &&
        events == old(events) && scheduled == old(scheduled)
      ensures old(currentRound).Some? ==>
        var id := old(currentRound).value;
        state == SPINNING && currentRound == old(currentRound) &&
        db.rounds == old(db.rounds)[id := old(db.rounds)[id].(state := SPINNING)] &&
        events == old(events) + [RoundStateEvent(SPINNING, id, None, Some(SpinningMs))] &&
        scheduled == old(scheduled) + [Timeout(CallEnterResult, SpinningMs)]
    {
      if currentRound.None? {
        Reset();
        return;
      }
      state := SPINNING;
      var id := currentRound.value;
      db.rounds := db.rounds[id := db.rounds[id].(state := SPINNING)];
      events := events + [RoundStateEvent(state, id, None, Some(SpinningMs))];
      scheduled := scheduled + [Timeout(CallEnterResult, SpinningMs)];
    }

    /**
     * Credits amount * multiplier to the owner of every bet of the current
     * round, in one transaction: with no outcome or no bets nothing happens,
     * and a failed commit leaves every balance as it was.
     */
    method ApplyPayouts(outcome: Option<Outcome>, commitOk: bool) returns (ok: bool)
      requires Valid() && currentRound.Some?
      modifies db`users
      ensures Valid()
      ensures ok <==> outcome.None? || BetsOfRound(db.bets, currentRound.value) == [] || commitOk
      ensures db.users ==
        if outcome.Some? && ok
        then Settle(old(db.users), BetsOfRound(db.bets, currentRound.value), outcome.value.payoutMultiplier)
        else old(db.users)
    {
      if outcome.None? {
        return true;
      }
      var bets := BetsOfRound(db.bets, currentRound.value);
      if |bets| == 0 {
        return true;
      }
      var m := outcome.value.payoutMultiplier;
      var users0 := db.users;
      var staged := StagePayouts(users0, bets, m);
      if !commitOk {
        return false;
      }
      SettleKeepsAccounts(users0, bets, m);
      db.users := staged;
      ok := true;
    }

    /**
     * Draws the outcome from the three reel indices, settles payouts, then
     * records the result on the round, broadcasts it and schedules the reset.
     * When settlement fails nothing after it happens: the machine stays in
     * RESULT with its round and no reset scheduled.
     */
    method EnterResult(d0: ReelIndex, d1: ReelIndex, d2: ReelIndex, commitOk: bool) returns (settled: bool)
      requires Valid()
      modifies this`state, this`currentRound, this`events, this`scheduled, db`rounds, db`users
      ensures Valid()
      ensures old(currentRound).None? ==>
        settled && state == IDLE && currentRound == None && db.rounds == old(db.rounds) &&
        db.users == old(db.users) && events == old(events) && scheduled == old(scheduled)
      ensures old(currentRound).Some? ==>
        var id := old(currentRound).value;
        var outcome := GenerateOutcome(d0, d1, d2);
        var bets := BetsOfRound(db.bets, id);
        state == RESULT && currentRound == old(currentRound) &&
        (settled <==> bets == [] || commitOk) &&
        (settled ==>
          db.users == Settle(old(db.users), bets, outcome.payoutMultiplier) &&
          db.rounds == old(db.rounds)[id := old(db.rounds)[id].(state := RESULT, result := Some(outcome))] &&
          events == old(events) + [RoundResultEvent(id, outcome)] &&
          scheduled == old(scheduled) + [Timeout(CallReset, ResultMs)]) &&
        (!settled ==>
          db.users == old(db.users) && db.rounds == old(db.rounds) &&
          events == old(events) && scheduled == old(scheduled))
    {
      if currentRound.None? {
        Reset();
        return true;
      }
      state := RESULT;
      var outcome := GenerateOutcome(d0, d1, d2);
      settled := ApplyPayouts(Some(outcome), commitOk);
      if !settled {
        return;
      }
      var id := currentRound.value;
      db.rounds := db.rounds[id := db.rounds[id].(state := RESULT, result := Some(outcome))];
      events := events + [RoundResultEvent(id, outcome)];
      scheduled := scheduled + [Timeout(CallReset, ResultMs)];
    }

    /**
     * Accepts a wager during BETTING: debits the bettor by exactly the
     * amount, appends one bet for the current round and broadcasts the
     * post-debit balance. A rejection or a failed commit changes nothing.
     */
    method PlaceBet(userId: UserId, amount: int, commitOk: bool) returns (reply: BetReply)
      requires Valid()
      modifies this`events, db`users, db`bets
      ensures Valid()
      ensures
        var refusal := BetRefusal(state, currentRound, old(db.users), old(db.bets), userId, amount);
        if refusal.Some? || !commitOk then
          reply == (if refusal.Some? then Refused(refusal.value) else TxFailed) &&
          db.users == old(db.users) && db.bets == old(db.bets) && events == old(events)
        else
          var rid := currentRound.value;
          var u := old(db.users)[userId];
          reply == Accepted(|old(db.bets)|) &&
          db.users == old(db.users)[userId := u.(balance := u.balance - amount)] &&
          db.bets == old(db.bets) + [Bet(userId, amount, rid)] &&
          events == old(events) + [BetPlacedEvent(rid, BetUser(userId, u.username, u.balance - amount), amount)]
    {
      var refusal := BetRefusal(state, currentRound, db.users, db.bets, userId, amount);
      if refusal.Some? {
        return Refused(refusal.value);
      }
      if !commitOk {
        return TxFailed;
      }
      var rid := currentRound.value;
      var user := db.users[userId];
      var debited := user.(balance := user.balance - amount);
      db.users := db.users[userId := debited];
      var bet := Bet(userId, amount, rid);
      AppendKeepsUnique(db.bets, bet);
      reply := Accepted(|db.bets|);
      db.bets := db.bets + [bet];
      events := events + [BetPlacedEvent(rid, BetUser(userId, user.username, debited.balance), amount)];
    }

    /** The bets of the current round; none without a current round. */
    method CurrentBets() returns (r: seq<Bet>)
      ensures currentRound.None? ==> r == []
      ensures currentRound.Some? ==> r == BetsOfRound(db.bets, currentRound.value)
      ensures currentRound.Some? ==> forall b :: b in r <==> b in db.bets && b.roundId == currentRound.value
      ensures currentRound.Some? ==>
        forall b :: multiset(r)[b] == (if b.roundId == currentRound.value then multiset(db.bets)[b] else 0)
    {
      if currentRound.None? {
        return [];
      }
      r := BetsOfRound(db.bets, currentRound.value);
      BetsOfRoundCounts(db.bets, currentRound.value);
    }
  }
}
