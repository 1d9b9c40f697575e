/**
 * The rows the round engine and the shop handlers read and write (the
 * User, Item, UserItem, Round, Bet and Transaction models), the round
 * states, and the facts about bet and ledger tables that the operations
 * rely on.
 */
module Records {
  import opened Wrappers
  import opened Outcomes

  type UserId = int
  type ItemId = int
  /** A round is identified by its position in the round table. */
  type RoundId = nat
  /** A bet is identified by its position in the bet table. */
  type BetId = nat

  /** ROUND_STATE of the engine; also the state column of a round row. */
  datatype RoundState = IDLE | BETTING | SPINNING | RESULT

  datatype Role = Player | Admin

  /** The type column of a ledger (Transaction) row. */
  datatype TxKind = CREDIT | PURCHASE | PAYOUT | BET

  datatype UserRow = UserRow(username: string, passwordHash: string, balance: int,
                             avatarUrl: Option<string>, role: Role)

  datatype ItemRow = ItemRow(code: string, name: string, description: Option<string>, price: int)

  /** A round row; startedAt and finishedAt are wall-clock values and are not kept. */
  datatype RoundRow = RoundRow(state: RoundState, result: Option<Outcome>)

  /** A bet row as the engine creates it: the choice and payout columns stay null. */
  datatype Bet = Bet(userId: UserId, amount: int, roundId: RoundId)

  datatype LedgerEntry = LedgerEntry(kind: TxKind, amount: int, description: string,
                                     userId: UserId, actorId: UserId)

  /** The username column is unique. */
  predicate UniqueUsernames(users: map<UserId, UserRow>) {
    forall a, b :: a in users && b in users && a != b ==> users[a].username != users[b].username
  }

  /**
   * Some bet of user u belongs to round r (the query Bet.findOne({userId, roundId})):
   * exactly when u owns one of the bets Bet.findAll({roundId}) returns.
   */
  predicate HasBet(bets: seq<Bet>, u: UserId, r: RoundId) {
    exists i :: 0 <= i < |bets| && bets[i].userId == u && bets[i].roundId == r
  }

  lemma HasBetIffInRound(bets: seq<Bet>, u: UserId, r: RoundId)
    ensures HasBet(bets, u, r) <==> exists b :: b in BetsOfRound(bets, r) && b.userId == u
  {
    if HasBet(bets, u, r) {
      var i :| 0 <= i < |bets| && bets[i].userId == u && bets[i].roundId == r;
      assert bets[i] in BetsOfRound(bets, r);
    }
  }

  /** At most one bet per (user, round) pair. */
  predicate UniqueBets(bets: seq<Bet>) {
    forall i, j :: 0 <= i < j < |bets| && bets[i].userId == bets[j].userId ==> bets[i].roundId != bets[j].roundId
  }

  /** Appending a bet for a pair that has none keeps the pairs unique. */
  lemma AppendKeepsUnique(bets: seq<Bet>, b: Bet)
    requires UniqueBets(bets)
    requires !HasBet(bets, b.userId, b.roundId)
    ensures UniqueBets(bets + [b])
    ensures HasBet(bets + [b], b.userId, b.roundId)
  {
    var bs := bets + [b];
    assert bs[|bets|] == b;
    forall i, j | 0 <= i < j < |bs| && bs[i].userId == bs[j].userId
      ensures bs[i].roundId != bs[j].roundId
    {
      if j == |bets| {
        assert bs[i] == bets[i];
      } else {
        assert bs[i] == bets[i] && bs[j] == bets[j];
      }
    }
  }

  /** The bets of round r, in table order (the query Bet.findAll({roundId})). */
  function BetsOfRound(bets: seq<Bet>, r: RoundId): (rs: seq<Bet>)
    ensures |rs| <= |bets|
    ensures forall b :: b in rs <==> b in bets && b.roundId == r
  {
    if bets == [] then []
    else if bets[0].roundId == r then [bets[0]] + BetsOfRound(bets[1..], r)
    else BetsOfRound(bets[1..], r)
  }

  /** Each bet of round r is selected as many times as the table holds it, and no other bet is. */
  lemma {:induction false} BetsOfRoundCounts(bets: seq<Bet>, r: RoundId)
    ensures forall b :: multiset(BetsOfRound(bets, r))[b] == if b.roundId == r then multiset(bets)[b] else 0
  {
    if bets != [] {
      assert bets == [bets[0]] + bets[1..];
      BetsOfRoundCounts(bets[1..], r);
    }
  }

  /** The sum of the ledger amounts recorded for user u. */
  function LedgerTotal(ledger: seq<LedgerEntry>, u: UserId): (total: int) {
    if ledger == [] then 0
    else (if ledger[0].userId == u then ledger[0].amount else 0) + LedgerTotal(ledger[1..], u)
  }

  lemma {:induction false} LedgerTotalAppend(ledger: seq<LedgerEntry>, e: LedgerEntry, u: UserId)
    ensures LedgerTotal(ledger + [e], u) == LedgerTotal(ledger, u) + (if e.userId == u then e.amount else 0)
  {
    if ledger == [] {
      assert [] + [e] == [e];
      assert [e][1..] == [];
    } else {
      assert (ledger + [e])[0] == ledger[0];
      assert (ledger + [e])[1..] == ledger[1..] + [e];
      LedgerTotalAppend(ledger[1..], e, u);
    }
  }

  /**
   * Every balance change between two states is matched by ledger entries of
   * the same total for that user, and no user appears or disappears.
   */
  ghost predicate Audited(users: map<UserId, UserRow>, ledger: seq<LedgerEntry>,
                          users': map<UserId, UserRow>, ledger': seq<LedgerEntry>)
  {
    users'.Keys == users.Keys &&
    forall u :: u in users ==>
      users'[u].balance - users[u].balance == LedgerTotal(ledger', u) - LedgerTotal(ledger, u)
  }

  /** Changing one balance by e.amount while appending e is audited. */
  lemma {:induction false} SingleEntryAudited(users: map<UserId, UserRow>, ledger: seq<LedgerEntry>, e: LedgerEntry)
    requires e.userId in users
    ensures Audited(users, ledger,
                    users[e.userId := users[e.userId].(balance := users[e.userId].balance + e.amount)],
                    ledger + [e])
  {
    var users' := users[e.userId := users[e.userId].(balance := users[e.userId].balance + e.amount)];
    forall u | u in users
      ensures users'[u].balance - users[u].balance == LedgerTotal(ledger + [e], u) - LedgerTotal(ledger, u)
    {
      LedgerTotalAppend(ledger, e, u);
    }
  }
}
