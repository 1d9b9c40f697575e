/**
 * The persistent tables the engine and the handlers share. Each table is a
 * field that the operations reassign; a database transaction is one method
 * body, and its rollback branch leaves every field as it was.
 */
module Store {
  import opened Records

  class Database {
    var users: map<UserId, UserRow>
    var items: map<ItemId, ItemRow>
    /** UserItem rows: the quantity owned, keyed by (userId, itemId). */
    var inventory: map<(UserId, ItemId), int>
    var rounds: seq<RoundRow>
    var bets: seq<Bet>
    /** Transaction rows, in insertion order. */
    var ledger: seq<LedgerEntry>

    /**
     * What every operation keeps: balances never negative, usernames unique,
     * inventory quantities positive, one bet per (user, round), and every
     * bet belongs to an existing round.
     */
    ghost predicate Valid()
      reads this
    {
      (forall u :: u in users ==> users[u].balance >= 0) &&
      UniqueUsernames(users) &&
      (forall k :: k in inventory ==> inventory[k] >= 1) &&
      UniqueBets(bets) &&
      (forall i :: 0 <= i < |bets| ==> bets[i].roundId < |rounds|)
    }

    /** A database holding the given users and shop items and nothing else. */
    constructor (users0: map<UserId, UserRow>, items0: map<ItemId, ItemRow>)
      requires forall u :: u in users0 ==> users0[u].balance >= 0
      requires UniqueUsernames(users0)
      ensures Valid()
      ensures users == users0 && items == items0
      ensures inventory == map[] && rounds == [] && bets == [] && ledger == []
    {
      users := users0;
      items := items0;
      inventory := map[];
      rounds := [];
      bets := [];
      ledger := [];
    }
  }
}
