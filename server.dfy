/**
 * The balance-changing request handlers of backend/src/server.js (shop
 * purchase and admin credit) and the session cache they refresh, without
 * the HTTP and WebSocket layers. The authenticated caller is a user id the
 * authentication middleware has already found; the outcome of committing
 * the handler's transaction is a boolean argument.
 */
module Server {
  import opened Wrappers
  import opened Records
  import opened Store

  type SocketId = nat

  /** The public view of a user kept per socket and sent to clients; it has no password hash. */
  datatype CachedUser = CachedUser(id: UserId, username: string, balance: int,
                                   avatarUrl: Option<string>, role: Role)

  /** An HTTP status code with its message body. */
  datatype Status = Status(code: nat, message: string)

  datatype PurchaseReply =
    | Bought(balance: int, itemId: ItemId, item: ItemRow, quantity: int)
    | PurchaseFailed(status: Status)

  datatype CreditReply = Credited(user: CachedUser) | CreditFailed(status: Status)

  /** The public view of a user row: every column but the password hash. */
  function NormalizeUser(id: UserId, row: UserRow): (view: CachedUser)
    ensures view.id == id && view.username == row.username && view.balance == row.balance
    ensures view.avatarUrl == row.avatarUrl && view.role == row.role
  {
    CachedUser(id, row.username, row.balance, row.avatarUrl, row.role)
  }

  /** Every cached entry of user n.id replaced by n, every other entry kept. */
  function Refreshed(cache: map<SocketId, CachedUser>, n: CachedUser): (r: map<SocketId, CachedUser>)
    ensures r.Keys == cache.Keys
    ensures forall s :: s in r ==> r[s].id == cache[s].id
    ensures forall s :: s in r && r[s].id == n.id ==> r[s] == n
    ensures forall s :: s in r && cache[s].id != n.id ==> r[s] == cache[s]
  {
    map s | s in cache :: if cache[s].id == n.id then n else cache[s]
  }

  /** Refreshing twice with the same user is refreshing once. */
  lemma RefreshedIdempotent(cache: map<SocketId, CachedUser>, n: CachedUser)
    ensures Refreshed(Refreshed(cache, n), n) == Refreshed(cache, n)
  {
    var once := Refreshed(cache, n);
    assert forall s :: s in once ==> Refreshed(once, n)[s] == once[s];
  }

  /** The connected sockets and the user cached for each authenticated one. */
  class Sessions {
    /** Every connected socket (wss.clients), authenticated or not. */
    var sockets: set<SocketId>
    /** The clients map: socket to cached user. */
    var cache: map<SocketId, CachedUser>

    constructor (sockets0: set<SocketId>, cache0: map<SocketId, CachedUser>)
      requires cache0.Keys <= sockets0
      ensures sockets == sockets0 && cache == cache0
    {
      sockets := sockets0;
      cache := cache0;
    }

    /** Players are present when any socket is connected. */
    function HasPlayers(): (r: bool)
      reads this
      ensures r <==> exists s :: s in sockets
    {
      |sockets| > 0
    }

    /** Refreshes every cached entry of the user and returns its normalized view. */
    method UpdateCachedUser(id: UserId, row: UserRow) returns (n: CachedUser)
      modifies this`cache
      ensures n == NormalizeUser(id, row)
      ensures cache == Refreshed(old(cache), n)
    {
      n := NormalizeUser(id, row);
      var pending := cache.Keys;
      while pending != {}
        invariant pending <= old(cache).Keys
        invariant cache.Keys == old(cache).Keys
        invariant forall s :: s in cache ==>
          cache[s] == if s !in pending && old(cache)[s].id == n.id then n else old(cache)[s]
        decreases pending
      {
        var s :| s in pending;
        if cache[s].id == n.id {
          cache := cache[s := n];
        }
        pending := pending - {s};
      }
      assert forall s :: s in cache ==> cache[s] == Refreshed(old(cache), n)[s];
    }
  }

  /** The first check of the purchase handler that fails, or None. */
  function PurchaseRefusal(users: map<UserId, UserRow>, items: map<ItemId, ItemRow>,
                           buyer: UserId, itemId: Option<ItemId>): (r: Option<Status>)
    requires buyer in users
    ensures r == Some(Status(400, "itemId required")) <==> itemId.None? || itemId.value == 0
    ensures r == Some(Status(404, "Item not found")) <==>
      itemId.Some? && itemId.value != 0 && itemId.value !in items
    ensures r == Some(Status(400, "Insufficient balance")) <==>
      itemId.Some? && itemId.value != 0 && itemId.value in items &&
      users[buyer].balance < items[itemId.value].price
    ensures r.None? <==>
      itemId.Some? && itemId.value != 0 && itemId.value in items &&
      users[buyer].balance >= items[itemId.value].price
  {
    if itemId.None? || itemId.value == 0 then Some(Status(400, "itemId required"))
    else if itemId.value !in items then Some(Status(404, "Item not found"))
    else if users[buyer].balance < items[itemId.value].price then Some(Status(400, "Insufficient balance"))
    else None
  }

  /**
   * POST /shop/purchase: debits the price, adds one to the (buyer, item)
   * inventory row or creates it with quantity 1, records a PURCHASE entry of
   * minus the price, and refreshes the buyer's cached sessions.
   */
  method Purchase(db: Database, sessions: Sessions, buyer: UserId, itemId: Option<ItemId>, commitOk: bool)
    returns (reply: PurchaseReply)
    requires db.Valid() && buyer in db.users
    modifies db`users, db`inventory, db`ledger, sessions`cache
    ensures db.Valid()
    ensures Audited(old(db.users), old(db.ledger), db.users, db.ledger)
    ensures
      var refusal := PurchaseRefusal(old(db.users), db.items, buyer, itemId);
      if refusal.Some? || !commitOk then
        reply == PurchaseFailed(if refusal.Some? then refusal.value else Status(500, "Purchase failed")) &&
        db.users == old(db.users) && db.inventory == old(db.inventory) && db.ledger == old(db.ledger) &&
        sessions.cache == old(sessions.cache)
      else
        var id := itemId.value;
        var item := db.items[id];
        var u := old(db.users)[buyer];
        var q := if (buyer, id) in old(db.inventory) then old(db.inventory)[(buyer, id)] + 1 else 1;
        db.users == old(db.users)[buyer := u.(balance := u.balance - item.price)] &&
        db.inventory == old(db.inventory)[(buyer, id) := q] &&
        db.ledger == old(db.ledger) + [LedgerEntry(PURCHASE, -item.price, "Bought " + item.name, buyer, buyer)] &&
        reply == Bought(u.balance - item.price, id, item, q) &&
        sessions.cache == Refreshed(old(sessions.cache), NormalizeUser(buyer, db.users[buyer]))
  {
    var refusal := PurchaseRefusal(db.users, db.items, buyer, itemId);
    if refusal.Some? {
      return PurchaseFailed(refusal.value);
    }
    if !commitOk {
      return PurchaseFailed(Status(500, "Purchase failed"));
    }
    var id := itemId.value;
    var item := db.items[id];
    var user := db.users[buyer];
    var entry := LedgerEntry(PURCHASE, -item.price, "Bought " + item.name, buyer, buyer);
    SingleEntryAudited(db.users, db.ledger, entry);
    db.users := db.users[buyer := user.(balance := user.balance - item.price)];
    var quantity := 1;
    if (buyer, id) in db.inventory {
      quantity := db.inventory[(buyer, id)] + 1;
    }
    db.inventory := db.inventory[(buyer, id) := quantity];
    db.ledger := db.ledger + [entry];
    var _ := sessions.UpdateCachedUser(buyer, db.users[buyer]);
    reply := Bought(db.users[buyer].balance, id, item, quantity);
  }

  /** The user with this username, if any (User.findOne({username})). */
  function UserByName(users: map<UserId, UserRow>, name: string): (r: Option<UserId>)
    requires UniqueUsernames(users)
    ensures r.Some? ==> r.value in users && users[r.value].username == name
    ensures r.None? <==> forall v :: v in users ==> users[v].username != name
  {
    if exists v :: v in users && users[v].username == name
    then var v :| v in users && users[v].username == name; Some(v)
    else None
  }

  /**
   * The credit target: the user with the given id when the id is present,
   * non-zero and known; otherwise the user with the given non-empty
   * username; otherwise none.
   */
  function CreditTarget(users: map<UserId, UserRow>, userId: Option<UserId>, username: Option<string>)
    : (t: Option<UserId>)
    requires UniqueUsernames(users)
    ensures t.Some? ==> t.value in users
    ensures userId.Some? && userId.value != 0 && userId.value in users ==> t == userId
    ensures !(userId.Some? && userId.value != 0 && userId.value in users) ==>
      (t.Some? <==> username.Some? && username.value != "" &&
                    exists v :: v in users && users[v].username == username.value) &&
      (t.Some? ==> users[t.value].username == username.value)
  {
    if userId.Some? && userId.value != 0 && userId.value in users then userId
    else if username.Some? && username.value != "" then UserByName(users, username.value)
    else None
  }

  /** The ledger description of a credit: the reason when non-empty, else "Admin credit". */
  function CreditDescription(reason: Option<string>): (description: string)
    ensures description != ""
    ensures reason.Some? && reason.value != "" ==> description == reason.value
    ensures !(reason.Some? && reason.value != "") ==> description == "Admin credit"
  {
    if reason.Some? && reason.value != "" then reason.value else "Admin credit"
  }

  /**
   * POST /admin/credit. The amount is the result of Number(amount), None
   * when that is not a number. Rejects an amount that is not a positive
   * number, then an unknown target; otherwise credits the target, records
   * a CREDIT entry naming the admin as actor, and refreshes the target's
   * cached sessions.
   */
  method AdminCredit(db: Database, sessions: Sessions, actor: UserId, userId: Option<UserId>,
                     username: Option<string>, amount: Option<int>, reason: Option<string>, commitOk: bool)
    returns (reply: CreditReply)
    requires db.Valid()
    modifies db`users, db`ledger, sessions`cache
    ensures db.Valid()
    ensures Audited(old(db.users), old(db.ledger), db.users, db.ledger)
    ensures
      var target := CreditTarget(old(db.users), userId, username);
      if amount.None? || amount.value <= 0 || target.None? || !commitOk then
        reply == CreditFailed(
          if amount.None? || amount.value <= 0 then Status(400, "Amount must be a positive number")
          else if target.None? then Status(404, "User not found")
          else Status(500, "Credit failed")) &&
        db.users == old(db.users) && db.ledger == old(db.ledger) && sessions.cache == old(sessions.cache)
      else
        var t := target.value;
        var amt := amount.value;
        var u := old(db.users)[t];
        db.users == old(db.users)[t := u.(balance := u.balance + amt)] &&
        db.ledger == old(db.ledger) + [LedgerEntry(CREDIT, amt, CreditDescription(reason), t, actor)] &&
        reply == Credited(NormalizeUser(t, db.users[t])) &&
        sessions.cache == Refreshed(old(sessions.cache), NormalizeUser(t, db.users[t]))
  {
    if amount.None? || amount.value <= 0 {
      return CreditFailed(Status(400, "Amount must be a positive number"));
    }
    var amt := amount.value;
    var target: Option<UserId> := None;
    if userId.Some? && userId.value != 0 && userId.value in db.users {
      target := userId;
    }
    if target.None? && username.Some? && username.value != "" {
      target := UserByName(db.users, username.value);
    }
    if target.None? {
      return CreditFailed(Status(404, "User not found"));
    }
    if !commitOk {
      return CreditFailed(Status(500, "Credit failed"));
    }
    var t := target.value;
    var user := db.users[t];
    var entry := LedgerEntry(CREDIT, amt, CreditDescription(reason), t, actor);
    SingleEntryAudited(db.users, db.ledger, entry);
    db.users := db.users[t := user.(balance := user.balance + amt)];
    db.ledger := db.ledger + [entry];
    var normalized := sessions.UpdateCachedUser(t, db.users[t]);
    reply := Credited(normalized);
  }
}
