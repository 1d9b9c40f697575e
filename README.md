# Casino-Mini round engine, modelled in Dafny

This project models the server side of Casino-Mini, a multiplayer slot
machine, and proves properties of the model. Its centre is the round engine
(`RoundManager`). The engine is a cyclic state machine, IDLE → BETTING →
SPINNING → RESULT → IDLE. A periodic tick opens a round when players are
connected. During BETTING the engine takes at most one bet per user and
debits the stake. On entering RESULT it draws three reels and credits ten
times the stake to every bettor whose stake is positive on a line win, in
one all-or-nothing transaction. Zero or negative stakes win nothing, because
a credit needs a positive win. The model also covers the two request handlers that change
balances: shop purchase and admin credit. Finally it covers the session
cache those handlers refresh.

Modules, one per component:

- `Outcomes` (outcomes.dfy): `generateOutcome`. The three random draws are parameters.
- `Records` (records.dfy): the table rows, the round states, and facts about the bet and ledger tables.
- `Store` (store.dfy): class `Database`, holding the users, items, inventory, rounds, bets and ledger tables as fields. `Valid()` is the invariant every operation keeps: balances are never negative, usernames are unique, inventory quantities are positive, there is one bet per (user, round), and bets point at existing rounds.
- `Rounds` (rounds.dfy): class `RoundManager` and the payout settlement functions.
- `Server` (server.dfy): purchase, admin credit, and class `Sessions` (connected sockets and the per-socket user cache).
- `Scenarios` (scenarios.dfy): a caller that drives one full round and relies only on the contracts.

The collaborators become state or parameters:

- The broadcast callback is the `events` log.
- The `hasPlayers` callback is the argument of `Tick`.
- Every `setTimeout` call is an entry of the `scheduled` log.
- `setInterval` and `clearInterval` are the `timer` handle and the `intervalLive` flag.
- `Math.random` is three reel indices in [0, 6).
- A transaction commit is a boolean argument. A failed commit leaves every table as it was.

## What the code does, where its design says otherwise

The model follows the code. These points are where the code and its design differ:

- `placeBet` never checks that the amount is positive. A negative stake passes every check and raises the balance (`Rounds.NegativeStakeAccepted`).
- Neither bets nor payouts write a ledger entry. Purchases and credits do. So purchases and credits keep `Audited` (each balance change matches the user's ledger total), and a bet debit does not (`Rounds.BetDebitIsUnaudited`).
- There is no forced-win "assist" path and no weighted paytable. Every symbol pays 10 on a line win.
- `bet.payout` is never set.
- `reset` clears neither pending timers nor the interval.
- `stop` clears the interval but keeps the handle in `this.timer`. After it, `start` does nothing.
- If the payout transaction fails, `enterResult` stops at the payout step. Its promise rejects inside the `setTimeout` callback that called it, and nothing catches that rejection. The engine stays in RESULT with its round, records no result and schedules no reset. `tick` only acts in IDLE, so no new round opens.
- `server.js` imports `PAY_SYMBOLS`, which `roundManager.js` does not export. It also passes an `onBalanceChange` callback, which the constructor ignores. Neither has a counterpart in the model.

## Model

| member | source | states |
|---|---|---|
| Outcomes.GenerateOutcome | backend/src/roundManager.js:92-100 | exactly three reels, each one of the six symbols; lineWin iff all three reels are equal; multiplier 10 on a line win, else 0, never negative |
| Outcomes.SymbolsDistinct | backend/src/roundManager.js:93 | the six symbols are pairwise distinct, so a reel determines its draw |
| Outcomes.LineWinIffSameDraw | backend/src/roundManager.js:94-97 | a line win happens iff the three draws are the same index |
| Outcomes.EveryReelTripleReachable | backend/src/roundManager.js:93-96 | every triple of symbols is produced by some draw |
| Outcomes.WinningDrawCount | backend/src/roundManager.js:94-98 | exactly 6 of the 216 draw triples are line wins (one in 36) |
| Records.AppendKeepsUnique | backend/src/roundManager.js:132-143 | appending a bet for a (user, round) pair that has none keeps at most one bet per pair |
| Records.BetsOfRound | backend/src/roundManager.js:104-107 | the selected bets are exactly the table's bets whose round is the given one, and there are no more of them than bets in the table |
| Records.BetsOfRoundCounts | backend/src/roundManager.js:104-107 | each bet of the round is selected as many times as it occurs in the table, and bets of other rounds not at all |
| Records.HasBetIffInRound | backend/src/roundManager.js:132-134 | a user has a bet in a round iff one of that round's bets belongs to them |
| Records.LedgerTotalAppend | backend/src/server.js:71-80 | appending an entry changes only its user's ledger total, by its amount |
| Records.SingleEntryAudited | backend/src/server.js:127-138 | changing one balance by an entry's amount while appending that entry keeps every user's balance change equal to their ledger change |
| Store.Database.constructor | backend/db/models/user.js:28-30 | a database holding only the given users and items satisfies the invariant |
| Rounds.BetRefusal | backend/src/roundManager.js:126-135 | a bet is accepted iff state is BETTING with a current round, the user exists, balance ≥ amount and the user has no bet in the round; otherwise names the first failing check with the source's message |
| Rounds.PayBet | backend/src/roundManager.js:112-116 | one bet's credit: the same users, the owner's balance raised by the bet's win (amount × multiplier when positive, else 0), every other user unchanged |
| Rounds.Settle | backend/src/roundManager.js:111-117 | the payout pass over the bets in order adds or removes no user; its per-user effect is stated by Rounds.SettleCredits |
| Rounds.StagePayouts | backend/src/roundManager.js:111-117 | the loop over the bets stages exactly the settlement of those bets |
| Rounds.SettleKeepsAccounts | backend/src/roundManager.js:111-117 | settlement keeps every balance non-negative and usernames unique |
| Rounds.SettleCredits | backend/src/roundManager.js:111-117 | the payout pass adds to each existing user exactly the sum of amount × multiplier over their positive-win bets, changes no other column and adds or removes no user |
| Rounds.WinningsNonNegative | backend/src/roundManager.js:112-113 | a user's winnings are never negative |
| Rounds.NoBetNoWinnings | backend/src/roundManager.js:111-116 | a user with no bet in the round wins nothing |
| Rounds.ZeroMultiplierNoWinnings | backend/src/roundManager.js:112-113 | under multiplier 0 nobody wins |
| Rounds.SettleWithoutMultiplier | backend/src/roundManager.js:98-117 | settling a losing outcome leaves all balances unchanged |
| Rounds.SettleOnlyRaises | backend/src/roundManager.js:111-117 | settlement never lowers a balance, and a user without bets keeps their row |
| Rounds.NegativeStakeAccepted | backend/src/roundManager.js:125-138 | a negative stake passes every check, and the debit then raises the balance |
| Rounds.BetDebitIsUnaudited | backend/src/roundManager.js:136-144 | a non-zero bet debit without a ledger entry breaks the audit relation |
| Rounds.RoundManager.constructor | backend/src/roundManager.js:17-23 | a fresh engine is IDLE with no round, no timer, no events and no pending timeouts |
| Rounds.RoundManager.Start | backend/src/roundManager.js:25-28 | with a handle already held nothing changes; otherwise the handle is stored and the interval runs |
| Rounds.RoundManager.Stop | backend/src/roundManager.js:30-32 | the interval stops when a handle is held; the handle itself is kept |
| Rounds.RoundManager.Reset | backend/src/roundManager.js:87-90 | always IDLE with no current round afterwards |
| Rounds.RoundManager.EnterBetting | backend/src/roundManager.js:41-54 | BETTING; exactly one new BETTING round row, which becomes current; one ROUND_STATE message with bettingMs 8000; one timeout to enterSpinning after 8000 ms |
| Rounds.RoundManager.Tick | backend/src/roundManager.js:34-39 | without players, or outside IDLE, nothing changes; with players in IDLE, exactly the EnterBetting effect |
| Rounds.RoundManager.EnterSpinning | backend/src/roundManager.js:56-67 | without a round: IDLE, no round, nothing else changed; with one: SPINNING, the round row's state set, one ROUND_STATE message with spinningMs 3000, one timeout to enterResult |
| Rounds.RoundManager.ApplyPayouts | backend/src/roundManager.js:102-123 | no-op without an outcome or without bets; otherwise the balances become the settlement of the round's bets, or stay unchanged when the commit fails, and only the balances change |
| Rounds.RoundManager.EnterResult | backend/src/roundManager.js:69-85 | without a round: reset, nothing else changed; with one: RESULT, payouts settled, and only after successful settlement the result written to the round row, one ROUND_RESULT message with that same outcome and one reset timeout; after a failed settlement nothing besides the state changes |
| Rounds.RoundManager.PlaceBet | backend/src/roundManager.js:125-156 | a refusal or a failed commit changes nothing; acceptance debits exactly the amount from this user only, appends exactly the bet (user, amount, current round), returns its id and broadcasts BET_PLACED with the post-debit balance; the invariant (non-negative balances, one bet per user and round) is kept |
| Rounds.RoundManager.CurrentBets | backend/src/roundManager.js:158-161 | empty without a current round; otherwise the bets of the current round, each as many times as it occurs in the bets table |
| Server.NormalizeUser | backend/src/server.js:168-174 | the cached view carries the row's id, username, balance, avatar and role; its type has no password hash |
| Server.Refreshed | backend/src/server.js:176-184 | same sockets; each socket keeps its user id; entries of the refreshed user equal the new view, all others are unchanged |
| Server.RefreshedIdempotent | backend/src/server.js:176-184 | refreshing twice with the same user is refreshing once |
| Server.Sessions.constructor | backend/src/server.js:159 | a session registry holding the given sockets and cache |
| Server.Sessions.HasPlayers | backend/src/server.js:197 | true iff at least one socket is connected |
| Server.Sessions.UpdateCachedUser | backend/src/server.js:168-184 | returns the normalized user (id, username, balance, avatar, role, no password hash) and rewrites every cache entry with that id to it, leaving all other entries and the sockets unchanged |
| Server.PurchaseRefusal | backend/src/server.js:47-53 | 400 when itemId is missing or 0, then 404 for an unknown item, then 400 when balance < price; none exactly when all three checks pass |
| Server.Purchase | backend/src/server.js:46-100 | a refusal or a failed commit (500) changes no balance, inventory row, ledger entry or cache entry; success debits exactly the price, sets the (user, item) quantity to 1 when new or adds 1, appends one PURCHASE entry of −price with the buyer as actor, refreshes the buyer's cache; balances stay audited and non-negative |
| Server.UserByName | backend/src/server.js:120-122 | the user with that username, or none exactly when no user has it |
| Server.CreditTarget | backend/src/server.js:118-123 | the user with the given id when it is present, non-zero and known; otherwise the user with the given non-empty username; otherwise none |
| Server.CreditDescription | backend/src/server.js:133 | the ledger description is never empty: the reason when one is given and non-empty, else "Admin credit" |
| Server.AdminCredit | backend/src/server.js:110-147 | 400 for a missing, non-numeric, zero or negative amount, then 404 for an unknown target, then 500 on a failed commit, each with no change; success raises the target's balance by exactly the amount, appends one CREDIT entry with the admin as actor and the reason or "Admin credit", and refreshes the target's cache |
| Scenarios.OpenRound | backend/src/roundManager.js:34-54 | a caller can conclude: no round without players; with players, BETTING in round 0 with no bets and the balance untouched |
| Scenarios.BetOnceThenSpin | backend/src/roundManager.js:125-156 | a caller can conclude: a bet of 100 takes 1000 to 900; a second bet in the round and a bet after SPINNING are refused and change nothing |
| Scenarios.SettleWinningRound | backend/src/roundManager.js:69-123 | a caller can conclude: a line win on a 100 stake takes the bettor from 900 to 1900, then the engine resets to IDLE |

## Left out

- Wall-clock time: timers never fire on their own. The caller invokes `EnterSpinning`, `EnterResult` and `Reset`. Durations appear only as payload and timeout values. The `startedAt` and `finishedAt` columns are not kept.
- Randomness: `Math.random` and its float arithmetic are replaced by three supplied indices in [0, 6).
- Interleaving at `await` points: each operation runs atomically. The checks of `placeBet` before its transaction are therefore never stale.
- Failures outside a transaction (`Round.create`, `round.update`, the `findAll`/`findByPk` reads) are not modelled. Only transaction commits can fail.
- Integer width: balances and amounts are unbounded. A save past the 32-bit INTEGER column would fail in the database. The model covers that only as a failed commit.
- Non-integer inputs: a bet amount sent as a string or fraction, and a fractional `Number(amount)` for a credit, are not modelled. Amounts are integers, and a non-numeric credit amount is `None`.
- Rounds.RoundManager.ApplyPayouts: each bet row in JavaScript carries its own copy of its user. If one user had two bets in the round, one save would overwrite the other. The model sums them instead. `Valid()` keeps bets unique per (user, round), so the two never differ.
- Rounds.RoundManager.CurrentBets: states which bets are returned, not their order.
- Records.BetsOfRound: states which bets are selected, not their order.
- The HTTP and WebSocket layers: routing, status delivery, JSON parsing, socket connect and close, `BET_ACCEPTED`/`ERROR` replies, and the `USER_BALANCE` and `ONLINE_USERS` broadcasts of `pushBalanceUpdate`. Only its cache refresh is modelled. `Sessions` starts from a given snapshot.
- Authentication and role checks (`authMiddleware`, `requireAdmin`): the caller's id is an argument, and the buyer is required to exist, as the middleware guarantees.
- The read-only routes (`/shop/items`, `/shop/inventory`, `/admin/users`, `/game/paytable`), `ensureDefaultItems` and `bootstrap`.
- Identifiers: rounds and bets are identified by their position in their table rather than by an autoincrement key.
- The schema, migrations, seeder and frontend.
