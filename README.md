# Rocket Boys betting game — a Dafny model of its round handlers

The game is a React page set backed by a document store. Teams log in, bet a
stake on a numbered "plane" in each round, and an administrator settles the
round: losers pay their stakes, and the losers' pool is shared among the
winners in proportion to their stakes. This project models the three pages
that hold the game's logic:

- the admin panel (`src/pages/AdminEvent1.jsx`): start a round, stop it,
  check it out (settle), and the per-plane totals table;
- the player's betting page (`src/pages/Event1.jsx`): the guard chain of a
  bet, the upsert under `${round}_${teamName}`, and the "already bet" lock;
- the login form (`src/pages/Login.jsx`): field checks, seeding a new team
  with 10000, and filling in an existing team without touching its balance.

The store (`events/event1`, `teams`, `event1_bets`) is the class
`Game.Ledger`. Its fields are an optional event document and two maps. There
is one method per handler, and each method is specified by pure functions of
the old store:

- `Settlement.Settle` gives the balances after a checkout.
- `Betting.Validate` gives the outcome of a bet attempt.
- `LoginPage.LoginRecord` gives the team record a login writes.
- `AfterCommand` gives the event document after an admin action.

The state the pages keep in React (the admin's `round`, the player's `active`,
`round`, `cash`, `teamName` and `betLocked`) is passed in explicitly, and so
are the answer to the winning-plane prompt (`None` for `null`) and the clock.

Modules:

- `Wrappers`: `Option` and `Result`.
- `Seqs`: small sequence lemmas.
- `Text`: JavaScript's `trim` over the ECMAScript whitespace set, and the
  decimal rendering of a round number.
- `BetKey`: the bet id `${round}_${teamName}` and how to read it back.
- `Records`: the store's documents.
- `Settlement`: partition, pools, the debit and credit folds, and conservation.
- `PlaneTotals`: the admin's totals table.
- `Betting`: the player page's guards, lock and snapshot handlers.
- `LoginPage`: the login form.
- `Game`: the store class and its handlers.

Money is `real`, so the pro-rata division is exact. `Number(...)` of a form
field is an `Option<real>`, where `None` stands for NaN. A `cash` field that
is missing or not a number is `None`, and `cash || 0` reads it as 0.

Three behaviours of the code that are easy to misread:

- `stopRound` writes `{active: false}` whatever the current state, not only
  from an active round.
- `checkout` does not require the round to be active. It only requires the
  admin page to show a round other than 0.
- `checkout` refuses only a missing or empty answer to the prompt. A
  whitespace-only answer goes ahead, and every bet loses (`BlankLabelNoWinners`).

## Model

| member | source | states |
|---|---|---|
| Text.TrimSpec | src/pages/AdminEvent1.jsx:78-79 | `trim` cuts a whitespace prefix and a whitespace suffix and nothing else; the result is empty or starts and ends with a non-whitespace character |
| Text.TrimIdempotent | src/pages/Event1.jsx:76 | re-trimming a stored (already trimmed) plane at checkout changes nothing |
| Text.TrimEmptyIff | src/pages/Event1.jsx:64 | `!s.trim()` holds exactly when `s` is empty or all whitespace |
| Text.NatToString | src/pages/Event1.jsx:68 | `${round}` is a non-empty string of decimal digits without a leading zero |
| Text.ParseNatToString | src/pages/Event1.jsx:68 | the decimal rendering of a round reads back as that round |
| Text.NatToStringInjective | src/pages/Event1.jsx:68 | distinct rounds render differently |
| BetKey.FirstIndexOf | src/pages/Event1.jsx:68 | the first position of a character, or none when it does not occur |
| BetKey.ParseBetIdRoundTrip | src/pages/Event1.jsx:68 | a bet id splits at its first `_` back into its round and team name, since a decimal round has no `_` |
| BetKey.BetIdInjective | src/pages/Event1.jsx:42 | distinct (round, team) pairs give distinct bet ids, so the lock reads the key placement writes |
| Betting.Validate | src/pages/Event1.jsx:61-67 | the guards run in order (no team, not active, empty trimmed plane, amount not a positive number, amount above cash); each rejection holds exactly when its guard is the first to fail; an accepted amount is the parsed one and satisfies `0 < amount <= cash` |
| Betting.AcceptedBetWellFormed | src/pages/Event1.jsx:68-81 | an accepted bet is stored under `${round}_${teamName}` of its own data, for the page's round, with the trimmed, non-empty plane and a positive amount |
| Betting.OneBetPerTeamAndRound | src/pages/Event1.jsx:70-81 | with bets filed by that key, two stored bets of one team in one round are the same document |
| Betting.UpsertOnlyTouchesItsPair | src/pages/Event1.jsx:70-81 | writing a bet replaces what its (round, team) holds and leaves every other pair's bet as it was |
| Betting.LockFor | src/pages/Event1.jsx:40-51 | the lock is computed only when the event document exists, the session has a team name and the round is above 0, and then by reading the key `${round}_${teamName}`; what it means for the stored bets is `LockMeansAlreadyBet` |
| Betting.LockMeansAlreadyBet | src/pages/Event1.jsx:40-47 | with bets filed under their own keys, the lock holds exactly when the event exists, the round is above 0 and the session's team already has a stored bet in that round |
| Betting.OnEventSnapshot | src/pages/Event1.jsx:33-53 | the page takes `active` and `round` from the event document (false and 0 when it is missing), keeps team and cash, and is unlocked when the document is missing or the round is 0 |
| Betting.OnTeamSnapshot | src/pages/Event1.jsx:28-30 | the page's cash becomes the team document's `cash` (0 when falsy) when the document exists and stays as it was otherwise |
| Betting.LockAfterPlacement | src/pages/Event1.jsx:40-47 | after a bet is stored for the current round, the next event snapshot leaves the page locked |
| Betting.AcceptedWithinStoredCash | src/pages/Event1.jsx:29-67 | on a page whose team snapshot is current, an accepted stake is positive and at most the team's stored balance |
| LoginPage.SessionOf | src/pages/Login.jsx:47 | the session holds the trimmed inputs, each non-empty and already trimmed |
| LoginPage.MergeExisting | src/pages/Login.jsx:32-44 | an existing team keeps each stored identity field and takes the input only where one is missing (`??`); it keeps a numeric balance and gets 10000 otherwise; `createdAt` is untouched |
| LoginPage.LoginRecordComplete | src/pages/Login.jsx:23-44 | after a login the team has all identity fields and a numeric balance; a new team starts at 10000 with the login time; an existing balance is never changed |
| LoginPage.LoginIdempotent | src/pages/Login.jsx:33-44 | logging in again, with any inputs at any time, leaves the team document as the first login left it |
| Settlement.Winners | src/pages/AdminEvent1.jsx:78 | the winners are an order-keeping selection of the round's bets (membership in `PartitionMembers`) |
| Settlement.Losers | src/pages/AdminEvent1.jsx:79 | the losers are an order-keeping selection of the round's bets (membership in `PartitionMembers`) |
| Settlement.PartitionMembers | src/pages/AdminEvent1.jsx:78-79 | a bet is a winner exactly when it is in the round and its trimmed plane equals the trimmed label, and a loser exactly when it is in the round and they differ |
| Settlement.Partition | src/pages/AdminEvent1.jsx:78-79 | winners and losers together are the round's bets, each exactly once |
| Settlement.PartitionSum | src/pages/AdminEvent1.jsx:81-82 | the two pools add up to the round's whole stake |
| Settlement.BlankLabelNoWinners | src/pages/AdminEvent1.jsx:75-79 | a whitespace-only label matches no bet with a non-empty trimmed plane: there are no winners, every bet loses, and nobody is paid |
| Settlement.Adjust | src/pages/AdminEvent1.jsx:85-89 | a balance update changes only the named team, sets its cash to `(stored cash, or 0) + delta`, and skips a missing team without creating it |
| Settlement.DebitAll | src/pages/AdminEvent1.jsx:84-90 | the loser loop creates and removes no team document |
| Settlement.CreditAll | src/pages/AdminEvent1.jsx:93-100 | the winner loop creates and removes no team document |
| Settlement.Settle | src/pages/AdminEvent1.jsx:84-101 | a checkout's balance updates create and remove no team document |
| Settlement.DebitAllOthers | src/pages/AdminEvent1.jsx:84-90 | a team without a losing bet is not touched by the loser loop |
| Settlement.CreditAllOthers | src/pages/AdminEvent1.jsx:93-100 | a team without a winning bet is not touched by the winner loop |
| Settlement.PartitionTeams | src/pages/AdminEvent1.jsx:78-79 | the teams on each side are teams of the round |
| Settlement.SettleOthers | src/pages/AdminEvent1.jsx:84-101 | a team that did not bet this round keeps its document exactly |
| Settlement.PartitionDistinct | src/pages/AdminEvent1.jsx:78-79 | when the round's bets come from distinct teams, so do each side's |
| Settlement.DebitAllAt | src/pages/AdminEvent1.jsx:84-90 | with distinct teams, a losing team whose document exists loses exactly its stake |
| Settlement.CreditAllAt | src/pages/AdminEvent1.jsx:93-100 | with distinct teams, a winning team whose document exists gains exactly `stake / totalWinners * totalLosers` |
| Settlement.OtherSide | src/pages/AdminEvent1.jsx:78-79 | with distinct teams, a bet's team has no bet on the other side |
| Settlement.SettleLoserAt | src/pages/AdminEvent1.jsx:84-90 | after a checkout a losing team with a document has paid exactly its stake, whether or not anyone wins |
| Settlement.SettleWinnerAt | src/pages/AdminEvent1.jsx:92-101 | after a checkout a winning team with a document has gained exactly its pro-rata share when there are winners and both pools are positive, and is unchanged otherwise |
| Settlement.TotalCashAdjust | src/pages/AdminEvent1.jsx:89 | one balance update moves the total of the listed teams by its delta when the team is listed |
| Settlement.DebitAllTotal | src/pages/AdminEvent1.jsx:84-90 | the loser loop takes exactly the losers' pool out of the teams' total |
| Settlement.CreditAllTotal | src/pages/AdminEvent1.jsx:93-100 | the winner loop adds exactly the sum of the shares to the teams' total |
| Settlement.SharesProRata | src/pages/AdminEvent1.jsx:98 | the shares add up to the winners' stake divided by `totalWinners` and multiplied by `totalLosers` |
| Settlement.PayoutEqualsLoserPool | src/pages/AdminEvent1.jsx:92-101 | when winners are paid, the credits add up to exactly the losers' pool |
| Settlement.SettleTotal | src/pages/AdminEvent1.jsx:84-101 | conservation: when every bettor has a document, a paying checkout leaves the teams' total unchanged, and any other checkout lowers it by exactly the losers' pool |
| PlaneTotals.BumpSpec | src/pages/AdminEvent1.jsx:117-118 | `map.set` of the old total (0 if none) plus the amount adds the amount to that plane's total and to the grand total, lists the plane, keeps keys unique and leaves other planes alone |
| PlaneTotals.LookupMember | src/pages/AdminEvent1.jsx:118 | with unique keys, each entry holds what a lookup of its plane returns |
| PlaneTotals.Insert | src/pages/AdminEvent1.jsx:120 | one insertion step of the sort adds exactly that entry |
| PlaneTotals.InsertSorted | src/pages/AdminEvent1.jsx:120 | inserting into a list sorted by descending amount keeps it sorted |
| PlaneTotals.SortDesc | src/pages/AdminEvent1.jsx:120 | the sort is a permutation of the entries |
| PlaneTotals.SortDescSorted | src/pages/AdminEvent1.jsx:120 | the sort orders entries by descending amount |
| PlaneTotals.SortDescTotal | src/pages/AdminEvent1.jsx:120 | the sort keeps the grand total |
| PlaneTotals.SortDescKeys | src/pages/AdminEvent1.jsx:120 | the sort keeps the set of planes |
| PlaneTotals.SortDescDistinct | src/pages/AdminEvent1.jsx:120 | sorting a list without repeated planes keeps its planes and repeats none |
| PlaneTotals.KeysMultiset | src/pages/AdminEvent1.jsx:120 | two lists with the same entries list the same planes |
| PlaneTotals.Totals | src/pages/AdminEvent1.jsx:114-121 | one entry per plane bet on, each holding the stake on that plane, sorted by descending amount, together adding up to every stake loaded |
| Game.IdsOfMembers | src/pages/AdminEvent1.jsx:103-105 | an id is among the deleted ids exactly when one of the listed documents has it |
| Game.RoundQueryTeamsDistinct | src/pages/AdminEvent1.jsx:64-66 | a round's bets come from distinct teams, because each stored bet is filed under its round and team |
| Game.RoundQueryPlanesFilled | src/pages/AdminEvent1.jsx:78 | every plane in a round's query is non-empty after trimming |
| Game.RoundQueryDelete | src/pages/AdminEvent1.jsx:103-105 | deleting the documents of a round's query removes exactly that round's bets and no other |
| Game.AfterCommand | src/pages/AdminEvent1.jsx:46-59 | a start raises the stored round by one and nothing else changes it |
| Game.RoundCountsStarts | src/pages/AdminEvent1.jsx:49-51 | after any run of starts, stops and checkouts the round has grown by exactly the number of starts |
| Game.Ledger.StartRound | src/pages/AdminEvent1.jsx:46-54 | opens betting on the stored round plus one (1 when the document or field is missing); teams and bets are unchanged |
| Game.Ledger.StopRound | src/pages/AdminEvent1.jsx:56-59 | closes betting, keeps the round number, and leaves teams and bets unchanged |
| Game.Ledger.QueryRound | src/pages/AdminEvent1.jsx:64-66 | returns each stored bet of the round once, with its id and data |
| Game.Ledger.Checkout | src/pages/AdminEvent1.jsx:61-112 | round 0 changes nothing; a round without bets only closes betting; a missing or empty label changes nothing; otherwise the balances become `Settle` of the round's bets, exactly that round's bets are deleted, and betting closes with the round unchanged |
| Game.Ledger.SettleRound | src/pages/AdminEvent1.jsx:78-105 | the balances become `Settle` of the listed bets and exactly the listed bets are deleted |
| Game.Ledger.DebitLosers | src/pages/AdminEvent1.jsx:84-90 | the loser loop leaves the balances the `DebitAll` fold gives |
| Game.Ledger.CreditWinners | src/pages/AdminEvent1.jsx:92-101 | the winner loop leaves the balances the `CreditAll` fold gives |
| Game.Ledger.DeleteBets | src/pages/AdminEvent1.jsx:103-105 | the delete loop removes exactly the listed ids |
| Game.Ledger.PlaceBet | src/pages/Event1.jsx:61-85 | the outcome is `Validate`; a rejected attempt writes nothing; an accepted one stores the bet under `${round}_${teamName}`, locks the page, and touches no other (round, team) pair |
| Game.Ledger.Login | src/pages/Login.jsx:11-47 | unfilled fields write nothing and give no session; otherwise the document under the trimmed name becomes the new-team or merged record, and the session holds the trimmed inputs |

## Left out

- Network access to the store is not modelled. Reads, writes, queries and change subscriptions are direct operations on the store's maps. `setDoc` with `merge` is modelled as overwriting the fields it names.
- The order of a query's results is not fixed because the store decides it. `QueryRound` chooses any order.
- Concurrency and partial failure are not modelled. Each handler is one sequential step, so two admins racing, or a checkout that fails halfway, are out of scope.
- Floating point is not modelled: money is exact `real` arithmetic, so IEEE rounding in the pro-rata share is not captured.
- JavaScript coercions are modelled only as far as the pages need them. `Number(amount)` is an `Option<real>`, with `None` for NaN. Infinity and strings such as `"0x10"` are not modelled separately. A non-numeric `cash` field is modelled as a missing one.
- `Settlement.Sum`: stakes are read as stored. `Number(b.amount || 0)` on a non-numeric stored amount is not modelled, because every stored bet has a positive numeric amount.
- `Date.now()` is a parameter (`now`).
- Round numbers are unbounded `nat`s. The model does not capture that in JavaScript `current + 1` stops increasing at 2^53, or that `${round}` switches to exponent notation from 1e21.
- `alert`, `prompt`, `navigate`, `localStorage` and rendering are not modelled. The prompt's answer is a parameter, and the session is the `teamName` of `PlayerView`.
- `PlaneTotals.SortDesc`: JavaScript's sort is stable, and so is the insertion sort given here. Stability, meaning the order among equal totals, is not proved.
- `src/App.jsx` (routing and session restore) and `src/pages/Leaderboard.jsx` (a store-ordered listing) are not part of this model.
