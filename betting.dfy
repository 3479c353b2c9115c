/** The player's betting page: the guard chain of `placeBet`, the bet record it
    writes, and the "already bet this round" lock the event snapshot computes. */
module Betting {
  import opened Wrappers
  import opened Text
  import opened Records
  import opened BetKey

  /** What the page knows when the player presses "Place Bet": the team name of
      the stored session and what the event and team snapshots last delivered. */
  datatype PlayerView = PlayerView(
    teamName: Option<string>,
    active: bool,
    round: nat,
    cash: real,
    betLocked: bool)

  /** Why a bet is refused, in the order the guards are checked. */
  datatype Rejection = NotLoggedIn | BettingClosed | MissingPlane | InvalidAmount | ExceedsCash

  /** A session team name passes `if (!teamName)`: present and not empty. */
  predicate HasTeam(teamName: Option<string>) {
    teamName.Some? && teamName.value != ""
  }

  /** `Number(amount)` passes `if (!amt || amt <= 0)`: a number above zero. `None`
      stands for NaN, which is what an unparsable field gives. */
  predicate PositiveAmount(amount: Option<real>) {
    amount.Some? && amount.value > 0.0
  }

  /** The guard chain of `placeBet`: the first failing guard decides the outcome;
      if none fails, the parsed amount is accepted. */
  function Validate(view: PlayerView, plane: string, amount: Option<real>): (r: Result<real, Rejection>)
    ensures r == Err(NotLoggedIn) <==> !HasTeam(view.teamName)
    ensures r == Err(BettingClosed) <==> HasTeam(view.teamName) && !view.active
    ensures r == Err(MissingPlane) <==> HasTeam(view.teamName) && view.active && Trim(plane) == []
    ensures r == Err(InvalidAmount) <==>
      HasTeam(view.teamName) && view.active && Trim(plane) != [] && !PositiveAmount(amount)
    ensures r == Err(ExceedsCash) <==>
      HasTeam(view.teamName) && view.active && Trim(plane) != [] && PositiveAmount(amount)
      && amount.value > view.cash
    ensures r.Ok? ==>
      HasTeam(view.teamName) && view.active && Trim(plane) != []
      && amount == Some(r.value) && 0.0 < r.value <= view.cash
  {
    if !HasTeam(view.teamName) then Err(NotLoggedIn)
    else if !view.active then Err(BettingClosed)
    else if Trim(plane) == [] then Err(MissingPlane)
    else if !PositiveAmount(amount) then Err(InvalidAmount)
    else if amount.value > view.cash then Err(ExceedsCash)
    else Ok(amount.value)
  }

  /** The record `placeBet` writes: the page's round, the session team, the
      trimmed plane, the parsed amount and the submission time. */
  function NewBet(view: PlayerView, plane: string, amount: real, now: int): Bet
    requires HasTeam(view.teamName)
  {
    Bet(view.round, view.teamName.value, Trim(plane), amount, now)
  }

  /** A bet as the game stores it: filed under its own round and team, with a
      positive amount and a trimmed, non-empty plane. */
  predicate WellFormed(id: string, b: Bet) {
    id == BetId(b.round, b.teamName) && b.amount > 0.0 && b.plane != [] && Trim(b.plane) == b.plane
  }

  ghost predicate AllWellFormed(bets: map<string, Bet>) {
    forall id :: id in bets ==> WellFormed(id, bets[id])
  }

  /** Every bet that passes the guards is stored well formed. */
  lemma AcceptedBetWellFormed(view: PlayerView, plane: string, amount: Option<real>, now: int)
    requires Validate(view, plane, amount).Ok?
    ensures var b := NewBet(view, plane, Validate(view, plane, amount).value, now);
      WellFormed(BetId(view.round, view.teamName.value), b) && b.round == view.round
  {
    TrimIdempotent(plane);
  }

  /** The bet a team holds for a round, if any. */
  function BetAt(bets: map<string, Bet>, round: nat, team: string): Option<Bet> {
    if BetId(round, team) in bets then Some(bets[BetId(round, team)]) else None
  }

  /** With every bet filed under its own key, two stored bets of the same round
      and team are the same document: at most one bet per team per round. */
  lemma OneBetPerTeamAndRound(bets: map<string, Bet>, id1: string, id2: string)
    requires AllWellFormed(bets) && id1 in bets && id2 in bets
    requires bets[id1].round == bets[id2].round && bets[id1].teamName == bets[id2].teamName
    ensures id1 == id2
  {
  }

  /** Writing a bet under `BetId(round, team)` changes what that (round, team)
      holds and nothing that any other pair holds. */
  lemma UpsertOnlyTouchesItsPair(bets: map<string, Bet>, round: nat, team: string, b: Bet, r: nat, t: string)
    ensures var bets' := bets[BetId(round, team) := b];
      BetAt(bets', r, t) == if r == round && t == team then Some(b) else BetAt(bets, r, t)
  {
    BetIdInjective(round, team, r, t);
  }

  /** The lock the event snapshot handler computes: set only when the event
      document exists, the session has a team name, the round is positive and a
      bet is stored under `${round}_${teamName}`. */
  function LockFor(teamName: Option<string>, event: Option<EventDoc>, bets: map<string, Bet>): (locked: bool)
    ensures locked <==> event.Some? && HasTeam(teamName) && event.value.round > 0
                        && BetAt(bets, event.value.round, teamName.value).Some?
  {
    if event.Some? && HasTeam(teamName) && event.value.round > 0 then
      BetId(event.value.round, teamName.value) in bets
    else false
  }

  /** With every bet filed under its own key, the lock says exactly that the
      session's team already has a stored bet in the event's current round. */
  lemma LockMeansAlreadyBet(teamName: Option<string>, event: Option<EventDoc>, bets: map<string, Bet>)
    requires AllWellFormed(bets)
    ensures LockFor(teamName, event, bets) <==>
      && event.Some? && HasTeam(teamName) && event.value.round > 0
      && exists id :: id in bets && bets[id].round == event.value.round && bets[id].teamName == teamName.value
  {
    if event.Some? && HasTeam(teamName) && event.value.round > 0 {
      var r, t := event.value.round, teamName.value;
      if exists id :: id in bets && bets[id].round == r && bets[id].teamName == t {
        var id :| id in bets && bets[id].round == r && bets[id].teamName == t;
        assert WellFormed(id, bets[id]);
      }
      if LockFor(teamName, event, bets) {
        var id := BetId(r, t);
        assert WellFormed(id, bets[id]);
        BetIdInjective(bets[id].round, bets[id].teamName, r, t);
      }
    }
  }

  /** The event snapshot handler: takes `active` and `round` from the document
      (false and 0 when it is missing) and recomputes the lock. */
  function OnEventSnapshot(view: PlayerView, event: Option<EventDoc>, bets: map<string, Bet>): (v: PlayerView)
    ensures v.teamName == view.teamName && v.cash == view.cash
    ensures v.active == StoredActive(event) && v.round == StoredRound(event)
    ensures event.None? || v.round == 0 ==> !v.betLocked
  {
    view.(active := StoredActive(event), round := StoredRound(event), betLocked := LockFor(view.teamName, event, bets))
  }

  /** The team snapshot handler: `setCash(snap.data().cash || 0)` when the team
      document exists; otherwise the page keeps the balance it had. */
  function OnTeamSnapshot(view: PlayerView, teams: map<string, Team>): (v: PlayerView)
    ensures view.teamName.Some? && view.teamName.value in teams ==>
      v == view.(cash := CashOrZero(teams[view.teamName.value]))
    ensures !(view.teamName.Some? && view.teamName.value in teams) ==> v == view
  {
    if view.teamName.Some? && view.teamName.value in teams
    then view.(cash := CashOrZero(teams[view.teamName.value]))
    else view
  }

  /** After a bet is accepted and stored, the next event snapshot of the same
      round agrees with the lock the page set itself. */
  lemma LockAfterPlacement(view: PlayerView, event: Option<EventDoc>, bets: map<string, Bet>, b: Bet)
    requires HasTeam(view.teamName) && event.Some? && event.value.round == view.round > 0
    ensures OnEventSnapshot(view, event, bets[BetId(view.round, view.teamName.value) := b]).betLocked
  {
  }

  /** A page whose snapshots are current never accepts a stake above the stored
      balance of its team. */
  lemma AcceptedWithinStoredCash(view: PlayerView, teams: map<string, Team>, plane: string, amount: Option<real>)
    requires view.teamName.Some? && view.teamName.value in teams
    requires Validate(OnTeamSnapshot(view, teams), plane, amount).Ok?
    ensures 0.0 < amount.value <= CashOrZero(teams[view.teamName.value])
  {
  }
}
