/** The game's store and the handlers that change it: the admin's start, stop and
    checkout of a round, a player's bet, and a login. */
module Game {
  import opened Wrappers
  import opened Seqs
  import opened Text
  import opened Records
  import opened BetKey
  import opened Settlement
  import opened Betting
  import opened LoginPage

  /** How a checkout ended. */
  datatype CheckoutOutcome =
    | NoRound    // the admin page shows round 0: nothing is done
    | NoBets     // the round has no bets: betting is stopped
    | Cancelled  // the winning-plane prompt was dismissed or left empty
    | Settled    // balances moved, the round's bets deleted, betting stopped

  /** The ids of a query result. */
  function IdsOf(ds: seq<BetDoc>): set<string> {
    if ds == [] then {} else IdsOf(ds[..|ds| - 1]) + {ds[|ds| - 1].id}
  }

  lemma IdsOfSnoc(ds: seq<BetDoc>, d: BetDoc)
    ensures IdsOf(ds + [d]) == IdsOf(ds) + {d.id}
  {
    SnocPrefix(ds, d);
  }

  lemma IdsOfStep(ds: seq<BetDoc>, i: nat)
    requires i < |ds|
    ensures IdsOf(ds[..i + 1]) == IdsOf(ds[..i]) + {ds[i].id}
  {
    assert ds[..i + 1][..i] == ds[..i];
  }

  /** An id is among a result's ids exactly when one of its documents has it. */
  lemma {:induction false} IdsOfMembers(ds: seq<BetDoc>, id: string)
    ensures id in IdsOf(ds) <==> exists i :: 0 <= i < |ds| && ds[i].id == id
  {
    if ds != [] {
      var p := ds[..|ds| - 1];
      IdsOfMembers(p, id);
      if id in IdsOf(p) {
        var i :| 0 <= i < |p| && p[i].id == id;
        assert ds[i] == p[i];
      }
      if id != ds[|ds| - 1].id && exists i :: 0 <= i < |ds| && ds[i].id == id {
        var i :| 0 <= i < |ds| && ds[i].id == id;
        assert p[i] == ds[i];
      }
    }
  }

  /** `list` is a result of `query(event1_bets, where("round", "==", round))`:
      each stored bet of that round once, with its id and data. */
  predicate IsRoundQuery(bets: map<string, Bet>, round: nat, list: seq<BetDoc>) {
    && (forall i :: 0 <= i < |list| ==>
          list[i].id in bets && bets[list[i].id] == list[i].bet && list[i].bet.round == round)
    && (forall i, j :: 0 <= i < j < |list| ==> list[i].id != list[j].id)
    && (forall id :: id in bets && bets[id].round == round ==> id in IdsOf(list))
  }

  /** Removing documents keeps the rest well formed. */
  lemma WellFormedRemove(bets: map<string, Bet>, ids: set<string>)
    requires AllWellFormed(bets)
    ensures AllWellFormed(bets - ids)
  {
  }

  /** A round's bets come from distinct teams, since each bet is stored under
      its round and team. */
  lemma RoundQueryTeamsDistinct(bets: map<string, Bet>, round: nat, list: seq<BetDoc>)
    requires AllWellFormed(bets) && IsRoundQuery(bets, round, list)
    ensures TeamsDistinct(list)
  {
    forall i, j | 0 <= i < j < |list| ensures list[i].bet.teamName != list[j].bet.teamName {
      assert WellFormed(list[i].id, list[i].bet) && WellFormed(list[j].id, list[j].bet);
    }
  }

  /** Stored planes are trimmed and non-empty, so a round query meets the
      precondition of `BlankLabelNoWinners`. */
  lemma RoundQueryPlanesFilled(bets: map<string, Bet>, round: nat, list: seq<BetDoc>)
    requires AllWellFormed(bets) && IsRoundQuery(bets, round, list)
    ensures forall i :: 0 <= i < |list| ==> Trim(list[i].bet.plane) != []
  {
    forall i | 0 <= i < |list| ensures Trim(list[i].bet.plane) != [] {
      assert WellFormed(list[i].id, list[i].bet);
    }
  }

  /** Deleting the documents of a round query removes exactly that round's bets. */
  lemma RoundQueryDelete(bets: map<string, Bet>, round: nat, list: seq<BetDoc>, id: string)
    requires IsRoundQuery(bets, round, list)
    ensures id in bets.Keys - IdsOf(list) <==> id in bets && bets[id].round != round
  {
    IdsOfMembers(list, id);
  }

  /** `!winningPlane`: the prompt was dismissed (`null`) or answered empty. */
  predicate HasLabel(winning: Option<string>) {
    winning.Some? && winning.value != []
  }

  /** The team document stored under `name`, if any. */
  function TeamAt(teams: map<string, Team>, name: string): Option<Team> {
    if name in teams then Some(teams[name]) else None
  }

  /** An admin action, as far as the event document is concerned. */
  datatype AdminCommand = StartCmd | StopCmd | CheckoutCmd(outcome: CheckoutOutcome)

  /** The event document after an admin action: start opens the next round,
      stop closes the current one, and a checkout that found bets and
      settled, or found none, closes it too; other checkouts leave it alone. */
  function AfterCommand(e: Option<EventDoc>, c: AdminCommand): (r: Option<EventDoc>)
    ensures r.Some? || r == e
    ensures StoredRound(r) == StoredRound(e) + (if c == StartCmd then 1 else 0)
  {
    match c
    case StartCmd => Some(EventDoc(true, StoredRound(e) + 1))
    case StopCmd => Some(EventDoc(false, StoredRound(e)))
    case CheckoutCmd(o) =>
      if o == NoBets || o == Settled then Some(EventDoc(false, StoredRound(e))) else e
  }

  /** The event document after a run of admin actions, in order. */
  function Replay(e: Option<EventDoc>, cmds: seq<AdminCommand>): Option<EventDoc> {
    if cmds == [] then e else AfterCommand(Replay(e, cmds[..|cmds| - 1]), cmds[|cmds| - 1])
  }

  /** The number of starts in a run. */
  function Starts(cmds: seq<AdminCommand>): nat {
    if cmds == [] then 0 else Starts(cmds[..|cmds| - 1]) + (if cmds[|cmds| - 1] == StartCmd then 1 else 0)
  }

  /** The round number only ever moves by starts: after any run of starts,
      stops and checkouts it has grown by the number of starts, so from a
      missing event document it equals that number. */
  lemma {:induction false} RoundCountsStarts(e: Option<EventDoc>, cmds: seq<AdminCommand>)
    ensures StoredRound(Replay(e, cmds)) == StoredRound(e) + Starts(cmds)
  {
    if cmds != [] {
      RoundCountsStarts(e, cmds[..|cmds| - 1]);
    }
  }

  /** The `events/event1` document, the `teams` collection and the
      `event1_bets` collection. */
  class Ledger {
    var event: Option<EventDoc>
    var teams: map<string, Team>
    var bets: map<string, Bet>

    /** Every stored bet is filed under `${round}_${teamName}` of its own data,
        with a positive stake on a trimmed, non-empty plane. */
    ghost predicate Valid()
      reads this
    {
      AllWellFormed(bets)
    }

    /** An empty store. */
    constructor ()
      ensures Valid()
      ensures event == None && teams == map[] && bets == map[]
    {
      event := None;
      teams := map[];
      bets := map[];
    }

    /** `startRound`: opens betting on the round after the stored one (0 when
        the event document is missing). */
    method StartRound() returns (next: nat)
      requires Valid()
      modifies this
      ensures Valid()
      ensures next == StoredRound(old(event)) + 1 && next > 0
      ensures event == Some(EventDoc(true, next)) && event == AfterCommand(old(event), StartCmd)
      ensures teams == old(teams) && bets == old(bets)
    {
      next := StoredRound(event) + 1;
      event := Some(EventDoc(true, next));
    }

    /** `stopRound`: closes betting and keeps the round number, whatever the
        current state; a missing event document is created closed. */
    method StopRound()
      requires Valid()
      modifies this
      ensures Valid()
      ensures event == Some(EventDoc(false, StoredRound(old(event)))) && event == AfterCommand(old(event), StopCmd)
      ensures teams == old(teams) && bets == old(bets)
    {
      event := Some(EventDoc(false, StoredRound(event)));
    }

    /** The round query both the admin panel and checkout run; the order of
        the result is not fixed. */
    method QueryRound(round: nat) returns (list: seq<BetDoc>)
      ensures IsRoundQuery(bets, round, list)
    {
      list := [];
      var remaining := bets.Keys;
      while remaining != {}
        invariant remaining <= bets.Keys
        invariant forall i :: 0 <= i < |list| ==>
          list[i].id in bets && bets[list[i].id] == list[i].bet && list[i].bet.round == round
          && list[i].id !in remaining
        invariant forall i, j :: 0 <= i < j < |list| ==> list[i].id != list[j].id
        invariant forall id :: id in bets && id !in remaining && bets[id].round == round ==> id in IdsOf(list)
        decreases remaining
      {
        var id :| id in remaining;
        if bets[id].round == round {
          IdsOfSnoc(list, BetDoc(id, bets[id]));
          list := list + [BetDoc(id, bets[id])];
        }
        remaining := remaining - {id};
      }
    }

    /** `checkout` for the round the admin page shows, with the answer to the
        winning-plane prompt. When it settles, the balances are those of
        `Settle` and the round's bets are gone; bets of other rounds stay. */
    method Checkout(round: nat, winning: Option<string>) returns (outcome: CheckoutOutcome, list: seq<BetDoc>)
      requires Valid()
      modifies this
      ensures Valid()
      ensures round == 0 ==>
        outcome == NoRound && list == [] && event == old(event) && teams == old(teams) && bets == old(bets)
      ensures event == AfterCommand(old(event), CheckoutCmd(outcome))
      ensures round > 0 ==> IsRoundQuery(old(bets), round, list) && TeamsDistinct(list)
      ensures round > 0 && list == [] ==>
        && outcome == NoBets && event == Some(EventDoc(false, StoredRound(old(event))))
        && teams == old(teams) && bets == old(bets)
      ensures round > 0 && list != [] && !HasLabel(winning) ==>
        outcome == Cancelled && event == old(event) && teams == old(teams) && bets == old(bets)
      ensures round > 0 && list != [] && HasLabel(winning) ==>
        && outcome == Settled
        && teams == Settle(old(teams), list, winning.value)
        && bets == old(bets) - IdsOf(list)
        && event == Some(EventDoc(false, StoredRound(old(event))))
    {
      if round == 0 {
        outcome, list := NoRound, [];
        return;
      }
      list := QueryRound(round);
      RoundQueryTeamsDistinct(bets, round, list);
      if |list| == 0 {
        event := Some(EventDoc(false, StoredRound(event)));
        outcome := NoBets;
        return;
      }
      if !HasLabel(winning) {
        outcome := Cancelled;
        return;
      }
      SettleRound(list, winning.value);
      event := Some(EventDoc(false, StoredRound(event)));
      outcome := Settled;
    }

    /** The money and clean-up steps of a checkout with a label: debit the
        losers, credit the winners when both pools are positive, delete the
        listed bets. */
    method SettleRound(list: seq<BetDoc>, w: string)
      requires Valid()
      modifies this
      ensures Valid()
      ensures teams == Settle(old(teams), list, w)
      ensures bets == old(bets) - IdsOf(list)
      ensures event == old(event)
    {
      var winners, losers := Winners(list, w), Losers(list, w);
      var totalWinners, totalLosers := Sum(winners), Sum(losers);
      DebitLosers(losers);
      if |winners| > 0 && totalWinners > 0.0 && totalLosers > 0.0 {
        CreditWinners(winners, totalWinners, totalLosers);
      }
      DeleteBets(list);
    }

    /** The loser loop of `checkout`: each losing bet's team, if its document
        exists, pays its stake. */
    method DebitLosers(losers: seq<BetDoc>)
      modifies this
      ensures teams == DebitAll(old(teams), losers)
      ensures event == old(event) && bets == old(bets)
    {
      var i := 0;
      while i < |losers|
        invariant 0 <= i <= |losers|
        invariant teams == DebitAll(old(teams), losers[..i])
        invariant event == old(event) && bets == old(bets)
      {
        var d := losers[i];
        var prev := teams;
        if d.bet.teamName in teams {
          var currentCash := CashOrZero(teams[d.bet.teamName]);
          teams := teams[d.bet.teamName := teams[d.bet.teamName].(cash := Some(currentCash - d.bet.amount))];
        }
        assert teams == Adjust(prev, d.bet.teamName, -d.bet.amount);
        assert losers[..i + 1][..i] == losers[..i];
        i := i + 1;
      }
      assert losers[..i] == losers;
    }

    /** The winner loop of `checkout`: each winning bet's team, if its document
        exists, gains its share of the losers' pool. */
    method CreditWinners(winners: seq<BetDoc>, totalWinners: real, totalLosers: real)
      requires totalWinners > 0.0
      modifies this
      ensures teams == CreditAll(old(teams), winners, totalWinners, totalLosers)
      ensures event == old(event) && bets == old(bets)
    {
      var i := 0;
      while i < |winners|
        invariant 0 <= i <= |winners|
        invariant teams == CreditAll(old(teams), winners[..i], totalWinners, totalLosers)
        invariant event == old(event) && bets == old(bets)
      {
        var d := winners[i];
        var prev := teams;
        if d.bet.teamName in teams {
          var currentCash := CashOrZero(teams[d.bet.teamName]);
          var gain := (d.bet.amount / totalWinners) * totalLosers;
          assert gain == Share(d, totalWinners, totalLosers);
          teams := teams[d.bet.teamName := teams[d.bet.teamName].(cash := Some(currentCash + gain))];
        }
        assert teams == Adjust(prev, d.bet.teamName, Share(d, totalWinners, totalLosers));
        assert winners[..i + 1][..i] == winners[..i];
        i := i + 1;
      }
      assert winners[..i] == winners;
    }

    /** The delete loop of `checkout`: removes every listed bet document. */
    method DeleteBets(list: seq<BetDoc>)
      requires Valid()
      modifies this
      ensures Valid()
      ensures bets == old(bets) - IdsOf(list)
      ensures event == old(event) && teams == old(teams)
    {
      var i := 0;
      while i < |list|
        invariant 0 <= i <= |list|
        invariant bets == old(bets) - IdsOf(list[..i])
        invariant event == old(event) && teams == old(teams)
      {
        IdsOfStep(list, i);
        bets := bets - {list[i].id};
        i := i + 1;
      }
      assert list[..i] == list;
      WellFormedRemove(old(bets), IdsOf(list));
    }

    /** `placeBet` from a player's page: the guards of `Validate`, then the bet
        written under `${round}_${teamName}`, replacing any earlier bet of that
        team in that round and touching no other bet. */
    method PlaceBet(view: PlayerView, plane: string, amount: Option<real>, now: int)
      returns (result: Result<real, Rejection>, view': PlayerView)
      requires Valid()
      modifies this
      ensures Valid()
      ensures result == Validate(view, plane, amount)
      ensures event == old(event) && teams == old(teams)
      ensures result.Err? ==> bets == old(bets) && view' == view
      ensures result.Ok? ==>
        && bets == old(bets)[BetId(view.round, view.teamName.value) := NewBet(view, plane, result.value, now)]
        && view' == view.(betLocked := true)
      ensures result.Ok? ==> forall r: nat, t: string :: (r, t) != (view.round, view.teamName.value) ==>
        BetAt(bets, r, t) == BetAt(old(bets), r, t)
    {
      result := Validate(view, plane, amount);
      view' := view;
      if result.Ok? {
        AcceptedBetWellFormed(view, plane, amount, now);
        var team := view.teamName.value;
        var b := NewBet(view, plane, result.value, now);
        bets := bets[BetId(view.round, team) := b];
        view' := view.(betLocked := true);
        forall r: nat, t: string | (r, t) != (view.round, team)
          ensures BetAt(bets, r, t) == BetAt(old(bets), r, t)
        {
          UpsertOnlyTouchesItsPair(old(bets), view.round, team, b, r, t);
        }
      }
    }

    /** `submit` on the login form: refused unless every field is filled;
        otherwise the team document becomes `LoginRecord` of what was stored
        under the trimmed name, and the trimmed fields are the session. */
    method Login(teamName: string, rolls: string, instituteEmail: string, now: int)
      returns (session: Option<Session>)
      requires Valid()
      modifies this
      ensures Valid()
      ensures event == old(event) && bets == old(bets)
      ensures !FieldsFilled(teamName, rolls, instituteEmail) ==> session == None && teams == old(teams)
      ensures FieldsFilled(teamName, rolls, instituteEmail) ==>
        var s := SessionOf(teamName, rolls, instituteEmail);
        session == Some(s) && teams == old(teams)[s.teamName := LoginRecord(TeamAt(old(teams), s.teamName), s, now)]
    {
      if !FieldsFilled(teamName, rolls, instituteEmail) {
        session := None;
        return;
      }
      var s := SessionOf(teamName, rolls, instituteEmail);
      teams := teams[s.teamName := LoginRecord(TeamAt(teams, s.teamName), s, now)];
      session := Some(s);
    }
  }
}
