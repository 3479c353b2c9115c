/** The money-moving core of the admin checkout: partitioning a round's bets by
    the winning plane, the two pools, debiting losers and crediting winners pro
    rata. Each fold below processes bets in list order, as the loops do. */
module Settlement {
  import opened Wrappers
  import opened Text
  import opened Records
  import opened Seqs

  /** `String(b.plane).trim() === String(winningPlane).trim()`. */
  predicate Wins(d: BetDoc, winning: string) {
    Trim(d.bet.plane) == Trim(winning)
  }

  /** `list.filter(b => wins)`, keeping list order. */
  function Winners(ds: seq<BetDoc>, winning: string): (r: seq<BetDoc>)
    ensures |r| <= |ds|
  {
    if ds == [] then []
    else if Wins(ds[|ds| - 1], winning) then Winners(ds[..|ds| - 1], winning) + [ds[|ds| - 1]]
    else Winners(ds[..|ds| - 1], winning)
  }

  /** `list.filter(b => !wins)`, keeping list order. */
  function Losers(ds: seq<BetDoc>, winning: string): (r: seq<BetDoc>)
    ensures |r| <= |ds|
  {
    if ds == [] then []
    else if Wins(ds[|ds| - 1], winning) then Losers(ds[..|ds| - 1], winning)
    else Losers(ds[..|ds| - 1], winning) + [ds[|ds| - 1]]
  }

  /** `reduce((s, b) => s + Number(b.amount || 0), 0)`. */
  function Sum(ds: seq<BetDoc>): real {
    if ds == [] then 0.0 else Sum(ds[..|ds| - 1]) + ds[|ds| - 1].bet.amount
  }

  /** The names of the teams that placed the bets. */
  function TeamsOf(ds: seq<BetDoc>): set<string> {
    if ds == [] then {} else TeamsOf(ds[..|ds| - 1]) + {ds[|ds| - 1].bet.teamName}
  }

  /** No team appears twice among the bets. */
  predicate TeamsDistinct(ds: seq<BetDoc>) {
    forall i, j :: 0 <= i < j < |ds| ==> ds[i].bet.teamName != ds[j].bet.teamName
  }

  lemma SumSnoc(ds: seq<BetDoc>, d: BetDoc)
    ensures Sum(ds + [d]) == Sum(ds) + d.bet.amount
  {
    SnocPrefix(ds, d);
  }

  lemma TeamsOfSnoc(ds: seq<BetDoc>, d: BetDoc)
    ensures TeamsOf(ds + [d]) == TeamsOf(ds) + {d.bet.teamName}
  {
    SnocPrefix(ds, d);
  }

  /** A team is among the bettors exactly when one of the bets is its. */
  lemma {:induction false} TeamsOfMembers(ds: seq<BetDoc>, n: string)
    ensures n in TeamsOf(ds) <==> exists i :: 0 <= i < |ds| && ds[i].bet.teamName == n
  {
    if ds != [] {
      var p := ds[..|ds| - 1];
      TeamsOfMembers(p, n);
      if n in TeamsOf(p) {
        var i :| 0 <= i < |p| && p[i].bet.teamName == n;
        assert ds[i] == p[i];
      }
      if n != ds[|ds| - 1].bet.teamName && exists i :: 0 <= i < |ds| && ds[i].bet.teamName == n {
        var i :| 0 <= i < |ds| && ds[i].bet.teamName == n;
        assert p[i] == ds[i];
      }
    }
  }

  /** A bet is a winner exactly when it is in the list and its plane matches, and
      a loser exactly when it is in the list and its plane does not. */
  lemma {:induction false} PartitionMembers(ds: seq<BetDoc>, winning: string, d: BetDoc)
    ensures d in Winners(ds, winning) <==> d in ds && Wins(d, winning)
    ensures d in Losers(ds, winning) <==> d in ds && !Wins(d, winning)
  {
    if ds != [] {
      PartitionMembers(ds[..|ds| - 1], winning, d);
      LastSplit(ds);
    }
  }

  /** Every bet lands in exactly one of the two sides. */
  lemma {:induction false} Partition(ds: seq<BetDoc>, winning: string)
    ensures multiset(Winners(ds, winning)) + multiset(Losers(ds, winning)) == multiset(ds)
  {
    if ds != [] {
      Partition(ds[..|ds| - 1], winning);
      LastSplit(ds);
    }
  }

  /** The two pools add up to the round's whole stake. */
  lemma {:induction false} PartitionSum(ds: seq<BetDoc>, winning: string)
    ensures Sum(Winners(ds, winning)) + Sum(Losers(ds, winning)) == Sum(ds)
  {
    if ds != [] {
      var p, d := ds[..|ds| - 1], ds[|ds| - 1];
      PartitionSum(p, winning);
      if Wins(d, winning) {
        SumSnoc(Winners(p, winning), d);
      } else {
        SumSnoc(Losers(p, winning), d);
      }
    }
  }

  /** A label of whitespace only is not refused, and it matches no plane that
      is non-empty after trimming: every such bet loses. */
  lemma {:induction false} BlankLabelNoWinners(ds: seq<BetDoc>, winning: string)
    requires AllWhitespace(winning)
    requires forall i :: 0 <= i < |ds| ==> Trim(ds[i].bet.plane) != []
    ensures Winners(ds, winning) == [] && Losers(ds, winning) == ds
    ensures !Pays(ds, winning)
  {
    if ds != [] {
      var p := ds[..|ds| - 1];
      assert forall i :: 0 <= i < |p| ==> p[i] == ds[i];
      BlankLabelNoWinners(p, winning);
      TrimEmptyIff(winning);
      LastSplit(ds);
    }
  }

  /** Adds `delta` to the balance of team `name` if its document exists
      (`updateDoc(teamRef, { cash: currentCash + delta })`); a missing team is
      skipped, not created. */
  function Adjust(teams: map<string, Team>, name: string, delta: real): (r: map<string, Team>)
    ensures r.Keys == teams.Keys
    ensures forall n :: n in teams && n != name ==> r[n] == teams[n]
    ensures name in teams ==> r[name] == teams[name].(cash := Some(CashOrZero(teams[name]) + delta))
  {
    if name in teams then teams[name := teams[name].(cash := Some(CashOrZero(teams[name]) + delta))]
    else teams
  }

  /** The loser loop: each losing bet's team pays its stake, in list order. */
  function DebitAll(teams: map<string, Team>, losers: seq<BetDoc>): (r: map<string, Team>)
    ensures r.Keys == teams.Keys
  {
    if losers == [] then teams
    else
      var p, d := losers[..|losers| - 1], losers[|losers| - 1];
      Adjust(DebitAll(teams, p), d.bet.teamName, -d.bet.amount)
  }

  /** A winner's gain: `(Number(bet.amount || 0) / totalWinners) * totalLosers`. */
  function Share(d: BetDoc, totalWinners: real, totalLosers: real): real
    requires totalWinners != 0.0
  {
    (d.bet.amount / totalWinners) * totalLosers
  }

  /** The winner loop: each winning bet's team gains its share, in list order. */
  function CreditAll(teams: map<string, Team>, winners: seq<BetDoc>, totalWinners: real, totalLosers: real): (r: map<string, Team>)
    requires totalWinners != 0.0
    ensures r.Keys == teams.Keys
  {
    if winners == [] then teams
    else
      var p, d := winners[..|winners| - 1], winners[|winners| - 1];
      Adjust(CreditAll(teams, p, totalWinners, totalLosers), d.bet.teamName, Share(d, totalWinners, totalLosers))
  }

  /** `winners.length && totalWinners > 0 && totalLosers > 0`: the only case in
      which winners are paid. */
  predicate Pays(ds: seq<BetDoc>, winning: string) {
    |Winners(ds, winning)| > 0 && Sum(Winners(ds, winning)) > 0.0 && Sum(Losers(ds, winning)) > 0.0
  }

  /** The balances after a checkout of bets `ds` with winning label `winning`:
      every loser debited, then, if `Pays`, every winner credited. No team
      document is created or removed. */
  function Settle(teams: map<string, Team>, ds: seq<BetDoc>, winning: string): (r: map<string, Team>)
    ensures r.Keys == teams.Keys
  {
    var winners, losers := Winners(ds, winning), Losers(ds, winning);
    var debited := DebitAll(teams, losers);
    if Pays(ds, winning) then CreditAll(debited, winners, Sum(winners), Sum(losers)) else debited
  }

  // ---------------------------------------------------------------------------
  // Who is affected

  lemma {:induction false} DebitAllOthers(teams: map<string, Team>, losers: seq<BetDoc>, n: string)
    requires n in teams && n !in TeamsOf(losers)
    ensures DebitAll(teams, losers)[n] == teams[n]
  {
    if losers != [] {
      DebitAllOthers(teams, losers[..|losers| - 1], n);
    }
  }

  lemma {:induction false} CreditAllOthers(teams: map<string, Team>, winners: seq<BetDoc>, tw: real, tl: real, n: string)
    requires tw != 0.0
    requires n in teams && n !in TeamsOf(winners)
    ensures CreditAll(teams, winners, tw, tl)[n] == teams[n]
  {
    if winners != [] {
      CreditAllOthers(teams, winners[..|winners| - 1], tw, tl, n);
    }
  }

  lemma {:induction false} PartitionTeams(ds: seq<BetDoc>, winning: string)
    ensures TeamsOf(Winners(ds, winning)) <= TeamsOf(ds)
    ensures TeamsOf(Losers(ds, winning)) <= TeamsOf(ds)
  {
    if ds != [] {
      var p, d := ds[..|ds| - 1], ds[|ds| - 1];
      PartitionTeams(p, winning);
      TeamsOfSnoc(Winners(p, winning), d);
      TeamsOfSnoc(Losers(p, winning), d);
    }
  }

  /** A team that placed no bet keeps its document exactly as it was. */
  lemma SettleOthers(teams: map<string, Team>, ds: seq<BetDoc>, winning: string, n: string)
    requires n in teams && n !in TeamsOf(ds)
    ensures Settle(teams, ds, winning)[n] == teams[n]
  {
    var winners, losers := Winners(ds, winning), Losers(ds, winning);
    PartitionTeams(ds, winning);
    DebitAllOthers(teams, losers, n);
    if Pays(ds, winning) {
      CreditAllOthers(DebitAll(teams, losers), winners, Sum(winners), Sum(losers), n);
    }
  }

  // ---------------------------------------------------------------------------
  // What happens to each bettor

  lemma DistinctMembers(ds: seq<BetDoc>, d1: BetDoc, d2: BetDoc)
    requires TeamsDistinct(ds) && d1 in ds && d2 in ds
    requires d1.bet.teamName == d2.bet.teamName
    ensures d1 == d2
  {
    var i :| 0 <= i < |ds| && ds[i] == d1;
    var j :| 0 <= j < |ds| && ds[j] == d2;
    if i < j { assert false; } else if j < i { assert false; }
  }

  /** The team of the last bet has no earlier bet in a distinct-team list. */
  lemma LastTeamFresh(ds: seq<BetDoc>)
    requires ds != [] && TeamsDistinct(ds)
    ensures TeamsDistinct(ds[..|ds| - 1])
    ensures ds[|ds| - 1].bet.teamName !in TeamsOf(ds[..|ds| - 1])
  {
    var p := ds[..|ds| - 1];
    TeamsOfMembers(p, ds[|ds| - 1].bet.teamName);
  }

  lemma {:induction false} PartitionDistinct(ds: seq<BetDoc>, winning: string)
    requires TeamsDistinct(ds)
    ensures TeamsDistinct(Winners(ds, winning)) && TeamsDistinct(Losers(ds, winning))
  {
    if ds != [] {
      var p, d := ds[..|ds| - 1], ds[|ds| - 1];
      LastTeamFresh(ds);
      PartitionDistinct(p, winning);
      PartitionTeams(p, winning);
      var w, l := Winners(p, winning), Losers(p, winning);
      if Wins(d, winning) {
        SnocDistinct(w, d);
      } else {
        SnocDistinct(l, d);
      }
    }
  }

  lemma SnocDistinct(ds: seq<BetDoc>, d: BetDoc)
    requires TeamsDistinct(ds) && d.bet.teamName !in TeamsOf(ds)
    ensures TeamsDistinct(ds + [d])
  {
    var s := ds + [d];
    forall i, j | 0 <= i < j < |s| ensures s[i].bet.teamName != s[j].bet.teamName {
      if j == |ds| {
        TeamsOfMembers(ds, d.bet.teamName);
        assert s[i] == ds[i];
      } else {
        assert s[i] == ds[i] && s[j] == ds[j];
      }
    }
  }

  /** With distinct teams, the bet `d` of a losing team exactly takes its stake off
      that team's balance. */
  lemma {:induction false} DebitAllAt(teams: map<string, Team>, losers: seq<BetDoc>, d: BetDoc)
    requires TeamsDistinct(losers) && d in losers && d.bet.teamName in teams
    ensures var n := d.bet.teamName;
      DebitAll(teams, losers)[n] == teams[n].(cash := Some(CashOrZero(teams[n]) - d.bet.amount))
  {
    var p, last := losers[..|losers| - 1], losers[|losers| - 1];
    LastTeamFresh(losers);
    if d == last {
      DebitAllOthers(teams, p, d.bet.teamName);
    } else {
      InPrefix(losers, d);
      DebitAllAt(teams, p, d);
      assert last.bet.teamName != d.bet.teamName by {
        TeamsOfMembers(p, d.bet.teamName);
        var i :| 0 <= i < |p| && p[i] == d;
        assert p[i].bet.teamName == d.bet.teamName;
      }
    }
  }

  /** With distinct teams, the bet `d` of a winning team adds exactly its share to
      that team's balance. */
  lemma {:induction false} CreditAllAt(teams: map<string, Team>, winners: seq<BetDoc>, tw: real, tl: real, d: BetDoc)
    requires tw != 0.0
    requires TeamsDistinct(winners) && d in winners && d.bet.teamName in teams
    ensures var n := d.bet.teamName;
      CreditAll(teams, winners, tw, tl)[n] == teams[n].(cash := Some(CashOrZero(teams[n]) + Share(d, tw, tl)))
  {
    var p, last := winners[..|winners| - 1], winners[|winners| - 1];
    LastTeamFresh(winners);
    if d == last {
      CreditAllOthers(teams, p, tw, tl, d.bet.teamName);
    } else {
      InPrefix(winners, d);
      CreditAllAt(teams, p, tw, tl, d);
      assert last.bet.teamName != d.bet.teamName by {
        TeamsOfMembers(p, d.bet.teamName);
        var i :| 0 <= i < |p| && p[i] == d;
        assert p[i].bet.teamName == d.bet.teamName;
      }
    }
  }

  /** A bet's team is not among the other side's teams. */
  lemma OtherSide(ds: seq<BetDoc>, winning: string, d: BetDoc)
    requires TeamsDistinct(ds) && d in ds
    ensures Wins(d, winning) ==> d.bet.teamName !in TeamsOf(Losers(ds, winning))
    ensures !Wins(d, winning) ==> d.bet.teamName !in TeamsOf(Winners(ds, winning))
  {
    var side := if Wins(d, winning) then Losers(ds, winning) else Winners(ds, winning);
    TeamsOfMembers(side, d.bet.teamName);
    if d.bet.teamName in TeamsOf(side) {
      var i :| 0 <= i < |side| && side[i].bet.teamName == d.bet.teamName;
      assert side[i] in side;
      PartitionMembers(ds, winning, side[i]);
      DistinctMembers(ds, d, side[i]);
    }
  }

  /** What checkout does to a losing team whose document exists: it pays its
      stake, whether or not anyone wins. */
  lemma SettleLoserAt(teams: map<string, Team>, ds: seq<BetDoc>, winning: string, d: BetDoc)
    requires TeamsDistinct(ds) && d in ds && d.bet.teamName in teams && !Wins(d, winning)
    ensures var n := d.bet.teamName;
      Settle(teams, ds, winning)[n] == teams[n].(cash := Some(CashOrZero(teams[n]) - d.bet.amount))
  {
    var winners, losers := Winners(ds, winning), Losers(ds, winning);
    PartitionDistinct(ds, winning);
    PartitionMembers(ds, winning, d);
    OtherSide(ds, winning, d);
    DebitAllAt(teams, losers, d);
    if Pays(ds, winning) {
      CreditAllOthers(DebitAll(teams, losers), winners, Sum(winners), Sum(losers), d.bet.teamName);
    }
  }

  /** What checkout does to a winning team whose document exists: it gains
      `stake / totalWinners * totalLosers` when winners are paid and is otherwise
      left as it was. */
  lemma SettleWinnerAt(teams: map<string, Team>, ds: seq<BetDoc>, winning: string, d: BetDoc)
    requires TeamsDistinct(ds) && d in ds && d.bet.teamName in teams && Wins(d, winning)
    ensures var n, tw, tl := d.bet.teamName, Sum(Winners(ds, winning)), Sum(Losers(ds, winning));
      Pays(ds, winning) ==>
        Settle(teams, ds, winning)[n] == teams[n].(cash := Some(CashOrZero(teams[n]) + Share(d, tw, tl)))
    ensures !Pays(ds, winning) ==> Settle(teams, ds, winning)[d.bet.teamName] == teams[d.bet.teamName]
  {
    var winners, losers := Winners(ds, winning), Losers(ds, winning);
    PartitionDistinct(ds, winning);
    PartitionMembers(ds, winning, d);
    OtherSide(ds, winning, d);
    var debited := DebitAll(teams, losers);
    DebitAllOthers(teams, losers, d.bet.teamName);
    if Pays(ds, winning) {
      var tw, tl := Sum(winners), Sum(losers);
      CreditAllAt(debited, winners, tw, tl, d);
      assert debited[d.bet.teamName] == teams[d.bet.teamName];
    }
  }

  // ---------------------------------------------------------------------------
  // Conservation

  /** The sum of the balances of the teams listed in `ks` (missing ones count 0). */
  function TotalCash(teams: map<string, Team>, ks: seq<string>): real {
    if ks == [] then 0.0
    else TotalCash(teams, ks[..|ks| - 1])
         + (if ks[|ks| - 1] in teams then CashOrZero(teams[ks[|ks| - 1]]) else 0.0)
  }

  lemma {:induction false} TotalCashAdjust(teams: map<string, Team>, ks: seq<string>, name: string, delta: real)
    requires NoDuplicates(ks) && name in teams
    ensures TotalCash(Adjust(teams, name, delta), ks)
            == TotalCash(teams, ks) + (if name in ks then delta else 0.0)
  {
    if ks != [] {
      var p := ks[..|ks| - 1];
      NoDuplicatesPrefix(ks);
      TotalCashAdjust(teams, p, name, delta);
      LastSplit(ks);
    }
  }

  /** All bettors have documents, and each is listed in `ks`. */
  predicate Covers(teams: map<string, Team>, ds: seq<BetDoc>, ks: seq<string>) {
    forall i :: 0 <= i < |ds| ==> ds[i].bet.teamName in teams && ds[i].bet.teamName in ks
  }

  /** The debit loop removes exactly the losers' pool from the listed teams. */
  lemma {:induction false} DebitAllTotal(teams: map<string, Team>, losers: seq<BetDoc>, ks: seq<string>)
    requires NoDuplicates(ks) && Covers(teams, losers, ks)
    ensures TotalCash(DebitAll(teams, losers), ks) == TotalCash(teams, ks) - Sum(losers)
  {
    if losers != [] {
      var p, d := losers[..|losers| - 1], losers[|losers| - 1];
      assert Covers(teams, p, ks) by {
        forall i | 0 <= i < |p| ensures p[i].bet.teamName in teams && p[i].bet.teamName in ks {
          assert p[i] == losers[i];
        }
      }
      DebitAllTotal(teams, p, ks);
      TotalCashAdjust(DebitAll(teams, p), ks, d.bet.teamName, -d.bet.amount);
    }
  }

  /** The sum of the shares paid on `winners`. */
  function Shares(winners: seq<BetDoc>, tw: real, tl: real): real
    requires tw != 0.0
  {
    if winners == [] then 0.0 else Shares(winners[..|winners| - 1], tw, tl) + Share(winners[|winners| - 1], tw, tl)
  }

  /** The credit loop adds exactly the paid shares to the listed teams. */
  lemma {:induction false} CreditAllTotal(teams: map<string, Team>, winners: seq<BetDoc>, tw: real, tl: real, ks: seq<string>)
    requires tw != 0.0
    requires NoDuplicates(ks) && Covers(teams, winners, ks)
    ensures TotalCash(CreditAll(teams, winners, tw, tl), ks) == TotalCash(teams, ks) + Shares(winners, tw, tl)
  {
    if winners != [] {
      var p, d := winners[..|winners| - 1], winners[|winners| - 1];
      assert Covers(teams, p, ks) by {
        forall i | 0 <= i < |p| ensures p[i].bet.teamName in teams && p[i].bet.teamName in ks {
          assert p[i] == winners[i];
        }
      }
      CreditAllTotal(teams, p, tw, tl, ks);
      TotalCashAdjust(CreditAll(teams, p, tw, tl), ks, d.bet.teamName, Share(d, tw, tl));
    }
  }

  /** Pro-rata shares add up to the stake total times `tl / tw`. */
  lemma {:induction false} SharesProRata(winners: seq<BetDoc>, tw: real, tl: real)
    requires tw != 0.0
    ensures Shares(winners, tw, tl) == Sum(winners) / tw * tl
  {
    if winners != [] {
      var p, d := winners[..|winners| - 1], winners[|winners| - 1];
      SharesProRata(p, tw, tl);
      var x, a := Sum(p), d.bet.amount;
      assert x / tw * tl + a / tw * tl == (x + a) / tw * tl by {
        assert x / tw + a / tw == (x + a) / tw;
      }
    }
  }

  lemma DivSelf(x: real, y: real)
    requires x != 0.0
    ensures x / x * y == y
  {
  }

  /** When winners are paid, the credits add up to exactly the losers' pool. */
  lemma PayoutEqualsLoserPool(ds: seq<BetDoc>, winning: string)
    requires Pays(ds, winning)
    ensures Shares(Winners(ds, winning), Sum(Winners(ds, winning)), Sum(Losers(ds, winning)))
            == Sum(Losers(ds, winning))
  {
    var tw, tl := Sum(Winners(ds, winning)), Sum(Losers(ds, winning));
    SharesProRata(Winners(ds, winning), tw, tl);
    DivSelf(tw, tl);
  }

  lemma CoversSide(teams: map<string, Team>, ds: seq<BetDoc>, winning: string, ks: seq<string>)
    requires Covers(teams, ds, ks)
    ensures Covers(teams, Winners(ds, winning), ks) && Covers(teams, Losers(ds, winning), ks)
  {
    var w, l := Winners(ds, winning), Losers(ds, winning);
    forall i | 0 <= i < |w| ensures w[i].bet.teamName in teams && w[i].bet.teamName in ks {
      PartitionMembers(ds, winning, w[i]);
      assert w[i] in w;
    }
    forall i | 0 <= i < |l| ensures l[i].bet.teamName in teams && l[i].bet.teamName in ks {
      PartitionMembers(ds, winning, l[i]);
      assert l[i] in l;
    }
  }

  lemma CoversKeys(teams: map<string, Team>, teams': map<string, Team>, ds: seq<BetDoc>, ks: seq<string>)
    requires Covers(teams, ds, ks) && teams'.Keys == teams.Keys
    ensures Covers(teams', ds, ks)
  {
  }

  /** The conservation law of checkout. Over any duplicate-free list of teams that
      includes every bettor, and when every bettor has a document, the total
      balance is unchanged when winners are paid; otherwise it falls by exactly
      the losers' pool (the losers pay and nobody is credited). */
  lemma SettleTotal(teams: map<string, Team>, ds: seq<BetDoc>, winning: string, ks: seq<string>)
    requires NoDuplicates(ks) && Covers(teams, ds, ks)
    ensures Pays(ds, winning) ==> TotalCash(Settle(teams, ds, winning), ks) == TotalCash(teams, ks)
    ensures !Pays(ds, winning) ==>
      TotalCash(Settle(teams, ds, winning), ks) == TotalCash(teams, ks) - Sum(Losers(ds, winning))
  {
    var winners, losers := Winners(ds, winning), Losers(ds, winning);
    CoversSide(teams, ds, winning, ks);
    DebitAllTotal(teams, losers, ks);
    if Pays(ds, winning) {
      var debited := DebitAll(teams, losers);
      CoversKeys(teams, debited, winners, ks);
      CreditAllTotal(debited, winners, Sum(winners), Sum(losers), ks);
      PayoutEqualsLoserPool(ds, winning);
    }
  }
}
