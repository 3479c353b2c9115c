/** The documents of the game's store: the `events/event1` record, the `teams`
    collection and the `event1_bets` collection. */
module Records {
  import opened Wrappers

  /** The `events/event1` document. A missing `round` field reads as 0 everywhere
      (`data.round || 0`) and a missing `active` as false (`!!data.active`), so the
      model stores those defaults. */
  datatype EventDoc = EventDoc(active: bool, round: nat)

  /** A `teams/<name>` document; a field the document lacks is `None`. `cash` is
      `None` when it is missing or not a number. */
  datatype Team = Team(
    teamName: Option<string>,
    rolls: Option<string>,
    instituteEmail: Option<string>,
    cash: Option<real>,
    createdAt: Option<int>)

  /** An `event1_bets/<id>` document. */
  datatype Bet = Bet(round: nat, teamName: string, plane: string, amount: real, ts: int)

  /** A bet as a query returns it: its document id with its data. */
  datatype BetDoc = BetDoc(id: string, bet: Bet)

  /** The seed balance of a new team. */
  const StartingCash: real := 10000.0

  /** `teamSnap.data().cash || 0`: a missing balance reads as zero. */
  function CashOrZero(t: Team): (c: real)
    ensures t.cash.Some? ==> c == t.cash.value
    ensures t.cash.None? ==> c == 0.0
  {
    t.cash.GetOr(0.0)
  }

  /** The round an event snapshot reports: 0 when the document does not exist. */
  function StoredRound(e: Option<EventDoc>): nat {
    if e.Some? then e.value.round else 0
  }

  /** Whether an event snapshot reports betting as open. */
  function StoredActive(e: Option<EventDoc>): bool {
    e.Some? && e.value.active
  }
}
