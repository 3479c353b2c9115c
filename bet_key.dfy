/** The bet document id `${round}_${teamName}`: one id per (round, team). */
module BetKey {
  import opened Wrappers
  import opened Text

  /** The id under which a team's bet for a round is stored. */
  function BetId(round: nat, team: string): string {
    NatToString(round) + "_" + team
  }

  /** The position of the first `c` in `s`, if any. */
  function FirstIndexOf(s: string, c: char): (r: Option<nat>)
    ensures r.Some? ==> r.value < |s| && s[r.value] == c && c !in s[..r.value]
    ensures r.None? ==> c !in s
  {
    if s == [] then None
    else if s[0] == c then Some(0)
    else
      match FirstIndexOf(s[1..], c)
      case None => None
      case Some(i) => assert s[..i + 1] == [s[0]] + s[1..][..i]; Some(i + 1)
  }

  /** Splits an id at its first `_` into a decimal round and a team name. */
  function ParseBetId(id: string): Option<(nat, string)> {
    match FirstIndexOf(id, '_')
    case None => None
    case Some(i) =>
      if i > 0 && AllDigits(id[..i]) then Some((ParseNat(id[..i]), id[i + 1..])) else None
  }

  lemma FirstIndexOfConcat(a: string, b: string, c: char)
    requires c !in a
    ensures FirstIndexOf(a + [c] + b, c) == Some(|a|)
  {
    if a != [] {
      assert (a + [c] + b)[1..] == a[1..] + [c] + b;
      FirstIndexOfConcat(a[1..], b, c);
    }
  }

  /** Splitting an id at its first `_` recovers the round and the team, even when
      the team name itself contains `_`, because the decimal round has none. */
  lemma ParseBetIdRoundTrip(round: nat, team: string)
    ensures ParseBetId(BetId(round, team)) == Some((round, team))
  {
    var r := NatToString(round);
    var id := BetId(round, team);
    assert '_' !in r by {
      forall i | 0 <= i < |r| ensures r[i] != '_' { assert IsDigit(r[i]); }
    }
    FirstIndexOfConcat(r, team, '_');
    assert id[..|r|] == r;
    assert id[|r| + 1..] == team;
    ParseNatToString(round);
  }

  /** Distinct (round, team) pairs have distinct bet ids. */
  lemma BetIdInjective(r1: nat, t1: string, r2: nat, t2: string)
    ensures BetId(r1, t1) == BetId(r2, t2) ==> r1 == r2 && t1 == t2
  {
    ParseBetIdRoundTrip(r1, t1);
    ParseBetIdRoundTrip(r2, t2);
  }
}
