/** The login form: the field check, the record written for a new team, the
    merge that fills the missing fields of an existing one, and the session the
    page hands back. */
module LoginPage {
  import opened Wrappers
  import opened Text
  import opened Records

  /** What `onLogin` receives and the pages keep in local storage. */
  datatype Session = Session(teamName: string, rolls: string, instituteEmail: string)

  /** The form is accepted only when no field is empty after trimming. */
  predicate FieldsFilled(teamName: string, rolls: string, instituteEmail: string) {
    Trim(teamName) != [] && Trim(rolls) != [] && Trim(instituteEmail) != []
  }

  /** The session of a login: every field trimmed. */
  function SessionOf(teamName: string, rolls: string, instituteEmail: string): (s: Session)
    requires FieldsFilled(teamName, rolls, instituteEmail)
    ensures s.teamName != [] && s.rolls != [] && s.instituteEmail != []
    ensures Trim(s.teamName) == s.teamName && Trim(s.rolls) == s.rolls
    ensures Trim(s.instituteEmail) == s.instituteEmail
  {
    TrimIdempotent(teamName);
    TrimIdempotent(rolls);
    TrimIdempotent(instituteEmail);
    Session(Trim(teamName), Trim(rolls), Trim(instituteEmail))
  }

  /** The document of a team seen for the first time: the session's fields, the
      seed balance and the login time. */
  function NewTeam(s: Session, now: int): Team {
    Team(Some(s.teamName), Some(s.rolls), Some(s.instituteEmail), Some(StartingCash), Some(now))
  }

  /** The merge written over an existing team document: each of the three
      identity fields keeps its stored value when there is one (`??`), the
      balance is kept when it is a number and seeded otherwise, and every other
      field, `createdAt` among them, is left alone. */
  function MergeExisting(data: Team, s: Session): (t: Team)
    ensures t.teamName == Some(data.teamName.GetOr(s.teamName))
    ensures t.rolls == Some(data.rolls.GetOr(s.rolls))
    ensures t.instituteEmail == Some(data.instituteEmail.GetOr(s.instituteEmail))
    ensures t.cash == Some(data.cash.GetOr(StartingCash))
    ensures t.createdAt == data.createdAt
  {
    data.(
      teamName := Some(data.teamName.GetOr(s.teamName)),
      rolls := Some(data.rolls.GetOr(s.rolls)),
      instituteEmail := Some(data.instituteEmail.GetOr(s.instituteEmail)),
      cash := Some(data.cash.GetOr(StartingCash)))
  }

  /** The team document after a login, given what was stored under the name. */
  function LoginRecord(existing: Option<Team>, s: Session, now: int): Team {
    if existing.None? then NewTeam(s, now) else MergeExisting(existing.value, s)
  }

  /** After a login the document has all three identity fields and a numeric
      balance; a new team starts with 10000 and an existing one keeps any balance
      it had. */
  lemma LoginRecordComplete(existing: Option<Team>, s: Session, now: int)
    ensures var t := LoginRecord(existing, s, now);
      && t.teamName.Some? && t.rolls.Some? && t.instituteEmail.Some? && t.cash.Some?
      && (existing.None? ==> t.cash == Some(StartingCash) && t.createdAt == Some(now))
      && (existing.Some? && existing.value.cash.Some? ==> t.cash == existing.value.cash)
      && (existing.Some? ==> t.createdAt == existing.value.createdAt)
  {
  }

  /** Logging in again, with any form contents and at any time, leaves the team
      document as the first login left it: cash is never reset. */
  lemma LoginIdempotent(existing: Option<Team>, s: Session, now: int, s': Session, now': int)
    ensures LoginRecord(Some(LoginRecord(existing, s, now)), s', now') == LoginRecord(existing, s, now)
  {
  }
}
