/** The weekly challenges page (src/pages/Challenges.tsx): five challenge types, the
    page's copy of this week's `weekly_challenges` rows, the "completed" test, the progress
    count and the toggle that completes a challenge. */
module Challenges {
  import opened Wrappers

  /** The ids of `challengeTypes`, in display order. */
  const ChallengeTypes: seq<string> := ["selfcare", "water", "bible", "walk", "meditation"]

  /** A `weekly_challenges` row: whose it is, which challenge, and when it was completed
      (`null` is `None`). */
  datatype Record = Record(userId: string, challengeType: string, completedAt: Option<string>)

  /** `c.completed_at` is truthy: present and not the empty string. */
  predicate Completed(r: Record) {
    r.completedAt.Some? && r.completedAt.value != ""
  }

  /** A row of type `t` that is not completed. */
  predicate Open(r: Record, t: string) {
    r.challengeType == t && !Completed(r)
  }

  /** `isChallengeCompleted(t)`: some row of type `t` is completed. */
  function IsChallengeCompleted(records: seq<Record>, t: string): (b: bool)
    ensures b <==> exists i :: 0 <= i < |records| && records[i].challengeType == t && Completed(records[i])
  {
    if records == [] then false
    else (records[0].challengeType == t && Completed(records[0])) || IsChallengeCompleted(records[1..], t)
  }

  /** `challenges.filter(c => c.completed_at).length`: the number of completed rows. */
  function CompletedCount(records: seq<Record>): (n: nat)
    ensures n <= |records|
  {
    if records == [] then 0
    else (if Completed(records[0]) then 1 else 0) + CompletedCount(records[1..])
  }

  /** `challenges.find(c => c.challenge_type === t && !c.completed_at)`, as a position: the
      first open row of type `t`, or `None` when there is none. */
  function FindOpen(records: seq<Record>, t: string): (r: Option<nat>)
    ensures r.Some? ==> r.value < |records| && Open(records[r.value], t)
    ensures r.Some? ==> forall j :: 0 <= j < r.value ==> !Open(records[j], t)
    ensures r.None? ==> forall j :: 0 <= j < |records| ==> !Open(records[j], t)
  {
    if records == [] then None
    else if Open(records[0], t) then Some(0)
    else match FindOpen(records[1..], t)
      case None => None
      case Some(k) => Some(k + 1)
  }

  /** The rows after a successful toggle of `t` by `user` at time `now`: the first open row
      of type `t` gets the completion time, or, when there is none, a completed row is
      added. */
  function Toggled(records: seq<Record>, t: string, user: string, now: string): seq<Record> {
    match FindOpen(records, t)
    case Some(i) => records[i := records[i].(completedAt := Some(now))]
    case None => records + [Record(user, t, Some(now))]
  }

  /** The count of a concatenation is the sum of the counts. */
  lemma {:induction false} CountAppend(a: seq<Record>, b: seq<Record>)
    ensures CompletedCount(a + b) == CompletedCount(a) + CompletedCount(b)
    decreases |a|
  {
    if a != [] {
      assert (a + b)[1..] == a[1..] + b;
      CountAppend(a[1..], b);
    } else {
      assert a + b == b;
    }
  }

  /** The count is zero exactly when no row is completed, and the full length exactly when
      every row is. */
  lemma {:induction false} CountBounds(records: seq<Record>)
    ensures CompletedCount(records) == 0 <==> forall i :: 0 <= i < |records| ==> !Completed(records[i])
    ensures CompletedCount(records) == |records| <==> forall i :: 0 <= i < |records| ==> Completed(records[i])
    decreases |records|
  {
    if records != [] {
      CountBounds(records[1..]);
      assert forall i :: 1 <= i < |records| ==> records[i] == records[1..][i - 1];
    }
  }

  /** Completing one open row adds exactly one to the count. */
  lemma CountComplete(records: seq<Record>, i: nat, now: string)
    requires i < |records| && !Completed(records[i]) && now != ""
    ensures CompletedCount(records[i := records[i].(completedAt := Some(now))]) == CompletedCount(records) + 1
  {
    var r := records[i := records[i].(completedAt := Some(now))];
    assert records == records[..i] + [records[i]] + records[i + 1..];
    assert r == records[..i] + [r[i]] + records[i + 1..];
    CountAppend(records[..i] + [records[i]], records[i + 1..]);
    CountAppend(records[..i], [records[i]]);
    CountAppend(records[..i] + [r[i]], records[i + 1..]);
    CountAppend(records[..i], [r[i]]);
  }

  /** After a toggle the challenge is completed, exactly one more row counts as completed,
      and no row that was completed stops being so. */
  lemma ToggleCompletes(records: seq<Record>, t: string, user: string, now: string)
    requires now != ""
    ensures var r := Toggled(records, t, user, now);
      && IsChallengeCompleted(r, t)
      && CompletedCount(r) == CompletedCount(records) + 1
      && |records| <= |r|
      && forall j :: 0 <= j < |records| && Completed(records[j]) ==> r[j] == records[j]
  {
    var r := Toggled(records, t, user, now);
    match FindOpen(records, t)
    case Some(i) =>
      CountComplete(records, i, now);
      assert r[i].challengeType == t && Completed(r[i]);
    case None =>
      CountAppend(records, [Record(user, t, Some(now))]);
      assert r[|records|].challengeType == t && Completed(r[|records|]);
  }

  /** A toggle changes one row only: either the first open row of type `t`, which keeps
      its owner and type, or none, when a row is appended. */
  lemma ToggleChangesOneRow(records: seq<Record>, t: string, user: string, now: string)
    ensures var r := Toggled(records, t, user, now);
      || (|r| == |records| && (exists i ::
            && 0 <= i < |records| && Open(records[i], t)
            && (forall j :: 0 <= j < i ==> !Open(records[j], t))
            && r[i] == Record(records[i].userId, t, Some(now))
            && (forall j :: 0 <= j < |records| && j != i ==> r[j] == records[j])))
      || ((forall j :: 0 <= j < |records| ==> !Open(records[j], t)) && r == records + [Record(user, t, Some(now))])
  {
    match FindOpen(records, t)
    case Some(i) =>
      var r := Toggled(records, t, user, now);
      assert Open(records[i], t) && r[i] == Record(records[i].userId, t, Some(now));
    case None =>
  }

  /** The progress bar's count can pass the number of challenge types: it counts completed
      rows, not distinct completed types. */
  lemma CountIsNotCapped()
    ensures var rows := seq(6, i => Record("u", "water", Some("2024-01-01")));
      CompletedCount(rows) == 6 > |ChallengeTypes|
  {
    var rows := seq(6, i => Record("u", "water", Some("2024-01-01")));
    CountBounds(rows);
  }

  /** The toasts the toggle shows. */
  datatype ChallengeToast =
    | CompletedExisting     // an open row was completed
    | CompletedNew          // a new completed row was inserted
    | Failed(message: string)

  /** The page's state: the signed-in user, the loaded rows and the toasts shown. */
  class ChallengeBoard {
    var user: Option<string>
    var challenges: seq<Record>
    var toasts: seq<ChallengeToast>

    constructor (user: Option<string>, challenges: seq<Record>)
      ensures this.user == user && this.challenges == challenges && toasts == []
    {
      this.user := user;
      this.challenges := challenges;
      toasts := [];
    }

    /** `toggleChallenge(t)`. Without a user nothing happens. Otherwise the first open row
        of type `t` is completed, or a completed row is inserted; `now` is the
        `toISOString()` time stamp and `dbError` the error the database call reports, if
        any. The reload that follows is taken to bring back the table as changed here. */
    method ToggleChallenge(t: string, now: string, dbError: Option<string>)
      requires now != ""
      modifies this
      ensures user == old(user)
      ensures user.None? ==> challenges == old(challenges) && toasts == old(toasts)
      ensures user.Some? && dbError.Some? ==>
        challenges == old(challenges) && toasts == old(toasts) + [Failed(dbError.value)]
      ensures user.Some? && dbError.None? ==>
        && challenges == Toggled(old(challenges), t, user.value, now)
        && toasts == old(toasts) + [if FindOpen(old(challenges), t).Some? then CompletedExisting else CompletedNew]
    {
      if user.None? {
        return;
      }
      var existing := FindOpen(challenges, t);
      if dbError.Some? {
        toasts := toasts + [Failed(dbError.value)];
        return;
      }
      match existing {
        case Some(i) =>
          challenges := challenges[i := challenges[i].(completedAt := Some(now))];
          toasts := toasts + [CompletedExisting];
        case None =>
          challenges := challenges + [Record(user.value, t, Some(now))];
          toasts := toasts + [CompletedNew];
      }
    }

    /** The progress line: completed rows over the number of challenge types. */
    function Progress(): (p: (nat, nat))
      reads this
      ensures p.0 == CompletedCount(challenges) && p.1 == |ChallengeTypes| == 5
      ensures p.0 <= |challenges|
    {
      (CompletedCount(challenges), |ChallengeTypes|)
    }
  }
}
