/** Session lifetime: a sliding idle limit, refreshed at most every five minutes,
    inside an absolute limit. Times are in seconds. */
module Session {
  import opened Artifacts

  const ABSOLUTE_TTL: nat := 43200
  const IDLE_TTL: nat := 3600
  const REFRESH_INTERVAL: nat := 300

  datatype Row = Row(created: nat, lastSeen: nat, idleExpiry: nat, absoluteExpiry: nat)

  datatype Outcome = Accepted | SessionExpired | SessionRequired

  function IdleExpiry(now: nat, absoluteExpiry: nat): nat {
    if now + IDLE_TTL < absoluteExpiry then now + IDLE_TTL else absoluteExpiry
  }

  function NewSession(now: nat): Row {
    Row(now, now, IdleExpiry(now, now + ABSOLUTE_TTL), now + ABSOLUTE_TTL)
  }

  ghost predicate RowOk(r: Row) {
    && r.created <= r.lastSeen < r.idleExpiry <= r.absoluteExpiry == r.created + ABSOLUTE_TTL
    && r.idleExpiry == IdleExpiry(r.lastSeen, r.absoluteExpiry)
  }

  function Answer(row: Option<Row>, now: nat): Outcome {
    if row.None? then SessionRequired
    else if now >= row.value.idleExpiry || now >= row.value.absoluteExpiry then SessionExpired
    else Accepted
  }

  function After(row: Option<Row>, now: nat): Option<Row> {
    if Answer(row, now) != Accepted then None
    else if now < row.value.lastSeen + REFRESH_INTERVAL then row
    else Some(row.value.(lastSeen := now, idleExpiry := IdleExpiry(now, row.value.absoluteExpiry)))
  }

  /** The row after requests at `times`. */
  function AfterAll(row: Option<Row>, times: seq<nat>): Option<Row> {
    if times == [] then row else After(AfterAll(row, times[..|times| - 1]), times[|times| - 1])
  }

  /** The last request that was accepted, or the creation. */
  function LastUsed(created: nat, times: seq<nat>): nat {
    if times == [] then created
    else if Answer(AfterAll(Some(NewSession(created)), times[..|times| - 1]), times[|times| - 1]) == Accepted then times[|times| - 1]
    else LastUsed(created, times[..|times| - 1])
  }

  ghost predicate Monotone(start: nat, times: seq<nat>) {
    times != [] ==> Monotone(start, times[..|times| - 1]) && LastTime(start, times[..|times| - 1]) <= times[|times| - 1]
  }

  function LastTime(start: nat, times: seq<nat>): nat {
    if times == [] then start else times[|times| - 1]
  }

  /** What holds after every serial history: the stored times are ordered and the stored
      last use lags the real one by less than the refresh interval; a session that is
      gone was unused for 55 minutes or 12 hours old. */
  lemma {:induction false} HistoryKeepsRow(created: nat, times: seq<nat>)
    requires Monotone(created, times)
    ensures var row, used := AfterAll(Some(NewSession(created)), times), LastUsed(created, times);
            && used <= LastTime(created, times)
            && (row.Some? ==>
                  && RowOk(row.value) && row.value.created == created
                  && row.value.lastSeen <= used < row.value.lastSeen + 300)
            && (row.None? ==> LastTime(created, times) >= used + 3300 || LastTime(created, times) >= created + 43200)
  {
    if times != [] {
      HistoryKeepsRow(created, times[..|times| - 1]);
    }
  }

  /** The lifetime bound. For every serial history and any next request: unused for less
      than 55 minutes and younger than 12 hours is accepted; unused for an hour or 12
      hours old is rejected. */
  lemma LifetimeBound(created: nat, times: seq<nat>, now: nat)
    requires Monotone(created, times) && LastTime(created, times) <= now
    ensures var row, used := AfterAll(Some(NewSession(created)), times), LastUsed(created, times);
            && (now - used < 3300 && now - created < 43200 ==> Answer(row, now) == Accepted)
            && (now - used >= 3600 || now - created >= 43200 ==> Answer(row, now) != Accepted)
  {
    HistoryKeepsRow(created, times);
  }

  /** What request `i` of a history was answered. */
  function AnswerAt(created: nat, times: seq<nat>, i: nat): Outcome
    requires i < |times|
  {
    Answer(AfterAll(Some(NewSession(created)), times[..i]), times[i])
  }

  /** The session is gone exactly if some request found it expired. */
  lemma {:induction false} GoneIffRejected(created: nat, times: seq<nat>)
    ensures AfterAll(Some(NewSession(created)), times).None? <==>
            exists i :: 0 <= i < |times| && AnswerAt(created, times, i) == SessionExpired
  {
    if times != [] {
      var n := |times| - 1;
      var front := times[..n];
      GoneIffRejected(created, front);
      forall i | 0 <= i < n
        ensures AnswerAt(created, times, i) == AnswerAt(created, front, i)
      {
        assert front[..i] == times[..i];
      }
      assert AnswerAt(created, times, n) == Answer(AfterAll(Some(NewSession(created)), front), times[n]);
    }
  }

  /** Once a request was rejected as expired, no later one is accepted, whatever the clock says. */
  lemma {:induction false} ExpiredStaysExpired(created: nat, times: seq<nat>, i: nat, j: nat)
    requires i < j < |times|
    requires AnswerAt(created, times, i) != Accepted
    ensures AnswerAt(created, times, j) == SessionRequired
    decreases j
  {
    assert times[..j][..j - 1] == times[..j - 1];
    if i < j - 1 {
      ExpiredStaysExpired(created, times, i, j - 1);
    }
  }

  // ---------- The stored session ----------

  /** One row of the sessions table, with the history of its requests. */
  class SessionRow {
    var row: Option<Row>
    ghost const created: nat
    ghost var times: seq<nat>

    /** The row is what the requests since the creation made of it. */
    ghost predicate Valid()
      reads this
    {
      Monotone(created, times) && row == AfterAll(Some(NewSession(created)), times)
    }

    constructor (now: nat)
      ensures Valid() && created == now && times == []
    {
      row, created, times := Some(NewSession(now)), now, [];
    }

    /** authenticate. A request is accepted if the session was used less than 55 minutes ago
        and created less than 12 hours ago, and rejected if it was not used for an hour, is
        12 hours old, or was ever rejected. Otherwise the last stored use decides. */
    method Authenticate(now: nat) returns (outcome: Outcome)
      requires Valid() && LastTime(created, times) <= now
      modifies this
      ensures Valid() && times == old(times) + [now]
      ensures now - LastUsed(created, old(times)) < 3300 && now - created < 43200 ==> outcome == Accepted
      ensures now - LastUsed(created, old(times)) >= 3600 || now - created >= 43200 ==> outcome != Accepted
      ensures outcome == SessionRequired <==>
              exists i :: 0 <= i < |old(times)| && AnswerAt(created, old(times), i) == SessionExpired
      ensures outcome == Accepted <==> LastUsed(created, times) == now && row.Some?
      ensures outcome == Accepted ==>
                && old(row.Some?)
                && row.value.lastSeen == old(if now < row.value.lastSeen + 300 then row.value.lastSeen else now)
                && row.value.idleExpiry == (if row.value.lastSeen + 3600 < created + 43200 then row.value.lastSeen + 3600 else created + 43200)
    {
      LifetimeBound(created, times, now);
      HistoryKeepsRow(created, times);
      GoneIffRejected(created, times);
      if row.None? {
        outcome := SessionRequired;
      } else if now >= row.value.idleExpiry || now >= row.value.absoluteExpiry {
        row, outcome := None, SessionExpired;
      } else {
        if now >= row.value.lastSeen + REFRESH_INTERVAL {
          row := Some(row.value.(lastSeen := now, idleExpiry := IdleExpiry(now, row.value.absoluteExpiry)));
        }
        outcome := Accepted;
      }
      times := times + [now];
      assert times[..|times| - 1] == old(times);
    }
  }
}
