/** Polling one submitted analysis until it completes, fails, times out or the service is judged lost. The clock
    counts microseconds; what each status query brings is arbitrary. */
module PollOne {
  import opened TimeUnits
  import opened Wrappers

  const POLL_INTERVAL := 30 * SECOND
  const MAX_CONN_ERRORS := 10
  const RELOGIN_AFTER := 3

  /** The outcome of one status query: HTTP 401 with what a login would bring now, another bad status, a reply
      that tells the status of the analysis (a completed one with whether its report can be fetched), a connection
      error, or any other exception. */
  datatype Reply =
    | Unauthorized(login: bool)
    | BadStatus
    | Completed(fetched: bool)
    | TaskFailed
    | StillRunning
    | ConnError
    | Broken

  datatype Kind = Done | FetchFailed | AnalysisFailed | ServiceLost | TimedOut

  datatype Result = Result(kind: Kind, elapsed: int)

  /** The connection errors in a row at the end of the first `n` replies. */
  function Streak(reply: nat -> Reply, n: nat): nat {
    if n > 0 && reply(n - 1).ConnError? then Streak(reply, n - 1) + 1 else 0
  }

  /** The 401 count after the first `n` replies: a connection error leaves it as it is, any other reply and a
      successful login clear it. */
  function Strikes(reply: nat -> Reply, n: nat): nat
    decreases n, 0
  {
    if n == 0 then 0
    else
      match reply(n - 1)
      case Unauthorized(login) => if TriesLogin(reply, n - 1) && login then 0 else Strikes(reply, n - 1) + 1
      case ConnError => Strikes(reply, n - 1)
      case _ => 0
  }

  predicate TriesLogin(reply: nat -> Reply, i: nat)
    decreases i, 1
  {
    reply(i).Unauthorized? && Strikes(reply, i) + 1 >= RELOGIN_AFTER
  }

  predicate Renews(reply: nat -> Reply, i: nat) { TriesLogin(reply, i) && reply(i).login }

  /** How often the token has been renewed by the first `n` replies. */
  function Renewals(reply: nat -> Reply, n: nat): nat {
    if n == 0 then 0 else Renewals(reply, n - 1) + if Renews(reply, n - 1) then 1 else 0
  }

  /** What round `i` ends the polling with, if it does. */
  function Verdict(clock: nat -> int, reply: nat -> Reply, start: int, timeout: int, i: nat): Option<Result> {
    var elapsed := clock(i) - start;
    if elapsed >= timeout * SECOND then Some(Result(TimedOut, elapsed))
    else
      match reply(i)
      case Completed(fetched) => Some(Result(if fetched then Done else FetchFailed, elapsed))
      case TaskFailed => Some(Result(AnalysisFailed, elapsed))
      case ConnError =>
        if Streak(reply, i + 1) >= MAX_CONN_ERRORS then Some(Result(ServiceLost, elapsed)) else None
      case _ => None
  }

  /** Every round sleeps for the interval before the clock is read again. */
  ghost predicate Ticks(clock: nat -> int, start: int) {
    start <= clock(0) && forall i: nat :: clock(i) + POLL_INTERVAL <= clock(i + 1)
  }

  /** The status queries that fit into the timeout. */
  function MaxQueries(timeout: int): nat { if timeout <= 0 then 0 else (timeout + 29) / 30 }

  lemma {:induction false} ClockRuns(clock: nat -> int, start: int, i: nat)
    requires Ticks(clock, start)
    ensures clock(i) - start >= i * POLL_INTERVAL
  {
    if i > 0 { ClockRuns(clock, start, i - 1); }
  }

  method PollOne(clock: nat -> int, reply: nat -> Reply, start: int, timeout: int)
    returns (r: Result, last: nat, renewals: nat)
    requires Ticks(clock, start)
    ensures Verdict(clock, reply, start, timeout, last) == Some(r)
    ensures forall j :: 0 <= j < last ==> Verdict(clock, reply, start, timeout, j) == None
    ensures renewals == Renewals(reply, last)
    ensures r.kind != TimedOut ==> last + 1 <= MaxQueries(timeout)
    ensures r.kind == TimedOut ==> last <= MaxQueries(timeout)
  {
    var consecutive401, consecutiveConnErrors, i := 0, 0, 0;
    renewals := 0;
    while true
      invariant consecutive401 == Strikes(reply, i) && consecutiveConnErrors == Streak(reply, i)
      invariant renewals == Renewals(reply, i)
      invariant forall j :: 0 <= j < i ==> Verdict(clock, reply, start, timeout, j) == None
      invariant i <= MaxQueries(timeout)
      decreases MaxQueries(timeout) - i
    {
      ClockRuns(clock, start, i);
      var elapsed := clock(i) - start;
      if elapsed >= timeout * SECOND { return Result(TimedOut, elapsed), i, renewals; }
      assert i < MaxQueries(timeout);
      match reply(i) {
        case Unauthorized(login) =>
          consecutiveConnErrors := 0;
          consecutive401 := consecutive401 + 1;
          if consecutive401 >= 3 {
            if login {
              renewals := renewals + 1;
              consecutive401 := 0;
            }
          }
        case BadStatus =>
          consecutiveConnErrors := 0;
          consecutive401 := 0;
        case Completed(fetched) =>
          return Result(if fetched then Done else FetchFailed, elapsed), i, renewals;
        case TaskFailed =>
          return Result(AnalysisFailed, elapsed), i, renewals;
        case StillRunning =>
          consecutiveConnErrors := 0;
          consecutive401 := 0;
        case ConnError =>
          consecutiveConnErrors := consecutiveConnErrors + 1;
          if consecutiveConnErrors >= 10 { return Result(ServiceLost, elapsed), i, renewals; }
        case Broken =>
          consecutive401 := 0;
          consecutiveConnErrors := 0;
      }
      i := i + 1;
    }
  }

  /** The streak reaches `m` exactly when the last `m` replies were all connection errors. */
  lemma {:induction false} StreakIs(reply: nat -> Reply, n: nat, m: nat)
    ensures Streak(reply, n) >= m <==> m <= n && forall j :: n - m <= j < n ==> reply(j).ConnError?
  {
    if n > 0 && m > 0 {
      StreakIs(reply, n - 1, m - 1);
      assert n - m == (n - 1) - (m - 1);
      if m <= n && forall j :: n - m <= j < n ==> reply(j).ConnError? { assert reply(n - 1).ConnError?; }
    }
  }

  /** Polling that ends in round `last` reports service loss exactly when the clock has not run out and the last
      ten queries were connection errors, and then there was no tenth before. */
  lemma {:induction false} LostOnTheTenth(clock: nat -> int, reply: nat -> Reply, start: int, timeout: int, last: nat)
    requires Verdict(clock, reply, start, timeout, last).Some?
    requires forall j :: 0 <= j < last ==> Verdict(clock, reply, start, timeout, j) == None
    ensures Verdict(clock, reply, start, timeout, last).value.kind == ServiceLost
            <==> clock(last) - start < timeout * SECOND && last >= 9
                 && forall j :: last - 9 <= j <= last ==> reply(j).ConnError?
    ensures Verdict(clock, reply, start, timeout, last).value.kind == ServiceLost
            ==> Streak(reply, last + 1) == 10 && (last >= 10 ==> !reply(last - 10).ConnError?)
  {
    StreakIs(reply, last + 1, 10);
    StreakIs(reply, last + 1, 11);
    if last > 0 && reply(last - 1).ConnError? {
      assert Verdict(clock, reply, start, timeout, last - 1) == None;
    }
  }

  /** Where the 401 count started: after the last reply that cleared it. */
  function Since(reply: nat -> Reply, n: nat): (w: nat)
    ensures w <= n
  {
    if n == 0 then 0
    else if reply(n - 1).ConnError? || (reply(n - 1).Unauthorized? && !Renews(reply, n - 1)) then Since(reply, n - 1)
    else n
  }

  function Unauthorized(reply: nat -> Reply, from: nat, to: nat): nat
    requires from <= to
  {
    if from == to then 0
    else Unauthorized(reply, from, to - 1) + if reply(to - 1).Unauthorized? then 1 else 0
  }

  /** From round `w` up to `n` there were only 401s that renewed nothing and connection errors. */
  ghost predicate Quiet(reply: nat -> Reply, w: nat, n: nat) {
    w <= n && forall j :: w <= j < n ==> reply(j).ConnError? || (reply(j).Unauthorized? && !Renews(reply, j))
  }

  lemma {:induction false} StrikesCount(reply: nat -> Reply, n: nat)
    ensures Quiet(reply, Since(reply, n), n) && Strikes(reply, n) == Unauthorized(reply, Since(reply, n), n)
  {
    if n > 0 { StrikesCount(reply, n - 1); }
  }

  lemma {:induction false} QuietCounts(reply: nat -> Reply, w: nat, n: nat)
    requires Quiet(reply, w, n)
    ensures Unauthorized(reply, w, n) <= Strikes(reply, n)
  {
    if w < n { QuietCounts(reply, w, n - 1); }
  }

  /** A new login is tried on a 401 exactly when at least two 401s came before it with only connection errors
      between, none of which got a new token. */
  lemma {:induction false} LoginAfterThree(reply: nat -> Reply, i: nat)
    ensures TriesLogin(reply, i)
            <==> reply(i).Unauthorized? && exists w :: Quiet(reply, w, i) && Unauthorized(reply, w, i) >= 2
  {
    StrikesCount(reply, i);
    if w :| Quiet(reply, w, i) && Unauthorized(reply, w, i) >= 2 {
      QuietCounts(reply, w, i);
    }
  }

  /** What polling ends with, and that nothing before would have ended it: the clock first, then a completed or a failed
      task; the time reported is that of the last reading. */
  lemma {:induction false} EndingTells(clock: nat -> int, reply: nat -> Reply, start: int, timeout: int, last: nat)
    requires Verdict(clock, reply, start, timeout, last).Some?
    requires forall j :: 0 <= j < last ==> Verdict(clock, reply, start, timeout, j) == None
    ensures var r, late := Verdict(clock, reply, start, timeout, last).value, clock(last) - start >= timeout * SECOND;
            && r.elapsed == clock(last) - start
            && (r.kind == TimedOut <==> late)
            && (r.kind == Done <==> !late && reply(last) == Completed(true))
            && (r.kind == FetchFailed <==> !late && reply(last) == Completed(false))
            && (r.kind == AnalysisFailed <==> !late && reply(last) == TaskFailed)
    ensures forall j :: 0 <= j < last ==>
              clock(j) - start < timeout * SECOND && !reply(j).Completed? && !reply(j).TaskFailed?
  {
    forall j | 0 <= j < last
      ensures clock(j) - start < timeout * SECOND && !reply(j).Completed? && !reply(j).TaskFailed?
    {
      assert Verdict(clock, reply, start, timeout, j) == None;
    }
  }
}
