/** What the counters of the tokens count: the successes and the marks of the current day, and nothing else. */
module TokenCounts {
  import opened Wrappers
  import opened TokenFailover

  // ----- the counter of a token -----

  /** An error of the API, a timeout, a broken reply, or an HTTP error that says nothing about the token. */
  predicate MarksOnce(r: Reply) {
    r.ApiError? || r.Failure? || (r.Http? && r.status != 401 && r.status != 403 && r.status != 429)
  }

  /** The API refuses the token, or it is over its quota. */
  predicate MarksTwice(r: Reply) { r.Http? && (r.status == 401 || r.status == 429) }

  datatype Tally = Tally(data: nat, once: nat, twice: nat) {
    function Add(r: Reply): Tally {
      if r.Data? then this.(data := data + 1)
      else if MarksOnce(r) then this.(once := once + 1)
      else if MarksTwice(r) then this.(twice := twice + 1)
      else this
    }

    function Weight(limit: int): int { data + once * limit + 2 * (twice * limit) }
  }

  /** The attempts that took token `t`, since the date last changed. */
  function Tallied(cfg: Config, attempts: seq<Attempt>, n: nat, t: string): Tally
    requires n <= |attempts|
  {
    if n == 0 then Tally(0, 0, 0)
    else
      var before :=
        if n > 1 && attempts[n - 2].today == attempts[n - 1].today then Tallied(cfg, attempts, n - 1, t)
        else Tally(0, 0, 0);
      if TokenOf(cfg, Start, attempts, n - 1) == t then before.Add(attempts[n - 1].reply) else before
  }

  /** What one reply adds to the counter of its token. */
  function Cost(limit: int, r: Reply): int {
    if r.Data? then 1 else if MarksOnce(r) then limit else if MarksTwice(r) then limit + limit else 0
  }

  lemma {:induction false} AddWeighs(limit: int, y: Tally, r: Reply)
    ensures y.Add(r).Weight(limit) == y.Weight(limit) + Cost(limit, r)
  {
    assert (y.once + 1) * limit == y.once * limit + limit;
    assert (y.twice + 1) * limit == y.twice * limit + limit;
  }

  lemma {:induction false} CostOfStep(cfg: Config, s: State, a: Attempt, t: string)
    requires t != ""
    ensures var s' := Step(cfg, s, a);
            && s'.date == Some(a.today)
            && s'.Used(t) == s.Roll(a.today).Used(t) + if TokenAt(cfg, s, a) == t then Cost(cfg.limit, a.reply) else 0
  {
    hide Token;
  }

  /** After any attempts, on any dates, a token's counter is one for each reply with data since the date last
      changed, the limit for each failure that marks it once, and twice the limit for each that marks it twice.
      */
  lemma {:induction false} CounterIs(cfg: Config, attempts: seq<Attempt>, n: nat, t: string)
    requires n <= |attempts| && t != ""
    ensures var s := After(cfg, Start, attempts, n);
            && s.date == (if n == 0 then None else Some(attempts[n - 1].today))
            && s.Used(t) == Tallied(cfg, attempts, n, t).Weight(cfg.limit)
  {
    hide Step, TokenAt, Tally.Add, Tally.Weight, Cost, State.Used;
    if n > 0 {
      CounterIs(cfg, attempts, n - 1, t);
      var s, a := After(cfg, Start, attempts, n - 1), attempts[n - 1];
      RolledCount(s, a.today, t);
      CostOfStep(cfg, s, a, t);
      NoWeight(cfg.limit);
      AddWeighs(cfg.limit, Tally(0, 0, 0), a.reply);
      AddWeighs(cfg.limit, Tallied(cfg, attempts, n - 1, t), a.reply);
    } else {
      NoWeight(cfg.limit);
      RolledCount(Start, 0, t);
    }
  }

  /** On a new date the counters start again. */
  lemma {:induction false} RolledCount(s: State, day: int, t: string)
    ensures s.Roll(day).Used(t) == if s.date == Some(day) then s.Used(t) else 0
    ensures Start.Used(t) == 0
  {
  }

  lemma {:induction false} NoWeight(limit: int)
    ensures Tally(0, 0, 0).Weight(limit) == 0
  {
  }

  /** A free token is available exactly while its counter is below the limit: with failures that mark it, never
      again that day; without, until it has had `limit` replies with data. */
  lemma {:induction false} AvailableWhile(cfg: Config, attempts: seq<Attempt>, n: nat, t: string)
    requires n <= |attempts| && t != "" && cfg.limit > 0
    ensures var y := Tallied(cfg, attempts, n, t);
            After(cfg, Start, attempts, n).Used(t) < cfg.limit <==> y.once == 0 && y.twice == 0 && y.data < cfg.limit
  {
    var y := Tallied(cfg, attempts, n, t);
    CounterIs(cfg, attempts, n, t);
    AtLeast(y.once, cfg.limit);
    AtLeast(y.twice, cfg.limit);
  }

  lemma {:induction false} AtLeast(k: nat, limit: int)
    requires limit > 0
    ensures k == 0 ==> k * limit == 0
    ensures k > 0 ==> k * limit >= limit
  {
    if k > 0 { assert k * limit == (k - 1) * limit + limit && (k - 1) * limit >= 0; }
  }

  // ----- a day of data -----

  /** The first `q` free tokens are used up, the next has been used `r` times, the others not at all. */
  ghost predicate UsedSoFar(cfg: Config, s: State, q: nat, r: int) {
    && q < |cfg.free| && 0 <= r < cfg.limit && s.Used(cfg.free[q]) == r
    && (forall j :: 0 <= j < q ==> s.Used(cfg.free[j]) >= cfg.limit)
    && forall j :: q < j < |cfg.free| ==> s.Used(cfg.free[j]) == 0
  }

  ghost predicate AllUsedUp(cfg: Config, s: State) {
    forall j :: 0 <= j < |cfg.free| ==> s.Used(cfg.free[j]) >= cfg.limit
  }

  lemma {:induction false} FirstIs(cfg: Config, s: State, k: nat, i: nat)
    requires i <= k <= |cfg.free| && (forall j :: i <= j < k ==> s.Used(cfg.free[j]) >= cfg.limit)
    requires k < |cfg.free| ==> s.Used(cfg.free[k]) < cfg.limit
    ensures FirstAvailable(cfg, s, i) == k
    decreases k - i
  {
    if i < k { FirstIs(cfg, s, k, i + 1); }
  }

  lemma {:induction false} TakesTheNext(cfg: Config, s: State, q: nat, r: int)
    requires UsedSoFar(cfg, s, q, r)
    ensures Token(cfg, s) == cfg.free[q]
  {
    FirstIs(cfg, s, q, 0);
  }

  lemma {:induction false} TakesThePaid(cfg: Config, s: State)
    requires AllUsedUp(cfg, s)
    ensures Token(cfg, s) == cfg.paid
  {
    FirstIs(cfg, s, |cfg.free|, 0);
  }

  /** One more reply with data. */
  lemma {:induction false} DataStep(cfg: Config, s: State, q: nat, r: int)
    requires cfg.Proper() && UsedSoFar(cfg, s, q, r)
    ensures var s' := s.Charge(cfg.free[q], 1);
            if r + 1 < cfg.limit then UsedSoFar(cfg, s', q, r + 1)
            else if q + 1 < |cfg.free| then UsedSoFar(cfg, s', q + 1, 0)
            else AllUsedUp(cfg, s')
  {
    hide State.Charge, State.Used;
    forall j | 0 <= j < |cfg.free|
      ensures s.Charge(cfg.free[q], 1).Used(cfg.free[j]) == s.Used(cfg.free[j]) + if j == q then 1 else 0
    {
      ChargeAdds(s, cfg.free[q], 1, cfg.free[j]);
    }
  }

  /** All of the first `m` attempts fall on the day and get data. */
  ghost predicate DataDay(attempts: seq<Attempt>, m: nat, day: int)
    requires m <= |attempts|
  {
    forall i :: 0 <= i < m ==> attempts[i] == Attempt(day, Data)
  }

  lemma {:induction false} StepOnData(cfg: Config, s: State, day: int)
    ensures TokenAt(cfg, s, Attempt(day, Data)) == Token(cfg, s.Roll(day))
    ensures var s', t := Step(cfg, s, Attempt(day, Data)), Token(cfg, s.Roll(day));
            s'.Roll(day) == s' && (t != "" ==> s' == s.Roll(day).Charge(t, 1))
  {
    hide Token;
  }

  lemma {:induction false} DataSoFar(cfg: Config, attempts: seq<Attempt>, m: nat, day: int, q: nat, r: int)
    requires cfg.Proper() && m <= |attempts| && DataDay(attempts, m, day)
    requires m == q * cfg.limit + r && 0 <= r < cfg.limit && q < |cfg.free|
    ensures UsedSoFar(cfg, After(cfg, Start, attempts, m).Roll(day), q, r)
    decreases m
  {
    hide Step, TokenAt, State.Used, State.Charge;
    if m == 0 {
      NothingUsed(cfg, day, q, r);
    } else {
      var q', r' := if r > 0 then q else q - 1, if r > 0 then r - 1 else cfg.limit - 1;
      PreviousCount(m, q, r, cfg.limit);
      DataSoFar(cfg, attempts, m - 1, day, q', r');
      DataMoves(cfg, After(cfg, Start, attempts, m - 1), day, q', r');
    }
  }

  lemma {:induction false} DataMoves(cfg: Config, s: State, day: int, q: nat, r: int)
    requires cfg.Proper() && UsedSoFar(cfg, s.Roll(day), q, r)
    ensures var s' := Step(cfg, s, Attempt(day, Data)).Roll(day);
            if r + 1 < cfg.limit then UsedSoFar(cfg, s', q, r + 1)
            else if q + 1 < |cfg.free| then UsedSoFar(cfg, s', q + 1, 0)
            else AllUsedUp(cfg, s')
  {
    hide Step, TokenAt, Token, State.Used, State.Charge, State.Roll;
    StepOnData(cfg, s, day);
    TakesTheNext(cfg, s.Roll(day), q, r);
    DataStep(cfg, s.Roll(day), q, r);
  }

  lemma {:induction false} OneLess(q: int, limit: int)
    ensures q * limit == (q - 1) * limit + limit
  {
  }

  lemma {:induction false} PreviousCount(m: nat, q: nat, r: int, limit: int)
    requires limit > 0 && m == q * limit + r > 0 && 0 <= r < limit
    ensures r == 0 ==> q > 0 && m - 1 == (q - 1) * limit + (limit - 1)
  {
    AtLeast(q, limit);
    if r == 0 { OneLess(q, limit); }
  }

  lemma {:induction false} NothingUsed(cfg: Config, day: int, q: nat, r: int)
    requires 0 == q * cfg.limit + r && 0 <= r < cfg.limit && q < |cfg.free|
    ensures UsedSoFar(cfg, Start.Roll(day), q, r)
  {
    AtLeast(q, cfg.limit);
  }

  lemma {:induction false} NoneToUse(cfg: Config, s: State)
    requires |cfg.free| == 0
    ensures AllUsedUp(cfg, s)
  {
  }

  lemma {:induction false} StaysUsedUp(cfg: Config, attempts: seq<Attempt>, m: nat, day: int)
    requires cfg.Proper() && m <= |attempts| && DataDay(attempts, m, day) && m >= cfg.limit * |cfg.free|
    ensures AllUsedUp(cfg, After(cfg, Start, attempts, m).Roll(day))
    decreases m
  {
    hide Step, UsedSoFar, AllUsedUp;
    if |cfg.free| == 0 {
      NoneToUse(cfg, After(cfg, Start, attempts, m).Roll(day));
    } else {
      var top := |cfg.free|;
      AtLeast(top, cfg.limit);
      OneLess(top, cfg.limit);
      var s := After(cfg, Start, attempts, m - 1);
      if m == cfg.limit * top {
        DataSoFar(cfg, attempts, m - 1, day, top - 1, cfg.limit - 1);
        DataMoves(cfg, s, day, top - 1, cfg.limit - 1);
      } else {
        StaysUsedUp(cfg, attempts, m - 1, day);
        PaidChangesNothing(cfg, s, day);
      }
    }
  }

  lemma {:induction false} PaidChangesNothing(cfg: Config, s: State, day: int)
    requires cfg.Proper() && AllUsedUp(cfg, s.Roll(day))
    ensures AllUsedUp(cfg, Step(cfg, s, Attempt(day, Data)).Roll(day))
  {
    hide Step, TokenAt, Token, State.Used, State.Charge, State.Roll;
    StepOnData(cfg, s, day);
    TakesThePaid(cfg, s.Roll(day));
    forall j | 0 <= j < |cfg.free|
      ensures s.Roll(day).Charge(cfg.paid, 1).Used(cfg.free[j]) == s.Roll(day).Used(cfg.free[j])
    {
      ChargeAdds(s.Roll(day), cfg.paid, 1, cfg.free[j]);
    }
  }

  lemma {:induction false} QuotientIs(m: nat, limit: int, top: nat)
    requires limit > 0
    ensures m == (m / limit) * limit + m % limit && 0 <= m % limit < limit && m / limit >= 0
    ensures m < limit * top <==> m / limit < top
  {
    Parts(m, limit);
    PartsBelow(m, m / limit, m % limit, limit, top);
  }

  lemma {:induction false} Parts(m: nat, limit: int)
    requires limit > 0
    ensures m == (m / limit) * limit + m % limit && 0 <= m % limit < limit && m / limit >= 0
  {
  }

  lemma {:induction false} PartsBelow(m: nat, q: int, r: int, limit: int, top: nat)
    requires limit > 0 && m == q * limit + r && 0 <= r < limit && q >= 0
    ensures m < limit * top <==> q < top
  {
    Difference(top, q, limit);
    if q < top { AtLeast(top - q, limit); } else { AtLeast(q - top, limit); }
  }

  lemma {:induction false} Difference(a: int, b: int, limit: int)
    ensures (a - b) * limit == limit * a - b * limit && (b - a) * limit == b * limit - limit * a
  {
  }

  /** On a day on which every attempt gets data, each free token serves exactly `limit` attempts, one token after the
      other in list order, and the paid one all the rest. */
  lemma {:induction false} DataDayTokens(cfg: Config, attempts: seq<Attempt>, m: nat, day: int)
    requires cfg.Proper() && m < |attempts| && DataDay(attempts, m + 1, day)
    ensures m < cfg.limit * |cfg.free| <==> m / cfg.limit < |cfg.free|
    ensures TokenOf(cfg, Start, attempts, m)
            == if m < cfg.limit * |cfg.free| then cfg.free[m / cfg.limit] else cfg.paid
  {
    hide Step, Token, TokenAt, State.Used, State.Roll;
    var s := After(cfg, Start, attempts, m);
    QuotientIs(m, cfg.limit, |cfg.free|);
    StepOnData(cfg, s, day);
    if m < cfg.limit * |cfg.free| {
      DataSoFar(cfg, attempts, m, day, m / cfg.limit, m % cfg.limit);
      TakesTheNext(cfg, s.Roll(day), m / cfg.limit, m % cfg.limit);
    } else {
      StaysUsedUp(cfg, attempts, m, day);
      TakesThePaid(cfg, s.Roll(day));
    }
  }

  // ----- how far a request goes -----

  /** The reply ends its request: data, or a stock that does not exist. */
  predicate Final(r: Reply) { r.Data? || r.Missing? }

  lemma {:induction false} GoesOnUnlessFinal(cfg: Config, p: Progress, a: Attempt)
    requires cfg.Proper() && !p.over
    ensures var q := Pass(cfg, p, a);
            q.over == Final(a.reply) && q.answered == a.reply.Data? && |q.tokens| == |p.tokens| + 1
  {
    hide Step, FirstAvailable, Token;
    TakesFirst(cfg, p.state.Roll(a.today));
  }

  /** While no reply is final, a request makes one attempt after the other. */
  lemma {:induction false} RequestGoesOn(cfg: Config, s: State, attempts: seq<Attempt>, n: nat)
    requires cfg.Proper() && n <= |attempts| && forall i :: 0 <= i < n ==> !Final(attempts[i].reply)
    ensures var p := Request(cfg, s, attempts, n); !p.over && !p.answered && |p.tokens| == n
  {
    if n > 0 {
      hide Pass;
      RequestGoesOn(cfg, s, attempts, n - 1);
      GoesOnUnlessFinal(cfg, Request(cfg, s, attempts, n - 1), attempts[n - 1]);
    }
  }

  /** A request ends with its first final reply, answered exactly when that one is data; without one it makes all its
      attempts, two more than there are free tokens, and is not answered. */
  lemma {:induction false} RequestEnds(cfg: Config, s: State, attempts: seq<Attempt>, e: nat)
    requires cfg.Proper() && |attempts| == cfg.MaxAttempts() && e <= |attempts|
    requires (forall i :: 0 <= i < e ==> !Final(attempts[i].reply)) && (e < |attempts| ==> Final(attempts[e].reply))
    ensures var p := Request(cfg, s, attempts, |attempts|);
            if e == |attempts| then !p.answered && |p.tokens| == |cfg.free| + 2
            else p.answered == attempts[e].reply.Data? && |p.tokens| == e + 1
  {
    hide Pass;
    RequestGoesOn(cfg, s, attempts, e);
    if e < |attempts| {
      GoesOnUnlessFinal(cfg, Request(cfg, s, attempts, e), attempts[e]);
      OverStays(cfg, s, attempts, e + 1, |attempts|);
    }
  }
}
