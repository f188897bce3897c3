/** Free API tokens with a daily limit, a paid token behind them, and the request loop that moves from one token
    to the next. Dates are day numbers. */
module TokenFailover {
  import opened Wrappers

  ghost predicate Distinct(tokens: seq<string>) {
    forall i, j :: 0 <= i < j < |tokens| ==> tokens[i] != tokens[j]
  }

  datatype Config = Config(free: seq<string>, paid: string, limit: int) {
    function MaxAttempts(): nat { |free| + 2 }

    /** What the deployed configuration meets. */
    ghost predicate Proper() {
      && Distinct(free)
      && (forall i :: 0 <= i < |free| ==> free[i] != paid && free[i] != "")
      && paid != "" && limit > 0
    }
  }

  /** How one request over the network comes out: data, an error that blames the stock, an error that blames the
      token, an HTTP error, or anything else (a timeout, a broken connection, a reply that is not JSON). */
  datatype Reply = Data | Missing | ApiError | Http(status: int) | Failure

  datatype Attempt = Attempt(today: int, reply: Reply)

  datatype State = State(usage: map<string, int>, date: Option<int>) {
    function Used(t: string): int { if t in usage then usage[t] else 0 }

    function Charge(t: string, n: int): State { this.(usage := usage[t := Used(t) + n]) }

    /** The counters start again on a new day. */
    function Roll(today: int): State { if date != Some(today) then State(map[], Some(today)) else this }
  }

  const Start := State(map[], None)

  function FirstAvailable(cfg: Config, s: State, i: nat): (k: nat)
    requires i <= |cfg.free|
    ensures i <= k <= |cfg.free|
    decreases |cfg.free| - i
  {
    if i == |cfg.free| || s.Used(cfg.free[i]) < cfg.limit then i else FirstAvailable(cfg, s, i + 1)
  }

  function Token(cfg: Config, s: State): string {
    var k := FirstAvailable(cfg, s, 0);
    if k < |cfg.free| then cfg.free[k] else cfg.paid
  }

  /** How often a failed attempt marks its token as exhausted: an authorisation or quota error twice, a 403
      never, anything else once. */
  function Marks(r: Reply): nat {
    match r
    case Data => 0
    case Missing => 0
    case ApiError => 1
    case Http(status) => if status == 401 || status == 429 then 2 else if status == 403 then 0 else 1
    case Failure => 1
  }

  /** What those marks add to the token's count. */
  function Penalty(cfg: Config, r: Reply): int {
    match Marks(r)
    case 0 => 0
    case 1 => cfg.limit
    case _ => cfg.limit + cfg.limit
  }

  function Land(cfg: Config, s: State, t: string, r: Reply): State {
    if r.Data? then s.Charge(t, 1)
    else if Marks(r) == 0 then s
    else s.Charge(t, Penalty(cfg, r))
  }

  function TokenAt(cfg: Config, s: State, a: Attempt): string { Token(cfg, s.Roll(a.today)) }

  function Step(cfg: Config, s: State, a: Attempt): State {
    var t := TokenAt(cfg, s, a);
    if t == "" then s.Roll(a.today) else Land(cfg, s.Roll(a.today), t, a.reply)
  }

  /** The attempt ends its request: no token, data, or a stock that does not exist. */
  predicate Ends(cfg: Config, s: State, a: Attempt) {
    TokenAt(cfg, s, a) == "" || a.reply.Data? || a.reply.Missing?
  }

  /** The state after the first `n` attempts. */
  function After(cfg: Config, s: State, attempts: seq<Attempt>, n: nat): State
    requires n <= |attempts|
  {
    if n == 0 then s else Step(cfg, After(cfg, s, attempts, n - 1), attempts[n - 1])
  }

  function TokenOf(cfg: Config, s: State, attempts: seq<Attempt>, n: nat): string
    requires n < |attempts|
  {
    TokenAt(cfg, After(cfg, s, attempts, n), attempts[n])
  }

  /** The tokens that the first `n` attempts take. */
  function Taken(cfg: Config, s: State, attempts: seq<Attempt>, n: nat): (tokens: seq<string>)
    requires n <= |attempts|
    ensures |tokens| == n
  {
    if n == 0 then [] else Taken(cfg, s, attempts, n - 1) + [TokenOf(cfg, s, attempts, n - 1)]
  }

  /** How far a request has come: its state, the tokens it took, whether it is over and whether it got data. */
  datatype Progress = Progress(state: State, tokens: seq<string>, over: bool, answered: bool)

  function Pass(cfg: Config, p: Progress, a: Attempt): Progress {
    if p.over then p
    else
      var t := TokenAt(cfg, p.state, a);
      Progress(Step(cfg, p.state, a), p.tokens + [t], Ends(cfg, p.state, a), t != "" && a.reply.Data?)
  }

  /** A request with at most `n` attempts. */
  function Request(cfg: Config, s: State, attempts: seq<Attempt>, n: nat): Progress
    requires n <= |attempts|
  {
    if n == 0 then Progress(s, [], false, false) else Pass(cfg, Request(cfg, s, attempts, n - 1), attempts[n - 1])
  }

  lemma {:induction false} OverStays(cfg: Config, s: State, attempts: seq<Attempt>, i: nat, n: nat)
    requires i <= n <= |attempts| && Request(cfg, s, attempts, i).over
    ensures Request(cfg, s, attempts, n) == Request(cfg, s, attempts, i)
    decreases n
  {
    if i < n { OverStays(cfg, s, attempts, i, n - 1); }
  }

  class TokenPool {
    const cfg: Config
    var usage: map<string, int>
    var date: Option<int>

    ghost function Abs(): State
      reads this
    {
      State(usage, date)
    }

    constructor (cfg: Config)
      ensures Abs() == Start && this.cfg == cfg
    {
      this.cfg := cfg;
      usage, date := map[], None;
    }

    method GetCurrentToken(today: int) returns (token: string)
      modifies this
      ensures Abs() == old(Abs()).Roll(today) && token == Token(cfg, Abs())
    {
      if date != Some(today) { usage, date := map[], Some(today); }
      var i := 0;
      while i < |cfg.free|
        invariant 0 <= i <= |cfg.free| && FirstAvailable(cfg, Abs(), 0) == FirstAvailable(cfg, Abs(), i)
      {
        var t := cfg.free[i];
        if (if t in usage then usage[t] else 0) < cfg.limit { return t; }
        i := i + 1;
      }
      token := cfg.paid;
    }

    method RecordUsage(token: string)
      modifies this`usage
      ensures Abs() == old(Abs()).Charge(token, 1)
    {
      usage := usage[token := (if token in usage then usage[token] else 0) + 1];
    }

    method MarkTokenExhausted(token: string)
      modifies this`usage
      ensures Abs() == old(Abs()).Charge(token, cfg.limit)
    {
      usage := usage[token := (if token in usage then usage[token] else 0) + cfg.limit];
    }

    /** What a failed attempt does to its token. */
    method MarkFailure(token: string, reply: Reply)
      requires !reply.Data? && !reply.Missing?
      modifies this`usage
      ensures Abs() == Land(cfg, old(Abs()), token, reply)
    {
      if reply.ApiError? {
        MarkTokenExhausted(token);
        return;
      }
      var is403 := false;
      if reply.Http? {
        if reply.status == 401 || reply.status == 429 {
          MarkTokenExhausted(token);
        } else if reply.status == 403 {
          is403 := true;
        }
      }
      if !is403 { MarkTokenExhausted(token); }
    }

    /** One pass of the request loop: it takes a token, and unless there is none, asks the network. */
    method TryOnce(a: Attempt) returns (token: string, stop: bool, data: bool)
      modifies this
      ensures token == TokenAt(cfg, old(Abs()), a) && Abs() == Step(cfg, old(Abs()), a)
      ensures stop <==> Ends(cfg, old(Abs()), a)
      ensures data <==> token != "" && a.reply.Data?
    {
      token := GetCurrentToken(a.today);
      if token == "" { return token, true, false; }
      if a.reply.Missing? { return token, true, false; }
      if a.reply.Data? {
        RecordUsage(token);
        return token, true, true;
      }
      MarkFailure(token, a.reply);
      return token, false, false;
    }

    /** One request against what the network would answer; also returns the tokens it took. */
    method ApiRequest(attempts: seq<Attempt>) returns (answered: bool, tokens: seq<string>)
      requires |attempts| == cfg.MaxAttempts()
      modifies this
      ensures var p := Request(cfg, old(Abs()), attempts, |attempts|);
        Abs() == p.state && tokens == p.tokens && answered == p.answered
    {
      hide Step, TokenAt;
      ghost var s := Abs();
      tokens := [];
      var i := 0;
      while i < |attempts|
        invariant 0 <= i <= |attempts|
        invariant Request(cfg, s, attempts, i) == Progress(Abs(), tokens, false, false)
      {
        var token, stop, data := TryOnce(attempts[i]);
        tokens := tokens + [token];
        if stop {
          OverStays(cfg, s, attempts, i + 1, |attempts|);
          return data, tokens;
        }
        i := i + 1;
      }
      answered := false;
    }
  }

  lemma {:induction false} PassRuns(cfg: Config, s: State, attempts: seq<Attempt>, n: nat, p: Progress)
    requires n < |attempts| && !p.over && |p.tokens| == n
    requires p.state == After(cfg, s, attempts, n) && p.tokens == Taken(cfg, s, attempts, n)
    ensures var q := Pass(cfg, p, attempts[n]);
            && |q.tokens| == n + 1 && q.state == After(cfg, s, attempts, n + 1)
            && q.tokens == Taken(cfg, s, attempts, n + 1)
  {
  }

  /** A request runs through its attempts one by one. */
  lemma {:induction false} RequestRuns(cfg: Config, s: State, attempts: seq<Attempt>, n: nat)
    requires n <= |attempts|
    ensures Running(cfg, s, attempts, n, Request(cfg, s, attempts, n))
  {
    if n > 0 {
      RequestRuns(cfg, s, attempts, n - 1);
      var p := Request(cfg, s, attempts, n - 1);
      if !p.over { PassRuns(cfg, s, attempts, n - 1, p); }
    }
  }

  ghost predicate Running(cfg: Config, s: State, attempts: seq<Attempt>, n: nat, p: Progress)
    requires n <= |attempts|
  {
    && |p.tokens| <= n && (!p.over ==> |p.tokens| == n)
    && p.state == After(cfg, s, attempts, |p.tokens|)
    && p.tokens == Taken(cfg, s, attempts, |p.tokens|)
  }

  // ----- the daily limit -----

  /** The attempts among the first `n` that got data on `day` with token `t`. */
  function Successes(cfg: Config, s: State, attempts: seq<Attempt>, n: nat, day: int, t: string): nat
    requires n <= |attempts|
  {
    if n == 0 then 0
    else
      var a := attempts[n - 1];
      Successes(cfg, s, attempts, n - 1, day, t)
      + if a.reply.Data? && a.today == day && t != "" && TokenOf(cfg, s, attempts, n - 1) == t then 1 else 0
  }

  ghost predicate Forward(attempts: seq<Attempt>) {
    forall i, j :: 0 <= i < j < |attempts| ==> attempts[i].today <= attempts[j].today
  }

  /** A free token is only handed out while it is under its limit. */
  lemma {:induction false} TokenUnderLimit(cfg: Config, s: State)
    ensures Token(cfg, s) == cfg.paid || s.Used(Token(cfg, s)) < cfg.limit
  {
    FirstAvailableIs(cfg, s, 0);
  }

  lemma {:induction false} FirstAvailableIs(cfg: Config, s: State, i: nat)
    requires i <= |cfg.free|
    ensures var k := FirstAvailable(cfg, s, i);
            && (k < |cfg.free| ==> s.Used(cfg.free[k]) < cfg.limit)
            && forall j :: i <= j < k ==> s.Used(cfg.free[j]) >= cfg.limit
    decreases |cfg.free| - i
  {
    if i < |cfg.free| { FirstAvailableIs(cfg, s, i + 1); }
  }

  /** What the counters know about a day's successes. */
  ghost predicate Covered(cfg: Config, s: State, n: nat, day: int, last: int, t: string, successes: nat) {
    && successes <= cfg.limit
    && (s.date == Some(day) ==> successes <= s.Used(t))
    && (s.date.None? ==> n == 0)
    && (s.date.Some? ==> n > 0 && s.date.value == last)
    && (successes > 0 ==> n > 0 && day <= last)
  }

  lemma {:induction false} SuccessesCovered(cfg: Config, attempts: seq<Attempt>, n: nat, day: int, t: string)
    requires Forward(attempts) && n <= |attempts| && t != cfg.paid && cfg.limit >= 0
    ensures Covered(cfg, After(cfg, Start, attempts, n), n, day, if n == 0 then 0 else attempts[n - 1].today, t,
                    Successes(cfg, Start, attempts, n, day, t))
  {
    if n > 0 {
      SuccessesCovered(cfg, attempts, n - 1, day, t);
      var s, a := After(cfg, Start, attempts, n - 1), attempts[n - 1];
      assert n > 1 ==> attempts[n - 2].today <= a.today;
      TokenUnderLimit(cfg, s.Roll(a.today));
      CoveredStep(cfg, s, a, n - 1, day, if n == 1 then 0 else attempts[n - 2].today, t,
                  Successes(cfg, Start, attempts, n - 1, day, t));
    }
  }

  lemma {:induction false} CoveredStep(cfg: Config, s: State, a: Attempt, n: nat, day: int, last: int, t: string,
                                       successes: nat)
    requires Covered(cfg, s, n, day, last, t, successes) && (n > 0 ==> last <= a.today) && cfg.limit >= 0
    requires TokenAt(cfg, s, a) == t ==> s.Roll(a.today).Used(t) < cfg.limit
    ensures Covered(cfg, Step(cfg, s, a), n + 1, day, a.today, t,
                    successes + if a.reply.Data? && a.today == day && t != "" && TokenAt(cfg, s, a) == t then 1 else 0)
  {
  }

  /** Over any sequence of attempts, however grouped into requests, a free token gets data at most `limit` times
      on any one day. */
  lemma {:induction false} DailyLimitHolds(cfg: Config, attempts: seq<Attempt>, day: int, t: string)
    requires Forward(attempts) && t in cfg.free && t != cfg.paid && cfg.limit >= 0
    ensures Successes(cfg, Start, attempts, |attempts|, day, t) <= cfg.limit
  {
    SuccessesCovered(cfg, attempts, |attempts|, day, t);
  }

  // ----- the order in which a request tries the tokens -----

  /** The free tokens from position `i` on that are still available, in list order. */
  function Order(cfg: Config, s: State, i: nat): seq<string>
    requires i <= |cfg.free|
    decreases |cfg.free| - i
  {
    if i == |cfg.free| then []
    else (if s.Used(cfg.free[i]) < cfg.limit then [cfg.free[i]] else []) + Order(cfg, s, i + 1)
  }

  /** The `m`-th token of the order, the paid one after its end. */
  function Nth(cfg: Config, order: seq<string>, m: nat): string {
    if m < |order| then order[m] else cfg.paid
  }

  function Drop(order: seq<string>, m: nat): seq<string> { if m <= |order| then order[m..] else [] }

  lemma {:induction false} TokenIsFirst(cfg: Config, s: State, i: nat)
    requires i <= |cfg.free|
    ensures var k := FirstAvailable(cfg, s, i);
            (if k < |cfg.free| then cfg.free[k] else cfg.paid) == Nth(cfg, Order(cfg, s, i), 0)
    decreases |cfg.free| - i
  {
    if i < |cfg.free| { TokenIsFirst(cfg, s, i + 1); }
  }

  /** Charging a token that is not among the tokens from `i` on leaves their order alone. */
  lemma {:induction false} OrderIgnores(cfg: Config, s: State, t: string, n: int, i: nat)
    requires i <= |cfg.free| && forall j :: i <= j < |cfg.free| ==> cfg.free[j] != t
    ensures Order(cfg, s.Charge(t, n), i) == Order(cfg, s, i)
    decreases |cfg.free| - i
  {
    if i < |cfg.free| { OrderIgnores(cfg, s, t, n, i + 1); }
  }

  lemma {:induction false} OrderFrom(cfg: Config, s: State, i: nat)
    requires i < |cfg.free|
    ensures s.Used(cfg.free[i]) < cfg.limit ==> Order(cfg, s, i) == [cfg.free[i]] + Order(cfg, s, i + 1)
    ensures s.Used(cfg.free[i]) >= cfg.limit ==> Order(cfg, s, i) == Order(cfg, s, i + 1)
  {
  }

  lemma {:induction false} ChargeAdds(s: State, t: string, n: int, u: string)
    ensures s.Charge(t, n).Used(u) == s.Used(u) + if u == t then n else 0
  {
  }

  /** Marking the first available token takes exactly it out of the order. */
  lemma {:induction false} OrderAfterMark(cfg: Config, s: State, n: int, i: nat)
    requires cfg.Proper() && i <= |cfg.free| && n >= cfg.limit && forall t :: s.Used(t) >= 0
    ensures var t := Nth(cfg, Order(cfg, s, i), 0);
            Order(cfg, s.Charge(t, n), i) == Drop(Order(cfg, s, i), 1) && s.Charge(t, n).Used(t) >= cfg.limit
    decreases |cfg.free| - i
  {
    var t := Nth(cfg, Order(cfg, s, i), 0);
    ChargeAdds(s, t, n, t);
    if i < |cfg.free| {
      hide Order, State.Charge, State.Used;
      OrderFrom(cfg, s, i);
      OrderFrom(cfg, s.Charge(t, n), i);
      ChargeAdds(s, t, n, cfg.free[i]);
      if s.Used(cfg.free[i]) < cfg.limit {
        OrderIgnores(cfg, s, t, n, i + 1);
      } else {
        OrderAfterMark(cfg, s, n, i + 1);
      }
    }
  }

  lemma {:induction false} OrderTokens(cfg: Config, s: State, i: nat)
    requires i <= |cfg.free|
    ensures forall t :: t in Order(cfg, s, i) <==> t in cfg.free[i..] && s.Used(t) < cfg.limit
    decreases |cfg.free| - i
  {
    if i < |cfg.free| {
      OrderTokens(cfg, s, i + 1);
      assert cfg.free[i..] == [cfg.free[i]] + cfg.free[i + 1..];
    }
  }

  /** The failed attempts among the first `n` that marked their token. */
  function Marking(attempts: seq<Attempt>, n: nat): nat
    requires n <= |attempts|
  {
    if n == 0 then 0 else Marking(attempts, n - 1) + if Marks(attempts[n - 1].reply) > 0 then 1 else 0
  }

  /** The first `n` attempts fall on one day and fail in a way that lets the request go on. */
  ghost predicate KeepsFailing(attempts: seq<Attempt>, n: nat, day: int)
    requires n <= |attempts|
  {
    forall i :: 0 <= i < n ==> attempts[i].today == day && !attempts[i].reply.Data? && !attempts[i].reply.Missing?
  }

  ghost predicate Counted(s: State, day: int) { s.date == Some(day) && forall t :: s.Used(t) >= 0 }

  /** Of `order` the first `m` tokens have been used up, and no more. */
  ghost predicate UsedUp(cfg: Config, order: seq<string>, now: State, m: nat, day: int) {
    Counted(now, day) && Order(cfg, now, 0) == Drop(order, m)
  }

  lemma {:induction false} FailureUsesUp(cfg: Config, order: seq<string>, s: State, m: nat, a: Attempt, day: int)
    requires cfg.Proper() && UsedUp(cfg, order, s, m, day)
    requires a.today == day && !a.reply.Data? && !a.reply.Missing?
    ensures UsedUp(cfg, order, Step(cfg, s, a), m + if Marks(a.reply) > 0 then 1 else 0, day)
  {
    FailureStep(cfg, s, a, day);
    DropDrop(order, m);
  }

  /** After `n` failures, those that marked a token have used up the order from its front, one token each. */
  lemma {:induction false} FailuresUseUpOrder(cfg: Config, s: State, attempts: seq<Attempt>, n: nat, day: int)
    requires cfg.Proper() && Counted(s, day) && n <= |attempts| && KeepsFailing(attempts, n, day)
    ensures UsedUp(cfg, Order(cfg, s, 0), After(cfg, s, attempts, n), Marking(attempts, n), day)
  {
    if n == 0 {
      NoneUsedUp(cfg, s, day);
    } else {
      hide UsedUp, Step, Order;
      FailuresUseUpOrder(cfg, s, attempts, n - 1, day);
      var was, a := After(cfg, s, attempts, n - 1), attempts[n - 1];
      FailureUsesUp(cfg, Order(cfg, s, 0), was, Marking(attempts, n - 1), a, day);
    }
  }

  lemma {:induction false} NoneUsedUp(cfg: Config, s: State, day: int)
    requires Counted(s, day)
    ensures UsedUp(cfg, Order(cfg, s, 0), s, 0, day)
  {
  }

  lemma {:induction false} DropDrop(order: seq<string>, m: nat)
    ensures Drop(Drop(order, m), 1) == Drop(order, m + 1)
  {
  }

  lemma {:induction false} FailureStep(cfg: Config, s: State, a: Attempt, day: int)
    requires cfg.Proper() && Counted(s, day) && a.today == day && !a.reply.Data? && !a.reply.Missing?
    ensures Counted(Step(cfg, s, a), day)
    ensures Order(cfg, Step(cfg, s, a), 0) == Drop(Order(cfg, s, 0), if Marks(a.reply) > 0 then 1 else 0)
    ensures TokenAt(cfg, s, a) == Nth(cfg, Order(cfg, s, 0), 0) != ""
  {
    TakesFirst(cfg, s);
    var t := TokenAt(cfg, s, a);
    assert s.Roll(day) == s;
    if Marks(a.reply) > 0 {
      var n := Penalty(cfg, a.reply);
      assert n >= cfg.limit;
      assert Step(cfg, s, a) == s.Charge(t, n);
      OrderAfterMark(cfg, s, n, 0);
      ChargeKeepsCount(s, t, n, day);
    }
  }

  lemma {:induction false} TakesFirst(cfg: Config, s: State)
    requires cfg.Proper()
    ensures Token(cfg, s) == Nth(cfg, Order(cfg, s, 0), 0) != ""
  {
    TokenIsFirst(cfg, s, 0);
  }

  lemma {:induction false} ChargeKeepsCount(s: State, t: string, n: int, day: int)
    requires Counted(s, day) && n >= 0
    ensures Counted(s.Charge(t, n), day)
  {
    forall u ensures s.Charge(t, n).Used(u) >= 0 {
      assert s.Used(u) >= 0 && s.Used(t) >= 0;
    }
  }

  lemma {:induction false} NextOfOrder(cfg: Config, order: seq<string>, now: State, m: nat, a: Attempt, day: int)
    requires UsedUp(cfg, order, now, m, day) && a.today == day
    ensures TokenAt(cfg, now, a) == Nth(cfg, order, m)
  {
    hide Order, FirstAvailable;
    TokenIsFirst(cfg, now, 0);
  }

  /** Attempt `n` of a request whose earlier attempts failed uses the next token of the order that no failure
      has marked, and the paid token when there is none left. */
  lemma {:induction false} TriedInOrder(cfg: Config, s: State, attempts: seq<Attempt>, n: nat, day: int)
    requires cfg.Proper() && Counted(s, day) && n < |attempts|
    requires KeepsFailing(attempts, n, day) && attempts[n].today == day
    ensures TokenOf(cfg, s, attempts, n) == Nth(cfg, Order(cfg, s, 0), Marking(attempts, n))
  {
    hide After, Step, Order, Marking, FirstAvailable, UsedUp;
    FailuresUseUpOrder(cfg, s, attempts, n, day);
    NextOfOrder(cfg, Order(cfg, s, 0), After(cfg, s, attempts, n), Marking(attempts, n), attempts[n], day);
  }

  lemma {:induction false} AllMark(attempts: seq<Attempt>, n: nat, day: int)
    requires n <= |attempts| && KeepsFailing(attempts, n, day) && No403(attempts, n)
    ensures Marking(attempts, n) == n
  {
    if n > 0 { AllMark(attempts, n - 1, day); }
  }

  ghost predicate No403(attempts: seq<Attempt>, n: nat)
    requires n <= |attempts|
  {
    forall i :: 0 <= i < n ==> attempts[i].reply != Http(403)
  }

  lemma {:induction false} NeverEnds(cfg: Config, s: State, attempts: seq<Attempt>, n: nat, day: int)
    requires cfg.Proper() && Counted(s, day) && n <= |attempts| && KeepsFailing(attempts, n, day)
    ensures !Request(cfg, s, attempts, n).over && !Request(cfg, s, attempts, n).answered
  {
    if n > 0 {
      hide After, Step, Ends, TokenAt, Pass;
      NeverEnds(cfg, s, attempts, n - 1, day);
      RequestRuns(cfg, s, attempts, n - 1);
      GoesOn(cfg, s, attempts, n - 1, day);
      FailedPass(cfg, Request(cfg, s, attempts, n - 1), attempts[n - 1]);
    }
  }

  lemma {:induction false} FailedPass(cfg: Config, p: Progress, a: Attempt)
    requires !p.over && !Ends(cfg, p.state, a)
    ensures !Pass(cfg, p, a).over && !Pass(cfg, p, a).answered
  {
  }

  lemma {:induction false} GoesOn(cfg: Config, s: State, attempts: seq<Attempt>, n: nat, day: int)
    requires cfg.Proper() && Counted(s, day) && n < |attempts| && KeepsFailing(attempts, n + 1, day)
    ensures !Ends(cfg, After(cfg, s, attempts, n), attempts[n])
  {
  }

  function Repeat(t: string, n: nat): (ts: seq<string>)
    ensures |ts| == n && forall i :: 0 <= i < n ==> ts[i] == t
  {
    seq(n, _ => t)
  }

  lemma {:induction false} TakenAre(cfg: Config, s: State, attempts: seq<Attempt>, n: nat)
    requires n <= |attempts|
    ensures forall i :: 0 <= i < n ==> Taken(cfg, s, attempts, n)[i] == TokenOf(cfg, s, attempts, i)
  {
    if n > 0 { TakenAre(cfg, s, attempts, n - 1); }
  }

  lemma {:induction false} ExhaustedToday(cfg: Config, s: State, attempts: seq<Attempt>, day: int)
    requires cfg.Proper() && Counted(s, day) && |attempts| == cfg.MaxAttempts()
    requires KeepsFailing(attempts, |attempts|, day)
    requires No403(attempts, |attempts|)
    ensures Exhausted(cfg, Order(cfg, s, 0), Request(cfg, s, attempts, |attempts|))
  {
    hide Request, After, Taken, Order, Counted, KeepsFailing, No403, Distinct, Repeat;
    var n := |attempts|;
    NeverEnds(cfg, s, attempts, n, day);
    RequestRuns(cfg, s, attempts, n);
    OrderLength(cfg, s, 0);
    NoneLeft(cfg, s, attempts, day);
    TakenInOrder(cfg, s, attempts, day);
    OrderDistinct(cfg, s, 0);
  }

  lemma {:induction false} NoneLeft(cfg: Config, s: State, attempts: seq<Attempt>, day: int)
    requires cfg.Proper() && Counted(s, day) && KeepsFailing(attempts, |attempts|, day)
    requires No403(attempts, |attempts|)
    requires |Order(cfg, s, 0)| <= |attempts|
    ensures Order(cfg, After(cfg, s, attempts, |attempts|), 0) == []
  {
    AllMark(attempts, |attempts|, day);
    FailuresUseUpOrder(cfg, s, attempts, |attempts|, day);
    assert Drop(Order(cfg, s, 0), |attempts|) == [];
  }

  /** The request made all its attempts: the tokens of `order`, each once, then the paid token at least twice;
      and no free token is left. */
  ghost predicate Exhausted(cfg: Config, order: seq<string>, p: Progress) {
    && !p.answered && Distinct(order) && |order| + 2 <= cfg.MaxAttempts()
    && p.tokens == order + Repeat(cfg.paid, cfg.MaxAttempts() - |order|)
    && Order(cfg, p.state, 0) == []
  }

  /** A first attempt on a new day acts as if the counters had already been started again. */
  lemma {:induction false} RequestRolls(cfg: Config, s: State, attempts: seq<Attempt>, n: nat, day: int)
    requires 0 < n <= |attempts| && attempts[0].today == day
    ensures Request(cfg, s, attempts, n) == Request(cfg, s.Roll(day), attempts, n)
  {
    if n == 1 {
      var p, q := Progress(s, [], false, false), Progress(s.Roll(day), [], false, false);
      assert Pass(cfg, p, attempts[0]) == Pass(cfg, q, attempts[0]);
      assert Request(cfg, s, attempts, 0) == p && Request(cfg, s.Roll(day), attempts, 0) == q;
    } else {
      RequestRolls(cfg, s, attempts, n - 1, day);
    }
  }

  lemma {:induction false} ExhaustedFrom(cfg: Config, s: State, attempts: seq<Attempt>, day: int)
    requires cfg.Proper() && (forall t :: s.Used(t) >= 0) && |attempts| == cfg.MaxAttempts()
    requires KeepsFailing(attempts, |attempts|, day) && No403(attempts, |attempts|)
    ensures Exhausted(cfg, Order(cfg, s.Roll(day), 0), Request(cfg, s, attempts, |attempts|))
  {
    RequestRolls(cfg, s, attempts, |attempts|, day);
    ExhaustedToday(cfg, s.Roll(day), attempts, day);
  }

  lemma {:induction false} CountsStayUp(cfg: Config, attempts: seq<Attempt>, n: nat)
    requires n <= |attempts| && cfg.limit >= 0
    ensures forall t :: After(cfg, Start, attempts, n).Used(t) >= 0
  {
    if n > 0 {
      CountsStayUp(cfg, attempts, n - 1);
      StepKeepsCounts(cfg, After(cfg, Start, attempts, n - 1), attempts[n - 1]);
    }
  }

  lemma {:induction false} StepKeepsCounts(cfg: Config, s: State, a: Attempt)
    requires cfg.limit >= 0 && forall t :: s.Used(t) >= 0
    ensures forall t :: Step(cfg, s, a).Used(t) >= 0
  {
    var r := s.Roll(a.today);
    assert forall t :: r.Used(t) >= 0;
    StepNeverLowers(cfg, r, a);
  }

  /** Whatever attempts came before, a request that fails to the end with no 403 tries each free token still available
      that day once and in list order, then pays at least twice. */
  lemma {:induction false} ExhaustedRequest(cfg: Config, earlier: seq<Attempt>, attempts: seq<Attempt>, day: int)
    requires cfg.Proper() && |attempts| == cfg.MaxAttempts()
    requires KeepsFailing(attempts, |attempts|, day) && No403(attempts, |attempts|)
    ensures var s := After(cfg, Start, earlier, |earlier|);
            Exhausted(cfg, Order(cfg, s.Roll(day), 0), Request(cfg, s, attempts, |attempts|))
  {
    CountsStayUp(cfg, earlier, |earlier|);
    ExhaustedFrom(cfg, After(cfg, Start, earlier, |earlier|), attempts, day);
  }

  lemma {:induction false} TakenInOrder(cfg: Config, s: State, attempts: seq<Attempt>, day: int)
    requires cfg.Proper() && Counted(s, day) && KeepsFailing(attempts, |attempts|, day)
    requires No403(attempts, |attempts|)
    requires |Order(cfg, s, 0)| <= |attempts|
    ensures var order := Order(cfg, s, 0);
            Taken(cfg, s, attempts, |attempts|) == order + Repeat(cfg.paid, |attempts| - |order|)
  {
    hide Taken, Order, TokenOf, Counted, Marking;
    var n, order := |attempts|, Order(cfg, s, 0);
    TakenAre(cfg, s, attempts, n);
    forall i | 0 <= i < n ensures Taken(cfg, s, attempts, n)[i] == Nth(cfg, order, i) {
      AllMark(attempts, i, day);
      TriedInOrder(cfg, s, attempts, i, day);
    }
  }

  lemma {:induction false} OrderLength(cfg: Config, s: State, i: nat)
    requires i <= |cfg.free|
    ensures |Order(cfg, s, i)| <= |cfg.free| - i
    decreases |cfg.free| - i
  {
    if i < |cfg.free| { OrderLength(cfg, s, i + 1); }
  }

  lemma {:induction false} DistinctCons(t: string, rest: seq<string>)
    requires forall k :: 0 <= k < |rest| ==> rest[k] != t
    requires Distinct(rest)
    ensures Distinct([t] + rest)
  {
  }

  /** Available tokens come once each in the order. */
  lemma {:induction false} OrderDistinct(cfg: Config, s: State, i: nat)
    requires cfg.Proper() && i <= |cfg.free|
    ensures Distinct(Order(cfg, s, i))
    decreases |cfg.free| - i
  {
    if i < |cfg.free| {
      OrderDistinct(cfg, s, i + 1);
      OrderTokens(cfg, s, i + 1);
      var rest := Order(cfg, s, i + 1);
      forall k | 0 <= k < |rest| ensures rest[k] != cfg.free[i] {
        assert rest[k] in rest;
        var m :| 0 <= m < |cfg.free[i + 1..]| && cfg.free[i + 1..][m] == rest[k];
        assert cfg.free[i + 1 + m] == rest[k];
      }
      DistinctCons(cfg.free[i], rest);
      assert [] + rest == rest;
    }
  }

  lemma {:induction false} StepNeverLowers(cfg: Config, s: State, a: Attempt)
    requires cfg.limit >= 0 && s.date == Some(a.today)
    ensures Step(cfg, s, a).date == s.date && forall t :: Step(cfg, s, a).Used(t) >= s.Used(t)
  {
  }

  lemma {:induction false} UsageGrows(cfg: Config, s: State, attempts: seq<Attempt>, n: nat, day: int)
    requires cfg.limit >= 0 && s.date == Some(day) && n <= |attempts|
    requires forall i :: 0 <= i < n ==> attempts[i].today == day
    ensures var now := After(cfg, s, attempts, n); now.date == Some(day) && forall t :: now.Used(t) >= s.Used(t)
  {
    if n > 0 {
      UsageGrows(cfg, s, attempts, n - 1, day);
      StepNeverLowers(cfg, After(cfg, s, attempts, n - 1), attempts[n - 1]);
    }
  }

  /** Once no free token is available, every later attempt of that day pays. */
  lemma {:induction false} PaidForTheDay(cfg: Config, s: State, attempts: seq<Attempt>, n: nat, day: int)
    requires cfg.limit >= 0 && s.date == Some(day) && Order(cfg, s, 0) == [] && n < |attempts|
    requires forall i :: 0 <= i <= n ==> attempts[i].today == day
    ensures TokenOf(cfg, s, attempts, n) == cfg.paid
  {
    UsageGrows(cfg, s, attempts, n, day);
    var now := After(cfg, s, attempts, n);
    OrderShrinks(cfg, s, now);
    TokenIsFirst(cfg, now, 0);
  }

  lemma {:induction false} OrderShrinks(cfg: Config, s: State, now: State)
    requires Order(cfg, s, 0) == [] && forall t :: now.Used(t) >= s.Used(t)
    ensures Order(cfg, now, 0) == []
  {
    OrderTokens(cfg, s, 0);
    OrderTokens(cfg, now, 0);
    HasMember(Order(cfg, now, 0));
  }

  lemma {:induction false} HasMember(order: seq<string>)
    ensures order != [] ==> exists t :: t in order
  {
    if order != [] { assert order[0] in order; }
  }
}
