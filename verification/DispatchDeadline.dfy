/** What the deadline does to a run when the clock never goes back: from the first worker that finds it passed
    on, no executor call starts, and what is taken from then on is reported as late. */
module DispatchDeadline {
  import opened Dispatch
  import opened DispatchInvariant
  import opened DispatchRuns
  import opened DispatchOutcomes

  /** In this step a living worker compares the clock with the deadline. */
  predicate LooksAtClock(cfg: Config, s: State, e: Event)
    requires s.Shaped(cfg) && Enabled(cfg, s, e)
  {
    cfg.hasDeadline && e.Worker? && s.pcs[e.w].Got? && !s.dead[e.w]
  }

  predicate FindsItPassed(cfg: Config, s: State, e: Event)
    requires s.Shaped(cfg) && Enabled(cfg, s, e)
  {
    LooksAtClock(cfg, s, e) && e.luck
  }

  /** The clock does not go back: once the deadline was found passed, every later look finds it passed. */
  predicate Forward(cfg: Config, s: State, es: seq<Event>, passed: bool)
    requires s.Shaped(cfg) && Legal(cfg, s, es)
    decreases |es|
  {
    es == []
    || ((passed && LooksAtClock(cfg, s, es[0]) ==> es[0].luck)
        && Forward(cfg, Step(cfg, s, es[0]), es[1..], passed || FindsItPassed(cfg, s, es[0])))
  }

  /** Some step of the run found the deadline passed. */
  predicate Seen(cfg: Config, s: State, es: seq<Event>)
    requires s.Shaped(cfg) && Legal(cfg, s, es)
    decreases |es|
  {
    es != [] && (FindsItPassed(cfg, s, es[0]) || Seen(cfg, Step(cfg, s, es[0]), es[1..]))
  }

  lemma {:induction false} ForwardSplit(cfg: Config, s: State, es: seq<Event>, fs: seq<Event>, passed: bool)
    requires s.Shaped(cfg) && Legal(cfg, s, es) && Legal(cfg, After(cfg, s, es), fs)
    requires Legal(cfg, s, es + fs) && Forward(cfg, s, es + fs, passed)
    ensures Forward(cfg, After(cfg, s, es), fs, passed || Seen(cfg, s, es))
    decreases |es|
  {
    if es == [] {
      assert es + fs == fs;
    } else {
      assert (es + fs)[1..] == es[1..] + fs;
      ForwardSplit(cfg, Step(cfg, s, es[0]), es[1..], fs, passed || FindsItPassed(cfg, s, es[0]));
    }
  }

  // ----- no call starts -----

  function CallsBy(trials: seq<Trial>, w: nat): nat {
    if trials == [] then 0
    else CallsBy(trials[..|trials| - 1], w) + if trials[|trials| - 1].w == w then 1 else 0
  }

  lemma {:induction false} CallsByAppend(trials: seq<Trial>, x: Trial, w: nat)
    ensures CallsBy(trials + [x], w) == CallsBy(trials, w) + if x.w == w then 1 else 0
  {
  }

  /** The executor calls worker `w` has started: those it finished and the one under way. */
  function CallsStarted(s: State, w: nat): nat
    requires w < |s.pcs|
  {
    CallsBy(s.trials, w) + if s.pcs[w].Processing? then 1 else 0
  }

  /** Only a look at the clock that finds it early starts a call. */
  lemma {:induction false} CallsStep(cfg: Config, s: State, e: Event, w: nat)
    requires s.Shaped(cfg) && Enabled(cfg, s, e) && w < cfg.workers && cfg.hasDeadline
    requires LooksAtClock(cfg, s, e) ==> e.luck
    ensures CallsStarted(Step(cfg, s, e), w) == CallsStarted(s, w)
  {
    hide CallsBy;
    if e.Worker? && s.pcs[e.w].Processing? {
      CallsByAppend(s.trials, Trial(e.w, s.pcs[e.w].t, e.luck), w);
      assert Step(cfg, s, e).trials == s.trials + [Trial(e.w, s.pcs[e.w].t, e.luck)];
    } else {
      assert Step(cfg, s, e).trials == s.trials;
    }
  }

  lemma {:induction false} NoCallStarts(cfg: Config, s: State, es: seq<Event>, w: nat)
    requires s.Shaped(cfg) && Legal(cfg, s, es) && Forward(cfg, s, es, true) && cfg.hasDeadline && w < cfg.workers
    ensures CallsStarted(After(cfg, s, es), w) == CallsStarted(s, w)
    decreases |es|
  {
    if es != [] {
      hide CallsStarted;
      CallsStep(cfg, s, es[0], w);
      NoCallStarts(cfg, Step(cfg, s, es[0]), es[1..], w);
    }
  }

  // ----- what is taken afterwards is late -----

  /** The worker is in an executor call or has its result, and will report or requeue the ticket. */
  predicate Engaged(pc: Pc) { pc.Processing? || pc.Succeeded? || pc.Dying? || pc.GaveUp? }

  ghost predicate UnderWay(s: State, id: nat) {
    exists w :: 0 <= w < |s.pcs| && Engaged(s.pcs[w]) && s.pcs[w].t.id == id
  }

  ghost predicate NewIsLate(s: State, o: Outcome) {
    o.status == Late || o.reporter == AllDead || UnderWay(s, o.ticket.id)
  }

  /** From `s` to `t` only tickets under way in `s` were tried or reported, except as late or drained. */
  ghost predicate OnlyLate(s: State, t: State) {
    && |s.outcomes| <= |t.outcomes| && t.outcomes[..|s.outcomes|] == s.outcomes
    && (forall w :: 0 <= w < |t.pcs| && Engaged(t.pcs[w]) ==> UnderWay(s, t.pcs[w].t.id))
    && (forall i :: |s.outcomes| <= i < |t.outcomes| ==> NewIsLate(s, t.outcomes[i]))
  }

  lemma {:induction false} NothingNewYet(s: State)
    ensures OnlyLate(s, s)
  {
    forall w | 0 <= w < |s.pcs| && Engaged(s.pcs[w]) ensures UnderWay(s, s.pcs[w].t.id) {}
  }

  lemma {:induction false} ReportedLate(cfg: Config, b: State, s: State, w: nat, luck: bool)
    requires s.Shaped(cfg) && w < cfg.workers && s.pcs[w].Reports() && OnlyLate(b, s)
    ensures OnlyLate(b, WorkerStep(cfg, s, w, luck))
  {
    hide UnderWay;
    var s', o := WorkerStep(cfg, s, w, luck), Callback(s.pcs[w], w);
    assert s'.outcomes == s.outcomes + [o] && NewIsLate(b, o);
  }

  lemma {:induction false} QuietlyLate(cfg: Config, b: State, s: State, w: nat, luck: bool)
    requires s.Shaped(cfg) && w < cfg.workers && !s.pcs[w].Reports() && OnlyLate(b, s) && cfg.hasDeadline
    requires s.pcs[w].Got? && !s.dead[w] ==> luck
    ensures OnlyLate(b, WorkerStep(cfg, s, w, luck))
  {
    hide UnderWay;
    var s' := WorkerStep(cfg, s, w, luck);
    assert s'.outcomes == s.outcomes && s'.pcs == s.pcs[w := s'.pcs[w]];
    assert Engaged(s'.pcs[w]) ==> Engaged(s.pcs[w]) && s'.pcs[w].t == s.pcs[w].t;
  }

  lemma {:induction false} MainReportsDrained(cfg: Config, b: State, s: State)
    requires s.Shaped(cfg) && OnlyLate(b, s)
    ensures OnlyLate(b, MainStep(s))
  {
    hide UnderWay;
  }

  lemma {:induction false} LateStep(cfg: Config, b: State, s: State, e: Event)
    requires s.Shaped(cfg) && Enabled(cfg, s, e) && OnlyLate(b, s) && cfg.hasDeadline
    requires LooksAtClock(cfg, s, e) ==> e.luck
    ensures OnlyLate(b, Step(cfg, s, e))
  {
    hide OnlyLate;
    match e
    case Worker(w, luck) =>
      if s.pcs[w].Reports() { ReportedLate(cfg, b, s, w, luck); } else { QuietlyLate(cfg, b, s, w, luck); }
    case Main => MainReportsDrained(cfg, b, s);
  }

  lemma {:induction false} LateRun(cfg: Config, b: State, s: State, es: seq<Event>)
    requires s.Shaped(cfg) && Legal(cfg, s, es) && Forward(cfg, s, es, true) && cfg.hasDeadline && OnlyLate(b, s)
    ensures OnlyLate(b, After(cfg, s, es))
    decreases |es|
  {
    if es != [] {
      hide OnlyLate;
      LateStep(cfg, b, s, es[0]);
      LateRun(cfg, b, Step(cfg, s, es[0]), es[1..]);
    }
  }

  // ----- a timeout that was reported -----

  /** Some worker has reported a timeout, or is about to. */
  ghost predicate TimeoutKnown(s: State) {
    || (exists i :: 0 <= i < |s.outcomes| && s.outcomes[i].status == Late)
    || (exists w :: 0 <= w < |s.pcs| && s.pcs[w].Expired?)
  }

  lemma {:induction false} NoTimeoutFromWorker(cfg: Config, s: State, w: nat, luck: bool)
    requires s.Shaped(cfg) && w < cfg.workers && !TimeoutKnown(s)
    requires cfg.hasDeadline && s.pcs[w].Got? && !s.dead[w] ==> !luck
    ensures !TimeoutKnown(WorkerStep(cfg, s, w, luck))
  {
    var s' := WorkerStep(cfg, s, w, luck);
    assert forall v :: 0 <= v < cfg.workers && v != w ==> s'.pcs[v] == s.pcs[v];
    assert !s.pcs[w].Expired?;
  }

  lemma {:induction false} NoTimeoutYet(cfg: Config, s: State, e: Event)
    requires s.Shaped(cfg) && Enabled(cfg, s, e) && !TimeoutKnown(s) && !FindsItPassed(cfg, s, e)
    ensures !TimeoutKnown(Step(cfg, s, e))
  {
    if e.Worker? { NoTimeoutFromWorker(cfg, s, e.w, e.luck); }
  }

  lemma {:induction false} TimeoutMeansSeen(cfg: Config, s: State, es: seq<Event>)
    requires s.Shaped(cfg) && Legal(cfg, s, es) && !TimeoutKnown(s) && TimeoutKnown(After(cfg, s, es))
    ensures Seen(cfg, s, es)
    decreases |es|
  {
    if !FindsItPassed(cfg, s, es[0]) {
      hide TimeoutKnown;
      NoTimeoutYet(cfg, s, es[0]);
      TimeoutMeansSeen(cfg, Step(cfg, s, es[0]), es[1..]);
    }
  }

  /** Once a worker has reported a timeout, or has it to report, no worker starts an executor call for the rest
      of the run; every outcome reported after that is late or drained, or belongs to a ticket that was under way
      at that moment. */
  lemma {:induction false} DeadlineEndsCalls(cfg: Config, es: seq<Event>, fs: seq<Event>)
    requires Legal(cfg, Init(cfg), es) && Legal(cfg, After(cfg, Init(cfg), es), fs)
    requires Legal(cfg, Init(cfg), es + fs) && Forward(cfg, Init(cfg), es + fs, false)
    requires TimeoutKnown(After(cfg, Init(cfg), es))
    ensures var s := After(cfg, Init(cfg), es);
            && (forall w :: 0 <= w < cfg.workers ==> CallsStarted(After(cfg, s, fs), w) == CallsStarted(s, w))
            && OnlyLate(s, After(cfg, s, fs))
  {
    hide OnlyLate, CallsStarted;
    var s := After(cfg, Init(cfg), es);
    TimeoutMeansSeen(cfg, Init(cfg), es);
    SeenNeedsDeadline(cfg, Init(cfg), es);
    ForwardSplit(cfg, Init(cfg), es, fs, false);
    forall w | 0 <= w < cfg.workers ensures CallsStarted(After(cfg, s, fs), w) == CallsStarted(s, w) {
      NoCallStarts(cfg, s, fs, w);
    }
    NothingNewYet(s);
    LateRun(cfg, s, s, fs);
  }

  lemma {:induction false} SeenNeedsDeadline(cfg: Config, s: State, es: seq<Event>)
    requires s.Shaped(cfg) && Legal(cfg, s, es) && Seen(cfg, s, es)
    ensures cfg.hasDeadline
    decreases |es|
  {
    if !FindsItPassed(cfg, s, es[0]) { SeenNeedsDeadline(cfg, Step(cfg, s, es[0]), es[1..]); }
  }

  // ----- a clock that goes back -----

  const SET_BACK := Config(["a", "b"], 1, 0, 1, true)

  function FirstAt(queue: seq<Ticket>, pc: Pc): State {
    State(queue, 2, [0], [false], false, map[], [pc], Polling, [], [])
  }

  function SecondAt(queue: seq<Ticket>, unfinished: int, pc: Pc): State {
    State(queue, unfinished, [0], [false], false, map[], [pc], Polling, [Outcome(Ticket(0, 0), ByWorker(0), Late)], [])
  }

  lemma {:induction false} StartsHere()
    ensures Reachable(SET_BACK, FirstAt([Ticket(0, 0), Ticket(1, 0)], Login))
  {
    var s := Init(SET_BACK);
    assert Legal(SET_BACK, s, []) && After(SET_BACK, s, []) == s;
    assert s == FirstAt([Ticket(0, 0), Ticket(1, 0)], Login);
  }

  lemma {:induction false} TakesTheFirst()
    ensures Reachable(SET_BACK, FirstAt([Ticket(1, 0)], Got(Ticket(0, 0))))
  {
    hide Reachable;
    var both := [Ticket(0, 0), Ticket(1, 0)];
    StartsHere();
    Then(SET_BACK, FirstAt(both, Login), Worker(0, true), FirstAt(both, Idle));
    Then(SET_BACK, FirstAt(both, Idle), Worker(0, true), FirstAt(both, Getting));
    Then(SET_BACK, FirstAt(both, Getting), Worker(0, true), FirstAt([Ticket(1, 0)], Got(Ticket(0, 0))));
  }

  lemma {:induction false} TimesItOut()
    ensures Reachable(SET_BACK, SecondAt([Ticket(1, 0)], 1, Idle))
  {
    hide Reachable;
    var left, t := [Ticket(1, 0)], Ticket(0, 0);
    TakesTheFirst();
    Then(SET_BACK, FirstAt(left, Got(t)), Worker(0, true), FirstAt(left, Expired(t)));
    Then(SET_BACK, FirstAt(left, Expired(t)), Worker(0, true), SecondAt(left, 2, Owing));
    Then(SET_BACK, SecondAt(left, 2, Owing), Worker(0, true), SecondAt(left, 1, Idle));
  }

  /** The condition on the clock is needed: set back, it lets a call start after a timeout has been reported. */
  lemma {:induction false} SetBackClockStartsACall()
    ensures exists s :: Reachable(SET_BACK, s) && TimeoutKnown(s) && s.pcs == [Processing(Ticket(1, 0))]
  {
    hide Reachable;
    var left, t := [Ticket(1, 0)], Ticket(1, 0);
    TimesItOut();
    Then(SET_BACK, SecondAt(left, 1, Idle), Worker(0, true), SecondAt(left, 1, Getting));
    Then(SET_BACK, SecondAt(left, 1, Getting), Worker(0, true), SecondAt([], 1, Got(t)));
    Then(SET_BACK, SecondAt([], 1, Got(t)), Worker(0, false), SecondAt([], 1, Processing(t)));
    assert SecondAt([], 1, Processing(t)).outcomes[0].status == Late;
  }
}
