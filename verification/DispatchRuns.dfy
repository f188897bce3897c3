/** What holds of whole runs of the dispatcher, under every schedule and every luck. */
module DispatchRuns {
  import opened Dispatch
  import opened DispatchInvariant

  // ----- safety -----

  lemma {:induction false} RunKeepsInv(cfg: Config, s: State, es: seq<Event>)
    requires cfg.Valid() && Inv(cfg, s) && Legal(cfg, s, es)
    ensures Inv(cfg, After(cfg, s, es))
    decreases |es|
  {
    if es == [] {
    } else {
      Inductive(cfg, s, es[0]);
      RunKeepsInv(cfg, Step(cfg, s, es[0]), es[1..]);
    }
  }

  ghost predicate Reachable(cfg: Config, s: State) {
    exists es :: Legal(cfg, Init(cfg), es) && After(cfg, Init(cfg), es) == s
  }

  lemma {:induction false} ReachableInv(cfg: Config, s: State)
    requires cfg.Valid() && Reachable(cfg, s)
    ensures Inv(cfg, s)
  {
    var es :| Legal(cfg, Init(cfg), es) && After(cfg, Init(cfg), es) == s;
    InvInit(cfg);
    RunKeepsInv(cfg, Init(cfg), es);
  }

  /** Every submitted ticket is in exactly one place, the unfinished counter is the queue length plus the
      number of threads that owe a task_done, and a thread about to call task_done finds it positive. */
  lemma {:induction false} TicketsAccountedFor(cfg: Config, s: State)
    requires cfg.Valid() && Reachable(cfg, s)
    ensures forall id :: 0 <= id < |cfg.codes| ==> Places(s, id) == 1
    ensures s.unfinished == |s.queue| + WorkersOwe(s.pcs) + MainOwes(s.main)
    ensures forall w :: 0 <= w < cfg.workers && s.pcs[w].Owes() ==> s.unfinished >= 1
    ensures s.main.Owes() ==> s.unfinished >= 1
  {
    ReachableInv(cfg, s);
    forall w | 0 <= w < cfg.workers && s.pcs[w].Owes() ensures s.unfinished >= 1 {
      WorkersOweUpdate(s.pcs, w, s.pcs[w]);
    }
  }

  // ----- the circuit breaker over a run -----

  /** Streaks, deaths and outcomes obey the circuit breaker in every reachable state. */
  lemma {:induction false} CircuitBreaker(cfg: Config, s: State, w: nat)
    requires cfg.Valid() && Reachable(cfg, s) && w < cfg.workers
    ensures s.streak[w] == StreakOf(s.trials, w)
    ensures !s.dead[w] ==> s.streak[w] < cfg.threshold
    ensures DeadSkips(s.outcomes, w) <= 1
    ensures s.dead[w] ==> !s.pcs[w].Processing?
    ensures forall i :: 0 <= i < |s.outcomes| && s.outcomes[i].status == Failed ==>
              s.outcomes[i].ticket.attempt == cfg.maxRetry
    ensures forall i :: 0 <= i < |s.outcomes| && s.outcomes[i].reporter == AllDead ==> AllWorkersDead(s)
    ensures !cfg.hasDeadline ==> forall i :: 0 <= i < |s.outcomes| ==> s.outcomes[i].status != Late
  {
    ReachableInv(cfg, s);
    assert StreakOk(cfg, s, w);
    forall i | 0 <= i < |s.outcomes|
      ensures s.outcomes[i].status == Failed ==> s.outcomes[i].ticket.attempt == cfg.maxRetry
      ensures s.outcomes[i].reporter == AllDead ==> AllWorkersDead(s)
      ensures !cfg.hasDeadline ==> s.outcomes[i].status != Late
    {
      assert OutcomeOk(cfg, s, s.outcomes[i]);
    }
  }

  /** From `s` to `t` worker `w` is dead and finishes no executor call. */
  ghost predicate Silent(s: State, t: State, w: nat) {
    && w < |t.dead| && t.dead[w]
    && |s.trials| <= |t.trials| && t.trials[..|s.trials|] == s.trials
    && forall i :: |s.trials| <= i < |t.trials| ==> t.trials[i].w != w
  }

  lemma {:induction false} SilentTwice(s: State, t: State, u: State, w: nat)
    requires Silent(s, t, w) && Silent(t, u, w)
    ensures Silent(s, u, w)
  {
    assert u.trials[..|s.trials|] == u.trials[..|t.trials|][..|s.trials|];
    forall i | |s.trials| <= i < |u.trials| ensures u.trials[i].w != w {
      if i < |t.trials| { assert u.trials[i] == u.trials[..|t.trials|][i] == t.trials[i]; }
    }
  }

  lemma {:induction false} SilentStep(cfg: Config, s: State, e: Event, w: nat)
    requires s.Shaped(cfg) && Enabled(cfg, s, e) && w < cfg.workers && DeathOk(cfg, s, w) && s.dead[w]
    ensures Silent(s, Step(cfg, s, e), w)
  {
    DeadGrows(cfg, s, e, w);
    if e.Worker? && s.pcs[e.w].Processing? {
      assert Step(cfg, s, e).trials == s.trials + [Trial(e.w, s.pcs[e.w].t, e.luck)];
    } else {
      assert Step(cfg, s, e).trials == s.trials;
    }
  }

  /** Death is permanent, and a dead worker never finishes another executor call. */
  lemma {:induction false} DeadWorkersStop(cfg: Config, s: State, es: seq<Event>, w: nat)
    requires cfg.Valid() && Inv(cfg, s) && Legal(cfg, s, es) && w < cfg.workers && s.dead[w]
    ensures Silent(s, After(cfg, s, es), w)
    decreases |es|
  {
    if es != [] {
      var m := Step(cfg, s, es[0]);
      assert StreakOk(cfg, s, w);
      SilentStep(cfg, s, es[0], w);
      Inductive(cfg, s, es[0]);
      DeadWorkersStop(cfg, m, es[1..], w);
      SilentTwice(s, m, After(cfg, m, es[1..]), w);
    }
  }

  // ----- termination -----

  /** Work still owed to a ticket by its remaining retries. */
  function Need(cfg: Config, t: Ticket): int { 8 * (cfg.maxRetry - t.attempt) }

  function QueueWeight(cfg: Config, q: seq<Ticket>): int {
    if q == [] then 0 else Need(cfg, q[0]) + 8 + QueueWeight(cfg, q[1..])
  }

  function PcWeight(cfg: Config, pc: Pc): int {
    match pc
    case Login => 5
    case Idle => 4
    case Getting => 4
    case Got(t) => Need(cfg, t) + 11
    case Bouncing(t) => Need(cfg, t) + 10
    case BounceOwing => 1
    case Processing(t) => Need(cfg, t) + 10
    case Retrying(t) => Need(cfg, t) + 6
    case Expired(_) => 6
    case Succeeded(_) => 6
    case Dying(_) => 6
    case GaveUp(_) => 6
    case Owing => 5
    case Exited => 0
  }

  function PcsWeight(cfg: Config, pcs: seq<Pc>): int {
    if pcs == [] then 0 else PcWeight(cfg, pcs[0]) + PcsWeight(cfg, pcs[1..])
  }

  function MainWeight(m: MainPc): int {
    match m
    case Polling => 3
    case Checking => 3
    case Draining => 2
    case DrainHolding(_) => 4
    case DrainOwing => 3
    case Leaving(_) => 1
    case Stopped(_) => 0
  }

  /** The termination measure: no step increases it and every step that is not a wait decreases it. */
  function Potential(cfg: Config, s: State): int {
    QueueWeight(cfg, s.queue) + PcsWeight(cfg, s.pcs) + MainWeight(s.main)
  }

  lemma {:induction false} QueueWeightAppend(cfg: Config, q: seq<Ticket>, t: Ticket)
    ensures QueueWeight(cfg, q + [t]) == QueueWeight(cfg, q) + Need(cfg, t) + 8
  {
    if q == [] {
    } else {
      assert (q + [t])[1..] == q[1..] + [t];
      QueueWeightAppend(cfg, q[1..], t);
    }
  }

  lemma {:induction false} PcsWeightUpdate(cfg: Config, pcs: seq<Pc>, w: nat, pc: Pc)
    requires w < |pcs|
    ensures PcsWeight(cfg, pcs[w := pc]) == PcsWeight(cfg, pcs) - PcWeight(cfg, pcs[w]) + PcWeight(cfg, pc)
  {
    if w == 0 {
      assert pcs[w := pc][1..] == pcs[1..];
    } else {
      assert pcs[w := pc][1..] == pcs[1..][w - 1 := pc];
      PcsWeightUpdate(cfg, pcs[1..], w - 1, pc);
    }
  }

  lemma {:induction false} PotentialPut(cfg: Config, s: State, w: nat, t: Ticket, pc: Pc)
    requires w < |s.pcs|
    ensures Potential(cfg, s.Put(t).Go(w, pc)) ==
            Potential(cfg, s) + Need(cfg, t) + 8 + PcWeight(cfg, pc) - PcWeight(cfg, s.pcs[w])
  {
    QueueWeightAppend(cfg, s.queue, t);
    PcsWeightUpdate(cfg, s.pcs, w, pc);
  }

  lemma {:induction false} PotentialGo(cfg: Config, s: State, s': State, w: nat)
    requires w < |s.pcs| == |s'.pcs| && s'.queue == s.queue && s'.main == s.main && s'.pcs == s.pcs[w := s'.pcs[w]]
    ensures Potential(cfg, s') == Potential(cfg, s) + PcWeight(cfg, s'.pcs[w]) - PcWeight(cfg, s.pcs[w])
  {
    PcsWeightUpdate(cfg, s.pcs, w, s'.pcs[w]);
  }

  lemma {:induction false} PcWeightFalls(cfg: Config, s: State, w: nat, luck: bool)
    requires s.Shaped(cfg) && w < cfg.workers && HandOk(cfg, s.trials, s.pcs[w])
    requires !s.pcs[w].Exited? && !s.pcs[w].Getting? && !s.pcs[w].Bouncing? && !s.pcs[w].Retrying?
    ensures PcWeight(cfg, NextPc(cfg, s, w, luck)) <= PcWeight(cfg, s.pcs[w])
    ensures !(s.pcs[w].Idle? && !s.stop) ==> PcWeight(cfg, NextPc(cfg, s, w, luck)) < PcWeight(cfg, s.pcs[w])
  {
  }

  lemma {:induction false} PotentialQueueing(cfg: Config, s: State, w: nat, luck: bool)
    requires s.Shaped(cfg) && w < cfg.workers && (s.pcs[w].Getting? || s.pcs[w].Bouncing? || s.pcs[w].Retrying?)
    ensures var s' := WorkerStep(cfg, s, w, luck);
            if s.pcs[w].Getting? && s.queue == [] then Potential(cfg, s') == Potential(cfg, s)
            else Potential(cfg, s') < Potential(cfg, s)
  {
    match s.pcs[w]
    case Bouncing(t) => PotentialPut(cfg, s, w, t, BounceOwing);
    case Retrying(t) => PotentialPut(cfg, s, w, Ticket(t.id, t.attempt + 1), Owing);
    case Getting => PcsWeightUpdate(cfg, s.pcs, w, NextPc(cfg, s, w, luck));
  }

  lemma {:induction false} PotentialWorker(cfg: Config, s: State, w: nat, luck: bool)
    requires s.Shaped(cfg) && w < cfg.workers && Counted(cfg, s) && !s.pcs[w].Exited?
    ensures Potential(cfg, WorkerStep(cfg, s, w, luck)) <=
            Potential(cfg, s) - if IsWait(cfg, s, Worker(w, luck)) then 0 else 1
  {
    if s.pcs[w].Getting? || s.pcs[w].Bouncing? || s.pcs[w].Retrying? {
      PotentialQueueing(cfg, s, w, luck);
    } else {
      assert HandOk(cfg, s.trials, s.pcs[w]);
      PotentialGo(cfg, s, WorkerStep(cfg, s, w, luck), w);
      PcWeightFalls(cfg, s, w, luck);
    }
  }

  lemma {:induction false} PotentialMain(cfg: Config, s: State)
    requires s.Shaped(cfg) && Counted(cfg, s) && !s.main.Stopped?
    ensures Potential(cfg, MainStep(s)) <= Potential(cfg, s) - if IsWait(cfg, s, Main) then 0 else 1
  {
  }

  lemma {:induction false} PcsWeightNonneg(cfg: Config, pcs: seq<Pc>)
    requires forall w :: 0 <= w < |pcs| && pcs[w].Holds() ==> pcs[w].t.attempt <= cfg.maxRetry
    ensures PcsWeight(cfg, pcs) >= 0
  {
    if pcs != [] { PcsWeightNonneg(cfg, pcs[1..]); }
  }

  lemma {:induction false} QueueWeightNonneg(cfg: Config, q: seq<Ticket>)
    requires forall i :: 0 <= i < |q| ==> q[i].attempt <= cfg.maxRetry
    ensures QueueWeight(cfg, q) >= 0
  {
    if q != [] { QueueWeightNonneg(cfg, q[1..]); }
  }

  lemma {:induction false} PotentialNonneg(cfg: Config, s: State)
    requires Inv(cfg, s)
    ensures Potential(cfg, s) >= 0
  {
    forall w | 0 <= w < |s.pcs| && s.pcs[w].Holds() ensures s.pcs[w].t.attempt <= cfg.maxRetry {
      assert HandOk(cfg, s.trials, s.pcs[w]);
    }
    forall i | 0 <= i < |s.queue| ensures s.queue[i].attempt <= cfg.maxRetry {
      assert Fresh(cfg, s.trials, s.queue[i]);
    }
    PcsWeightNonneg(cfg, s.pcs);
    QueueWeightNonneg(cfg, s.queue);
  }

  lemma {:induction false} PotentialStep(cfg: Config, s: State, e: Event)
    requires Inv(cfg, s) && Enabled(cfg, s, e)
    ensures Potential(cfg, Step(cfg, s, e)) <= Potential(cfg, s) - if IsWait(cfg, s, e) then 0 else 1
  {
    match e
    case Worker(w, luck) => PotentialWorker(cfg, s, w, luck);
    case Main => PotentialMain(cfg, s);
  }

  /** Steps of a run that are not waits. */
  function Advances(cfg: Config, s: State, es: seq<Event>): nat
    requires s.Shaped(cfg) && Legal(cfg, s, es)
    decreases |es|
  {
    if es == [] then 0
    else (if IsWait(cfg, s, es[0]) then 0 else 1) + Advances(cfg, Step(cfg, s, es[0]), es[1..])
  }

  lemma {:induction false} AdvancesBounded(cfg: Config, s: State, es: seq<Event>)
    requires cfg.Valid() && Inv(cfg, s) && Legal(cfg, s, es)
    ensures Advances(cfg, s, es) <= Potential(cfg, s) - Potential(cfg, After(cfg, s, es))
    decreases |es|
  {
    if es == [] {
    } else {
      PotentialStep(cfg, s, es[0]);
      Inductive(cfg, s, es[0]);
      AdvancesBounded(cfg, Step(cfg, s, es[0]), es[1..]);
    }
  }

  lemma {:induction false} InitialQueueWeight(cfg: Config, q: seq<Ticket>)
    requires forall i :: 0 <= i < |q| ==> q[i].attempt == 0
    ensures QueueWeight(cfg, q) == 8 * (|q| * (cfg.maxRetry + 1))
  {
    if q == [] {
    } else {
      InitialQueueWeight(cfg, q[1..]);
      assert |q| * (cfg.maxRetry + 1) == |q[1..]| * (cfg.maxRetry + 1) + (cfg.maxRetry + 1);
    }
  }

  lemma {:induction false} InitialPcsWeight(cfg: Config, pcs: seq<Pc>)
    requires forall w :: 0 <= w < |pcs| ==> pcs[w] == Login
    ensures PcsWeight(cfg, pcs) == 5 * |pcs|
  {
    if pcs != [] { InitialPcsWeight(cfg, pcs[1..]); }
  }

  lemma {:induction false} InitialPotential(cfg: Config)
    ensures Potential(cfg, Init(cfg)) == 8 * (|cfg.codes| * (cfg.maxRetry + 1)) + 5 * cfg.workers + 3
  {
    InitialQueueWeight(cfg, Init(cfg).queue);
    InitialPcsWeight(cfg, Init(cfg).pcs);
  }

  /** No run, however long, makes more than 8n(maxRetry+1) + 5W + 3 steps that are not waits. */
  lemma {:induction false} RunsAreBounded(cfg: Config, es: seq<Event>)
    requires cfg.Valid() && Legal(cfg, Init(cfg), es)
    ensures Advances(cfg, Init(cfg), es) <= 8 * (|cfg.codes| * (cfg.maxRetry + 1)) + 5 * cfg.workers + 3
  {
    var s := Init(cfg);
    InvInit(cfg);
    AdvancesBounded(cfg, s, es);
    RunKeepsInv(cfg, s, es);
    PotentialNonneg(cfg, After(cfg, s, es));
    InitialPotential(cfg);
  }

  // ----- every ticket is tried a bounded number of times -----

  function TriesBelow(trials: seq<Trial>, n: nat): nat {
    if n == 0 then 0 else TriesBelow(trials, n - 1) + Tries(trials, n - 1)
  }

  lemma {:induction false} TriesBelowAppend(trials: seq<Trial>, x: Trial, n: nat)
    ensures TriesBelow(trials + [x], n) == TriesBelow(trials, n) + if x.ticket.id < n then 1 else 0
  {
    if n > 0 {
      TriesBelowAppend(trials, x, n - 1);
      TriesAppend(trials, x, n - 1);
    }
  }

  lemma {:induction false} TriesAddUp(trials: seq<Trial>, n: nat)
    requires forall i :: 0 <= i < |trials| ==> trials[i].ticket.id < n
    ensures TriesBelow(trials, n) == |trials|
  {
    if trials == [] {
      NoTries(n);
    } else {
      var k := |trials| - 1;
      TriesAddUp(trials[..k], n);
      assert trials == trials[..k] + [trials[k]];
      TriesBelowAppend(trials[..k], trials[k], n);
    }
  }

  lemma {:induction false} NoTries(n: nat)
    ensures TriesBelow([], n) == 0
  {
    if n > 0 { NoTries(n - 1); }
  }

  lemma {:induction false} TriesBelowBounded(trials: seq<Trial>, n: nat, bound: nat)
    requires forall id :: 0 <= id < n ==> Tries(trials, id) <= bound
    ensures TriesBelow(trials, n) <= n * bound
  {
    if n > 0 {
      TriesBelowBounded(trials, n - 1, bound);
      assert n * bound == (n - 1) * bound + bound;
    }
  }

  /** At most n(maxRetry+1) executor calls finish in any run, and at most maxRetry+1 of them for one ticket. */
  lemma {:induction false} TriesBounded(cfg: Config, s: State)
    requires cfg.Valid() && Reachable(cfg, s)
    ensures |s.trials| <= |cfg.codes| * (cfg.maxRetry + 1)
    ensures forall id :: 0 <= id < |cfg.codes| ==> Tries(s.trials, id) <= cfg.maxRetry + 1
  {
    ReachableInv(cfg, s);
    TriesAddUp(s.trials, |cfg.codes|);
    TriesBelowBounded(s.trials, |cfg.codes|, cfg.maxRetry + 1);
  }

  /** The ticket's own call, once its worker has the result of it. */
  predicate CallDone(pc: Pc) { pc.Succeeded? || pc.Dying? || pc.GaveUp? || pc.Retrying? }

  /** The attempt is within the limit and counts the calls its ticket has had, the present one not included. */
  ghost predicate Counts(cfg: Config, s: State, t: Ticket, present: bool) {
    t.attempt <= cfg.maxRetry && Tries(s.trials, t.id) == t.attempt + if present then 1 else 0
  }

  /** Wherever a ticket is, its attempt is the number of executor calls it had before the present one. */
  lemma {:induction false} AttemptsCount(cfg: Config, s: State)
    requires cfg.Valid() && Reachable(cfg, s)
    ensures forall i :: 0 <= i < |s.queue| ==> Counts(cfg, s, s.queue[i], false)
    ensures forall w :: 0 <= w < |s.pcs| && s.pcs[w].Holds() ==> Counts(cfg, s, s.pcs[w].t, CallDone(s.pcs[w]))
    ensures s.main.DrainHolding? ==> Counts(cfg, s, s.main.t, false)
    ensures forall i :: 0 <= i < |s.outcomes| ==>
              var o := s.outcomes[i]; Counts(cfg, s, o.ticket, o.reporter != AllDead && o.status != Late)
  {
    ReachableInv(cfg, s);
    forall i | 0 <= i < |s.queue| ensures Counts(cfg, s, s.queue[i], false) {
      assert Fresh(cfg, s.trials, s.queue[i]);
    }
    forall w | 0 <= w < |s.pcs| && s.pcs[w].Holds() ensures Counts(cfg, s, s.pcs[w].t, CallDone(s.pcs[w])) {
      assert HandOk(cfg, s.trials, s.pcs[w]);
    }
    forall i | 0 <= i < |s.outcomes|
      ensures var o := s.outcomes[i]; Counts(cfg, s, o.ticket, o.reporter != AllDead && o.status != Late)
    {
      assert OutcomeOk(cfg, s, s.outcomes[i]);
    }
  }

  /** How often worker `w` puts a ticket back because it is dead. */
  function Bounces(cfg: Config, s: State, es: seq<Event>, w: nat): nat
    requires s.Shaped(cfg) && Legal(cfg, s, es) && w < cfg.workers
    decreases |es|
  {
    if es == [] then 0
    else
      (if es[0].Worker? && es[0].w == w && s.pcs[w].Bouncing? then 1 else 0)
      + Bounces(cfg, Step(cfg, s, es[0]), es[1..], w)
  }

  /** A worker bounces at most one ticket, and none once it is on its way out. */
  lemma {:induction false} BouncesOnce(cfg: Config, s: State, es: seq<Event>, w: nat)
    requires s.Shaped(cfg) && Legal(cfg, s, es) && w < cfg.workers
    ensures Bounces(cfg, s, es, w) <= 1
    ensures s.pcs[w].BounceOwing? || s.pcs[w].Exited? ==> Bounces(cfg, s, es, w) == 0
    decreases |es|
  {
    if es == [] {
    } else {
      BouncesOnce(cfg, Step(cfg, s, es[0]), es[1..], w);
      if es[0].Worker? { OnlyOneMoves(cfg, s, es[0].w, es[0].luck); }
    }
  }

  // ----- no run gets stuck -----

  predicate Waiting(pc: Pc) { pc.Idle? || pc.Getting? || pc.Exited? }

  lemma {:induction false} AllWaitingOweNothing(pcs: seq<Pc>)
    requires forall w :: 0 <= w < |pcs| ==> Waiting(pcs[w])
    ensures WorkersOwe(pcs) == 0
  {
    if pcs != [] { AllWaitingOweNothing(pcs[1..]); }
  }

  lemma {:induction false} Singleton(cfg: Config, s: State, e: Event)
    requires s.Shaped(cfg) && Enabled(cfg, s, e)
    ensures Legal(cfg, s, [e]) && After(cfg, s, [e]) == Step(cfg, s, e)
    ensures Advances(cfg, s, [e]) == if IsWait(cfg, s, e) then 0 else 1
  {
  }

  lemma {:induction false} Twice(cfg: Config, s: State, e: Event, f: Event)
    requires s.Shaped(cfg) && Enabled(cfg, s, e) && Enabled(cfg, Step(cfg, s, e), f)
    ensures Legal(cfg, s, [e, f])
    ensures Advances(cfg, s, [e, f]) ==
            (if IsWait(cfg, s, e) then 0 else 1) + (if IsWait(cfg, Step(cfg, s, e), f) then 0 else 1)
  {
    assert [e, f][1..] == [f];
    Singleton(cfg, Step(cfg, s, e), f);
  }

  /** When every worker is waiting in its loop, the thread to move is a worker that can take a ticket or has
      to leave, or the main thread. */
  lemma {:induction false} WaitingAdvances(cfg: Config, s: State, w: nat) returns (es: seq<Event>)
    requires s.Shaped(cfg) && w < cfg.workers && (s.pcs[w].Idle? || s.pcs[w].Getting?)
    requires s.stop || s.queue != []
    ensures |es| <= 2 && Legal(cfg, s, es) && Advances(cfg, s, es) >= 1
  {
    var e := Worker(w, true);
    if IsWait(cfg, s, e) {
      es := [e, e];
      Twice(cfg, s, e, e);
    } else {
      es := [e];
      Singleton(cfg, s, e);
    }
  }

  lemma {:induction false} MainAdvances(cfg: Config, s: State) returns (es: seq<Event>)
    requires s.Shaped(cfg) && !s.main.Stopped? && (s.unfinished > 0 ==> AllWorkersDead(s))
    ensures |es| <= 2 && Legal(cfg, s, es) && Advances(cfg, s, es) >= 1
  {
    if IsWait(cfg, s, Main) {
      es := [Main, Main];
      Twice(cfg, s, Main, Main);
    } else {
      es := [Main];
      Singleton(cfg, s, Main);
    }
  }

  /** From every reachable state that has not settled, some thread can advance, after at most one wait. */
  lemma {:induction false} CanAdvance(cfg: Config, s: State) returns (es: seq<Event>)
    requires Inv(cfg, s) && !Settled(s)
    ensures |es| <= 2 && Legal(cfg, s, es) && Advances(cfg, s, es) >= 1
  {
    if w :| 0 <= w < cfg.workers && !Waiting(s.pcs[w]) {
      es := [Worker(w, true)];
      Singleton(cfg, s, es[0]);
    } else if w :| 0 <= w < cfg.workers && !s.pcs[w].Exited? && (s.stop || s.queue != []) {
      es := WaitingAdvances(cfg, s, w);
    } else {
      AllWaitingOweNothing(s.pcs);
      if s.main.Polling? || s.main.Checking? {
        if s.unfinished > 0 {
          forall w | 0 <= w < cfg.workers ensures s.dead[w] { assert DeathOk(cfg, s, w); }
        }
        es := MainAdvances(cfg, s);
      } else {
        es := [Main];
        Singleton(cfg, s, Main);
      }
    }
  }

  lemma {:induction false} AfterConcat(cfg: Config, s: State, es: seq<Event>, fs: seq<Event>)
    requires s.Shaped(cfg) && Legal(cfg, s, es) && Legal(cfg, After(cfg, s, es), fs)
    ensures Legal(cfg, s, es + fs) && After(cfg, s, es + fs) == After(cfg, After(cfg, s, es), fs)
    decreases |es|
  {
    if es == [] {
      assert es + fs == fs;
    } else {
      assert (es + fs)[1..] == es[1..] + fs;
      AfterConcat(cfg, Step(cfg, s, es[0]), es[1..], fs);
    }
  }

  /** Every reachable state can be run on until all threads have stopped: with the bound on advances, a
      scheduler that never waits for ever brings every run to an end. */
  lemma {:induction false} CanSettle(cfg: Config, s: State) returns (es: seq<Event>)
    requires cfg.Valid() && Inv(cfg, s)
    ensures Legal(cfg, s, es) && Settled(After(cfg, s, es))
    decreases Potential(cfg, s)
  {
    if Settled(s) {
      es := [];
    } else {
      var some := CanAdvance(cfg, s);
      AdvancesBounded(cfg, s, some);
      RunKeepsInv(cfg, s, some);
      PotentialNonneg(cfg, s);
      PotentialNonneg(cfg, After(cfg, s, some));
      var rest := CanSettle(cfg, After(cfg, s, some));
      AfterConcat(cfg, s, some, rest);
      es := some + rest;
    }
  }
}
