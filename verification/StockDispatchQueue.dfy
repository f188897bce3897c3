/** The dispatcher as an object whose fields the threads update in place. Every method is one atomic section
    of the threads' code and is proved to move the abstract state exactly as the step system does, so all
    results about runs hold of the object. */
module StockDispatchQueue {
  import opened Dispatch
  import opened DispatchInvariant
  import opened DispatchRuns

  lemma {:induction false} FullSet(dead: set<nat>, n: nat)
    requires forall w :: w in dead ==> w < n
    ensures |dead| <= n
    ensures |dead| == n <==> forall w :: 0 <= w < n ==> w in dead
  {
    if n == 0 {
      assert dead == {};
    } else {
      var rest := dead - {n - 1};
      FullSet(rest, n - 1);
      if n - 1 in dead {
        assert dead == rest + {n - 1};
        assert forall w :: 0 <= w < n - 1 ==> (w in rest <==> w in dead);
      } else {
        assert dead == rest;
      }
    }
  }

  /** The set of dead workers read as one flag per worker. */
  function DeadFlags(dead: set<nat>, n: nat): (flags: seq<bool>)
    ensures |flags| == n && forall w :: 0 <= w < n ==> flags[w] == (w in dead)
  {
    seq(n, w => w in dead)
  }

  lemma {:induction false} LegalStep(cfg: Config, s: State, es: seq<Event>, i: nat)
    requires s.Shaped(cfg) && i < |es| && Legal(cfg, s, es[i..])
    ensures Enabled(cfg, s, es[i])
    ensures Legal(cfg, Step(cfg, s, es[i]), es[i + 1..])
    ensures After(cfg, Step(cfg, s, es[i]), es[i + 1..]) == After(cfg, s, es[i..])
  {
  }

  /** A schedule in which only the main thread moves. */
  function MainTurns(n: nat): (es: seq<Event>)
    ensures |es| == n && forall i :: 0 <= i < n ==> es[i] == Main
  {
    seq(n, _ => Main)
  }

  /** The main thread alone gets from `s` to `t` in `n` turns. */
  ghost predicate Alone(cfg: Config, s: State, n: nat, t: State)
    requires s.Shaped(cfg)
  {
    Legal(cfg, s, MainTurns(n)) && After(cfg, s, MainTurns(n)) == t
  }

  lemma {:induction false} MoreTurns(cfg: Config, s: State, n: nat, t: State, m: nat, u: State)
    requires s.Shaped(cfg) && t.Shaped(cfg) && Alone(cfg, s, n, t) && Alone(cfg, t, m, u)
    ensures Alone(cfg, s, n + m, u)
  {
    AfterConcat(cfg, s, MainTurns(n), MainTurns(m));
    assert MainTurns(n) + MainTurns(m) == MainTurns(n + m);
  }

  lemma {:induction false} NoTurns(cfg: Config, s: State)
    requires s.Shaped(cfg)
    ensures Alone(cfg, s, 0, s)
  {
    assert MainTurns(0) == [];
  }

  lemma {:induction false} OneTurn(cfg: Config, s: State)
    requires s.Shaped(cfg) && !s.main.Stopped?
    ensures Alone(cfg, s, 1, MainStep(s))
  {
    assert MainTurns(1) == [Main];
    Singleton(cfg, s, Main);
  }

  /** Three turns of a draining main thread report one ticket and pay it off. */
  lemma {:induction false} DrainTurns(cfg: Config, s: State)
    requires s.Shaped(cfg) && s.main == Draining && s.queue != []
    ensures Alone(cfg, s, 3, s.(queue := s.queue[1..], unfinished := s.unfinished - 1,
                                outcomes := s.outcomes + [Outcome(s.queue[0], AllDead, DeadSkipped)]))
  {
    var t := MainStep(s);
    var u := MainStep(t);
    OneTurn(cfg, s);
    OneTurn(cfg, t);
    OneTurn(cfg, u);
    MoreTurns(cfg, s, 1, t, 1, u);
    MoreTurns(cfg, s, 2, u, 1, MainStep(u));
  }

  /** What the drain reports for the first `k` tickets of the queue. */
  function Skipped(queue: seq<Ticket>, k: nat): (os: seq<Outcome>)
    requires k <= |queue|
    ensures |os| == k && forall i :: 0 <= i < k ==> os[i] == Outcome(queue[i], AllDead, DeadSkipped)
  {
    seq(k, i requires 0 <= i < k => Outcome(queue[i], AllDead, DeadSkipped))
  }

  function Drained(s: State, k: nat): State
    requires k <= |s.queue|
  {
    s.(queue := s.queue[k..], outcomes := s.outcomes + Skipped(s.queue, k), unfinished := s.unfinished - k)
  }

  lemma {:induction false} NoneDrained(s: State)
    ensures Drained(s, 0) == s
  {
    assert s.outcomes + Skipped(s.queue, 0) == s.outcomes;
  }

  lemma {:induction false} DrainedNext(s: State, k: nat)
    requires k < |s.queue|
    ensures var d := Drained(s, k);
            && d.queue != [] && d.queue[0] == s.queue[k]
            && Drained(s, k + 1) == d.(queue := d.queue[1..], unfinished := d.unfinished - 1,
                                       outcomes := d.outcomes + [Outcome(s.queue[k], AllDead, DeadSkipped)])
  {
    assert s.queue[k..][1..] == s.queue[k + 1..];
    assert Skipped(s.queue, k + 1) == Skipped(s.queue, k) + [Outcome(s.queue[k], AllDead, DeadSkipped)];
    assert s.outcomes + Skipped(s.queue, k + 1)
           == s.outcomes + Skipped(s.queue, k) + [Outcome(s.queue[k], AllDead, DeadSkipped)];
  }

  lemma {:induction false} DrainNext(cfg: Config, s: State, k: nat)
    requires s.Shaped(cfg) && s.main == Draining && k < |s.queue|
    ensures Alone(cfg, Drained(s, k), 3, Drained(s, k + 1))
  {
    DrainedNext(s, k);
    DrainTurns(cfg, Drained(s, k));
  }

  lemma {:induction false} DrainRun(cfg: Config, s: State, k: nat)
    requires s.Shaped(cfg) && s.main == Draining && k <= |s.queue|
    ensures Alone(cfg, s, 3 * k, Drained(s, k))
  {
    if k == 0 {
      NoTurns(cfg, s);
      NoneDrained(s);
    } else {
      DrainRun(cfg, s, k - 1);
      DrainNext(cfg, s, k - 1);
      MoreTurns(cfg, s, 3 * (k - 1), Drained(s, k - 1), 3, Drained(s, k));
    }
  }

  /** The whole drain: every ticket, and the get that fails. */
  lemma {:induction false} DrainEnds(cfg: Config, s: State)
    requires s.Shaped(cfg) && s.main == Draining
    ensures Alone(cfg, s, 3 * |s.queue| + 1, Drained(s, |s.queue|).(main := Leaving(true)))
  {
    var d := Drained(s, |s.queue|);
    DrainRun(cfg, s, |s.queue|);
    OneTurn(cfg, d);
    MoreTurns(cfg, s, 3 * |s.queue|, d, 1, MainStep(d));
  }

  /** The streaks are right and those of living workers below the threshold. */
  ghost predicate Breaker(cfg: Config, streak: seq<int>, dead: set<nat>, trials: seq<Trial>)
    requires |streak| == cfg.workers
  {
    && (forall w :: 0 <= w < cfg.workers ==> streak[w] == StreakOf(trials, w))
    && (forall w :: 0 <= w < cfg.workers && w !in dead ==> streak[w] < cfg.threshold)
  }

  lemma {:induction false} BreakerAfterSuccess(cfg: Config, streak: seq<int>, dead: set<nat>, trials: seq<Trial>,
                                               w: nat, t: Ticket)
    requires cfg.Valid() && |streak| == cfg.workers && Breaker(cfg, streak, dead, trials) && w < cfg.workers
    ensures Breaker(cfg, streak[w := 0], dead, trials + [Trial(w, t, true)])
    ensures StreakOf(trials + [Trial(w, t, true)], w) == 0
  {
    forall v | 0 <= v < cfg.workers ensures streak[w := 0][v] == StreakOf(trials + [Trial(w, t, true)], v) {
      StreakOfAppend(trials, Trial(w, t, true), v);
    }
  }

  lemma {:induction false} BreakerAfterFailure(cfg: Config, streak: seq<int>, dead: set<nat>, trials: seq<Trial>,
                                               w: nat, t: Ticket)
    requires |streak| == cfg.workers && Breaker(cfg, streak, dead, trials) && w < cfg.workers
    ensures var longer := streak[w := streak[w] + 1];
            && Breaker(cfg, longer, if longer[w] >= cfg.threshold && w !in dead then dead + {w} else dead,
                       trials + [Trial(w, t, false)])
            && StreakOf(trials + [Trial(w, t, false)], w) == longer[w]
  {
    var longer := streak[w := streak[w] + 1];
    forall v | 0 <= v < cfg.workers ensures longer[v] == StreakOf(trials + [Trial(w, t, false)], v) {
      StreakOfAppend(trials, Trial(w, t, false), v);
    }
  }

  lemma {:induction false} DeadFlagsInsert(dead: set<nat>, n: nat, w: nat)
    requires w < n
    ensures DeadFlags(dead + {w}, n) == DeadFlags(dead, n)[w := true]
  {
  }

  function CodeOf(cfg: Config, t: Ticket): string { if t.id < |cfg.codes| then cfg.codes[t.id] else "" }

  class DispatchQueue {
    const cfg: Config
    var queue: seq<Ticket>
    var unfinished: int
    var streak: seq<int>
    var deadWorkers: set<nat>
    var stop: bool
    var primaryBy: map<string, nat>
    var pcs: seq<Pc>
    var main: MainPc
    var outcomes: seq<Outcome>
    var trials: seq<Trial>

    /** The fields fit together, and the circuit breaker is right: a worker's streak is its failures since its
        last success, and below the threshold while it is alive. */
    ghost predicate Valid()
      reads this
    {
      && cfg.Valid() && |pcs| == cfg.workers && |streak| == cfg.workers
      && (forall w :: w in deadWorkers ==> w < cfg.workers)
      && Breaker(cfg, streak, deadWorkers, trials)
    }

    /** The abstract state. */
    ghost function Abs(): (s: State)
      reads this
      requires Valid()
      ensures s.Shaped(cfg)
    {
      State(queue, unfinished, streak, DeadFlags(deadWorkers, cfg.workers), stop, primaryBy, pcs, main,
            outcomes, trials)
    }

    constructor (cfg: Config)
      requires cfg.Valid()
      ensures Valid() && this.cfg == cfg
      ensures Abs() == Init(cfg).(queue := [], unfinished := 0)
    {
      this.cfg := cfg;
      queue, unfinished, streak := [], 0, seq(cfg.workers, _ => 0);
      deadWorkers, stop, primaryBy := {}, false, map[];
      pcs, main, outcomes, trials := seq(cfg.workers, _ => Login), Polling, [], [];
      new;
      assert Abs().dead == Init(cfg).dead;
    }

    method SubmitAll()
      requires Valid() && Abs() == Init(cfg).(queue := [], unfinished := 0)
      modifies this
      ensures Valid() && Abs() == Init(cfg)
    {
      var i := 0;
      while i < |cfg.codes|
        invariant 0 <= i <= |cfg.codes| && Valid()
        invariant Abs() == Init(cfg).(queue := FirstTickets(i), unfinished := i)
      {
        Put(Ticket(i, 0));
        i := i + 1;
        assert FirstTickets(i) == FirstTickets(i - 1) + [Ticket(i - 1, 0)];
      }
    }

    method Put(t: Ticket)
      requires Valid()
      modifies this`queue, this`unfinished
      ensures Valid() && Abs() == old(Abs()).Put(t)
    {
      queue := queue + [t];
      unfinished := unfinished + 1;
    }

    method TaskDone()
      requires Valid()
      modifies this`unfinished
      ensures Valid() && Abs() == old(Abs()).TaskDone()
    {
      unfinished := unfinished - 1;
    }

    /** on_result and on_extra. */
    method Report(o: Outcome)
      requires Valid()
      modifies this`outcomes
      ensures Valid() && Abs() == old(Abs()).Report(o)
    {
      outcomes := outcomes + [o];
    }

    method KillWorker(w: nat)
      requires Valid() && w < cfg.workers
      modifies this`deadWorkers
      ensures Valid() && deadWorkers == old(deadWorkers) + {w}
      ensures Abs() == old(Abs()).Kill(w)
    {
      if w !in deadWorkers {
        deadWorkers := deadWorkers + {w};
      }
      assert Abs().dead == old(Abs()).Kill(w).dead;
    }

    /** The dead set has as many members as there are workers exactly when every worker is dead. */
    method IsAllDead() returns (all: bool)
      requires Valid()
      ensures all <==> AllWorkersDead(Abs())
    {
      FullSet(deadWorkers, cfg.workers);
      all := |deadWorkers| == cfg.workers;
    }

    /** The lock section of a success: the worker's streak ends, and only this stock's primary becomes `w`. */
    method OnSuccess(w: nat, t: Ticket)
      requires Valid() && w < cfg.workers
      modifies this`streak, this`primaryBy, this`trials
      ensures Valid() && trials == old(trials) + [Trial(w, t, true)]
      ensures StreakOf(trials, w) == 0 && forall v :: 0 <= v < cfg.workers && v != w ==> streak[v] == old(streak)[v]
      ensures CodeOf(cfg, t) in primaryBy && primaryBy[CodeOf(cfg, t)] == w
      ensures forall c :: c != CodeOf(cfg, t) ==> (c in primaryBy <==> c in old(primaryBy))
      ensures forall c :: c != CodeOf(cfg, t) && c in primaryBy ==> primaryBy[c] == old(primaryBy)[c]
      ensures Abs() == Succeed(cfg, old(Abs()), w, t)
    {
      hide Breaker, StreakOf, DeadFlags;
      BreakerAfterSuccess(cfg, streak, deadWorkers, trials, w, t);
      streak := streak[w := 0];
      primaryBy := primaryBy[CodeOf(cfg, t) := w];
      trials := trials + [Trial(w, t, true)];
    }

    /** The lock section of a failure: the worker's streak grows by one, and it dies now exactly when it was alive
        and its failures since its last success have reached the threshold. */
    method OnFailure(w: nat, t: Ticket) returns (deadNow: bool)
      requires Valid() && w < cfg.workers
      modifies this`streak, this`deadWorkers, this`trials
      ensures Valid() && trials == old(trials) + [Trial(w, t, false)]
      ensures StreakOf(trials, w) == old(streak)[w] + 1
      ensures forall v :: 0 <= v < cfg.workers && v != w ==> streak[v] == old(streak)[v]
      ensures deadNow <==> w !in old(deadWorkers) && StreakOf(trials, w) >= cfg.threshold
      ensures deadWorkers == if deadNow then old(deadWorkers) + {w} else old(deadWorkers)
      ensures Abs() == Fail(cfg, old(Abs()), w, t)
    {
      hide Breaker, StreakOf, DeadFlags;
      BreakerAfterFailure(cfg, streak, deadWorkers, trials, w, t);
      DeadFlagsInsert(deadWorkers, cfg.workers, w);
      streak := streak[w := streak[w] + 1];
      deadNow := streak[w] >= cfg.threshold && w !in deadWorkers;
      if deadNow {
        deadWorkers := deadWorkers + {w};
      }
      trials := trials + [Trial(w, t, false)];
    }

    /** What a worker does to the queue and its counter in this step. */
    method Handle(w: nat)
      requires Valid() && w < cfg.workers && !pcs[w].Reports() && !pcs[w].Login? && !pcs[w].Processing?
      modifies this`queue, this`unfinished
      ensures Valid() && forall luck :: Abs() == Effect(cfg, old(Abs()), w, luck)
    {
      match pcs[w]
      case Getting => if queue != [] { queue := queue[1..]; }
      case Bouncing(t) => Put(t);
      case Retrying(t) => Put(Ticket(t.id, t.attempt + 1));
      case BounceOwing => TaskDone();
      case Owing => TaskDone();
      case _ =>
    }

    /** What worker `w` does to the shared fields in one step. */
    method Act(w: nat, luck: bool)
      requires Valid() && w < cfg.workers
      modifies this`queue, this`unfinished, this`streak, this`deadWorkers, this`primaryBy, this`outcomes, this`trials
      ensures Valid() && Abs() == Effect(cfg, old(Abs()), w, luck)
    {
      if pcs[w].Reports() {
        Report(Callback(pcs[w], w));
      } else if pcs[w].Login? {
        if !luck { KillWorker(w); }
      } else if pcs[w].Processing? {
        if luck { OnSuccess(w, pcs[w].t); } else { var _ := OnFailure(w, pcs[w].t); }
      } else {
        Handle(w);
      }
    }

    method WorkerAdvance(w: nat, luck: bool)
      requires Valid() && w < cfg.workers
      modifies this
      ensures Valid() && Abs() == WorkerStep(cfg, old(Abs()), w, luck)
    {
      var pc := Next(w, luck);
      Act(w, luck);
      pcs := pcs[w := pc];
    }

    method Next(w: nat, luck: bool) returns (pc: Pc)
      requires Valid() && w < cfg.workers
      ensures pc == NextPc(cfg, Abs(), w, luck)
    {
      match pcs[w]
      case Login => pc := if luck then Idle else Exited;
      case Idle => pc := if stop then Exited else Getting;
      case Getting => pc := if queue == [] then Idle else Got(queue[0]);
      case Got(t) =>
        pc := if w in deadWorkers then Bouncing(t) else if cfg.hasDeadline && luck then Expired(t) else Processing(t);
      case Processing(t) =>
        if luck { pc := Succeeded(t); }
        else if streak[w] + 1 >= cfg.threshold && w !in deadWorkers { pc := Dying(t); }
        else { pc := if t.attempt >= cfg.maxRetry then GaveUp(t) else Retrying(t); }
      case Bouncing(_) => pc := BounceOwing;
      case BounceOwing => pc := Exited;
      case Owing => pc := Idle;
      case Exited => pc := Exited;
      case _ => pc := Owing;
    }

    method MainAdvance()
      requires Valid()
      modifies this
      ensures Valid() && Abs() == MainStep(old(Abs()))
    {
      match main
      case Polling => main := if unfinished > 0 then Checking else Leaving(false);
      case Checking => { var all := IsAllDead(); main := if all then Draining else Polling; }
      case Draining =>
        if queue == [] { main := Leaving(true); } else { main, queue := DrainHolding(queue[0]), queue[1..]; }
      case DrainHolding(t) => { Report(Outcome(t, AllDead, DeadSkipped)); main := DrainOwing; }
      case DrainOwing => { TaskDone(); main := Draining; }
      case Leaving(d) => { stop := true; main := Stopped(d); }
      case Stopped(_) =>
    }

    /** One step of whichever thread the scheduler picks. */
    method Fire(e: Event)
      requires Valid() && cfg.Valid() && Inv(cfg, Abs()) && Enabled(cfg, Abs(), e)
      modifies this
      ensures Valid() && Abs() == Step(cfg, old(Abs()), e) && Inv(cfg, Abs())
    {
      Inductive(cfg, Abs(), e);
      match e
      case Worker(w, luck) => WorkerAdvance(w, luck);
      case Main => MainAdvance();
    }

    /** Submits the stocks and then runs the threads as a schedule dictates. */
    method Run(es: seq<Event>)
      requires Valid() && cfg.Valid() && Abs() == Init(cfg).(queue := [], unfinished := 0)
      requires Legal(cfg, Init(cfg), es)
      modifies this
      ensures Valid() && Abs() == After(cfg, Init(cfg), es) && Inv(cfg, Abs())
    {
      SubmitAll();
      InvInit(cfg);
      var i := 0;
      while i < |es|
        invariant 0 <= i <= |es| && Valid() && Inv(cfg, Abs())
        invariant Legal(cfg, Abs(), es[i..]) && After(cfg, Abs(), es[i..]) == After(cfg, Init(cfg), es)
        decreases |es| - i
      {
        LegalStep(cfg, Abs(), es, i);
        Fire(es[i]);
        i := i + 1;
      }
    }

    /** The drain loop with nothing in between: every queued ticket is reported as skipped, in queue order, and
        paid off. It is what the step system does when the main thread alone moves until its get fails. */
    method DrainRemaining()
      requires Valid() && main == Draining
      modifies this`queue, this`outcomes, this`unfinished, this`main
      ensures Valid() && queue == [] && main == Leaving(true)
      ensures outcomes == old(outcomes) + Skipped(old(queue), |old(queue)|)
      ensures unfinished == old(unfinished) - |old(queue)|
      ensures Alone(cfg, old(Abs()), 3 * |old(queue)| + 1, Abs())
    {
      hide Breaker, DeadFlags, Alone, Skipped;
      ghost var s, done := Abs(), 0;
      NoneDrained(s);
      while queue != []
        invariant 0 <= done <= |s.queue| && Valid() && Abs() == Drained(s, done)
        decreases |queue|
      {
        DrainedNext(s, done);
        var t := queue[0];
        queue := queue[1..];
        Report(Outcome(t, AllDead, DeadSkipped));
        TaskDone();
        done := done + 1;
      }
      DrainEnds(cfg, s);
      main := Leaving(true);
    }
  }
}
