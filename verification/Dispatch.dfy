/** The consumer-model dispatcher as a step system.

    Several worker threads and one main thread share a FIFO queue of tickets. A step is one action that
    other threads can observe: a queue operation, a section under the lock, a callback, a test of a shared
    flag. Everything a thread does between two such actions is local and belongs to the earlier one, so a
    schedule of steps is an arbitrary interleaving of the threads. */
module Dispatch {

  /** The run's fixed data. Workers are numbered, which makes their names distinct. */
  datatype Config = Config(codes: seq<string>, workers: nat, maxRetry: nat, threshold: nat, hasDeadline: bool) {
    ghost predicate Valid() { threshold >= 1 }
  }

  /** A queue entry: the index of a submitted stock and the retry counter stored beside it. */
  datatype Ticket = Ticket(id: nat, attempt: nat)

  datatype Status = Completed | Late | DeadSkipped | Failed

  /** What one callback reported. Worker outcomes carry the worker's name, drained ones do not. */
  datatype Reporter = ByWorker(w: nat) | AllDead
  datatype Outcome = Outcome(ticket: Ticket, reporter: Reporter, status: Status)

  /** One finished executor call: worker `w` tried `ticket` and succeeded or not. */
  datatype Trial = Trial(w: nat, ticket: Ticket, ok: bool)

  /** Where a worker thread stands, with the ticket it has in hand. */
  datatype Pc =
    | Login
    | Idle                   // about to test the stop flag
    | Getting                // inside the blocking get
    | Got(t: Ticket)         // about to look itself up among the dead workers
    | Bouncing(t: Ticket)    // dead: about to put the ticket back
    | BounceOwing            // ticket put back, task_done still due, then leaves
    | Expired(t: Ticket)     // deadline passed: about to report the timeout
    | Processing(t: Ticket)  // submit and poll under way
    | Succeeded(t: Ticket)   // streak reset: about to call on_result
    | Dying(t: Ticket)       // streak reached the threshold: about to report dead_skipped
    | GaveUp(t: Ticket)      // retries used up: about to report failed
    | Retrying(t: Ticket)    // about to put the ticket back with attempt + 1
    | Owing                  // ticket dealt with, task_done still due
    | Exited
  {
    predicate Holds() {
      Got? || Bouncing? || Expired? || Processing? || Succeeded? || Dying? || GaveUp? || Retrying?
    }

    /** About to call back. */
    predicate Reports() { Expired? || Succeeded? || Dying? || GaveUp? }

    /** A successful get is outstanding: task_done has not been called for it. */
    predicate Owes() { Holds() || Owing? || BounceOwing? }
  }

  datatype MainPc =
    | Polling                  // about to read unfinished_tasks
    | Checking                 // tasks were unfinished: about to test whether all workers are dead
    | Draining                 // about to get_nowait
    | DrainHolding(t: Ticket)  // about to report the drained ticket
    | DrainOwing               // about to call task_done
    | Leaving(drained: bool)   // about to set the stop flag
    | Stopped(drained: bool)
  {
    predicate Owes() { DrainHolding? || DrainOwing? }

    /** The main loop has left, or is emptying the queue, because every worker is dead. */
    predicate SawAllDead() { Draining? || Owes() || (Leaving? && drained) || (Stopped? && drained) }

    predicate LeftClean() { (Leaving? && !drained) || (Stopped? && !drained) }
  }

  datatype State = State(
    queue: seq<Ticket>, unfinished: int, streak: seq<int>, dead: seq<bool>, stop: bool,
    primary: map<string, nat>, pcs: seq<Pc>, main: MainPc, outcomes: seq<Outcome>, trials: seq<Trial>)
  {
    predicate Shaped(cfg: Config) {
      |streak| == cfg.workers && |dead| == cfg.workers && |pcs| == cfg.workers
    }

    function Put(t: Ticket): State { this.(queue := queue + [t], unfinished := unfinished + 1) }

    function TaskDone(): State { this.(unfinished := unfinished - 1) }

    function Report(o: Outcome): State { this.(outcomes := outcomes + [o]) }

    function Kill(w: nat): State
      requires w < |dead|
    {
      this.(dead := dead[w := true])
    }

    function Go(w: nat, pc: Pc): State
      requires w < |pcs|
    {
      this.(pcs := pcs[w := pc])
    }
  }

  /** Ticket ids 0 .. n-1 enter the queue in order, each with attempt 0. */
  function FirstTickets(n: nat): (q: seq<Ticket>)
    ensures |q| == n
    ensures forall i :: 0 <= i < n ==> q[i] == Ticket(i, 0)
  {
    seq(n, i requires 0 <= i < n => Ticket(i, 0))
  }

  function Init(cfg: Config): State {
    State(FirstTickets(|cfg.codes|), |cfg.codes|, seq(cfg.workers, _ => 0), seq(cfg.workers, _ => false), false,
          map[], seq(cfg.workers, _ => Login), Polling, [], [])
  }

  predicate AllWorkersDead(s: State) {
    forall w :: 0 <= w < |s.dead| ==> s.dead[w]
  }

  /** What the worker tells on_result or on_extra. */
  function Callback(pc: Pc, w: nat): (o: Outcome)
    requires pc.Reports()
    ensures o.ticket == pc.t && o.reporter == ByWorker(w)
  {
    match pc
    case Expired(t) => Outcome(t, ByWorker(w), Late)
    case Succeeded(t) => Outcome(t, ByWorker(w), Completed)
    case Dying(t) => Outcome(t, ByWorker(w), DeadSkipped)
    case GaveUp(t) => Outcome(t, ByWorker(w), Failed)
  }

  /** What worker `w` does to the shared state in one step. `luck` is whatever the world decides at that
      point: whether the login works, whether the deadline has passed, whether the analysis completes. */
  function Effect(cfg: Config, s: State, w: nat, luck: bool): (s': State)
    requires s.Shaped(cfg) && w < cfg.workers
    ensures s'.Shaped(cfg) && s'.pcs == s.pcs && s'.main == s.main && s'.stop == s.stop
    ensures !s.pcs[w].Processing? ==> s'.trials == s.trials && s'.streak == s.streak && s'.primary == s.primary
    ensures !s.pcs[w].Processing? && !s.pcs[w].Login? ==> s'.dead == s.dead
    ensures !s.pcs[w].Reports() ==> s'.outcomes == s.outcomes
  {
    if s.pcs[w].Reports() then s.Report(Callback(s.pcs[w], w))
    else match s.pcs[w]
    case Login => if luck then s else s.Kill(w)
    case Getting => if s.queue == [] then s else s.(queue := s.queue[1..])
    case Bouncing(t) => s.Put(t)
    case Retrying(t) => s.Put(Ticket(t.id, t.attempt + 1))
    case BounceOwing => s.TaskDone()
    case Owing => s.TaskDone()
    case Processing(t) => if luck then Succeed(cfg, s, w, t) else Fail(cfg, s, w, t)
    case _ => s
  }

  /** Where worker `w` stands after that step. */
  function NextPc(cfg: Config, s: State, w: nat, luck: bool): Pc
    requires s.Shaped(cfg) && w < cfg.workers
  {
    if s.pcs[w].Reports() then Owing
    else match s.pcs[w]
    case Login => if luck then Idle else Exited
    case Idle => if s.stop then Exited else Getting
    case Getting => if s.queue == [] then Idle else Got(s.queue[0])
    case Got(t) => if s.dead[w] then Bouncing(t) else if cfg.hasDeadline && luck then Expired(t) else Processing(t)
    case Processing(t) =>
      if luck then Succeeded(t)
      else if DiesNow(cfg, s, w) then Dying(t)
      else if t.attempt >= cfg.maxRetry then GaveUp(t)
      else Retrying(t)
    case Bouncing(_) => BounceOwing
    case BounceOwing => Exited
    case Owing => Idle
    case Exited => Exited
    case _ => Owing
  }

  /** The lock section of _on_success. */
  function Succeed(cfg: Config, s: State, w: nat, t: Ticket): State
    requires s.Shaped(cfg) && w < cfg.workers
  {
    var code := if t.id < |cfg.codes| then cfg.codes[t.id] else "";
    s.(streak := s.streak[w := 0], primary := s.primary[code := w], trials := s.trials + [Trial(w, t, true)])
  }

  /** One more failure would reach the threshold. */
  predicate DiesNow(cfg: Config, s: State, w: nat)
    requires s.Shaped(cfg) && w < cfg.workers
  {
    s.streak[w] + 1 >= cfg.threshold && !s.dead[w]
  }

  /** The lock section of _on_failure. */
  function Fail(cfg: Config, s: State, w: nat, t: Ticket): State
    requires s.Shaped(cfg) && w < cfg.workers
  {
    s.(streak := s.streak[w := s.streak[w] + 1], trials := s.trials + [Trial(w, t, false)],
       dead := if DiesNow(cfg, s, w) then s.dead[w := true] else s.dead)
  }

  function WorkerStep(cfg: Config, s: State, w: nat, luck: bool): (s': State)
    requires s.Shaped(cfg) && w < cfg.workers
    ensures s'.Shaped(cfg)
  {
    Effect(cfg, s, w, luck).Go(w, NextPc(cfg, s, w, luck))
  }

  function MainStep(s: State): (s': State)
    ensures s'.pcs == s.pcs && s'.dead == s.dead && s'.streak == s.streak && s'.trials == s.trials
    ensures s'.primary == s.primary && (!s.main.DrainHolding? ==> s'.outcomes == s.outcomes)
  {
    match s.main
    case Polling => s.(main := if s.unfinished > 0 then Checking else Leaving(false))
    case Checking => s.(main := if AllWorkersDead(s) then Draining else Polling)
    case Draining =>
      if s.queue == [] then s.(main := Leaving(true))
      else s.(queue := s.queue[1..], main := DrainHolding(s.queue[0]))
    case DrainHolding(t) => s.Report(Outcome(t, AllDead, DeadSkipped)).(main := DrainOwing)
    case DrainOwing => s.TaskDone().(main := Draining)
    case Leaving(d) => s.(stop := true, main := Stopped(d))
    case Stopped(_) => s
  }

  /** A schedule names the thread that moves next and the luck it meets. */
  datatype Event = Worker(w: nat, luck: bool) | Main

  predicate Enabled(cfg: Config, s: State, e: Event)
    requires s.Shaped(cfg)
  {
    match e
    case Worker(w, _) => w < cfg.workers && !s.pcs[w].Exited?
    case Main => !s.main.Stopped?
  }

  function Step(cfg: Config, s: State, e: Event): (s': State)
    requires s.Shaped(cfg) && Enabled(cfg, s, e)
    ensures s'.Shaped(cfg)
  {
    match e
    case Worker(w, luck) => WorkerStep(cfg, s, w, luck)
    case Main => MainStep(s)
  }

  predicate Legal(cfg: Config, s: State, es: seq<Event>)
    requires s.Shaped(cfg)
    decreases |es|
  {
    es == [] || (Enabled(cfg, s, es[0]) && Legal(cfg, Step(cfg, s, es[0]), es[1..]))
  }

  function After(cfg: Config, s: State, es: seq<Event>): (s': State)
    requires s.Shaped(cfg) && Legal(cfg, s, es)
    ensures s'.Shaped(cfg)
    decreases |es|
  {
    if es == [] then s else After(cfg, Step(cfg, s, es[0]), es[1..])
  }

  /** Steps that only go round a waiting loop: an idle worker waking up, a get that times out, a poll that
      finds work left and living workers. */
  predicate IsWait(cfg: Config, s: State, e: Event)
    requires s.Shaped(cfg) && Enabled(cfg, s, e)
  {
    match e
    case Worker(w, _) => (s.pcs[w].Idle? && !s.stop) || (s.pcs[w].Getting? && s.queue == [])
    case Main => (s.main.Polling? && s.unfinished > 0) || (s.main.Checking? && !AllWorkersDead(s))
  }

  /** Nothing can move any more. */
  predicate Settled(s: State) {
    s.main.Stopped? && forall w :: 0 <= w < |s.pcs| ==> s.pcs[w].Exited?
  }
}
