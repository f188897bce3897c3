/** What every step of the dispatcher keeps. Each clause of the invariant is a predicate with its own
    preservation lemma; `Inductive` puts them together. */
module DispatchInvariant {
  import opened Dispatch

  // ----- where the tickets are -----

  function InQueue(q: seq<Ticket>, id: nat): nat {
    if q == [] then 0 else (if q[0].id == id then 1 else 0) + InQueue(q[1..], id)
  }

  function InHand(pc: Pc, id: nat): nat {
    if pc.Holds() && pc.t.id == id then 1 else 0
  }

  function InHands(pcs: seq<Pc>, id: nat): nat {
    if pcs == [] then 0 else InHand(pcs[0], id) + InHands(pcs[1..], id)
  }

  function InMain(m: MainPc, id: nat): nat {
    if m.DrainHolding? && m.t.id == id then 1 else 0
  }

  function Reported(os: seq<Outcome>, id: nat): nat {
    if os == [] then 0 else Reported(os[..|os| - 1], id) + if os[|os| - 1].ticket.id == id then 1 else 0
  }

  /** The number of places ticket `id` is in. */
  function Places(s: State, id: nat): nat {
    InQueue(s.queue, id) + InHands(s.pcs, id) + InMain(s.main, id) + Reported(s.outcomes, id)
  }

  /** Every submitted ticket is in exactly one place: queued, in one thread's hand, or reported once. */
  ghost predicate Conserved(cfg: Config, s: State) {
    forall id: nat :: Places(s, id) == if id < |cfg.codes| then 1 else 0
  }

  lemma {:induction false} InQueueAppend(q: seq<Ticket>, t: Ticket, id: nat)
    ensures InQueue(q + [t], id) == InQueue(q, id) + if t.id == id then 1 else 0
  {
    if q == [] {
    } else {
      assert (q + [t])[1..] == q[1..] + [t];
      InQueueAppend(q[1..], t, id);
    }
  }

  lemma {:induction false} ReportedAppend(os: seq<Outcome>, o: Outcome, id: nat)
    ensures Reported(os + [o], id) == Reported(os, id) + if o.ticket.id == id then 1 else 0
  {
  }

  lemma {:induction false} InHandsUpdate(pcs: seq<Pc>, w: nat, pc: Pc, id: nat)
    requires w < |pcs|
    ensures InHands(pcs[w := pc], id) == InHands(pcs, id) - InHand(pcs[w], id) + InHand(pc, id)
  {
    if w == 0 {
      assert pcs[w := pc][1..] == pcs[1..];
    } else {
      assert pcs[w := pc][1..] == pcs[1..][w - 1 := pc];
      InHandsUpdate(pcs[1..], w - 1, pc, id);
    }
  }

  // ----- what the unfinished counter counts -----

  function Owed(pc: Pc): nat { if pc.Owes() then 1 else 0 }

  function WorkersOwe(pcs: seq<Pc>): nat {
    if pcs == [] then 0 else Owed(pcs[0]) + WorkersOwe(pcs[1..])
  }

  function MainOwes(m: MainPc): nat { if m.Owes() then 1 else 0 }

  ghost predicate Accounted(s: State) {
    s.unfinished == |s.queue| + WorkersOwe(s.pcs) + MainOwes(s.main)
  }

  lemma {:induction false} WorkersOweUpdate(pcs: seq<Pc>, w: nat, pc: Pc)
    requires w < |pcs|
    ensures WorkersOwe(pcs) >= Owed(pcs[w])
    ensures WorkersOwe(pcs[w := pc]) == WorkersOwe(pcs) - Owed(pcs[w]) + Owed(pc)
  {
    if w == 0 {
      assert pcs[w := pc][1..] == pcs[1..];
    } else {
      assert pcs[w := pc][1..] == pcs[1..][w - 1 := pc];
      WorkersOweUpdate(pcs[1..], w - 1, pc);
    }
  }

  // ----- the circuit breaker -----

  /** Failures of worker `w` since its last success. */
  function StreakOf(trials: seq<Trial>, w: nat): nat {
    if trials == [] then 0
    else
      var last := trials[|trials| - 1];
      var before := trials[..|trials| - 1];
      if last.w != w then StreakOf(before, w) else if last.ok then 0 else StreakOf(before, w) + 1
  }

  function DeadSkips(os: seq<Outcome>, w: nat): nat {
    if os == [] then 0
    else
      var last := os[|os| - 1];
      DeadSkips(os[..|os| - 1], w) + if last.status.DeadSkipped? && last.reporter == ByWorker(w) then 1 else 0
  }

  /** The positions open to a dead worker: none of them leads to another executor call. */
  predicate DeadPosition(pc: Pc) {
    pc.Idle? || pc.Getting? || pc.Got? || pc.Bouncing? || pc.BounceOwing? || pc.Dying? || pc.Owing? || pc.Exited?
  }

  ghost predicate StreakOk(cfg: Config, s: State, w: nat)
    requires s.Shaped(cfg) && w < cfg.workers
  {
    s.streak[w] == StreakOf(s.trials, w) && (!s.dead[w] ==> s.streak[w] < cfg.threshold)
  }

  ghost predicate DeathOk(cfg: Config, s: State, w: nat)
    requires s.Shaped(cfg) && w < cfg.workers
  {
    && (s.dead[w] ==> DeadPosition(s.pcs[w]))
    && (s.pcs[w].Bouncing? || s.pcs[w].BounceOwing? || s.pcs[w].Dying? ==> s.dead[w])
    && (s.pcs[w].Exited? ==> s.dead[w] || s.stop)
  }

  ghost predicate SkipsOk(cfg: Config, s: State, w: nat)
    requires s.Shaped(cfg) && w < cfg.workers
  {
    DeadSkips(s.outcomes, w) + (if s.pcs[w].Dying? then 1 else 0) <= (if s.dead[w] then 1 else 0)
  }

  ghost predicate Broken(cfg: Config, s: State)
    requires s.Shaped(cfg)
  {
    forall w :: 0 <= w < cfg.workers ==> StreakOk(cfg, s, w) && DeathOk(cfg, s, w) && SkipsOk(cfg, s, w)
  }

  // ----- retries -----

  /** How often ticket `id` has been tried. */
  function Tries(trials: seq<Trial>, id: nat): nat {
    if trials == [] then 0
    else Tries(trials[..|trials| - 1], id) + if trials[|trials| - 1].ticket.id == id then 1 else 0
  }

  /** The counter stored with a waiting ticket is the number of tries so far; after a try it is one behind. */
  ghost predicate Fresh(cfg: Config, trials: seq<Trial>, t: Ticket) {
    t.id < |cfg.codes| && t.attempt <= cfg.maxRetry && Tries(trials, t.id) == t.attempt
  }

  ghost predicate Tried(cfg: Config, trials: seq<Trial>, t: Ticket) {
    t.id < |cfg.codes| && t.attempt <= cfg.maxRetry && Tries(trials, t.id) == t.attempt + 1
  }

  ghost predicate HandOk(cfg: Config, trials: seq<Trial>, pc: Pc) {
    match pc
    case Succeeded(t) => Tried(cfg, trials, t)
    case Dying(t) => Tried(cfg, trials, t)
    case GaveUp(t) => Tried(cfg, trials, t) && t.attempt == cfg.maxRetry
    case Retrying(t) => Tried(cfg, trials, t) && t.attempt < cfg.maxRetry
    case Expired(t) => Fresh(cfg, trials, t) && cfg.hasDeadline
    case _ => pc.Holds() ==> Fresh(cfg, trials, pc.t)
  }

  ghost predicate OutcomeOk(cfg: Config, s: State, o: Outcome) {
    match o.reporter
    case AllDead => o.status == DeadSkipped && AllWorkersDead(s) && Fresh(cfg, s.trials, o.ticket)
    case ByWorker(w) =>
      && w < cfg.workers
      && (o.status == Late ==> Fresh(cfg, s.trials, o.ticket) && cfg.hasDeadline)
      && (o.status != Late ==> Tried(cfg, s.trials, o.ticket))
      && (o.status == Failed ==> o.ticket.attempt == cfg.maxRetry)
  }

  ghost predicate Counted(cfg: Config, s: State)
    requires s.Shaped(cfg)
  {
    && (forall i :: 0 <= i < |s.queue| ==> Fresh(cfg, s.trials, s.queue[i]))
    && (forall w :: 0 <= w < cfg.workers ==> HandOk(cfg, s.trials, s.pcs[w]))
    && (s.main.DrainHolding? ==> Fresh(cfg, s.trials, s.main.t))
    && (forall i :: 0 <= i < |s.outcomes| ==> OutcomeOk(cfg, s, s.outcomes[i]))
    && (forall i :: 0 <= i < |s.trials| ==> s.trials[i].ticket.id < |cfg.codes|)
    && (forall id :: 0 <= id < |cfg.codes| ==> Tries(s.trials, id) <= cfg.maxRetry + 1)
  }

  // ----- the main thread -----

  ghost predicate Steered(s: State) {
    && (s.main.SawAllDead() ==> AllWorkersDead(s))
    && (s.main.LeftClean() ==> s.unfinished == 0)
    && (s.stop <==> s.main.Stopped?)
  }

  ghost predicate Inv(cfg: Config, s: State) {
    s.Shaped(cfg) && Conserved(cfg, s) && Accounted(s) && Broken(cfg, s) && Counted(cfg, s) && Steered(s)
  }

  // ----- preservation -----

  /** A worker's step changes no other worker's position. */
  lemma {:induction false} OnlyOneMoves(cfg: Config, s: State, w: nat, luck: bool)
    requires s.Shaped(cfg) && w < cfg.workers
    ensures var s' := WorkerStep(cfg, s, w, luck);
            s'.pcs == s.pcs[w := s'.pcs[w]] && s'.main == s.main && s'.stop == s.stop
  {
  }

  lemma {:induction false} PlacesPut(s: State, w: nat, t: Ticket, pc: Pc, id: nat)
    requires w < |s.pcs| && s.pcs[w].Holds() && s.pcs[w].t.id == t.id && !pc.Holds()
    ensures Places(s.Put(t).Go(w, pc), id) == Places(s, id)
  {
    InQueueAppend(s.queue, t, id);
    InHandsUpdate(s.pcs, w, pc, id);
  }

  lemma {:induction false} PlacesReport(s: State, w: nat, o: Outcome, pc: Pc, id: nat)
    requires w < |s.pcs| && s.pcs[w].Holds() && s.pcs[w].t.id == o.ticket.id && !pc.Holds()
    ensures Places(s.Report(o).Go(w, pc), id) == Places(s, id)
  {
    ReportedAppend(s.outcomes, o, id);
    InHandsUpdate(s.pcs, w, pc, id);
  }

  lemma {:induction false} PlacesMove(s: State, w: nat, pc: Pc, id: nat)
    requires w < |s.pcs| && InHand(pc, id) == InHand(s.pcs[w], id)
    ensures Places(s.Go(w, pc), id) == Places(s, id)
  {
    InHandsUpdate(s.pcs, w, pc, id);
  }

  lemma {:induction false} PlacesGet(s: State, w: nat, id: nat)
    requires w < |s.pcs| && s.pcs[w].Getting?
    ensures Places(s.Go(w, Idle), id) == Places(s, id)
    ensures s.queue != [] ==> Places(s.(queue := s.queue[1..]).Go(w, Got(s.queue[0])), id) == Places(s, id)
  {
    InHandsUpdate(s.pcs, w, Idle, id);
    if s.queue != [] { InHandsUpdate(s.pcs, w, Got(s.queue[0]), id); }
  }

  lemma {:induction false} PlacesCall(cfg: Config, s: State, w: nat, luck: bool, id: nat)
    requires s.Shaped(cfg) && w < cfg.workers && s.pcs[w].Reports()
    ensures Places(WorkerStep(cfg, s, w, luck), id) == Places(s, id)
  {
    PlacesReport(s, w, Callback(s.pcs[w], w), Owing, id);
  }

  lemma {:induction false} PlacesPutBack(cfg: Config, s: State, w: nat, luck: bool, id: nat)
    requires s.Shaped(cfg) && w < cfg.workers && (s.pcs[w].Bouncing? || s.pcs[w].Retrying?)
    ensures Places(WorkerStep(cfg, s, w, luck), id) == Places(s, id)
  {
    var t := s.pcs[w].t;
    if s.pcs[w].Bouncing? { PlacesPut(s, w, t, BounceOwing, id); }
    else { PlacesPut(s, w, Ticket(t.id, t.attempt + 1), Owing, id); }
  }

  lemma {:induction false} PlacesStill(cfg: Config, s: State, w: nat, luck: bool, id: nat)
    requires s.Shaped(cfg) && w < cfg.workers && !s.pcs[w].Reports()
    requires !s.pcs[w].Bouncing? && !s.pcs[w].Retrying? && !s.pcs[w].Getting?
    ensures Places(WorkerStep(cfg, s, w, luck), id) == Places(s, id)
  {
    PlacesMove(s, w, NextPc(cfg, s, w, luck), id);
  }

  lemma {:induction false} PlacesWorker(cfg: Config, s: State, w: nat, luck: bool, id: nat)
    requires s.Shaped(cfg) && w < cfg.workers
    ensures Places(WorkerStep(cfg, s, w, luck), id) == Places(s, id)
  {
    var pc := s.pcs[w];
    if pc.Reports() { PlacesCall(cfg, s, w, luck, id); }
    else if pc.Bouncing? || pc.Retrying? { PlacesPutBack(cfg, s, w, luck, id); }
    else if pc.Getting? { PlacesGet(s, w, id); }
    else { PlacesStill(cfg, s, w, luck, id); }
  }

  lemma {:induction false} PlacesMain(s: State, id: nat)
    ensures Places(MainStep(s), id) == Places(s, id)
  {
    if s.main.DrainHolding? { ReportedAppend(s.outcomes, Outcome(s.main.t, AllDead, DeadSkipped), id); }
  }

  lemma {:induction false} AccountedWorker(cfg: Config, s: State, w: nat, luck: bool)
    requires s.Shaped(cfg) && w < cfg.workers && Accounted(s)
    ensures Accounted(WorkerStep(cfg, s, w, luck))
  {
    OweWorker(cfg, s, w, luck);
    OnlyOneMoves(cfg, s, w, luck);
    WorkersOweUpdate(s.pcs, w, WorkerStep(cfg, s, w, luck).pcs[w]);
  }

  lemma {:induction false} AccountedMain(s: State)
    requires Accounted(s)
    ensures Accounted(MainStep(s))
  {
  }

  /** The counter, the queue and the worker's own debt move together. */
  lemma {:induction false} OweWorker(cfg: Config, s: State, w: nat, luck: bool)
    requires s.Shaped(cfg) && w < cfg.workers
    ensures var s' := WorkerStep(cfg, s, w, luck);
            s'.unfinished - |s'.queue| - Owed(s'.pcs[w]) == s.unfinished - |s.queue| - Owed(s.pcs[w])
  {
  }

  lemma {:induction false} StreakOfAppend(trials: seq<Trial>, t: Trial, w: nat)
    ensures StreakOf(trials + [t], w) ==
            if t.w != w then StreakOf(trials, w) else if t.ok then 0 else StreakOf(trials, w) + 1
  {
  }

  lemma {:induction false} DeadSkipsAppend(os: seq<Outcome>, o: Outcome, w: nat)
    ensures DeadSkips(os + [o], w) ==
            DeadSkips(os, w) + if o.status.DeadSkipped? && o.reporter == ByWorker(w) then 1 else 0
  {
  }

  lemma {:induction false} StreakTry(cfg: Config, s: State, w: nat, luck: bool, v: nat)
    requires cfg.Valid() && s.Shaped(cfg) && w < cfg.workers && v < cfg.workers && s.pcs[w].Processing?
    requires StreakOk(cfg, s, w) && StreakOk(cfg, s, v) && DeathOk(cfg, s, w)
    ensures StreakOk(cfg, WorkerStep(cfg, s, w, luck), v)
  {
    var x := Trial(w, s.pcs[w].t, luck);
    StreakOfAppend(s.trials, x, v);
    assert WorkerStep(cfg, s, w, luck).trials == s.trials + [x];
  }

  lemma {:induction false} StreakWorker(cfg: Config, s: State, w: nat, luck: bool, v: nat)
    requires cfg.Valid() && s.Shaped(cfg) && w < cfg.workers && v < cfg.workers
    requires StreakOk(cfg, s, w) && StreakOk(cfg, s, v) && DeathOk(cfg, s, w)
    ensures StreakOk(cfg, WorkerStep(cfg, s, w, luck), v)
  {
    if s.pcs[w].Processing? { StreakTry(cfg, s, w, luck, v); }
  }

  lemma {:induction false} DeathWorker(cfg: Config, s: State, w: nat, luck: bool, v: nat)
    requires s.Shaped(cfg) && w < cfg.workers && v < cfg.workers && DeathOk(cfg, s, w) && DeathOk(cfg, s, v)
    ensures DeathOk(cfg, WorkerStep(cfg, s, w, luck), v)
  {
  }

  lemma {:induction false} SkipsReport(cfg: Config, s: State, w: nat, o: Outcome, v: nat)
    requires s.Shaped(cfg) && w < cfg.workers && v < cfg.workers && SkipsOk(cfg, s, v)
    requires o.status.DeadSkipped? ==> s.pcs[w].Dying?
    requires o.reporter == ByWorker(w)
    ensures SkipsOk(cfg, s.Report(o).Go(w, Owing), v)
  {
    DeadSkipsAppend(s.outcomes, o, v);
  }

  lemma {:induction false} SkipsQuiet(cfg: Config, s: State, w: nat, luck: bool, v: nat)
    requires s.Shaped(cfg) && w < cfg.workers && v < cfg.workers && SkipsOk(cfg, s, v) && !s.pcs[w].Reports()
    ensures SkipsOk(cfg, WorkerStep(cfg, s, w, luck), v)
  {
    assert WorkerStep(cfg, s, w, luck).outcomes == s.outcomes;
  }

  lemma {:induction false} SkipsWorker(cfg: Config, s: State, w: nat, luck: bool, v: nat)
    requires s.Shaped(cfg) && w < cfg.workers && v < cfg.workers && SkipsOk(cfg, s, v)
    ensures SkipsOk(cfg, WorkerStep(cfg, s, w, luck), v)
  {
    if s.pcs[w].Reports() { SkipsReport(cfg, s, w, Callback(s.pcs[w], w), v); }
    else { SkipsQuiet(cfg, s, w, luck, v); }
  }

  lemma {:induction false} BrokenWorker(cfg: Config, s: State, w: nat, luck: bool)
    requires cfg.Valid() && s.Shaped(cfg) && w < cfg.workers && Broken(cfg, s)
    ensures Broken(cfg, WorkerStep(cfg, s, w, luck))
  {
    var s' := WorkerStep(cfg, s, w, luck);
    forall v | 0 <= v < cfg.workers ensures StreakOk(cfg, s', v) && DeathOk(cfg, s', v) && SkipsOk(cfg, s', v) {
      assert StreakOk(cfg, s, v) && StreakOk(cfg, s, w);
      StreakWorker(cfg, s, w, luck, v);
      DeathWorker(cfg, s, w, luck, v);
      SkipsWorker(cfg, s, w, luck, v);
    }
  }

  lemma {:induction false} BreakerMain(cfg: Config, s: State, s': State, v: nat)
    requires s.Shaped(cfg) && v < cfg.workers && StreakOk(cfg, s, v) && DeathOk(cfg, s, v) && SkipsOk(cfg, s, v)
    requires s'.pcs == s.pcs && s'.dead == s.dead && s'.streak == s.streak && s'.trials == s.trials
    requires s.stop ==> s'.stop
    requires DeadSkips(s'.outcomes, v) == DeadSkips(s.outcomes, v)
    ensures s'.Shaped(cfg) && StreakOk(cfg, s', v) && DeathOk(cfg, s', v) && SkipsOk(cfg, s', v)
  {
  }

  lemma {:induction false} BrokenMain(cfg: Config, s: State)
    requires s.Shaped(cfg) && Broken(cfg, s)
    ensures Broken(cfg, MainStep(s))
  {
    var s' := MainStep(s);
    forall v | 0 <= v < cfg.workers ensures StreakOk(cfg, s', v) && DeathOk(cfg, s', v) && SkipsOk(cfg, s', v) {
      assert StreakOk(cfg, s, v);
      if s.main.DrainHolding? { DeadSkipsAppend(s.outcomes, Outcome(s.main.t, AllDead, DeadSkipped), v); }
      BreakerMain(cfg, s, s', v);
    }
  }

  lemma {:induction false} TriesAppend(trials: seq<Trial>, t: Trial, id: nat)
    ensures Tries(trials + [t], id) == Tries(trials, id) + if t.ticket.id == id then 1 else 0
  {
  }

  lemma {:induction false} QueuedCounts(q: seq<Ticket>, i: nat)
    requires i < |q|
    ensures InQueue(q, q[i].id) >= 1
  {
    if i > 0 { QueuedCounts(q[1..], i - 1); }
  }

  lemma {:induction false} ReportedCounts(os: seq<Outcome>, i: nat)
    requires i < |os|
    ensures Reported(os, os[i].ticket.id) >= 1
  {
    if i < |os| - 1 { ReportedCounts(os[..|os| - 1], i); }
  }

  lemma {:induction false} HandCounts(pcs: seq<Pc>, v: nat, id: nat)
    requires v < |pcs|
    ensures InHands(pcs, id) >= InHand(pcs[v], id)
  {
    if v > 0 { HandCounts(pcs[1..], v - 1, id); }
  }

  lemma {:induction false} TwoHandsCount(pcs: seq<Pc>, v: nat, w: nat, id: nat)
    requires v < w < |pcs|
    ensures InHands(pcs, id) >= InHand(pcs[v], id) + InHand(pcs[w], id)
  {
    if v > 0 { TwoHandsCount(pcs[1..], v - 1, w - 1, id); } else { HandCounts(pcs[1..], w - 1, id); }
  }

  /** A ticket in one worker's hand is nowhere else. */
  lemma {:induction false} OneHolder(cfg: Config, s: State, w: nat)
    requires s.Shaped(cfg) && Conserved(cfg, s) && w < cfg.workers && s.pcs[w].Holds()
    ensures forall i :: 0 <= i < |s.queue| ==> s.queue[i].id != s.pcs[w].t.id
    ensures forall v :: 0 <= v < cfg.workers && v != w && s.pcs[v].Holds() ==> s.pcs[v].t.id != s.pcs[w].t.id
    ensures s.main.DrainHolding? ==> s.main.t.id != s.pcs[w].t.id
    ensures forall i :: 0 <= i < |s.outcomes| ==> s.outcomes[i].ticket.id != s.pcs[w].t.id
  {
    var id := s.pcs[w].t.id;
    assert Places(s, id) <= 1;
    HandCounts(s.pcs, w, id);
    forall i | 0 <= i < |s.queue| ensures s.queue[i].id != id { QueuedCounts(s.queue, i); }
    forall i | 0 <= i < |s.outcomes| ensures s.outcomes[i].ticket.id != id { ReportedCounts(s.outcomes, i); }
    forall v | 0 <= v < cfg.workers && v != w && s.pcs[v].Holds() ensures s.pcs[v].t.id != id {
      if v < w { TwoHandsCount(s.pcs, v, w, id); } else { TwoHandsCount(s.pcs, w, v, id); }
    }
  }

  lemma {:induction false} FreshKept(cfg: Config, trials: seq<Trial>, x: Trial, u: Ticket)
    requires u.id != x.ticket.id
    ensures Fresh(cfg, trials + [x], u) == Fresh(cfg, trials, u)
    ensures Tried(cfg, trials + [x], u) == Tried(cfg, trials, u)
  {
  }

  /** Death is permanent. */
  lemma {:induction false} DeadGrows(cfg: Config, s: State, e: Event, w: nat)
    requires s.Shaped(cfg) && Enabled(cfg, s, e) && w < cfg.workers && s.dead[w]
    ensures Step(cfg, s, e).dead[w]
  {
  }

  lemma {:induction false} AllDeadGrows(cfg: Config, s: State, e: Event)
    requires s.Shaped(cfg) && Enabled(cfg, s, e) && AllWorkersDead(s)
    ensures AllWorkersDead(Step(cfg, s, e))
  {
  }

  /** A finished try moves its own ticket from fresh to tried and leaves every other ticket's count alone. */
  lemma {:induction false} CountedAfterTry(cfg: Config, s: State, w: nat, x: Trial, s': State)
    requires s.Shaped(cfg) && s'.Shaped(cfg) && Conserved(cfg, s) && Counted(cfg, s)
    requires w < cfg.workers && s.pcs[w] == Processing(x.ticket)
    requires s'.trials == s.trials + [x] && s'.pcs == s.pcs[w := s'.pcs[w]] && HandOk(cfg, s'.trials, s'.pcs[w])
    requires s'.queue == s.queue && s'.main == s.main && s'.outcomes == s.outcomes
    requires AllWorkersDead(s) ==> AllWorkersDead(s')
    ensures Counted(cfg, s')
  {
    assert HandOk(cfg, s.trials, s.pcs[w]);
    OneHolder(cfg, s, w);
    forall id | 0 <= id < |cfg.codes| ensures Tries(s'.trials, id) <= cfg.maxRetry + 1 { TriesAppend(s.trials, x, id); }
    forall i | 0 <= i < |s'.queue| ensures Fresh(cfg, s'.trials, s'.queue[i]) {
      FreshKept(cfg, s.trials, x, s.queue[i]);
    }
    forall v | 0 <= v < cfg.workers ensures HandOk(cfg, s'.trials, s'.pcs[v]) {
      if v != w {
        assert HandOk(cfg, s.trials, s.pcs[v]);
        if s.pcs[v].Holds() { FreshKept(cfg, s.trials, x, s.pcs[v].t); }
      }
    }
    forall i | 0 <= i < |s'.outcomes| ensures OutcomeOk(cfg, s', s'.outcomes[i]) {
      assert OutcomeOk(cfg, s, s.outcomes[i]);
      FreshKept(cfg, s.trials, x, s.outcomes[i].ticket);
    }
    if s.main.DrainHolding? { FreshKept(cfg, s.trials, x, s.main.t); }
  }

  lemma {:induction false} CountedTry(cfg: Config, s: State, w: nat, luck: bool)
    requires s.Shaped(cfg) && Conserved(cfg, s) && Broken(cfg, s) && Counted(cfg, s)
    requires w < cfg.workers && s.pcs[w].Processing?
    ensures Counted(cfg, WorkerStep(cfg, s, w, luck))
  {
    hide Conserved, Tries, AllWorkersDead;
    var x := Trial(w, s.pcs[w].t, luck);
    assert HandOk(cfg, s.trials, s.pcs[w]) && DeathOk(cfg, s, w);
    TriesAppend(s.trials, x, x.ticket.id);
    if AllWorkersDead(s) { AllDeadGrows(cfg, s, Worker(w, luck)); }
    CountedAfterTry(cfg, s, w, x, WorkerStep(cfg, s, w, luck));
  }

  lemma {:induction false} CountedReport(cfg: Config, s: State, w: nat, o: Outcome)
    requires s.Shaped(cfg) && Counted(cfg, s) && w < cfg.workers && OutcomeOk(cfg, s, o)
    ensures Counted(cfg, s.Report(o).Go(w, Owing))
  {
  }

  lemma {:induction false} CountedReports(cfg: Config, s: State, w: nat, luck: bool)
    requires s.Shaped(cfg) && Counted(cfg, s) && w < cfg.workers && s.pcs[w].Reports()
    ensures Counted(cfg, WorkerStep(cfg, s, w, luck))
  {
    assert HandOk(cfg, s.trials, s.pcs[w]);
    CountedReport(cfg, s, w, Callback(s.pcs[w], w));
  }

  lemma {:induction false} CountedPut(cfg: Config, s: State, w: nat, t: Ticket, pc: Pc)
    requires s.Shaped(cfg) && Counted(cfg, s) && w < cfg.workers && Fresh(cfg, s.trials, t) && !pc.Holds()
    ensures Counted(cfg, s.Put(t).Go(w, pc))
  {
  }

  lemma {:induction false} CountedGet(cfg: Config, s: State, w: nat)
    requires s.Shaped(cfg) && Counted(cfg, s) && w < cfg.workers && s.queue != []
    ensures Counted(cfg, s.(queue := s.queue[1..]).Go(w, Got(s.queue[0])))
  {
  }

  lemma {:induction false} CountedLogin(cfg: Config, s: State, w: nat)
    requires s.Shaped(cfg) && Counted(cfg, s) && w < cfg.workers
    ensures Counted(cfg, s.(dead := s.dead[w := true]).Go(w, Exited))
  {
  }

  lemma {:induction false} CountedGo(cfg: Config, s: State, w: nat, s': State, pc: Pc)
    requires s.Shaped(cfg) && Counted(cfg, s) && w < cfg.workers && HandOk(cfg, s.trials, pc)
    requires s' == s.(unfinished := s'.unfinished).Go(w, pc)
    ensures Counted(cfg, s')
  {
  }

  lemma {:induction false} CountedPutBack(cfg: Config, s: State, w: nat, luck: bool)
    requires s.Shaped(cfg) && Counted(cfg, s) && w < cfg.workers && (s.pcs[w].Bouncing? || s.pcs[w].Retrying?)
    ensures Counted(cfg, WorkerStep(cfg, s, w, luck))
  {
    var t := s.pcs[w].t;
    assert HandOk(cfg, s.trials, s.pcs[w]);
    if s.pcs[w].Bouncing? { CountedPut(cfg, s, w, t, BounceOwing); }
    else { CountedPut(cfg, s, w, Ticket(t.id, t.attempt + 1), Owing); }
  }

  lemma {:induction false} CountedTaking(cfg: Config, s: State, w: nat, luck: bool)
    requires s.Shaped(cfg) && Counted(cfg, s) && w < cfg.workers && s.pcs[w].Getting?
    ensures Counted(cfg, WorkerStep(cfg, s, w, luck))
  {
    if s.queue == [] { CountedGo(cfg, s, w, s.Go(w, Idle), Idle); } else { CountedGet(cfg, s, w); }
  }

  lemma {:induction false} CountedLoggingIn(cfg: Config, s: State, w: nat, luck: bool)
    requires s.Shaped(cfg) && Counted(cfg, s) && w < cfg.workers && s.pcs[w].Login?
    ensures Counted(cfg, WorkerStep(cfg, s, w, luck))
  {
    if luck { CountedGo(cfg, s, w, s.Go(w, Idle), Idle); } else { CountedLogin(cfg, s, w); }
  }

  lemma {:induction false} CountedMoving(cfg: Config, s: State, w: nat, luck: bool)
    requires s.Shaped(cfg) && Counted(cfg, s) && w < cfg.workers
    requires s.pcs[w].Idle? || s.pcs[w].Got? || s.pcs[w].Owing? || s.pcs[w].BounceOwing? || s.pcs[w].Exited?
    ensures Counted(cfg, WorkerStep(cfg, s, w, luck))
  {
  }

  lemma {:induction false} CountedWorker(cfg: Config, s: State, w: nat, luck: bool)
    requires s.Shaped(cfg) && Conserved(cfg, s) && Broken(cfg, s) && Counted(cfg, s) && w < cfg.workers
    ensures Counted(cfg, WorkerStep(cfg, s, w, luck))
  {
    var pc := s.pcs[w];
    if pc.Processing? { CountedTry(cfg, s, w, luck); }
    else if pc.Reports() { CountedReports(cfg, s, w, luck); }
    else if pc.Bouncing? || pc.Retrying? { CountedPutBack(cfg, s, w, luck); }
    else if pc.Getting? { CountedTaking(cfg, s, w, luck); }
    else if pc.Login? { CountedLoggingIn(cfg, s, w, luck); }
    else { CountedMoving(cfg, s, w, luck); }
  }

  lemma {:induction false} CountedMain(cfg: Config, s: State)
    requires s.Shaped(cfg) && Counted(cfg, s) && Steered(s)
    ensures Counted(cfg, MainStep(s))
  {
  }

  /** With nothing unfinished the queue is empty and no thread has a ticket or owes a task_done. */
  lemma {:induction false} NothingUnfinished(cfg: Config, s: State)
    requires s.Shaped(cfg) && Accounted(s) && s.unfinished == 0
    ensures s.queue == [] && !s.main.Owes()
    ensures forall w :: 0 <= w < cfg.workers ==> !s.pcs[w].Owes()
  {
    forall w | 0 <= w < cfg.workers ensures !s.pcs[w].Owes() { WorkersOweUpdate(s.pcs, w, s.pcs[w]); }
  }

  lemma {:induction false} SteeredStep(cfg: Config, s: State, e: Event)
    requires s.Shaped(cfg) && Enabled(cfg, s, e) && Accounted(s) && Steered(s)
    ensures Steered(Step(cfg, s, e))
  {
    if AllWorkersDead(s) { AllDeadGrows(cfg, s, e); }
    WorkersOweNonneg(s);
    if s.unfinished == 0 { NothingUnfinished(cfg, s); }
    if e.Worker? { OnlyOneMoves(cfg, s, e.w, e.luck); }
  }

  lemma {:induction false} WorkersOweNonneg(s: State)
    requires Accounted(s)
    ensures s.unfinished >= 0
  {
  }

  /** The invariant holds when the stocks have been submitted. */
  lemma {:induction false} InvInit(cfg: Config)
    requires cfg.Valid()
    ensures Inv(cfg, Init(cfg))
  {
    var s := Init(cfg);
    NobodyHolds(s.pcs);
    forall id: nat ensures Places(s, id) == if id < |cfg.codes| then 1 else 0 {
      FirstTicketsCount(s.queue, 0, id);
      NoHands(s.pcs, id);
    }
  }

  lemma {:induction false} NobodyHolds(pcs: seq<Pc>)
    requires forall w :: 0 <= w < |pcs| ==> !pcs[w].Owes()
    ensures WorkersOwe(pcs) == 0
  {
    if pcs != [] { NobodyHolds(pcs[1..]); }
  }

  lemma {:induction false} NoHands(pcs: seq<Pc>, id: nat)
    requires forall w :: 0 <= w < |pcs| ==> !pcs[w].Holds()
    ensures InHands(pcs, id) == 0
  {
    if pcs != [] { NoHands(pcs[1..], id); }
  }

  lemma {:induction false} FirstTicketsCount(q: seq<Ticket>, from: nat, id: nat)
    requires forall i :: 0 <= i < |q| ==> q[i] == Ticket(from + i, 0)
    ensures InQueue(q, id) == if from <= id < from + |q| then 1 else 0
  {
    if q != [] {
      assert forall i :: 0 <= i < |q[1..]| ==> q[1..][i] == Ticket(from + 1 + i, 0);
      FirstTicketsCount(q[1..], from + 1, id);
    }
  }

  /** Every step of every thread keeps the invariant. */
  lemma {:induction false} Inductive(cfg: Config, s: State, e: Event)
    requires cfg.Valid() && Inv(cfg, s) && Enabled(cfg, s, e)
    ensures Inv(cfg, Step(cfg, s, e))
  {
    hide WorkerStep, MainStep, Places, Accounted, Broken, Counted, Steered;
    SteeredStep(cfg, s, e);
    match e
    case Worker(w, luck) =>
      forall id: nat ensures Places(Step(cfg, s, e), id) == Places(s, id) { PlacesWorker(cfg, s, w, luck, id); }
      AccountedWorker(cfg, s, w, luck);
      BrokenWorker(cfg, s, w, luck);
      CountedWorker(cfg, s, w, luck);
    case Main =>
      forall id: nat ensures Places(Step(cfg, s, e), id) == Places(s, id) { PlacesMain(s, id); }
      AccountedMain(s);
      BrokenMain(cfg, s);
      CountedMain(cfg, s);
  }
}
