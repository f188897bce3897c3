/** What the dispatcher reports about a stock is what the executor said about it, and no success gets lost. */
module DispatchTruth {
  import opened Dispatch
  import opened DispatchInvariant
  import opened DispatchRuns
  import opened DispatchOutcomes

  /** The successful executor calls for ticket `id`. */
  function Wins(trials: seq<Trial>, id: nat): nat {
    if trials == [] then 0
    else Wins(trials[..|trials| - 1], id)
         + if trials[|trials| - 1].ok && trials[|trials| - 1].ticket.id == id then 1 else 0
  }

  /** Worker `w` succeeded with exactly this ticket, and that is the only success of its stock. */
  ghost predicate Won(trials: seq<Trial>, w: nat, t: Ticket) {
    Trial(w, t, true) in trials && Wins(trials, t.id) == 1
  }

  /** Worker `w` failed with exactly this ticket, and its stock has no success. */
  ghost predicate Lost(trials: seq<Trial>, w: nat, t: Ticket) {
    Trial(w, t, false) in trials && Wins(trials, t.id) == 0
  }

  ghost predicate HandHonest(trials: seq<Trial>, w: nat, pc: Pc) {
    match pc
    case Succeeded(t) => Won(trials, w, t)
    case Dying(t) => Lost(trials, w, t)
    case GaveUp(t) => Lost(trials, w, t)
    case Retrying(t) => Lost(trials, w, t)
    case _ => pc.Holds() ==> Wins(trials, pc.t.id) == 0
  }

  /** An outcome tells what happened: completed, by the worker that succeeded; failed or skipped, by the worker
      that failed; timed out or drained, with no success. */
  ghost predicate Truthful(trials: seq<Trial>, o: Outcome) {
    match o.reporter
    case AllDead => Wins(trials, o.ticket.id) == 0
    case ByWorker(w) =>
      if o.status == Completed then Won(trials, w, o.ticket)
      else if o.status == Late then Wins(trials, o.ticket.id) == 0
      else Lost(trials, w, o.ticket)
  }

  ghost predicate Honest(cfg: Config, s: State)
    requires s.Shaped(cfg)
  {
    && (forall i :: 0 <= i < |s.queue| ==> Wins(s.trials, s.queue[i].id) == 0)
    && (forall w :: 0 <= w < cfg.workers ==> HandHonest(s.trials, w, s.pcs[w]))
    && (s.main.DrainHolding? ==> Wins(s.trials, s.main.t.id) == 0)
    && (forall i :: 0 <= i < |s.outcomes| ==> Truthful(s.trials, s.outcomes[i]))
  }

  lemma {:induction false} WinsAppend(trials: seq<Trial>, x: Trial, id: nat)
    ensures Wins(trials + [x], id) == Wins(trials, id) + if x.ok && x.ticket.id == id then 1 else 0
  {
  }

  lemma {:induction false} TruthKept(trials: seq<Trial>, x: Trial, w: nat, u: Ticket)
    requires u.id != x.ticket.id
    ensures Wins(trials + [x], u.id) == Wins(trials, u.id)
    ensures Won(trials, w, u) ==> Won(trials + [x], w, u)
    ensures Lost(trials, w, u) ==> Lost(trials + [x], w, u)
  {
  }

  lemma {:induction false} TruthfulKept(trials: seq<Trial>, x: Trial, o: Outcome)
    requires o.ticket.id != x.ticket.id && Truthful(trials, o)
    ensures Truthful(trials + [x], o)
  {
    TruthKept(trials, x, if o.reporter.ByWorker? then o.reporter.w else 0, o.ticket);
  }

  lemma {:induction false} HandKept(trials: seq<Trial>, x: Trial, v: nat, pc: Pc)
    requires (pc.Holds() ==> pc.t.id != x.ticket.id) && HandHonest(trials, v, pc)
    ensures HandHonest(trials + [x], v, pc)
  {
    if pc.Holds() { TruthKept(trials, x, v, pc.t); }
  }

  lemma {:induction false} HandAfterTry(trials: seq<Trial>, w: nat, t: Ticket, luck: bool, pc: Pc)
    requires Wins(trials, t.id) == 0
    requires if luck then pc == Succeeded(t) else pc == Dying(t) || pc == GaveUp(t) || pc == Retrying(t)
    ensures HandHonest(trials + [Trial(w, t, luck)], w, pc)
  {
    WinsAppend(trials, Trial(w, t, luck), t.id);
    assert Trial(w, t, luck) in trials + [Trial(w, t, luck)];
  }

  lemma {:induction false} HonestAfterTry(cfg: Config, s: State, w: nat, x: Trial, s': State)
    requires s.Shaped(cfg) && s'.Shaped(cfg) && Conserved(cfg, s) && Honest(cfg, s)
    requires w < cfg.workers && s.pcs[w] == Processing(x.ticket)
    requires s'.trials == s.trials + [x] && s'.pcs == s.pcs[w := s'.pcs[w]] && HandHonest(s'.trials, w, s'.pcs[w])
    requires s'.queue == s.queue && s'.main == s.main && s'.outcomes == s.outcomes
    ensures Honest(cfg, s')
  {
    hide Conserved, Wins, Won, Lost, HandHonest, Truthful;
    OneHolder(cfg, s, w);
    forall i | 0 <= i < |s'.queue| ensures Wins(s'.trials, s'.queue[i].id) == 0 {
      TruthKept(s.trials, x, w, s.queue[i]);
    }
    forall v | 0 <= v < cfg.workers ensures HandHonest(s'.trials, v, s'.pcs[v]) {
      if v != w { HandKept(s.trials, x, v, s.pcs[v]); }
    }
    if s.main.DrainHolding? { TruthKept(s.trials, x, w, s.main.t); }
    forall i | 0 <= i < |s'.outcomes| ensures Truthful(s'.trials, s'.outcomes[i]) {
      TruthfulKept(s.trials, x, s.outcomes[i]);
    }
  }

  lemma {:induction false} HonestTry(cfg: Config, s: State, w: nat, luck: bool)
    requires s.Shaped(cfg) && Conserved(cfg, s) && Honest(cfg, s) && w < cfg.workers && s.pcs[w].Processing?
    ensures Honest(cfg, WorkerStep(cfg, s, w, luck))
  {
    hide Conserved, Wins, Won, Lost;
    var t, s' := s.pcs[w].t, WorkerStep(cfg, s, w, luck);
    assert HandHonest(s.trials, w, s.pcs[w]);
    HandAfterTry(s.trials, w, t, luck, s'.pcs[w]);
    HonestAfterTry(cfg, s, w, Trial(w, t, luck), s');
  }

  lemma {:induction false} HonestNoTry(cfg: Config, s: State, w: nat, s': State)
    requires s.Shaped(cfg) && s'.Shaped(cfg) && Honest(cfg, s) && w < cfg.workers
    requires s'.trials == s.trials && s'.pcs == s.pcs[w := s'.pcs[w]] && HandHonest(s.trials, w, s'.pcs[w])
    requires forall i :: 0 <= i < |s'.queue| ==> Wins(s.trials, s'.queue[i].id) == 0
    requires s'.main == s.main
    requires s'.outcomes == s.outcomes || exists o :: s'.outcomes == s.outcomes + [o] && Truthful(s.trials, o)
    ensures Honest(cfg, s')
  {
  }

  lemma {:induction false} HonestReport(cfg: Config, s: State, w: nat, o: Outcome)
    requires s.Shaped(cfg) && Honest(cfg, s) && w < cfg.workers && Truthful(s.trials, o)
    ensures Honest(cfg, s.Report(o).Go(w, Owing))
  {
  }

  lemma {:induction false} HonestReports(cfg: Config, s: State, w: nat, luck: bool)
    requires s.Shaped(cfg) && Honest(cfg, s) && w < cfg.workers && s.pcs[w].Reports()
    ensures Honest(cfg, WorkerStep(cfg, s, w, luck))
  {
    assert HandHonest(s.trials, w, s.pcs[w]);
    HonestReport(cfg, s, w, Callback(s.pcs[w], w));
  }

  lemma {:induction false} HonestMove(cfg: Config, s: State, w: nat, luck: bool)
    requires s.Shaped(cfg) && Honest(cfg, s) && w < cfg.workers && !s.pcs[w].Processing? && !s.pcs[w].Reports()
    ensures Honest(cfg, WorkerStep(cfg, s, w, luck))
  {
    assert HandHonest(s.trials, w, s.pcs[w]);
    HonestNoTry(cfg, s, w, WorkerStep(cfg, s, w, luck));
  }

  lemma {:induction false} HonestMain(cfg: Config, s: State)
    requires s.Shaped(cfg) && Honest(cfg, s)
    ensures Honest(cfg, MainStep(s))
  {
  }

  lemma {:induction false} HonestRun(cfg: Config, s: State, es: seq<Event>)
    requires cfg.Valid() && Inv(cfg, s) && Honest(cfg, s) && Legal(cfg, s, es)
    ensures Honest(cfg, After(cfg, s, es))
    decreases |es|
  {
    if es == [] {
    } else {
      match es[0] {
        case Worker(w, luck) =>
          if s.pcs[w].Processing? { HonestTry(cfg, s, w, luck); }
          else if s.pcs[w].Reports() { HonestReports(cfg, s, w, luck); }
          else { HonestMove(cfg, s, w, luck); }
        case Main => HonestMain(cfg, s);
      }
      Inductive(cfg, s, es[0]);
      HonestRun(cfg, Step(cfg, s, es[0]), es[1..]);
    }
  }

  lemma {:induction false} ReachableHonest(cfg: Config, s: State)
    requires cfg.Valid() && Reachable(cfg, s)
    ensures Honest(cfg, s)
  {
    var es :| Legal(cfg, Init(cfg), es) && After(cfg, Init(cfg), es) == s;
    InvInit(cfg);
    HonestRun(cfg, Init(cfg), es);
  }

  /** Every outcome of every reachable state is truthful. */
  lemma {:induction false} ReportsAreTruthful(cfg: Config, s: State, i: nat)
    requires cfg.Valid() && Reachable(cfg, s) && i < |s.outcomes|
    ensures Truthful(s.trials, s.outcomes[i])
  {
    ReachableHonest(cfg, s);
  }

  // ----- no success is lost -----

  lemma {:induction false} FindQueued(q: seq<Ticket>, id: nat) returns (i: nat)
    requires InQueue(q, id) >= 1
    ensures i < |q| && q[i].id == id
  {
    if q[0].id == id { i := 0; } else { i := FindQueued(q[1..], id); i := i + 1; }
  }

  lemma {:induction false} FindHand(pcs: seq<Pc>, id: nat) returns (w: nat)
    requires InHands(pcs, id) >= 1
    ensures w < |pcs| && pcs[w].Holds() && pcs[w].t.id == id
  {
    if InHand(pcs[0], id) == 1 { w := 0; } else { w := FindHand(pcs[1..], id); w := w + 1; }
  }

  lemma {:induction false} FindReport(os: seq<Outcome>, id: nat) returns (i: nat)
    requires Reported(os, id) >= 1
    ensures i < |os| && os[i].ticket.id == id
  {
    var k := |os| - 1;
    if os[k].ticket.id == id { i := k; } else { i := FindReport(os[..k], id); }
  }

  ghost predicate ReportedCompleted(s: State, id: nat) {
    exists i :: 0 <= i < |s.outcomes| && s.outcomes[i].ticket.id == id && s.outcomes[i].status == Completed
  }

  ghost predicate AboutToReport(s: State, id: nat) {
    exists w :: 0 <= w < |s.pcs| && s.pcs[w].Succeeded? && s.pcs[w].t.id == id
  }

  /** In every reachable state a stock has at most one successful call, and it has one exactly when its
      completion has been reported or a worker is about to report it. */
  lemma {:induction false} NoSuccessLost(cfg: Config, s: State, id: nat)
    requires cfg.Valid() && Reachable(cfg, s) && id < |cfg.codes|
    ensures Wins(s.trials, id) <= 1
    ensures Wins(s.trials, id) == 1 <==> ReportedCompleted(s, id) || AboutToReport(s, id)
  {
    ReachableInv(cfg, s);
    ReachableHonest(cfg, s);
    assert Places(s, id) == 1;
    if ReportedCompleted(s, id) || AboutToReport(s, id) { CompletedMeansWon(cfg, s, id); }
    if InQueue(s.queue, id) == 1 {
      var i := FindQueued(s.queue, id);
    } else if InHands(s.pcs, id) == 1 {
      var w := FindHand(s.pcs, id);
      assert HandHonest(s.trials, w, s.pcs[w]);
    } else if InMain(s.main, id) == 0 {
      var i := FindReport(s.outcomes, id);
      assert Truthful(s.trials, s.outcomes[i]) && OutcomeOk(cfg, s, s.outcomes[i]);
    }
  }

  lemma {:induction false} CompletedMeansWon(cfg: Config, s: State, id: nat)
    requires Inv(cfg, s) && Honest(cfg, s) && (ReportedCompleted(s, id) || AboutToReport(s, id))
    ensures Wins(s.trials, id) == 1
  {
  }

  /** Once all threads have stopped, a stock is reported completed exactly when a call for it succeeded. */
  lemma {:induction false} SettledTellsAll(cfg: Config, s: State, id: nat)
    requires cfg.Valid() && Reachable(cfg, s) && Settled(s) && id < |cfg.codes|
    ensures ReportedCompleted(s, id) <==> Wins(s.trials, id) == 1
    ensures !ReportedCompleted(s, id) <==> Wins(s.trials, id) == 0
  {
    ReachableInv(cfg, s);
    NoSuccessLost(cfg, s, id);
  }

  // ----- who completed a stock -----

  /** primary_by: the worker of the last successful call for each code. */
  function PrimaryOf(cfg: Config, trials: seq<Trial>): map<string, nat> {
    if trials == [] then map[]
    else
      var before, x := PrimaryOf(cfg, trials[..|trials| - 1]), trials[|trials| - 1];
      if !x.ok then before
      else before[if x.ticket.id < |cfg.codes| then cfg.codes[x.ticket.id] else "" := x.w]
  }

  lemma {:induction false} PrimaryOfAppend(cfg: Config, trials: seq<Trial>, x: Trial)
    ensures PrimaryOf(cfg, trials + [x])
            == if !x.ok then PrimaryOf(cfg, trials)
               else PrimaryOf(cfg, trials)[if x.ticket.id < |cfg.codes| then cfg.codes[x.ticket.id] else "" := x.w]
  {
    assert (trials + [x])[..|trials|] == trials;
  }

  ghost predicate PrimaryOk(cfg: Config, s: State) { s.primary == PrimaryOf(cfg, s.trials) }

  lemma {:induction false} PrimaryTry(cfg: Config, s: State, w: nat, luck: bool)
    requires s.Shaped(cfg) && w < cfg.workers && s.pcs[w].Processing? && PrimaryOk(cfg, s)
    ensures PrimaryOk(cfg, WorkerStep(cfg, s, w, luck))
  {
    var x := Trial(w, s.pcs[w].t, luck);
    PrimaryOfAppend(cfg, s.trials, x);
    assert WorkerStep(cfg, s, w, luck).trials == s.trials + [x];
  }

  lemma {:induction false} PrimaryNoTry(cfg: Config, s: State, s': State)
    requires PrimaryOk(cfg, s) && s'.primary == s.primary && s'.trials == s.trials
    ensures PrimaryOk(cfg, s')
  {
  }

  lemma {:induction false} PrimaryStep(cfg: Config, s: State, e: Event)
    requires s.Shaped(cfg) && Enabled(cfg, s, e) && PrimaryOk(cfg, s)
    ensures PrimaryOk(cfg, Step(cfg, s, e))
  {
    if e.Worker? && s.pcs[e.w].Processing? {
      PrimaryTry(cfg, s, e.w, e.luck);
    } else {
      PrimaryNoTry(cfg, s, Step(cfg, s, e));
    }
  }

  lemma {:induction false} PrimaryRun(cfg: Config, s: State, es: seq<Event>)
    requires s.Shaped(cfg) && Legal(cfg, s, es) && PrimaryOk(cfg, s)
    ensures PrimaryOk(cfg, After(cfg, s, es))
    decreases |es|
  {
    if es == [] {
    } else {
      PrimaryStep(cfg, s, es[0]);
      PrimaryRun(cfg, Step(cfg, s, es[0]), es[1..]);
    }
  }

  lemma {:induction false} WinCounts(trials: seq<Trial>, x: Trial)
    requires x in trials && x.ok
    ensures Wins(trials, x.ticket.id) >= 1
  {
    var k := |trials| - 1;
    if trials[k] != x {
      assert trials == trials[..k] + [trials[k]];
      WinCounts(trials[..k], x);
    }
  }

  lemma {:induction false} OnlyWinIsPrimary(cfg: Config, trials: seq<Trial>, w: nat, t: Ticket)
    requires DistinctCodes(cfg.codes) && t.id < |cfg.codes| && Won(trials, w, t)
    requires forall i :: 0 <= i < |trials| ==> trials[i].ticket.id < |cfg.codes|
    ensures cfg.codes[t.id] in PrimaryOf(cfg, trials) && PrimaryOf(cfg, trials)[cfg.codes[t.id]] == w
  {
    var k := |trials| - 1;
    var x := trials[k];
    assert trials == trials[..k] + [x];
    if x != Trial(w, t, true) {
      WinCounts(trials[..k], Trial(w, t, true));
      OnlyWinIsPrimary(cfg, trials[..k], w, t);
      assert x.ok ==> x.ticket.id != t.id;
    }
  }

  /** With distinct codes, primary_by names for every completed stock the worker that reported it. */
  lemma {:induction false} PrimaryNamesReporter(cfg: Config, s: State, i: nat, w: nat)
    requires cfg.Valid() && Reachable(cfg, s) && DistinctCodes(cfg.codes)
    requires i < |s.outcomes| && s.outcomes[i].status == Completed && s.outcomes[i].reporter == ByWorker(w)
    ensures var id := s.outcomes[i].ticket.id;
            id < |cfg.codes| && cfg.codes[id] in s.primary && s.primary[cfg.codes[id]] == w
  {
    var es :| Legal(cfg, Init(cfg), es) && After(cfg, Init(cfg), es) == s;
    PrimaryRun(cfg, Init(cfg), es);
    ReachableInv(cfg, s);
    ReachableHonest(cfg, s);
    assert OutcomeOk(cfg, s, s.outcomes[i]) && Truthful(s.trials, s.outcomes[i]);
    OnlyWinIsPrimary(cfg, s.trials, w, s.outcomes[i].ticket);
  }
}
