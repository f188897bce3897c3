/** What the dispatcher has reported when its main loop leaves, by either of its two exits, and how the
    orchestrator's totals follow from it. */
module DispatchOutcomes {
  import opened Dispatch
  import opened DispatchInvariant
  import opened DispatchRuns

  // ----- one outcome per ticket -----

  function ReportedBelow(os: seq<Outcome>, n: nat): nat {
    if n == 0 then 0 else ReportedBelow(os, n - 1) + Reported(os, n - 1)
  }

  lemma {:induction false} ReportedBelowAppend(os: seq<Outcome>, o: Outcome, n: nat)
    ensures ReportedBelow(os + [o], n) == ReportedBelow(os, n) + if o.ticket.id < n then 1 else 0
  {
    if n > 0 {
      ReportedBelowAppend(os, o, n - 1);
      ReportedAppend(os, o, n - 1);
    }
  }

  lemma {:induction false} NoneReported(n: nat)
    ensures ReportedBelow([], n) == 0
  {
    if n > 0 { NoneReported(n - 1); }
  }

  lemma {:induction false} ReportsAddUp(os: seq<Outcome>, n: nat)
    requires forall i :: 0 <= i < |os| ==> os[i].ticket.id < n
    ensures ReportedBelow(os, n) == |os|
  {
    if os == [] {
      NoneReported(n);
    } else {
      var k := |os| - 1;
      ReportsAddUp(os[..k], n);
      assert os == os[..k] + [os[k]];
      ReportedBelowAppend(os[..k], os[k], n);
    }
  }

  lemma {:induction false} OneEachBelow(os: seq<Outcome>, n: nat)
    requires forall id :: 0 <= id < n ==> Reported(os, id) == 1
    ensures ReportedBelow(os, n) == n
  {
    if n > 0 { OneEachBelow(os, n - 1); }
  }

  // ----- the orchestrator's totals -----

  /** The keys of analysis_results: on_result stores one entry per stock code. */
  function CompletedCodes(cfg: Config, os: seq<Outcome>): set<string> {
    if os == [] then {}
    else
      var o := os[|os| - 1];
      CompletedCodes(cfg, os[..|os| - 1])
      + if o.status == Completed && o.ticket.id < |cfg.codes| then {cfg.codes[o.ticket.id]} else {}
  }

  /** analysis_failed: the entries of extras, all of which have one of the three failure statuses. */
  function AnalysisFailed(os: seq<Outcome>): nat {
    if os == [] then 0
    else AnalysisFailed(os[..|os| - 1]) + if os[|os| - 1].status == Completed then 0 else 1
  }

  ghost predicate CompletedApart(cfg: Config, os: seq<Outcome>)
    requires forall i :: 0 <= i < |os| ==> os[i].ticket.id < |cfg.codes|
  {
    forall i, j :: 0 <= i < j < |os| && os[i].status == Completed && os[j].status == Completed ==>
      cfg.codes[os[i].ticket.id] != cfg.codes[os[j].ticket.id]
  }

  lemma {:induction false} CompletedCode(cfg: Config, os: seq<Outcome>, code: string)
    requires forall i :: 0 <= i < |os| ==> os[i].ticket.id < |cfg.codes|
    ensures code in CompletedCodes(cfg, os) <==>
            exists i :: 0 <= i < |os| && os[i].status == Completed && cfg.codes[os[i].ticket.id] == code
  {
    if os != [] {
      var k := |os| - 1;
      var prefix := os[..k];
      CompletedCode(cfg, prefix, code);
      if code in CompletedCodes(cfg, prefix) {
        var i :| 0 <= i < |prefix| && prefix[i].status == Completed && cfg.codes[prefix[i].ticket.id] == code;
        assert os[i] == prefix[i];
      }
      if i :| 0 <= i < k && os[i].status == Completed && cfg.codes[os[i].ticket.id] == code {
        assert prefix[i] == os[i];
      }
    }
  }

  /** The two totals never count an outcome twice, and count each once exactly when no two completed tickets
      share a stock code. */
  lemma {:induction false} TotalsAddUp(cfg: Config, os: seq<Outcome>)
    requires forall i :: 0 <= i < |os| ==> os[i].ticket.id < |cfg.codes|
    ensures |CompletedCodes(cfg, os)| + AnalysisFailed(os) <= |os|
    ensures |CompletedCodes(cfg, os)| + AnalysisFailed(os) == |os| <==> CompletedApart(cfg, os)
  {
    if os != [] {
      var k := |os| - 1;
      TotalsAddUp(cfg, os[..k]);
      TotalsLast(cfg, os);
    }
  }

  lemma {:induction false} TotalsLast(cfg: Config, os: seq<Outcome>)
    requires os != [] && forall i :: 0 <= i < |os| ==> os[i].ticket.id < |cfg.codes|
    ensures var k := |os| - 1; var prefix := os[..k]; var code := cfg.codes[os[k].ticket.id];
            CompletedApart(cfg, os) <==>
              CompletedApart(cfg, prefix) && (os[k].status == Completed ==> code !in CompletedCodes(cfg, prefix))
  {
    var k := |os| - 1;
    var prefix := os[..k];
    var code := cfg.codes[os[k].ticket.id];
    CompletedCode(cfg, prefix, code);
    assert forall i :: 0 <= i < k ==> prefix[i] == os[i];
    if CompletedApart(cfg, os) {
      assert forall i, j :: 0 <= i < j < k ==> prefix[i] == os[i] && prefix[j] == os[j];
    }
  }

  predicate DistinctCodes(codes: seq<string>) {
    forall i, j :: 0 <= i < j < |codes| ==> codes[i] != codes[j]
  }

  lemma {:induction false} DistinctTickets(os: seq<Outcome>, i: nat, j: nat)
    requires i < j < |os| && Reported(os, os[i].ticket.id) <= 1
    ensures os[i].ticket.id != os[j].ticket.id
  {
    if j == |os| - 1 {
      if os[i].ticket.id == os[j].ticket.id { ReportedCounts(os[..j], i); }
    } else {
      DistinctTickets(os[..|os| - 1], i, j);
    }
  }

  lemma {:induction false} DistinctCodesApart(cfg: Config, s: State)
    requires Inv(cfg, s) && DistinctCodes(cfg.codes)
    ensures forall i :: 0 <= i < |s.outcomes| ==> s.outcomes[i].ticket.id < |cfg.codes|
    ensures CompletedApart(cfg, s.outcomes)
  {
    forall i | 0 <= i < |s.outcomes| ensures s.outcomes[i].ticket.id < |cfg.codes| {
      assert OutcomeOk(cfg, s, s.outcomes[i]);
    }
    forall i, j | 0 <= i < j < |s.outcomes| ensures s.outcomes[i].ticket.id != s.outcomes[j].ticket.id {
      assert Places(s, s.outcomes[i].ticket.id) <= 1;
      DistinctTickets(s.outcomes, i, j);
    }
  }

  // ----- the clean exit -----

  lemma {:induction false} EmptyQueueAndHands(s: State, id: nat)
    requires s.queue == [] && !s.main.DrainHolding? && forall w :: 0 <= w < |s.pcs| ==> !s.pcs[w].Holds()
    ensures Places(s, id) == Reported(s.outcomes, id)
  {
    NoHands(s.pcs, id);
  }

  /** When the main loop leaves because unfinished_tasks is 0, every ticket has exactly one outcome and
      nothing is queued, held or owed. With distinct codes the orchestrator's two totals add up to the
      number of submitted stocks. */
  lemma {:induction false} CleanExit(cfg: Config, s: State)
    requires cfg.Valid() && Reachable(cfg, s) && s.main.LeftClean()
    ensures s.queue == [] && forall w :: 0 <= w < cfg.workers ==> !s.pcs[w].Owes()
    ensures forall id :: 0 <= id < |cfg.codes| ==> Reported(s.outcomes, id) == 1
    ensures |s.outcomes| == |cfg.codes|
    ensures |CompletedCodes(cfg, s.outcomes)| + AnalysisFailed(s.outcomes) <= |cfg.codes|
    ensures DistinctCodes(cfg.codes) ==>
              |CompletedCodes(cfg, s.outcomes)| + AnalysisFailed(s.outcomes) == |cfg.codes|
  {
    ReachableInv(cfg, s);
    NothingUnfinished(cfg, s);
    forall id | 0 <= id < |cfg.codes| ensures Reported(s.outcomes, id) == 1 {
      EmptyQueueAndHands(s, id);
      assert Places(s, id) == 1;
    }
    forall i | 0 <= i < |s.outcomes| ensures s.outcomes[i].ticket.id < |cfg.codes| {
      assert OutcomeOk(cfg, s, s.outcomes[i]);
    }
    ReportsAddUp(s.outcomes, |cfg.codes|);
    OneEachBelow(s.outcomes, |cfg.codes|);
    TotalsAddUp(cfg, s.outcomes);
    if DistinctCodes(cfg.codes) { DistinctCodesApart(cfg, s); }
  }

  lemma {:induction false} CleanStep(cfg: Config, s: State, e: Event)
    requires cfg.Valid() && Inv(cfg, s) && Enabled(cfg, s, e) && s.main.LeftClean()
    ensures var s' := Step(cfg, s, e);
            s'.main.LeftClean() && s'.queue == [] && s'.outcomes == s.outcomes && s'.trials == s.trials
  {
    NothingUnfinished(cfg, s);
  }

  /** After the clean exit nothing is ever queued, tried or reported again. */
  lemma {:induction false} CleanExitIsFinal(cfg: Config, s: State, es: seq<Event>)
    requires cfg.Valid() && Inv(cfg, s) && s.main.LeftClean() && Legal(cfg, s, es)
    ensures var s' := After(cfg, s, es);
            s'.main.LeftClean() && s'.queue == [] && s'.outcomes == s.outcomes && s'.trials == s.trials
    decreases |es|
  {
    if es == [] {
      NothingUnfinished(cfg, s);
    } else {
      CleanStep(cfg, s, es[0]);
      Inductive(cfg, s, es[0]);
      CleanExitIsFinal(cfg, Step(cfg, s, es[0]), es[1..]);
    }
  }

  // ----- the all-dead exit -----

  /** The main loop has left after a drain. */
  predicate LeftDrained(s: State) { s.main == Leaving(true) || s.main == Stopped(true) }

  /** The worker has taken a ticket and, being dead, is on its way to put it back. */
  predicate Doomed(pc: Pc) { pc.Got? || pc.Bouncing? }

  function DoomedIn(pc: Pc, id: nat): nat { if Doomed(pc) && pc.t.id == id then 1 else 0 }

  function DoomedHands(pcs: seq<Pc>, id: nat): nat {
    if pcs == [] then 0 else DoomedIn(pcs[0], id) + DoomedHands(pcs[1..], id)
  }

  /** Whether ticket `id` is lost: queued with nobody left to process it, or about to be put back. */
  function Residue(s: State, id: nat): nat { InQueue(s.queue, id) + DoomedHands(s.pcs, id) }

  lemma {:induction false} DoomedHandsUpdate(pcs: seq<Pc>, w: nat, pc: Pc, id: nat)
    requires w < |pcs|
    ensures DoomedHands(pcs[w := pc], id) == DoomedHands(pcs, id) - DoomedIn(pcs[w], id) + DoomedIn(pc, id)
  {
    if w == 0 {
      assert pcs[w := pc][1..] == pcs[1..];
    } else {
      assert pcs[w := pc][1..] == pcs[1..][w - 1 := pc];
      DoomedHandsUpdate(pcs[1..], w - 1, pc, id);
    }
  }

  lemma {:induction false} ResidueWorker(cfg: Config, s: State, w: nat, luck: bool, id: nat)
    requires s.Shaped(cfg) && w < cfg.workers && s.dead[w] && DeathOk(cfg, s, w)
    ensures Residue(WorkerStep(cfg, s, w, luck), id) == Residue(s, id)
  {
    DoomedHandsUpdate(s.pcs, w, NextPc(cfg, s, w, luck), id);
    if s.pcs[w].Bouncing? { InQueueAppend(s.queue, s.pcs[w].t, id); }
  }

  lemma {:induction false} ResidueStep(cfg: Config, s: State, e: Event, id: nat)
    requires Inv(cfg, s) && Enabled(cfg, s, e) && LeftDrained(s)
    ensures LeftDrained(Step(cfg, s, e)) && Residue(Step(cfg, s, e), id) == Residue(s, id)
  {
    if e.Worker? {
      assert StreakOk(cfg, s, e.w);
      ResidueWorker(cfg, s, e.w, e.luck, id);
    }
  }

  /** Once the drain is over the lost tickets never change, whatever the dead workers still do. */
  lemma {:induction false} ResidueIsFinal(cfg: Config, s: State, es: seq<Event>, id: nat)
    requires cfg.Valid() && Inv(cfg, s) && LeftDrained(s) && Legal(cfg, s, es)
    ensures LeftDrained(After(cfg, s, es)) && Residue(After(cfg, s, es), id) == Residue(s, id)
    decreases |es|
  {
    if es == [] {
    } else {
      ResidueStep(cfg, s, es[0], id);
      Inductive(cfg, s, es[0]);
      ResidueIsFinal(cfg, Step(cfg, s, es[0]), es[1..], id);
    }
  }

  lemma {:induction false} NobodyDoomed(pcs: seq<Pc>, id: nat)
    requires forall w :: 0 <= w < |pcs| ==> !Doomed(pcs[w])
    ensures DoomedHands(pcs, id) == 0
  {
    if pcs != [] { NobodyDoomed(pcs[1..], id); }
  }

  function DoomedCount(pcs: seq<Pc>): nat {
    if pcs == [] then 0 else (if Doomed(pcs[0]) then 1 else 0) + DoomedCount(pcs[1..])
  }

  function DoomedBelow(pcs: seq<Pc>, n: nat): nat {
    if n == 0 then 0 else DoomedBelow(pcs, n - 1) + DoomedHands(pcs, n - 1)
  }

  lemma {:induction false} DoomedBelowSplit(pcs: seq<Pc>, n: nat)
    ensures pcs == [] ==> DoomedBelow(pcs, n) == 0
    ensures pcs != [] ==>
              DoomedBelow(pcs, n) == DoomedBelow(pcs[1..], n) + if Doomed(pcs[0]) && pcs[0].t.id < n then 1 else 0
  {
    if n > 0 { DoomedBelowSplit(pcs, n - 1); }
  }

  lemma {:induction false} DoomedBelowBounded(pcs: seq<Pc>, n: nat)
    ensures DoomedBelow(pcs, n) <= DoomedCount(pcs) <= |pcs|
  {
    DoomedBelowSplit(pcs, n);
    if pcs != [] { DoomedBelowBounded(pcs[1..], n); }
  }

  /** Each ticket is unreported in the settled state exactly as often as a dead worker had it in hand. */
  lemma {:induction false} UnreportedIsDoomed(cfg: Config, s: State, es: seq<Event>, id: nat)
    requires cfg.Valid() && Inv(cfg, s) && s.main == Leaving(true) && s.queue == [] && id < |cfg.codes|
    requires Legal(cfg, s, es) && Settled(After(cfg, s, es))
    ensures Reported(After(cfg, s, es).outcomes, id) == 1 - DoomedHands(s.pcs, id)
  {
    var s' := After(cfg, s, es);
    RunKeepsInv(cfg, s, es);
    ResidueIsFinal(cfg, s, es, id);
    assert Places(s', id) == 1;
    NoHands(s'.pcs, id);
    NobodyDoomed(s'.pcs, id);
  }

  lemma {:induction false} OutcomesInRange(cfg: Config, s: State)
    requires Inv(cfg, s)
    ensures ReportedBelow(s.outcomes, |cfg.codes|) == |s.outcomes|
  {
    forall i | 0 <= i < |s.outcomes| ensures s.outcomes[i].ticket.id < |cfg.codes| {
      assert OutcomeOk(cfg, s, s.outcomes[i]);
    }
    ReportsAddUp(s.outcomes, |cfg.codes|);
  }

  /** Which tickets go unreported when the main loop leaves because all workers are dead. `s` is the state
      just after the drain's last, failing get and `s'` any settled state the run ends in: a ticket is
      unreported in `s'` exactly when a dead worker had it in hand in `s`. At most one ticket per worker is
      lost, and none when no worker had one in hand. */
  lemma {:induction false} AllDeadExit(cfg: Config, s: State, es: seq<Event>)
    requires cfg.Valid() && Reachable(cfg, s) && s.main == Leaving(true) && s.queue == []
    requires Legal(cfg, s, es) && Settled(After(cfg, s, es))
    ensures var s' := After(cfg, s, es);
            && (forall id :: 0 <= id < |cfg.codes| ==> Reported(s'.outcomes, id) == 1 - DoomedHands(s.pcs, id))
            && |s'.outcomes| == |cfg.codes| - DoomedBelow(s.pcs, |cfg.codes|)
    ensures DoomedBelow(s.pcs, |cfg.codes|) <= DoomedCount(s.pcs) <= cfg.workers
    ensures (forall w :: 0 <= w < cfg.workers ==> !Doomed(s.pcs[w])) ==>
              forall id :: 0 <= id < |cfg.codes| ==> Reported(After(cfg, s, es).outcomes, id) == 1
  {
    var s' := After(cfg, s, es);
    ReachableInv(cfg, s);
    RunKeepsInv(cfg, s, es);
    forall id | 0 <= id < |cfg.codes| ensures Reported(s'.outcomes, id) == 1 - DoomedHands(s.pcs, id) {
      UnreportedIsDoomed(cfg, s, es, id);
    }
    OutcomesInRange(cfg, s');
    LostBelow(s'.outcomes, s.pcs, |cfg.codes|);
    DoomedBelowBounded(s.pcs, |cfg.codes|);
    if forall w :: 0 <= w < cfg.workers ==> !Doomed(s.pcs[w]) {
      forall id | 0 <= id < |cfg.codes| ensures Reported(s'.outcomes, id) == 1 { NobodyDoomed(s.pcs, id); }
    }
  }

  lemma {:induction false} LostBelow(os: seq<Outcome>, pcs: seq<Pc>, n: nat)
    requires forall id :: 0 <= id < n ==> Reported(os, id) == 1 - DoomedHands(pcs, id)
    ensures ReportedBelow(os, n) == n - DoomedBelow(pcs, n)
  {
    if n > 0 { LostBelow(os, pcs, n - 1); }
  }

  lemma {:induction false} Follow(cfg: Config, s: State, e: Event)
    requires s.Shaped(cfg) && Reachable(cfg, s) && Enabled(cfg, s, e)
    ensures Reachable(cfg, Step(cfg, s, e))
  {
    var es :| Legal(cfg, Init(cfg), es) && After(cfg, Init(cfg), es) == s;
    Singleton(cfg, s, e);
    AfterConcat(cfg, Init(cfg), es, [e]);
    assert Legal(cfg, Init(cfg), es + [e]);
  }

  // A run that loses a ticket, scene by scene: one worker, two stocks, no retries, threshold 1.

  const LOSSY := Config(["a", "b"], 1, 0, 1, false)

  function FirstTaken(pc: Pc): State {
    State([Ticket(1, 0)], 2, [0], [false], false, map[], [pc], Polling, [], [])
  }

  function WorkerDead(pc: Pc, unfinished: int, os: seq<Outcome>): State {
    State([Ticket(1, 0)], unfinished, [1], [true], false, map[], [pc], Polling, os, [Trial(0, Ticket(0, 0), false)])
  }

  function SecondTaken(queue: seq<Ticket>, unfinished: int, stop: bool, pc: Pc, main: MainPc): State {
    State(queue, unfinished, [1], [true], stop, map[], [pc], main,
          [Outcome(Ticket(0, 0), ByWorker(0), DeadSkipped)], [Trial(0, Ticket(0, 0), false)])
  }

  /** The next state of the run. */
  lemma {:induction false} Then(cfg: Config, s: State, e: Event, t: State)
    requires s.Shaped(cfg) && Reachable(cfg, s) && Enabled(cfg, s, e) && Step(cfg, s, e) == t
    ensures Reachable(cfg, t)
  {
    Follow(cfg, s, e);
  }

  lemma {:induction false} SceneOne()
    ensures Reachable(LOSSY, Init(LOSSY).(pcs := [Getting]))
  {
    var s := Init(LOSSY);
    assert Legal(LOSSY, s, []) && After(LOSSY, s, []) == s;
    assert s.pcs == [Login];
    Then(LOSSY, s, Worker(0, true), s.(pcs := [Idle]));
    Then(LOSSY, s.(pcs := [Idle]), Worker(0, true), s.(pcs := [Getting]));
  }

  lemma {:induction false} SceneTwo()
    ensures Reachable(LOSSY, FirstTaken(Processing(Ticket(0, 0))))
  {
    hide Reachable;
    var s := Init(LOSSY).(pcs := [Getting]);
    SceneOne();
    assert s.queue == [Ticket(0, 0), Ticket(1, 0)] && s.streak == [0] && s.dead == [false];
    Then(LOSSY, s, Worker(0, true), FirstTaken(Got(Ticket(0, 0))));
    Then(LOSSY, FirstTaken(Got(Ticket(0, 0))), Worker(0, false), FirstTaken(Processing(Ticket(0, 0))));
  }

  lemma {:induction false} SceneThree()
    ensures Reachable(LOSSY, WorkerDead(Owing, 2, [Outcome(Ticket(0, 0), ByWorker(0), DeadSkipped)]))
  {
    hide Reachable;
    var dying := WorkerDead(Dying(Ticket(0, 0)), 2, []);
    SceneTwo();
    Then(LOSSY, FirstTaken(Processing(Ticket(0, 0))), Worker(0, false), dying);
    Then(LOSSY, dying, Worker(0, false), WorkerDead(Owing, 2, [Outcome(Ticket(0, 0), ByWorker(0), DeadSkipped)]));
  }

  lemma {:induction false} SceneFour()
    ensures Reachable(LOSSY, WorkerDead(Getting, 1, [Outcome(Ticket(0, 0), ByWorker(0), DeadSkipped)]))
  {
    hide Reachable;
    var os := [Outcome(Ticket(0, 0), ByWorker(0), DeadSkipped)];
    SceneThree();
    Then(LOSSY, WorkerDead(Owing, 2, os), Worker(0, false), WorkerDead(Idle, 1, os));
    Then(LOSSY, WorkerDead(Idle, 1, os), Worker(0, false), WorkerDead(Getting, 1, os));
  }

  lemma {:induction false} SceneFive()
    ensures Reachable(LOSSY, SecondTaken([], 1, false, Got(Ticket(1, 0)), Checking))
  {
    hide Reachable;
    var os := [Outcome(Ticket(0, 0), ByWorker(0), DeadSkipped)];
    var taken := SecondTaken([], 1, false, Got(Ticket(1, 0)), Polling);
    SceneFour();
    Then(LOSSY, WorkerDead(Getting, 1, os), Worker(0, false), taken);
    Then(LOSSY, taken, Main, SecondTaken([], 1, false, Got(Ticket(1, 0)), Checking));
  }

  lemma {:induction false} SceneSix()
    ensures Reachable(LOSSY, SecondTaken([], 1, false, Got(Ticket(1, 0)), Leaving(true)))
  {
    hide Reachable;
    var t := Got(Ticket(1, 0));
    SceneFive();
    Then(LOSSY, SecondTaken([], 1, false, t, Checking), Main, SecondTaken([], 1, false, t, Draining));
    Then(LOSSY, SecondTaken([], 1, false, t, Draining), Main, SecondTaken([], 1, false, t, Leaving(true)));
  }

  lemma {:induction false} SceneSeven()
    ensures Reachable(LOSSY, SecondTaken([Ticket(1, 0)], 2, false, BounceOwing, Leaving(true)))
  {
    hide Reachable;
    var t := Ticket(1, 0);
    SceneSix();
    Then(LOSSY, SecondTaken([], 1, false, Got(t), Leaving(true)), Worker(0, false),
         SecondTaken([], 1, false, Bouncing(t), Leaving(true)));
    Then(LOSSY, SecondTaken([], 1, false, Bouncing(t), Leaving(true)), Worker(0, false),
         SecondTaken([t], 2, false, BounceOwing, Leaving(true)));
  }

  /** The residue is real. The worker, dead after its first failure, takes the second ticket just before the
      drain and puts it back just after: the run settles with that ticket in the queue and never reported. */
  lemma {:induction false} DrainCanLoseATicket()
    ensures exists s :: Reachable(LOSSY, s) && Settled(s) && s.queue == [Ticket(1, 0)] && Reported(s.outcomes, 1) == 0
  {
    var t := Ticket(1, 0);
    var s := SecondTaken([t], 1, true, Exited, Stopped(true));
    SceneSeven();
    Then(LOSSY, SecondTaken([t], 2, false, BounceOwing, Leaving(true)), Worker(0, false),
         SecondTaken([t], 1, false, Exited, Leaving(true)));
    Then(LOSSY, SecondTaken([t], 1, false, Exited, Leaving(true)), Main, s);
    assert Settled(s);
    ReportedAppend([], s.outcomes[0], 1);
  }
}
