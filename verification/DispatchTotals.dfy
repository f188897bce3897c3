/** When the orchestrator's two totals add up to the number of submitted stocks: on every clean exit, whatever the
    schedule, exactly when the submitted codes are distinct. A run in which one worker completes every stock shows
    that a shared code is enough to break the sum. */
module DispatchTotals {
  import opened Dispatch
  import opened DispatchInvariant
  import opened DispatchRuns
  import opened DispatchOutcomes

  // ----- the run in which worker 0 completes one stock after the other -----

  function Successes(n: nat): (ts: seq<Trial>)
    ensures |ts| == n
  {
    if n == 0 then [] else Successes(n - 1) + [Trial(0, Ticket(n - 1, 0), true)]
  }

  function Completions(n: nat): (os: seq<Outcome>)
    ensures |os| == n && forall i :: 0 <= i < n ==> os[i] == Outcome(Ticket(i, 0), ByWorker(0), Completed)
  {
    if n == 0 then [] else Completions(n - 1) + [Outcome(Ticket(n - 1, 0), ByWorker(0), Completed)]
  }

  function Primaries(codes: seq<string>, n: nat): map<string, nat>
    requires n <= |codes|
  {
    if n == 0 then map[] else Primaries(codes, n - 1)[codes[n - 1] := 0]
  }

  /** Worker 0 stands at `pc` with `k` stocks completed and ready for the next. */
  function Solved(cfg: Config, k: nat, pc: Pc): (s: State)
    requires cfg.workers >= 1 && k <= |cfg.codes|
    ensures s.Shaped(cfg) && s.pcs[0] == pc && s.streak[0] == 0 && !s.dead[0] && !s.stop
  {
    var init := Init(cfg);
    init.(queue := init.queue[k..], unfinished := |cfg.codes| - k, primary := Primaries(cfg.codes, k),
          pcs := init.pcs[0 := pc], outcomes := Completions(k), trials := Successes(k))
  }

  lemma {:induction false} StandsAt(cfg: Config, k: nat, pc: Pc, pc': Pc)
    requires cfg.workers >= 1 && k <= |cfg.codes|
    ensures Solved(cfg, k, pc).Go(0, pc') == Solved(cfg, k, pc')
  {
    assert Init(cfg).pcs[0 := pc][0 := pc'] == Init(cfg).pcs[0 := pc'];
  }

  lemma {:induction false} LoggedIn(cfg: Config)
    requires cfg.workers >= 1
    ensures Reachable(cfg, Solved(cfg, 0, Idle))
  {
    var s := Init(cfg);
    assert Legal(cfg, s, []) && After(cfg, s, []) == s;
    assert s.pcs[0 := Login] == s.pcs && s.queue[0..] == s.queue;
    assert Solved(cfg, 0, Login) == s;
    StandsAt(cfg, 0, Login, Idle);
    Then(cfg, s, Worker(0, true), Solved(cfg, 0, Idle));
  }

  /** The ticket is out of the queue and in worker 0's hand. */
  function Taken(cfg: Config, k: nat, pc: Pc): (s: State)
    requires cfg.workers >= 1 && k < |cfg.codes|
    ensures s.Shaped(cfg) && s.pcs[0] == pc && s.streak[0] == 0 && !s.dead[0] && !s.stop
  {
    var s := Solved(cfg, k, pc);
    s.(queue := s.queue[1..])
  }

  lemma {:induction false} TakesNext(cfg: Config, k: nat)
    requires cfg.workers >= 1 && k < |cfg.codes| && Reachable(cfg, Solved(cfg, k, Idle))
    ensures Reachable(cfg, Taken(cfg, k, Got(Ticket(k, 0))))
  {
    hide Reachable;
    StandsAt(cfg, k, Idle, Getting);
    Then(cfg, Solved(cfg, k, Idle), Worker(0, true), Solved(cfg, k, Getting));
    StandsAt(cfg, k, Getting, Got(Ticket(k, 0)));
    assert Solved(cfg, k, Getting).queue[0] == Ticket(k, 0);
    Then(cfg, Solved(cfg, k, Getting), Worker(0, true), Taken(cfg, k, Got(Ticket(k, 0))));
  }

  /** The call has succeeded. */
  function Won(cfg: Config, k: nat, pc: Pc): (s: State)
    requires cfg.workers >= 1 && k < |cfg.codes|
    ensures s.Shaped(cfg) && s.pcs[0] == pc
  {
    Taken(cfg, k, pc).(primary := Primaries(cfg.codes, k + 1), trials := Successes(k + 1))
  }

  lemma {:induction false} CompletesIt(cfg: Config, k: nat)
    requires cfg.workers >= 1 && k < |cfg.codes| && Reachable(cfg, Taken(cfg, k, Got(Ticket(k, 0))))
    ensures Reachable(cfg, Won(cfg, k, Succeeded(Ticket(k, 0))))
  {
    hide Reachable;
    var t := Ticket(k, 0);
    StandsAt(cfg, k, Got(t), Processing(t));
    Then(cfg, Taken(cfg, k, Got(t)), Worker(0, false), Taken(cfg, k, Processing(t)));
    StandsAt(cfg, k, Processing(t), Succeeded(t));
    var s := Taken(cfg, k, Processing(t));
    assert s.streak[0 := 0] == s.streak;
    Then(cfg, s, Worker(0, true), Won(cfg, k, Succeeded(t)));
  }

  lemma {:induction false} ReportsIt(cfg: Config, k: nat)
    requires cfg.workers >= 1 && k < |cfg.codes| && Reachable(cfg, Won(cfg, k, Succeeded(Ticket(k, 0))))
    ensures Reachable(cfg, Solved(cfg, k + 1, Idle))
  {
    hide Reachable;
    var t := Ticket(k, 0);
    var owing := Won(cfg, k, Owing).(outcomes := Completions(k + 1));
    StandsAt(cfg, k, Succeeded(t), Owing);
    Then(cfg, Won(cfg, k, Succeeded(t)), Worker(0, true), owing);
    StandsAt(cfg, k, Owing, Idle);
    assert Init(cfg).queue[k..][1..] == Init(cfg).queue[k + 1..];
    Then(cfg, owing, Worker(0, true), Solved(cfg, k + 1, Idle));
  }

  lemma {:induction false} SolvesOne(cfg: Config, k: nat)
    requires cfg.workers >= 1 && k < |cfg.codes| && Reachable(cfg, Solved(cfg, k, Idle))
    ensures Reachable(cfg, Solved(cfg, k + 1, Idle))
  {
    hide Reachable, Solved, Taken, Won;
    TakesNext(cfg, k);
    CompletesIt(cfg, k);
    ReportsIt(cfg, k);
  }

  lemma {:induction false} SoloRun(cfg: Config, k: nat)
    requires cfg.workers >= 1 && k <= |cfg.codes|
    ensures Reachable(cfg, Solved(cfg, k, Idle))
  {
    hide Reachable, Solved;
    if k == 0 {
      LoggedIn(cfg);
    } else {
      SoloRun(cfg, k - 1);
      SolvesOne(cfg, k - 1);
    }
  }

  /** All stocks completed by worker 0, and the main loop has found nothing left to do. */
  function AllCompleted(cfg: Config): State
    requires cfg.workers >= 1
  {
    Solved(cfg, |cfg.codes|, Idle).(main := Leaving(false))
  }

  lemma {:induction false} SoloExit(cfg: Config)
    requires cfg.workers >= 1
    ensures Reachable(cfg, AllCompleted(cfg)) && AllCompleted(cfg).main.LeftClean()
    ensures AllCompleted(cfg).outcomes == Completions(|cfg.codes|)
  {
    SoloRun(cfg, |cfg.codes|);
    Then(cfg, Solved(cfg, |cfg.codes|, Idle), Main, AllCompleted(cfg));
  }

  // ----- the totals -----

  ghost predicate AddsUp(cfg: Config, s: State) {
    |CompletedCodes(cfg, s.outcomes)| + AnalysisFailed(s.outcomes) == |cfg.codes|
  }

  lemma {:induction false} NoneFailed(n: nat)
    ensures AnalysisFailed(Completions(n)) == 0
  {
    if n > 0 { NoneFailed(n - 1); }
  }

  /** Completing every stock counts each code once. */
  lemma {:induction false} SharedCodesUndercount(cfg: Config)
    requires !DistinctCodes(cfg.codes)
    ensures |CompletedCodes(cfg, Completions(|cfg.codes|))| + AnalysisFailed(Completions(|cfg.codes|)) < |cfg.codes|
  {
    var os := Completions(|cfg.codes|);
    var i, j :| 0 <= i < j < |cfg.codes| && cfg.codes[i] == cfg.codes[j];
    TotalsAddUp(cfg, os);
    assert os[i].status == Completed && os[j].status == Completed;
  }

  /** Without workers nothing completes. */
  lemma {:induction false} NoWorkersAddUp(cfg: Config, s: State)
    requires cfg.Valid() && Reachable(cfg, s) && s.main.LeftClean() && cfg.workers == 0
    ensures AddsUp(cfg, s)
  {
    ReachableInv(cfg, s);
    CleanExit(cfg, s);
    forall i | 0 <= i < |s.outcomes|
      ensures s.outcomes[i].ticket.id < |cfg.codes| && s.outcomes[i].status != Completed
    {
      assert OutcomeOk(cfg, s, s.outcomes[i]);
    }
    TotalsAddUp(cfg, s.outcomes);
  }

  /** The totals add up on every clean exit exactly when the submitted codes are distinct, or there is no worker at
      all. */
  lemma {:induction false} CleanExitsAddUp(cfg: Config)
    requires cfg.Valid()
    ensures (forall s :: Reachable(cfg, s) && s.main.LeftClean() ==> AddsUp(cfg, s))
            <==> DistinctCodes(cfg.codes) || cfg.workers == 0
  {
    hide Reachable;
    if DistinctCodes(cfg.codes) || cfg.workers == 0 {
      forall s | Reachable(cfg, s) && s.main.LeftClean() ensures AddsUp(cfg, s) {
        if cfg.workers == 0 { NoWorkersAddUp(cfg, s); } else { CleanExit(cfg, s); }
      }
    } else {
      SoloExit(cfg);
      SharedCodesUndercount(cfg);
      assert !AddsUp(cfg, AllCompleted(cfg));
    }
  }

  /** Two stocks with one code, both completed: the totals say one. */
  lemma {:induction false} TwoStocksCountAsOne()
    ensures var cfg := Config(["a", "a"], 1, 0, 1, false);
            exists s :: Reachable(cfg, s) && s.main.LeftClean()
                        && |CompletedCodes(cfg, s.outcomes)| == 1 && AnalysisFailed(s.outcomes) == 0
  {
    var cfg := Config(["a", "a"], 1, 0, 1, false);
    SoloExit(cfg);
    var s, first, second := AllCompleted(cfg), Completions(1), Completions(2);
    NoneFailed(2);
    assert second[..1] == first && first[..0] == [];
    assert CompletedCodes(cfg, first) == {"a"};
    assert CompletedCodes(cfg, second) == {"a"};
  }
}
