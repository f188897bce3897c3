/** Under a fair schedule every run of the dispatcher ends. A schedule is cut into rounds, and a round is fair when
    it gives every live thread two turns or sees it stop. */
module DispatchFairness {
  import opened Dispatch
  import opened DispatchInvariant
  import opened DispatchRuns

  datatype Thread = OfWorker(w: nat) | OfMain

  function ThreadOf(e: Event): Thread { if e.Worker? then OfWorker(e.w) else OfMain }

  predicate Live(s: State, x: Thread) {
    match x
    case OfWorker(w) => w < |s.pcs| && !s.pcs[w].Exited?
    case OfMain => !s.main.Stopped?
  }

  /** The next step of the thread only goes round its waiting loop. */
  predicate Waits(s: State, x: Thread)
    requires Live(s, x)
  {
    match x
    case OfWorker(w) => (s.pcs[w].Idle? && !s.stop) || (s.pcs[w].Getting? && s.queue == [])
    case OfMain => (s.main.Polling? && s.unfinished > 0) || (s.main.Checking? && !AllWorkersDead(s))
  }

  /** The thread is in its loop and has a reason to leave it. */
  predicate HasReason(s: State, x: Thread)
    requires Live(s, x)
  {
    match x
    case OfWorker(w) => (s.pcs[w].Idle? || s.pcs[w].Getting?) && (s.stop || s.queue != [])
    case OfMain => (s.main.Polling? || s.main.Checking?) && (s.unfinished > 0 ==> AllWorkersDead(s))
  }

  /** The thread advances with its `k`-th turn from here, if nobody advances before. */
  predicate Due(s: State, x: Thread, k: nat) {
    Live(s, x) && k >= 1 && (!Waits(s, x) || (k >= 2 && HasReason(s, x)))
  }

  function Turns(es: seq<Event>, x: Thread): nat {
    if es == [] then 0 else (if ThreadOf(es[0]) == x then 1 else 0) + Turns(es[1..], x)
  }

  /** A wait moves one thread inside its loop and changes nothing else. */
  lemma {:induction false} WaitOfWorker(cfg: Config, s: State, w: nat, luck: bool)
    requires s.Shaped(cfg) && Enabled(cfg, s, Worker(w, luck)) && IsWait(cfg, s, Worker(w, luck))
    ensures Step(cfg, s, Worker(w, luck)) == s.(pcs := s.pcs[w := if s.pcs[w].Idle? then Getting else Idle])
  {
  }

  lemma {:induction false} WaitOfMain(cfg: Config, s: State)
    requires s.Shaped(cfg) && Enabled(cfg, s, Main) && IsWait(cfg, s, Main)
    ensures Step(cfg, s, Main) == s.(main := if s.main.Polling? then Checking else Polling)
  {
  }

  lemma {:induction false} DueAfterWait(cfg: Config, s: State, e: Event, x: Thread, k: nat)
    requires s.Shaped(cfg) && Enabled(cfg, s, e) && IsWait(cfg, s, e) && Due(s, x, k)
    ensures ThreadOf(e) == x ==> k >= 2 && Due(Step(cfg, s, e), x, k - 1)
    ensures ThreadOf(e) != x ==> Due(Step(cfg, s, e), x, k)
  {
    match e
    case Worker(w, luck) => WaitOfWorker(cfg, s, w, luck);
    case Main => WaitOfMain(cfg, s);
  }

  /** As many turns as a thread needs make somebody advance. */
  lemma {:induction false} DueAdvances(cfg: Config, s: State, es: seq<Event>, x: Thread, k: nat)
    requires s.Shaped(cfg) && Legal(cfg, s, es) && Due(s, x, k) && Turns(es, x) >= k
    ensures Advances(cfg, s, es) >= 1
    decreases |es|
  {
    if IsWait(cfg, s, es[0]) {
      DueAfterWait(cfg, s, es[0], x, k);
      DueAdvances(cfg, Step(cfg, s, es[0]), es[1..], x, if ThreadOf(es[0]) == x then k - 1 else k);
    }
  }

  lemma {:induction false} LiveAfterWait(cfg: Config, s: State, e: Event, x: Thread)
    requires s.Shaped(cfg) && Enabled(cfg, s, e) && IsWait(cfg, s, e) && Live(s, x)
    ensures Live(Step(cfg, s, e), x)
  {
    match e
    case Worker(w, luck) => WaitOfWorker(cfg, s, w, luck);
    case Main => WaitOfMain(cfg, s);
  }

  /** While nobody advances nobody stops. */
  lemma {:induction false} WaitingKeepsLive(cfg: Config, s: State, es: seq<Event>, x: Thread)
    requires s.Shaped(cfg) && Legal(cfg, s, es) && Live(s, x) && Advances(cfg, s, es) == 0
    ensures Live(After(cfg, s, es), x)
    decreases |es|
  {
    if es != [] {
      LiveAfterWait(cfg, s, es[0], x);
      WaitingKeepsLive(cfg, Step(cfg, s, es[0]), es[1..], x);
    }
  }

  /** In every unsettled state some thread is due within two turns. */
  lemma {:induction false} SomeoneIsDue(cfg: Config, s: State) returns (x: Thread)
    requires Inv(cfg, s) && !Settled(s)
    ensures Due(s, x, 2)
  {
    if w :| 0 <= w < cfg.workers && !Waiting(s.pcs[w]) {
      x := OfWorker(w);
    } else if w :| 0 <= w < cfg.workers && !s.pcs[w].Exited? && (s.stop || s.queue != []) {
      x := OfWorker(w);
    } else {
      x := OfMain;
      AllWaitingOweNothing(s.pcs);
      if s.unfinished > 0 && (s.main.Polling? || s.main.Checking?) {
        forall w | 0 <= w < cfg.workers ensures s.dead[w] { assert DeathOk(cfg, s, w); }
      }
    }
  }

  /** The thread has had its two turns in the round, or has stopped. */
  ghost predicate Served(cfg: Config, s: State, es: seq<Event>, x: Thread)
    requires s.Shaped(cfg) && Legal(cfg, s, es)
  {
    Turns(es, x) >= 2 || !Live(After(cfg, s, es), x)
  }

  ghost predicate FairRound(cfg: Config, s: State, es: seq<Event>)
    requires s.Shaped(cfg)
  {
    Legal(cfg, s, es) && forall x :: Live(s, x) ==> Served(cfg, s, es, x)
  }

  lemma {:induction false} FairRoundAdvances(cfg: Config, s: State, es: seq<Event>)
    requires Inv(cfg, s) && !Settled(s) && FairRound(cfg, s, es)
    ensures Advances(cfg, s, es) >= 1
  {
    var x := SomeoneIsDue(cfg, s);
    assert Served(cfg, s, es, x);
    if Turns(es, x) >= 2 {
      DueAdvances(cfg, s, es, x, 2);
    } else if Advances(cfg, s, es) == 0 {
      WaitingKeepsLive(cfg, s, es, x);
    }
  }

  ghost predicate FairRounds(cfg: Config, s: State, rounds: seq<seq<Event>>)
    requires s.Shaped(cfg)
    decreases |rounds|
  {
    rounds == []
    || (FairRound(cfg, s, rounds[0]) && FairRounds(cfg, After(cfg, s, rounds[0]), rounds[1..]))
  }

  ghost function AfterRounds(cfg: Config, s: State, rounds: seq<seq<Event>>): State
    requires s.Shaped(cfg) && FairRounds(cfg, s, rounds)
    decreases |rounds|
  {
    if rounds == [] then s else AfterRounds(cfg, After(cfg, s, rounds[0]), rounds[1..])
  }

  lemma {:induction false} SettledStays(cfg: Config, s: State, rounds: seq<seq<Event>>)
    requires s.Shaped(cfg) && Settled(s) && FairRounds(cfg, s, rounds)
    ensures AfterRounds(cfg, s, rounds) == s
    decreases |rounds|
  {
    if rounds != [] {
      assert rounds[0] == [];
      SettledStays(cfg, s, rounds[1..]);
    }
  }

  lemma {:induction false} UnsettledWeighs(cfg: Config, s: State)
    requires cfg.Valid() && Inv(cfg, s) && !Settled(s)
    ensures Potential(cfg, s) >= 1
  {
    var es := CanAdvance(cfg, s);
    AdvancesBounded(cfg, s, es);
    RunKeepsInv(cfg, s, es);
    PotentialNonneg(cfg, After(cfg, s, es));
  }

  /** As many fair rounds as the state's potential settle every run. */
  lemma {:induction false} FairRunSettles(cfg: Config, s: State, rounds: seq<seq<Event>>)
    requires cfg.Valid() && Inv(cfg, s) && FairRounds(cfg, s, rounds) && |rounds| >= Potential(cfg, s)
    ensures Settled(AfterRounds(cfg, s, rounds))
    decreases |rounds|
  {
    if Settled(s) {
      SettledStays(cfg, s, rounds);
    } else {
      UnsettledWeighs(cfg, s);
      FairRoundAdvances(cfg, s, rounds[0]);
      AdvancesBounded(cfg, s, rounds[0]);
      RunKeepsInv(cfg, s, rounds[0]);
      FairRunSettles(cfg, After(cfg, s, rounds[0]), rounds[1..]);
    }
  }

  /** Every fair run from the start settles within 8n(maxRetry+1) + 5W + 3 rounds. */
  lemma {:induction false} DispatchEnds(cfg: Config, rounds: seq<seq<Event>>)
    requires cfg.Valid() && FairRounds(cfg, Init(cfg), rounds)
    requires |rounds| >= 8 * (|cfg.codes| * (cfg.maxRetry + 1)) + 5 * cfg.workers + 3
    ensures Settled(AfterRounds(cfg, Init(cfg), rounds))
  {
    InvInit(cfg);
    InitialPotential(cfg);
    FairRunSettles(cfg, Init(cfg), rounds);
  }

  // ----- fair rounds exist -----

  lemma {:induction false} StoppedStays(cfg: Config, s: State, es: seq<Event>, x: Thread)
    requires s.Shaped(cfg) && Legal(cfg, s, es) && !Live(s, x)
    ensures !Live(After(cfg, s, es), x)
    decreases |es|
  {
    if es != [] { StoppedStays(cfg, Step(cfg, s, es[0]), es[1..], x); }
  }

  lemma {:induction false} TurnsConcat(es: seq<Event>, fs: seq<Event>, x: Thread)
    ensures Turns(es + fs, x) == Turns(es, x) + Turns(fs, x)
  {
    if es == [] {
      assert es + fs == fs;
    } else {
      assert (es + fs)[1..] == es[1..] + fs;
      TurnsConcat(es[1..], fs, x);
    }
  }

  lemma {:induction false} ServedByEither(cfg: Config, s: State, es: seq<Event>, fs: seq<Event>, x: Thread)
    requires s.Shaped(cfg) && Legal(cfg, s, es) && Legal(cfg, After(cfg, s, es), fs)
    requires Served(cfg, s, es, x) || Served(cfg, After(cfg, s, es), fs, x)
    ensures Legal(cfg, s, es + fs) && Served(cfg, s, es + fs, x)
  {
    AfterConcat(cfg, s, es, fs);
    TurnsConcat(es, fs, x);
    if !Live(After(cfg, s, es), x) { StoppedStays(cfg, After(cfg, s, es), fs, x); }
  }

  lemma {:induction false} TwoTurns(cfg: Config, s: State, x: Thread) returns (es: seq<Event>)
    requires s.Shaped(cfg)
    ensures Legal(cfg, s, es) && Served(cfg, s, es, x)
  {
    var e := if x.OfWorker? then Worker(x.w, true) else Main;
    if !Live(s, x) {
      es := [];
    } else if !Live(Step(cfg, s, e), x) {
      es := [e];
      Singleton(cfg, s, e);
    } else {
      es := [e, e];
      Twice(cfg, s, e, e);
      assert Turns([e, e], x) == 1 + Turns([e], x) by { assert [e, e][1..] == [e]; }
      assert Turns([e], x) == 1;
    }
  }

  lemma {:induction false} ServeWorkers(cfg: Config, s: State, n: nat) returns (es: seq<Event>)
    requires s.Shaped(cfg)
    ensures Legal(cfg, s, es) && forall w :: 0 <= w < n ==> Served(cfg, s, es, OfWorker(w))
  {
    if n == 0 {
      es := [];
    } else {
      var before := ServeWorkers(cfg, s, n - 1);
      var own := TwoTurns(cfg, After(cfg, s, before), OfWorker(n - 1));
      es := before + own;
      AfterConcat(cfg, s, before, own);
      forall w | 0 <= w < n ensures Served(cfg, s, es, OfWorker(w)) {
        ServedByEither(cfg, s, before, own, OfWorker(w));
      }
    }
  }

  /** From every state a fair round can be scheduled. */
  lemma {:induction false} FairRoundExists(cfg: Config, s: State) returns (es: seq<Event>)
    requires s.Shaped(cfg)
    ensures FairRound(cfg, s, es)
  {
    var workers := ServeWorkers(cfg, s, cfg.workers);
    var last := TwoTurns(cfg, After(cfg, s, workers), OfMain);
    es := workers + last;
    AfterConcat(cfg, s, workers, last);
    forall x | Live(s, x) ensures Served(cfg, s, es, x) { ServedByEither(cfg, s, workers, last, x); }
  }
}
