/** What the world's answers in a schedule decide: a failed login takes its worker out for good, a call leaves exactly
    the result it had, and a worker is dead exactly when its login failed or its failures reached the threshold. */
module DispatchLogin {
  import opened Dispatch
  import opened DispatchInvariant
  import opened DispatchRuns

  predicate IsTurn(e: Event, w: nat) { e.Worker? && e.w == w }

  ghost predicate NoTurn(es: seq<Event>, w: nat) { forall i :: 0 <= i < |es| ==> !IsTurn(es[i], w) }

  /** Event `i` is the first turn of worker `w`: its login. */
  ghost predicate FirstTurn(es: seq<Event>, w: nat, i: nat) {
    i < |es| && IsTurn(es[i], w) && NoTurn(es[..i], w)
  }

  ghost predicate NoTrialBy(trials: seq<Trial>, w: nat) { forall k :: 0 <= k < |trials| ==> trials[k].w != w }

  lemma {:induction false} SplitRun(cfg: Config, s: State, es: seq<Event>, n: nat)
    requires s.Shaped(cfg) && Legal(cfg, s, es) && n <= |es|
    ensures Legal(cfg, s, es[..n]) && Legal(cfg, After(cfg, s, es[..n]), es[n..])
    ensures After(cfg, After(cfg, s, es[..n]), es[n..]) == After(cfg, s, es)
    decreases n
  {
    if n == 0 {
      assert es[..0] == [] && es[0..] == es;
    } else {
      SplitRun(cfg, Step(cfg, s, es[0]), es[1..], n - 1);
      assert es[..n][1..] == es[1..][..n - 1] && es[n..] == es[1..][n - 1..];
    }
  }

  /** The last step of a run. */
  lemma {:induction false} LastStep(cfg: Config, s: State, es: seq<Event>, e: Event)
    requires s.Shaped(cfg) && Legal(cfg, s, es + [e])
    ensures Legal(cfg, s, es) && Enabled(cfg, After(cfg, s, es), e)
    ensures After(cfg, s, es + [e]) == Step(cfg, After(cfg, s, es), e)
  {
    SplitRun(cfg, s, es + [e], |es|);
    assert (es + [e])[..|es|] == es && (es + [e])[|es|..] == [e];
    Singleton(cfg, After(cfg, s, es), e);
  }

  // ----- calls -----

  /** The call that ends with the event, with its answer. */
  function CallEnding(s: State, e: Event): seq<Trial> {
    if e.Worker? && e.w < |s.pcs| && s.pcs[e.w].Processing? then [Trial(e.w, s.pcs[e.w].t, e.luck)] else []
  }

  lemma {:induction false} Regroup(a: seq<Trial>, b: seq<Trial>, c: seq<Trial>)
    ensures a + b + c == a + (b + c)
  {
  }

  /** A step of a worker in a call adds that call with its answer to the trials; no other step adds anything. */
  lemma {:induction false} TrialOfStep(cfg: Config, s: State, e: Event)
    requires s.Shaped(cfg) && Enabled(cfg, s, e)
    ensures Step(cfg, s, e).trials == s.trials + CallEnding(s, e)
  {
    assert s.trials + [] == s.trials;
  }

  /** The calls that end in a run, each with the answer in the schedule. */
  function EndedCalls(cfg: Config, s: State, es: seq<Event>): seq<Trial>
    requires s.Shaped(cfg) && Legal(cfg, s, es)
    decreases |es|
  {
    if es == [] then [] else CallEnding(s, es[0]) + EndedCalls(cfg, Step(cfg, s, es[0]), es[1..])
  }

  /** The trials of a run are the calls that ended in it, in order and with the answers of the schedule. */
  lemma {:induction false} TrialsAreCalls(cfg: Config, s: State, es: seq<Event>)
    requires s.Shaped(cfg) && Legal(cfg, s, es)
    ensures After(cfg, s, es).trials == s.trials + EndedCalls(cfg, s, es)
    decreases |es|
  {
    if es == [] {
      assert s.trials + [] == s.trials;
    } else {
      hide Step;
      var m := Step(cfg, s, es[0]);
      TrialOfStep(cfg, s, es[0]);
      TrialsAreCalls(cfg, m, es[1..]);
      Regroup(s.trials, CallEnding(s, es[0]), EndedCalls(cfg, m, es[1..]));
    }
  }

  // ----- logins -----

  /** Before its first turn a worker stands at its login, alive and without a call. */
  ghost predicate Untouched(s: State, w: nat) {
    w < |s.pcs| == |s.dead| && s.pcs[w].Login? && !s.dead[w] && NoTrialBy(s.trials, w)
  }

  /** A worker whose login failed is dead, has left and makes no call. */
  ghost predicate Out(s: State, w: nat) {
    w < |s.pcs| == |s.dead| && s.pcs[w].Exited? && s.dead[w] && NoTrialBy(s.trials, w)
  }

  lemma {:induction false} OthersTurn(cfg: Config, s: State, e: Event, w: nat)
    requires s.Shaped(cfg) && Enabled(cfg, s, e) && w < cfg.workers && !IsTurn(e, w)
    ensures var s' := Step(cfg, s, e);
            && s'.pcs[w] == s.pcs[w] && s'.dead[w] == s.dead[w] && s'.streak[w] == s.streak[w]
            && (NoTrialBy(s.trials, w) ==> NoTrialBy(s'.trials, w))
  {
    TrialOfStep(cfg, s, e);
  }

  lemma {:induction false} StaysUntouched(cfg: Config, s: State, es: seq<Event>, w: nat)
    requires s.Shaped(cfg) && Legal(cfg, s, es) && w < cfg.workers && NoTurn(es, w) && Untouched(s, w)
    ensures Untouched(After(cfg, s, es), w)
    decreases |es|
  {
    if es != [] {
      hide NoTrialBy, Step;
      OthersTurn(cfg, s, es[0], w);
      StaysUntouched(cfg, Step(cfg, s, es[0]), es[1..], w);
    }
  }

  lemma {:induction false} StaysOut(cfg: Config, s: State, es: seq<Event>, w: nat)
    requires s.Shaped(cfg) && Legal(cfg, s, es) && w < cfg.workers && Out(s, w)
    ensures Out(After(cfg, s, es), w)
    decreases |es|
  {
    if es != [] {
      hide NoTrialBy, Step;
      OthersTurn(cfg, s, es[0], w);
      StaysOut(cfg, Step(cfg, s, es[0]), es[1..], w);
    }
  }

  lemma {:induction false} LoginStep(cfg: Config, s: State, w: nat, luck: bool)
    requires s.Shaped(cfg) && w < cfg.workers && Untouched(s, w)
    ensures var s' := Step(cfg, s, Worker(w, luck));
            if luck then s'.pcs[w].Idle? && !s'.dead[w] && NoTrialBy(s'.trials, w) else Out(s', w)
  {
  }

  lemma {:induction false} InitUntouched(cfg: Config, w: nat)
    requires w < cfg.workers
    ensures Untouched(Init(cfg), w)
  {
  }

  /** The first turn of a worker is its login. Fails it, the worker is dead and has left from then on, and no call of
      the whole run is its own; otherwise the worker comes out of it alive and goes on. */
  lemma {:induction false} LoginDecides(cfg: Config, es: seq<Event>, w: nat, i: nat)
    requires Legal(cfg, Init(cfg), es) && w < cfg.workers && FirstTurn(es, w, i)
    ensures Legal(cfg, Init(cfg), es[..i + 1])
    ensures var s := After(cfg, Init(cfg), es[..i + 1]);
            if es[i].luck then s.pcs[w].Idle? && !s.dead[w] else Out(s, w) && Out(After(cfg, Init(cfg), es), w)
  {
    hide Out, Untouched, Step, NoTrialBy;
    SplitRun(cfg, Init(cfg), es, i + 1);
    assert es[..i + 1] == es[..i] + [es[i]];
    LastStep(cfg, Init(cfg), es[..i], es[i]);
    InitUntouched(cfg, w);
    StaysUntouched(cfg, Init(cfg), es[..i], w);
    LoginStep(cfg, After(cfg, Init(cfg), es[..i]), w, es[i].luck);
    if !es[i].luck { StaysOut(cfg, After(cfg, Init(cfg), es[..i + 1]), es[i + 1..], w); }
  }

  // ----- a run in which every login fails -----

  /** Who has moved stands no longer at its login. */
  lemma {:induction false} LoginMeansNoTurn(cfg: Config, s: State, es: seq<Event>, w: nat)
    requires s.Shaped(cfg) && Legal(cfg, s, es) && w < cfg.workers && After(cfg, s, es).pcs[w].Login?
    ensures NoTurn(es, w) && s.pcs[w].Login?
    decreases |es|
  {
    if es != [] {
      var s' := Step(cfg, s, es[0]);
      LoginMeansNoTurn(cfg, s', es[1..], w);
      if IsTurn(es[0], w) {
        TurnLeavesLogin(cfg, s, w, es[0].luck);
      } else {
        OthersTurn(cfg, s, es[0], w);
        assert es == [es[0]] + es[1..];
      }
    }
  }

  lemma {:induction false} TurnLeavesLogin(cfg: Config, s: State, w: nat, luck: bool)
    requires s.Shaped(cfg) && w < cfg.workers
    ensures !WorkerStep(cfg, s, w, luck).pcs[w].Login?
  {
  }

  /** Nobody got past the login, nothing was tried, and only the drain reported. */
  ghost predicate Barren(s: State) {
    && (forall w :: 0 <= w < |s.pcs| ==> s.pcs[w].Login? || s.pcs[w].Exited?)
    && s.trials == []
    && forall i :: 0 <= i < |s.outcomes| ==> s.outcomes[i].reporter == AllDead && s.outcomes[i].status == DeadSkipped
  }

  lemma {:induction false} BarrenTurn(cfg: Config, s: State, w: nat)
    requires s.Shaped(cfg) && w < cfg.workers && Barren(s) && s.pcs[w].Login?
    ensures Barren(WorkerStep(cfg, s, w, false))
  {
  }

  lemma {:induction false} BarrenMain(s: State)
    requires Barren(s)
    ensures Barren(MainStep(s))
  {
  }

  ghost predicate EveryLoginFails(es: seq<Event>) { forall w: nat, i: nat :: FirstTurn(es, w, i) ==> !es[i].luck }

  /** When every login of a run fails, no call is ever made, and every ticket that is reported is reported by the drain,
      as skipped. */
  lemma {:induction false} AllLoginsFail(cfg: Config, es: seq<Event>)
    requires Legal(cfg, Init(cfg), es) && EveryLoginFails(es)
    ensures Barren(After(cfg, Init(cfg), es))
    decreases |es|
  {
    if es != [] {
      hide Barren, Step;
      var front, e := es[..|es| - 1], es[|es| - 1];
      assert es == front + [e];
      LastStep(cfg, Init(cfg), front, e);
      FewerLogins(front, e);
      AllLoginsFail(cfg, front);
      BarrenStep(cfg, front, e);
    } else {
      assert Init(cfg).trials == [] && Init(cfg).outcomes == [];
    }
  }

  lemma {:induction false} FewerLogins(front: seq<Event>, e: Event)
    requires EveryLoginFails(front + [e])
    ensures EveryLoginFails(front)
  {
    forall w: nat, i: nat | FirstTurn(front, w, i) ensures !front[i].luck {
      assert (front + [e])[..i] == front[..i];
      assert FirstTurn(front + [e], w, i);
    }
  }

  lemma {:induction false} BarrenStep(cfg: Config, front: seq<Event>, e: Event)
    requires Legal(cfg, Init(cfg), front) && Enabled(cfg, After(cfg, Init(cfg), front), e)
    requires Barren(After(cfg, Init(cfg), front)) && EveryLoginFails(front + [e])
    ensures Barren(Step(cfg, After(cfg, Init(cfg), front), e))
  {
    var s := After(cfg, Init(cfg), front);
    match e
    case Worker(w, luck) =>
      LoginMeansNoTurn(cfg, Init(cfg), front, w);
      assert (front + [e])[..|front|] == front;
      assert FirstTurn(front + [e], w, |front|);
      BarrenTurn(cfg, s, w);
    case Main => BarrenMain(s);
  }

  // ----- who is dead -----

  ghost predicate LoginFailed(es: seq<Event>, w: nat) { exists i: nat :: FirstTurn(es, w, i) && !es[i].luck }

  /** At some point the failures of `w` since its last success reached the threshold. */
  ghost predicate Reached(trials: seq<Trial>, w: nat, threshold: nat) {
    exists n :: 0 <= n <= |trials| && StreakOf(trials[..n], w) >= threshold
  }

  lemma {:induction false} ReachedAppend(trials: seq<Trial>, x: Trial, w: nat, threshold: nat)
    ensures Reached(trials + [x], w, threshold)
            <==> Reached(trials, w, threshold) || StreakOf(trials + [x], w) >= threshold
  {
    hide StreakOf;
    var all := trials + [x];
    assert all[..|all|] == all && forall n :: 0 <= n <= |trials| ==> all[..n] == trials[..n];
    if n :| 0 <= n <= |trials| && StreakOf(trials[..n], w) >= threshold { assert StreakOf(all[..n], w) >= threshold; }
    if n :| 0 <= n <= |all| && StreakOf(all[..n], w) >= threshold {
      if n <= |trials| { assert StreakOf(trials[..n], w) >= threshold; }
    }
  }

  lemma {:induction false} LoginFailedSnoc(es: seq<Event>, e: Event, w: nat)
    ensures LoginFailed(es + [e], w) <==> LoginFailed(es, w) || (NoTurn(es, w) && IsTurn(e, w) && !e.luck)
  {
    var all := es + [e];
    assert all[..|es|] == es && forall i :: 0 <= i < |es| ==> all[i] == es[i] && all[..i] == es[..i];
    if i: nat :| FirstTurn(es, w, i) && !es[i].luck { assert FirstTurn(all, w, i); }
    if i: nat :| FirstTurn(all, w, i) && !all[i].luck {
      if i < |es| { assert FirstTurn(es, w, i); }
    }
    if NoTurn(es, w) && IsTurn(e, w) { assert FirstTurn(all, w, |es|); }
  }

  ghost predicate RightlyDead(cfg: Config, es: seq<Event>, s: State, w: nat)
    requires w < |s.dead|
  {
    s.dead[w] <==> LoginFailed(es, w) || Reached(s.trials, w, cfg.threshold)
  }

  /** Another thread's step. */
  lemma {:induction false} DeadByOthers(cfg: Config, es: seq<Event>, s: State, e: Event, w: nat)
    requires s.Shaped(cfg) && Enabled(cfg, s, e) && w < cfg.workers && !IsTurn(e, w)
    requires RightlyDead(cfg, es, s, w)
    ensures RightlyDead(cfg, es + [e], Step(cfg, s, e), w)
  {
    hide Reached, LoginFailed, Step;
    OthersTurn(cfg, s, e, w);
    LoginFailedSnoc(es, e, w);
    TrialOfStep(cfg, s, e);
    if e.Worker? && s.pcs[e.w].Processing? {
      var x := Trial(e.w, s.pcs[e.w].t, e.luck);
      ReachedAppend(s.trials, x, w, cfg.threshold);
      StreakOfAppend(s.trials, x, w);
      NowReached(s.trials, w, cfg.threshold);
    } else {
      assert s.trials + [] == s.trials;
    }
  }

  lemma {:induction false} NowReached(trials: seq<Trial>, w: nat, threshold: nat)
    ensures StreakOf(trials, w) >= threshold ==> Reached(trials, w, threshold)
  {
    assert trials[..|trials|] == trials;
  }

  /** The end of a call of `w`. */
  lemma {:induction false} DeadByCall(cfg: Config, es: seq<Event>, s: State, w: nat, luck: bool)
    requires cfg.Valid() && Inv(cfg, s) && w < cfg.workers && s.pcs[w].Processing? && RightlyDead(cfg, es, s, w)
    requires !NoTurn(es, w)
    ensures RightlyDead(cfg, es + [Worker(w, luck)], Step(cfg, s, Worker(w, luck)), w)
  {
    hide Reached, LoginFailed, Conserved, Accounted, Counted, Steered, StreakOf;
    assert StreakOk(cfg, s, w) && DeathOk(cfg, s, w);
    var x := Trial(w, s.pcs[w].t, luck);
    LoginFailedSnoc(es, Worker(w, luck), w);
    TrialOfStep(cfg, s, Worker(w, luck));
    ReachedAppend(s.trials, x, w, cfg.threshold);
    StreakOfAppend(s.trials, x, w);
  }

  /** Any other turn of `w` after its login. */
  lemma {:induction false} DeadByTurn(cfg: Config, es: seq<Event>, s: State, w: nat, luck: bool)
    requires s.Shaped(cfg) && w < cfg.workers && !s.pcs[w].Processing? && !s.pcs[w].Login?
    requires RightlyDead(cfg, es, s, w) && !NoTurn(es, w)
    ensures RightlyDead(cfg, es + [Worker(w, luck)], WorkerStep(cfg, s, w, luck), w)
  {
    hide Reached, LoginFailed;
    LoginFailedSnoc(es, Worker(w, luck), w);
  }

  lemma {:induction false} NothingReached(trials: seq<Trial>, w: nat, threshold: nat)
    requires NoTrialBy(trials, w) && threshold >= 1
    ensures !Reached(trials, w, threshold)
  {
    forall n | 0 <= n <= |trials| ensures StreakOf(trials[..n], w) == 0 { NoStreak(trials[..n], w); }
  }

  lemma {:induction false} NoStreak(trials: seq<Trial>, w: nat)
    requires NoTrialBy(trials, w)
    ensures StreakOf(trials, w) == 0
  {
    if trials != [] { NoStreak(trials[..|trials| - 1], w); }
  }

  lemma {:induction false} NoLoginYet(es: seq<Event>, w: nat)
    requires NoTurn(es, w)
    ensures !LoginFailed(es, w)
  {
    forall i: nat ensures !FirstTurn(es, w, i) {}
  }

  lemma {:induction false} DeadByLogin(cfg: Config, es: seq<Event>, s: State, w: nat, luck: bool)
    requires cfg.Valid() && s.Shaped(cfg) && w < cfg.workers && Untouched(s, w) && NoTurn(es, w)
    ensures RightlyDead(cfg, es + [Worker(w, luck)], Step(cfg, s, Worker(w, luck)), w)
  {
    hide Reached, LoginFailed, Step, NoTrialBy;
    LoginStep(cfg, s, w, luck);
    LoginFailedSnoc(es, Worker(w, luck), w);
    NoLoginYet(es, w);
    NothingReached(Step(cfg, s, Worker(w, luck)).trials, w, cfg.threshold);
  }

  lemma {:induction false} DeadByStep(cfg: Config, es: seq<Event>, e: Event, w: nat)
    requires cfg.Valid() && Legal(cfg, Init(cfg), es) && Enabled(cfg, After(cfg, Init(cfg), es), e)
    requires w < cfg.workers && RightlyDead(cfg, es, After(cfg, Init(cfg), es), w)
    ensures RightlyDead(cfg, es + [e], Step(cfg, After(cfg, Init(cfg), es), e), w)
  {
    hide RightlyDead, WorkerStep, Inv, Untouched;
    var s := After(cfg, Init(cfg), es);
    InvInit(cfg);
    RunKeepsInv(cfg, Init(cfg), es);
    InitUntouched(cfg, w);
    if !IsTurn(e, w) {
      DeadByOthers(cfg, es, s, e, w);
    } else if NoTurn(es, w) {
      StaysUntouched(cfg, Init(cfg), es, w);
      DeadByLogin(cfg, es, s, w, e.luck);
    } else if s.pcs[w].Processing? {
      DeadByCall(cfg, es, s, w, e.luck);
    } else {
      if s.pcs[w].Login? { LoginMeansNoTurn(cfg, Init(cfg), es, w); }
      DeadByTurn(cfg, es, s, w, e.luck);
    }
  }

  /** In every run a worker is dead exactly when its login failed or its failures since a success have at some point
      reached the threshold. */
  lemma {:induction false} DeadExactlyWhen(cfg: Config, es: seq<Event>, w: nat)
    requires cfg.Valid() && Legal(cfg, Init(cfg), es) && w < cfg.workers
    ensures RightlyDead(cfg, es, After(cfg, Init(cfg), es), w)
    decreases |es|
  {
    if es == [] {
      NothingReached([], w, cfg.threshold);
      NoLoginYet([], w);
    } else {
      hide RightlyDead, Step;
      var front, e := es[..|es| - 1], es[|es| - 1];
      assert es == front + [e];
      LastStep(cfg, Init(cfg), front, e);
      DeadExactlyWhen(cfg, front, w);
      DeadByStep(cfg, front, e, w);
    }
  }
}
