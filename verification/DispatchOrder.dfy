/** The queue of the dispatcher is first in, first out over any run: tickets are taken in the order in which they were
    submitted or put back, a retry behind everything that was waiting. */
module DispatchOrder {
  import opened Dispatch
  import opened DispatchRuns

  /** The ticket that a step puts back: the one in a dead worker's hand, or a failed one with its next attempt. */
  function PutBy(cfg: Config, s: State, e: Event): seq<Ticket>
    requires s.Shaped(cfg) && Enabled(cfg, s, e)
  {
    if e.Main? then []
    else match s.pcs[e.w]
    case Bouncing(t) => [t]
    case Retrying(t) => [Ticket(t.id, t.attempt + 1)]
    case _ => []
  }

  /** The ticket that a step takes: it turns up in the hand of a worker or of the drain. */
  function TakenBy(cfg: Config, s: State, e: Event): seq<Ticket>
    requires s.Shaped(cfg) && Enabled(cfg, s, e)
  {
    var s' := Step(cfg, s, e);
    match e
    case Worker(w, _) => if s.pcs[w].Getting? && s'.pcs[w].Got? then [s'.pcs[w].t] else []
    case Main => if s.main.Draining? && s'.main.DrainHolding? then [s'.main.t] else []
  }

  function PutIn(cfg: Config, s: State, es: seq<Event>): seq<Ticket>
    requires s.Shaped(cfg) && Legal(cfg, s, es)
    decreases |es|
  {
    if es == [] then [] else PutBy(cfg, s, es[0]) + PutIn(cfg, Step(cfg, s, es[0]), es[1..])
  }

  function TakenOut(cfg: Config, s: State, es: seq<Event>): seq<Ticket>
    requires s.Shaped(cfg) && Legal(cfg, s, es)
    decreases |es|
  {
    if es == [] then [] else TakenBy(cfg, s, es[0]) + TakenOut(cfg, Step(cfg, s, es[0]), es[1..])
  }

  /** The queue `q` with `put` behind it is `taken` with the queue `q'` behind it. */
  ghost predicate Balanced(q: seq<Ticket>, put: seq<Ticket>, taken: seq<Ticket>, q': seq<Ticket>) {
    q + put == taken + q'
  }

  lemma {:induction false} BalancedPut(q: seq<Ticket>, put: seq<Ticket>)
    ensures Balanced(q, put, [], q + put)
  {
  }

  lemma {:induction false} BalancedGet(q: seq<Ticket>)
    requires q != []
    ensures Balanced(q, [], [q[0]], q[1..])
  {
  }

  lemma {:induction false} BalancedStill(q: seq<Ticket>)
    ensures Balanced(q, [], [], q)
  {
  }

  lemma {:induction false} QueueOfWorker(cfg: Config, s: State, w: nat, luck: bool)
    requires s.Shaped(cfg) && w < cfg.workers && !s.pcs[w].Exited?
    ensures var e := Worker(w, luck);
            Balanced(s.queue, PutBy(cfg, s, e), TakenBy(cfg, s, e), WorkerStep(cfg, s, w, luck).queue)
  {
    hide Balanced;
    BalancedStill(s.queue);
    if s.pcs[w].Bouncing? || s.pcs[w].Retrying? {
      BalancedPut(s.queue, PutBy(cfg, s, Worker(w, luck)));
    } else if s.pcs[w].Getting? && s.queue != [] {
      BalancedGet(s.queue);
    } else {
      assert WorkerStep(cfg, s, w, luck).queue == s.queue;
    }
  }

  lemma {:induction false} QueueOfMain(cfg: Config, s: State)
    requires s.Shaped(cfg) && !s.main.Stopped?
    ensures Balanced(s.queue, PutBy(cfg, s, Main), TakenBy(cfg, s, Main), MainStep(s).queue)
  {
    hide Balanced;
    BalancedStill(s.queue);
    if s.queue != [] { BalancedGet(s.queue); }
  }

  lemma {:induction false} QueueStep(cfg: Config, s: State, e: Event)
    requires s.Shaped(cfg) && Enabled(cfg, s, e)
    ensures Balanced(s.queue, PutBy(cfg, s, e), TakenBy(cfg, s, e), Step(cfg, s, e).queue)
  {
    hide Balanced, PutBy, TakenBy, WorkerStep, MainStep;
    match e
    case Worker(w, luck) => QueueOfWorker(cfg, s, w, luck);
    case Main => QueueOfMain(cfg, s);
  }

  lemma {:induction false} Chained(q: seq<Ticket>, p: seq<Ticket>, ps: seq<Ticket>, t: seq<Ticket>, ts: seq<Ticket>,
                                   mid: seq<Ticket>, end: seq<Ticket>)
    requires q + p == t + mid && mid + ps == ts + end
    ensures q + (p + ps) == (t + ts) + end
  {
    assert q + (p + ps) == (q + p) + ps == t + (mid + ps) == (t + ts) + end;
  }

  /** What was queued, followed by what was put in, is what was taken, followed by what is queued: tickets leave in the
      order in which they came. */
  lemma {:induction false} FirstInFirstOut(cfg: Config, s: State, es: seq<Event>)
    requires s.Shaped(cfg) && Legal(cfg, s, es)
    ensures s.queue + PutIn(cfg, s, es) == TakenOut(cfg, s, es) + After(cfg, s, es).queue
    decreases |es|
  {
    if es == [] {
      assert s.queue + [] == [] + s.queue;
    } else {
      hide Step, PutBy, TakenBy;
      var m := Step(cfg, s, es[0]);
      QueueStep(cfg, s, es[0]);
      FirstInFirstOut(cfg, m, es[1..]);
      Chained(s.queue, PutBy(cfg, s, es[0]), PutIn(cfg, m, es[1..]), TakenBy(cfg, s, es[0]), TakenOut(cfg, m, es[1..]),
              m.queue, After(cfg, s, es).queue);
    }
  }

  /** After a retry has been put back, everything that was waiting then is taken before it. */
  lemma {:induction false} RetryWaitsItsTurn(cfg: Config, s: State, w: nat, luck: bool, es: seq<Event>)
    requires s.Shaped(cfg) && w < cfg.workers && s.pcs[w].Retrying? && Legal(cfg, s, [Worker(w, luck)] + es)
    ensures var t := Ticket(s.pcs[w].t.id, s.pcs[w].t.attempt + 1);
            var taken := TakenOut(cfg, s, [Worker(w, luck)] + es);
            if |taken| <= |s.queue| then taken == s.queue[..|taken|]
            else taken[..|s.queue|] == s.queue && taken[|s.queue|] == t
  {
    hide Step;
    var all, e := [Worker(w, luck)] + es, Worker(w, luck);
    var t, taken := Ticket(s.pcs[w].t.id, s.pcs[w].t.attempt + 1), TakenOut(cfg, s, all);
    FirstInFirstOut(cfg, s, all);
    assert PutIn(cfg, s, all) == [t] + PutIn(cfg, Step(cfg, s, e), es) by { assert all[1..] == es; }
    PrefixOf(taken, After(cfg, s, all).queue, s.queue, PutIn(cfg, s, all));
  }

  lemma {:induction false} PrefixOf(a: seq<Ticket>, b: seq<Ticket>, c: seq<Ticket>, d: seq<Ticket>)
    requires a + b == c + d
    ensures |a| <= |c| ==> a == c[..|a|]
    ensures |a| > |c| ==> a[..|c|] == c && d != [] && a[|c|] == d[0]
  {
    assert a == (c + d)[..|a|];
    if |a| > |c| { assert a[|c|] == (c + d)[|c|]; }
  }
}
