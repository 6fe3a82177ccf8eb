/** The reliable queue is a FIFO with removals, over every run of the protocol:
    claims come in push order, and a push that is neither claimed nor still
    queued was taken out by a cancelling Dequeue. */
module Fifo {
  import opened Store
  import opened Protocol
  import opened Frames

  /** What one step does to jobs:queue. */
  datatype QueueStep = Nothing | Push(e: Entry) | Pop | Remove(e: Entry)

  function StepOf(s: State, a: Action): QueueStep {
    match a
    case Backend(EnqueueOk(id)) =>
      if id in s.calls && s.calls[id].MustEnqueue? then Push(JobRef(id)) else Nothing
    case Backend(EnqueueRaises(id, landed, _)) =>
      if id in s.calls && s.calls[id].MustEnqueue? && landed then Push(JobRef(id)) else Nothing
    case Backend(DequeueCancelled(id)) => if id in s.dequeues then Remove(JobRef(id)) else Nothing
    case Work(p, TakeJob) => if p in s.pcs && s.pcs[p].Idle? && s.st.queue != [] then Pop else Nothing
    case Sweep(p, RequeueOne) =>
      if p in s.pcs && s.pcs[p].Requeueing? && s.pcs[p].todo != [] then Push(JobRef(s.pcs[p].todo[0])) else Nothing
    case Sweep(p, RecoverOne) =>
      if p in s.pcs && s.pcs[p].Recovering? && s.pcs[p].candidates != []
         && JobRef(s.pcs[p].candidates[0]) !in s.pcs[p].live
      then Push(JobRef(s.pcs[p].candidates[0])) else Nothing
    case ForeignPush(text) => Push(Junk(text))
    case _ => Nothing
  }

  function QueueAfter(q: seq<Entry>, t: QueueStep): seq<Entry> {
    match t
    case Nothing => q
    case Push(e) => [e] + q
    case Pop => if q == [] then q else q[..|q| - 1]
    case Remove(e) => RemoveAll(q, e)
  }

  /** StepOf accounts for every change of jobs:queue but a flush. */
  lemma StepOfIsRight(s: State, a: Action)
    requires a != Flush
    ensures Apply(s, a).st.queue == QueueAfter(s.st.queue, StepOf(s, a))
  {
    match a
    case Backend(b) =>
    case Work(p, w) =>
      if p in s.pcs && !w.TakeJob? && !w.ReadJob? && !w.AckJob? { RunStepFrame(s, p, w); }
    case Sweep(p, r) =>
    case _ =>
  }

  // -------------------------------------------------------- the ledger

  /** The queue of a run with what was pushed, claimed and removed so far, in order. */
  datatype Ledger = Ledger(queue: seq<Entry>, claimed: seq<Entry>, pushed: seq<Entry>, removed: multiset<Entry>)

  function Enter(l: Ledger, t: QueueStep): Ledger {
    var q := QueueAfter(l.queue, t);
    match t
    case Nothing => l
    case Push(e) => l.(queue := q, pushed := l.pushed + [e])
    case Pop => if l.queue == [] then l else l.(queue := q, claimed := l.claimed + [l.queue[|l.queue| - 1]])
    case Remove(e) => l.(queue := q, removed := l.removed[e := l.removed[e] + multiset(l.queue)[e]])
  }

  function LedgerOf(s: State, acts: seq<Action>, l: Ledger): Ledger
    decreases |acts|
  {
    if acts == [] then l else LedgerOf(Apply(s, acts[0]), acts[1..], Enter(l, StepOf(s, acts[0])))
  }

  lemma {:induction false} LedgerTracksQueue(s: State, acts: seq<Action>, l: Ledger)
    requires Flush !in acts && l.queue == s.st.queue
    ensures LedgerOf(s, acts, l).queue == Exec(s, acts).st.queue
    decreases |acts|
  {
    if acts != [] {
      StepOfIsRight(s, acts[0]);
      LedgerTracksQueue(Apply(s, acts[0]), acts[1..], Enter(l, StepOf(s, acts[0])));
    }
  }

  // -------------------------------------------------------- the order

  function Reverse(q: seq<Entry>): seq<Entry> {
    if q == [] then [] else Reverse(q[1..]) + [q[0]]
  }

  lemma {:induction false} ReverseLast(q: seq<Entry>)
    requires q != []
    ensures Reverse(q) == [q[|q| - 1]] + Reverse(q[..|q| - 1])
  {
    if |q| > 1 {
      ReverseLast(q[1..]);
      assert q[1..][..|q| - 2] == q[..|q| - 1][1..];
    }
  }

  /** `a` is `b` with some elements left out. */
  ghost predicate Subsequence(a: seq<Entry>, b: seq<Entry>) {
    || a == []
    || (b != [] && a[|a| - 1] == b[|b| - 1] && Subsequence(a[..|a| - 1], b[..|b| - 1]))
    || (b != [] && Subsequence(a, b[..|b| - 1]))
  }

  lemma {:induction false} SubsequenceRefl(a: seq<Entry>)
    ensures Subsequence(a, a)
  {
    if a != [] { SubsequenceRefl(a[..|a| - 1]); }
  }

  lemma SubsequenceSnoc(a: seq<Entry>, b: seq<Entry>, e: Entry)
    requires Subsequence(a, b)
    ensures Subsequence(a + [e], b + [e]) && Subsequence(a, b + [e])
  {
    assert (a + [e])[..|a|] == a && (b + [e])[..|b|] == b;
  }

  lemma {:induction false} SubsequenceTrans(a: seq<Entry>, b: seq<Entry>, c: seq<Entry>)
    requires Subsequence(a, b) && Subsequence(b, c)
    ensures Subsequence(a, c)
    decreases |b| + |c|
  {
    if a != [] {
      if b[|b| - 1] == c[|c| - 1] && Subsequence(b[..|b| - 1], c[..|c| - 1]) {
        if a[|a| - 1] == b[|b| - 1] && Subsequence(a[..|a| - 1], b[..|b| - 1]) {
          SubsequenceTrans(a[..|a| - 1], b[..|b| - 1], c[..|c| - 1]);
        } else {
          SubsequenceTrans(a, b[..|b| - 1], c[..|c| - 1]);
        }
      } else {
        SubsequenceTrans(a, b, c[..|c| - 1]);
      }
    }
  }

  lemma ReverseCons(c: seq<Entry>, x: Entry, q: seq<Entry>)
    ensures c + Reverse([x] + q) == (c + Reverse(q)) + [x]
  {
    assert ([x] + q)[1..] == q;
  }

  /** Removing an entry leaves a subsequence of claims and queue. */
  lemma {:induction false} RemovalIsSubsequence(c: seq<Entry>, q: seq<Entry>, e: Entry)
    ensures Subsequence(c + Reverse(RemoveAll(q, e)), c + Reverse(q))
  {
    if q == [] {
      SubsequenceRefl(c);
      assert c + [] == c;
    } else {
      var kept := RemoveAll(q[1..], e);
      RemovalIsSubsequence(c, q[1..], e);
      SubsequenceSnoc(c + Reverse(kept), c + Reverse(q[1..]), q[0]);
      ReverseCons(c, q[0], q[1..]);
      ReverseCons(c, q[0], kept);
      assert q == [q[0]] + q[1..];
    }
  }

  ghost predicate Orderly(l: Ledger) {
    && Subsequence(l.claimed + Reverse(l.queue), l.pushed)
    && multiset(l.pushed) == multiset(l.claimed) + multiset(l.queue) + l.removed
  }

  /** Nothing is missing: claims and queue are the pushes, in order. */
  ghost predicate Exact(l: Ledger) {
    l.claimed + Reverse(l.queue) == l.pushed
  }

  lemma OrderlyStep(l: Ledger, t: QueueStep)
    requires Orderly(l)
    ensures Orderly(Enter(l, t))
    ensures !t.Remove? && Exact(l) ==> Exact(Enter(l, t))
  {
    match t
    case Nothing =>
    case Push(e) => OrderlyPush(l, e);
    case Pop => if l.queue != [] { OrderlyPop(l); }
    case Remove(e) =>
      RemovalIsSubsequence(l.claimed, l.queue, e);
      SubsequenceTrans(l.claimed + Reverse(RemoveAll(l.queue, e)), l.claimed + Reverse(l.queue), l.pushed);
      RemoveAllCounts(l.queue, e);
  }

  lemma OrderlyPush(l: Ledger, e: Entry)
    requires Orderly(l)
    ensures Orderly(Enter(l, Push(e)))
    ensures Exact(l) ==> Exact(Enter(l, Push(e)))
  {
    var q := [e] + l.queue;
    assert q[1..] == l.queue;
    assert l.claimed + Reverse(q) == (l.claimed + Reverse(l.queue)) + [e];
    SubsequenceSnoc(l.claimed + Reverse(l.queue), l.pushed, e);
  }

  lemma OrderlyPop(l: Ledger)
    requires Orderly(l) && l.queue != []
    ensures Orderly(Enter(l, Pop))
    ensures Enter(l, Pop).claimed + Reverse(Enter(l, Pop).queue) == l.claimed + Reverse(l.queue)
  {
    var n := |l.queue| - 1;
    ReverseLast(l.queue);
    assert (l.claimed + [l.queue[n]]) + Reverse(l.queue[..n]) == l.claimed + Reverse(l.queue);
    assert l.queue == l.queue[..n] + [l.queue[n]];
  }

  lemma {:induction false} LedgerIsOrderly(s: State, acts: seq<Action>, l: Ledger)
    requires Orderly(l)
    ensures Orderly(LedgerOf(s, acts, l))
    decreases |acts|
  {
    if acts != [] {
      OrderlyStep(l, StepOf(s, acts[0]));
      LedgerIsOrderly(Apply(s, acts[0]), acts[1..], Enter(l, StepOf(s, acts[0])));
    }
  }

  const OPENING := Ledger([], [], [], multiset{})

  /** Over every flush-free run: the claims so far followed by what is queued,
      oldest first, are a subsequence of the pushes in push order, and the
      pushes missing from it are, with multiplicity, those Dequeue removed. */
  lemma QueueIsFifoWithRemovals(cfg: Config, now: int, acts: seq<Action>)
    requires Flush !in acts
    ensures var l := LedgerOf(Init(cfg, now), acts, OPENING);
            && l.queue == Exec(Init(cfg, now), acts).st.queue
            && Subsequence(l.claimed + Reverse(l.queue), l.pushed)
            && multiset(l.pushed) == multiset(l.claimed) + multiset(l.queue) + l.removed
  {
    assert Reverse([]) == [];
    LedgerTracksQueue(Init(cfg, now), acts, OPENING);
    LedgerIsOrderly(Init(cfg, now), acts, OPENING);
  }

  ghost predicate NoRemovals(s: State, acts: seq<Action>)
    decreases |acts|
  {
    acts == [] || (!StepOf(s, acts[0]).Remove? && NoRemovals(Apply(s, acts[0]), acts[1..]))
  }

  /** With no cancelling Dequeue the queue is an exact FIFO. */
  lemma {:induction false} NoRemovalsIsExact(s: State, acts: seq<Action>, l: Ledger)
    requires NoRemovals(s, acts) && Orderly(l) && Exact(l)
    ensures Exact(LedgerOf(s, acts, l))
    decreases |acts|
  {
    if acts != [] {
      OrderlyStep(l, StepOf(s, acts[0]));
      NoRemovalsIsExact(Apply(s, acts[0]), acts[1..], Enter(l, StepOf(s, acts[0])));
    }
  }
}
