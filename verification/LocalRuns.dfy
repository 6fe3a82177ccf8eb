/** Runs in which one process acts alone: it and the clock move, nothing else. */
module LocalRuns {
  import opened Store
  import opened Protocol

  datatype LocalAct = Do(w: WorkerEvent) | See(r: ReconcilerEvent) | Wait(d: nat)

  datatype Place = Place(st: Store, pc: Pc)

  function Step(cfg: Config, c: Place, v: LocalAct): Place {
    match v
    case Do(w) => var r := WorkerLocal(c.st, c.pc, w); Place(r.0, r.1)
    case See(e) => var r := SweepLocal(c.st, cfg, c.pc, e); Place(r.0, r.1)
    case Wait(d) => Place(Advance(c.st, d), c.pc)
  }

  function Steps(cfg: Config, c: Place, vs: seq<LocalAct>): Place
    decreases |vs|
  {
    if vs == [] then c else Steps(cfg, Step(cfg, c, vs[0]), vs[1..])
  }

  function Lift(p: Proc, vs: seq<LocalAct>): seq<Action> {
    seq(|vs|, i requires 0 <= i < |vs| =>
      match vs[i]
      case Do(w) => Work(p, w)
      case See(r) => Sweep(p, r)
      case Wait(d) => Tick(d))
  }

  lemma {:induction false} StepsConcat(cfg: Config, c: Place, a: seq<LocalAct>, b: seq<LocalAct>)
    ensures Steps(cfg, c, a + b) == Steps(cfg, Steps(cfg, c, a), b)
    decreases |a|
  {
    if a == [] {
      assert a + b == b;
    } else {
      assert (a + b)[1..] == a[1..] + b;
      StepsConcat(cfg, Step(cfg, c, a[0]), a[1..], b);
    }
  }

  lemma Steps1(cfg: Config, c: Place, a: LocalAct)
    ensures Steps(cfg, c, [a]) == Step(cfg, c, a)
  {
    assert [a][1..] == [];
  }

  lemma Steps2(cfg: Config, c: Place, a: LocalAct, b: LocalAct)
    ensures Steps(cfg, c, [a, b]) == Step(cfg, Step(cfg, c, a), b)
  {
    Steps1(cfg, Step(cfg, c, a), b);
    assert [a, b][1..] == [b];
  }

  lemma Steps3(cfg: Config, c: Place, a: LocalAct, b: LocalAct, d: LocalAct)
    ensures Steps(cfg, c, [a, b, d]) == Step(cfg, Step(cfg, Step(cfg, c, a), b), d)
  {
    assert [a, b, d][1..] == [b, d];
    Steps2(cfg, Step(cfg, c, a), b, d);
  }

  function At(s: State, p: Proc, c: Place): State {
    s.(st := c.st, pcs := s.pcs[p := c.pc])
  }

  lemma ApplyLifted(s: State, p: Proc, v: LocalAct)
    requires p in s.pcs
    ensures Apply(s, Lift(p, [v])[0]) == At(s, p, Step(s.cfg, Place(s.st, s.pcs[p]), v))
  {
    assert s.pcs[p := s.pcs[p]] == s.pcs;
  }

  /** A local run is a run of the whole system. */
  lemma {:induction false} LiftRuns(s: State, p: Proc, vs: seq<LocalAct>)
    requires p in s.pcs
    ensures Exec(s, Lift(p, vs)) == At(s, p, Steps(s.cfg, Place(s.st, s.pcs[p]), vs))
    decreases |vs|
  {
    if vs == [] {
      assert s.pcs[p := s.pcs[p]] == s.pcs;
    } else {
      var c := Step(s.cfg, Place(s.st, s.pcs[p]), vs[0]);
      ApplyLifted(s, p, vs[0]);
      assert Lift(p, vs)[0] == Lift(p, [vs[0]])[0];
      assert Lift(p, vs)[1..] == Lift(p, vs[1..]);
      LiftRuns(At(s, p, c), p, vs[1..]);
      var e := Steps(s.cfg, c, vs[1..]);
      assert At(At(s, p, c), p, e) == At(s, p, e);
    }
  }

  /** An exception that leaves the worker's loop ends its process. */
  function Exit(p: Proc, ok: bool): seq<Action> {
    if ok then [] else [Crash(p)]
  }

  /** Where a call leaves the system: the worker idle, or gone. */
  function After(s: State, p: Proc, st: Store, ok: bool): State {
    if ok then At(s, p, Place(st, Idle)) else s.(st := st, pcs := s.pcs - {p})
  }

  lemma ExitRuns(s: State, p: Proc, c: Place, ok: bool)
    requires ok ==> c.pc == Idle
    ensures Exec(At(s, p, c), Exit(p, ok)) == After(s, p, c.st, ok)
  {
    if !ok {
      ExecOne(At(s, p, c), Crash(p));
      assert s.pcs[p := c.pc] - {p} == s.pcs - {p};
    }
  }
}
