/** Registering datasets: reserve a row, upload, activate it, or compensate.

    A saga: any number of registrations interleaved step by step, each
    of which may stop anywhere. */
module Registration {
  import opened Wrappers
  import opened ObjectStore
  import opened DatasetLayout

  datatype RegStatus = Pending | Ready | Archived

  /** A row of the datasets table: name, version and storage path are those of `source`. */
  datatype Reg = Reg(source: Dataset, status: RegStatus)

  datatype Registry = Registry(rows: map<int, Reg>, nextId: int, objects: Objects)

  predicate SameRef(d: Dataset, e: Dataset) {
    d.name == e.name && d.version == e.version
  }

  // -------------------------------------------------------- effects

  predicate Names(rows: map<int, Reg>, d: Dataset, i: int) {
    i in rows && SameRef(rows[i].source, d)
  }

  /** The row SELECT ... WHERE name AND version finds, if any. */
  ghost function Existing(rows: map<int, Reg>, d: Dataset): Option<int> {
    if i :| Names(rows, d, i) then Some(i) else None
  }

  /** The transaction of reserve_dataset_row: id, and whether it was already registered. */
  ghost function Reserve(r: Registry, d: Dataset): (Registry, int, bool) {
    var x := Existing(r.rows, d);
    if x.Some? && r.rows[x.value].status == Ready then (r, x.value, true)
    else
      var kept := if x.Some? then r.rows - {x.value} else r.rows;
      (r.(rows := kept[r.nextId := Reg(d, Pending)], nextId := r.nextId + 1), r.nextId, false)
  }

  function Activate(r: Registry, id: int): Registry {
    if id in r.rows then r.(rows := r.rows[id := r.rows[id].(status := Ready)]) else r
  }

  function DeletePending(r: Registry, id: int): Registry {
    if id in r.rows && r.rows[id].status == Pending then r.(rows := r.rows - {id}) else r
  }

  function PutFile(r: Registry, d: Dataset, n: nat): Registry
    requires n < |Puts(d)|
  {
    r.(objects := r.objects[StoragePath(d) + Puts(d)[n].path := Puts(d)[n].content])
  }

  /** The verification after the upload: every key is there. */
  predicate KeysPresent(objects: Objects, d: Dataset) {
    forall f | f in Puts(d) :: StoragePath(d) + f.path in objects
  }

  // -------------------------------------------------------- the saga

  datatype Stage =
    | Began(d: Dataset)
    | Uploading(d: Dataset, id: int, done: nat)
    | Activating(d: Dataset, id: int)
    | Compensating(d: Dataset, id: int)
    | Returned(d: Dataset, id: int)
    | Failed(d: Dataset)

  datatype State = State(reg: Registry, runs: map<nat, Stage>)

  datatype Action =
    | Begin(p: nat, d: Dataset)
    | ReserveRow(p: nat)
    | PutNext(p: nat)
    | PutFails(p: nat)
    | Verify(p: nat)
    | ActivateRow(p: nat)
    | Compensate(p: nat)
    | Cut(p: nat)                          // the run ends here, whatever it was doing

  ghost function StageStep(s: State, a: Action, g: Stage): State {
    match a
    case ReserveRow(p) =>
      if !g.Began? then s
      else
        var (r, id, already) := Reserve(s.reg, g.d);
        State(r, s.runs[p := if already then Returned(g.d, id) else Uploading(g.d, id, 0)])
    case PutNext(p) =>
      if g.Uploading? && g.done < |Puts(g.d)|
      then State(PutFile(s.reg, g.d, g.done), s.runs[p := Uploading(g.d, g.id, g.done + 1)]) else s
    case PutFails(p) => if g.Uploading? then s.(runs := s.runs[p := Compensating(g.d, g.id)]) else s
    case Verify(p) =>
      if g.Uploading? && g.done == |Puts(g.d)|
      then s.(runs := s.runs[p := if KeysPresent(s.reg.objects, g.d) then Activating(g.d, g.id) else Compensating(g.d, g.id)])
      else s
    case ActivateRow(p) =>
      if g.Activating? then State(Activate(s.reg, g.id), s.runs[p := Returned(g.d, g.id)]) else s
    case Compensate(p) =>
      if g.Compensating? then State(DeletePending(s.reg, g.id), s.runs[p := Failed(g.d)]) else s
    case _ => s
  }

  ghost function Apply(s: State, a: Action): State {
    match a
    case Begin(p, d) => if p in s.runs then s else s.(runs := s.runs[p := Began(d)])
    case Cut(p) => s.(runs := s.runs - {p})
    case _ => if a.p in s.runs then StageStep(s, a, s.runs[a.p]) else s
  }

  ghost function Exec(s: State, acts: seq<Action>): State
    decreases |acts|
  {
    if acts == [] then s else Exec(Apply(s, acts[0]), acts[1..])
  }

  // -------------------------------------------------------- the invariant

  /** The universe of datasets anyone registers. */
  ghost predicate Universe(ds: set<Dataset>) {
    ContentAddressed(ds) && forall d :: d in ds ==> Valid(d)
  }

  ghost predicate OneRowPerRef(rows: map<int, Reg>) {
    forall i, j :: i in rows && j in rows && SameRef(rows[i].source, rows[j].source) ==> i == j
  }

  ghost predicate RowsGood(r: Registry, ds: set<Dataset>) {
    && OneRowPerRef(r.rows)
    && (forall i :: i in r.rows ==> i < r.nextId && r.rows[i].source in ds)
    && (forall i :: i in r.rows && r.rows[i].status == Ready ==> AllStored(r.objects, r.rows[i].source))
  }

  /** What a run that holds a reserved id relies on. */
  ghost predicate StageGood(r: Registry, g: Stage, ds: set<Dataset>) {
    && g.d in ds
    && (g.Uploading? ==> g.done <= |Puts(g.d)| && Stored(r.objects, g.d, g.done))
    && (g.Activating? ==> AllStored(r.objects, g.d))
    && (g.Uploading? || g.Activating? || g.Compensating? ==>
          g.id < r.nextId && (g.id in r.rows ==> r.rows[g.id].source == g.d))
  }

  ghost predicate Inv(s: State, ds: set<Dataset>) {
    && Universe(ds)
    && RowsGood(s.reg, ds)
    && (forall p :: p in s.runs ==> StageGood(s.reg, s.runs[p], ds))
  }

  /** Every run registers a dataset of the universe. */
  ghost predicate Within(acts: seq<Action>, ds: set<Dataset>) {
    forall a :: a in acts && a.Begin? ==> a.d in ds
  }

  /** One upload never spoils what another has stored. */
  lemma PutKeepsStored(ds: set<Dataset>, r: Registry, d: Dataset, n: nat, e: Dataset, m: nat)
    requires Universe(ds) && d in ds && e in ds && n < |Puts(d)| && m <= |Puts(e)|
    requires Stored(r.objects, e, m)
    ensures Stored(PutFile(r, d, n).objects, e, m)
  {
    forall i | 0 <= i < m
      ensures var k := StoragePath(e) + Puts(e)[i].path;
              k in PutFile(r, d, n).objects && PutFile(r, d, n).objects[k] == Puts(e)[i].content
    {
      if StoragePath(e) + Puts(e)[i].path == StoragePath(d) + Puts(d)[n].path {
        KeyDeterminesContent(ds, d, Puts(d)[n], e, Puts(e)[i]);
      }
    }
  }

  lemma PutKeepsRows(ds: set<Dataset>, r: Registry, d: Dataset, n: nat)
    requires Universe(ds) && RowsGood(r, ds) && d in ds && n < |Puts(d)|
    ensures RowsGood(PutFile(r, d, n), ds)
  {
    var r' := PutFile(r, d, n);
    forall i | i in r.rows && r.rows[i].status == Ready ensures AllStored(r'.objects, r.rows[i].source) {
      PutKeepsStored(ds, r, d, n, r.rows[i].source, |Puts(r.rows[i].source)|);
    }
  }

  lemma PutKeepsStage(ds: set<Dataset>, r: Registry, d: Dataset, n: nat, h: Stage)
    requires Universe(ds) && d in ds && n < |Puts(d)| && StageGood(r, h, ds)
    ensures StageGood(PutFile(r, d, n), h, ds)
  {
    if h.Uploading? { PutKeepsStored(ds, r, d, n, h.d, h.done); }
    if h.Activating? { PutKeepsStored(ds, r, d, n, h.d, |Puts(h.d)|); }
  }

  lemma PutKeepsInv(s: State, p: nat, ds: set<Dataset>)
    requires Inv(s, ds) && p in s.runs && s.runs[p].Uploading? && s.runs[p].done < |Puts(s.runs[p].d)|
    ensures Inv(Apply(s, PutNext(p)), ds)
  {
    var g := s.runs[p];
    var s' := Apply(s, PutNext(p));
    assert StageGood(s.reg, g, ds);
    assert s'.reg == PutFile(s.reg, g.d, g.done);
    PutKeepsRows(ds, s.reg, g.d, g.done);
    forall q | q in s'.runs ensures StageGood(s'.reg, s'.runs[q], ds) {
      PutKeepsStage(ds, s.reg, g.d, g.done, s.runs[q]);
    }
  }

  lemma ReserveKeepsInv(s: State, p: nat, ds: set<Dataset>)
    requires Inv(s, ds) && p in s.runs && s.runs[p].Began?
    ensures Inv(Apply(s, ReserveRow(p)), ds)
  {
    var g := s.runs[p];
    var s' := Apply(s, ReserveRow(p));
    assert StageGood(s.reg, g, ds);
    ReserveKeepsRows(s.reg, g.d, ds);
    forall q | q in s'.runs ensures StageGood(s'.reg, s'.runs[q], ds) {
      assert StageGood(s.reg, s.runs[q], ds);
    }
  }

  lemma ReserveKeepsRows(r: Registry, d: Dataset, ds: set<Dataset>)
    requires RowsGood(r, ds) && d in ds
    ensures RowsGood(Reserve(r, d).0, ds)
  {
    var r' := Reserve(r, d).0;
    forall i | i in r'.rows && SameRef(r'.rows[i].source, d) && !Reserve(r, d).2 ensures i == r.nextId {
      if i in r.rows { assert Names(r.rows, d, i); }
    }
  }

  lemma StepKeepsInv(s: State, a: Action, ds: set<Dataset>)
    requires Inv(s, ds) && (a.Begin? ==> a.d in ds)
    ensures Inv(Apply(s, a), ds)
  {
    match a
    case Begin(p, d) =>
    case Cut(p) =>
    case ReserveRow(p) => if p in s.runs && s.runs[p].Began? { ReserveKeepsInv(s, p, ds); }
    case PutNext(p) =>
      if p in s.runs && s.runs[p].Uploading? && s.runs[p].done < |Puts(s.runs[p].d)| { PutKeepsInv(s, p, ds); }
    case PutFails(p) => if p in s.runs { MoveKeepsInv(s, a, ds); }
    case Verify(p) => if p in s.runs { MoveKeepsInv(s, a, ds); }
    case ActivateRow(p) => if p in s.runs && s.runs[p].Activating? { ActivateKeepsInv(s, p, ds); }
    case Compensate(p) => if p in s.runs && s.runs[p].Compensating? { CompensateKeepsInv(s, p, ds); }
  }

  lemma MoveKeepsInv(s: State, a: Action, ds: set<Dataset>)
    requires Inv(s, ds) && (a.PutFails? || a.Verify?) && a.p in s.runs
    ensures Inv(Apply(s, a), ds)
  {
    var s' := Apply(s, a);
    assert StageGood(s.reg, s.runs[a.p], ds);
    if a.Verify? && s'.runs[a.p].Activating? { assert Stored(s.reg.objects, s.runs[a.p].d, |Puts(s.runs[a.p].d)|); }
    forall q | q in s'.runs ensures StageGood(s'.reg, s'.runs[q], ds) {
      assert StageGood(s.reg, s.runs[q], ds);
    }
  }

  /** Fewer rows, or the same rows with other statuses. */
  ghost predicate SameSources(r: Registry, r': Registry) {
    && r'.objects == r.objects && r'.nextId == r.nextId
    && (forall i :: i in r'.rows ==> i in r.rows && r'.rows[i].source == r.rows[i].source)
  }

  lemma StagesKeep(s: State, s': State, p: nat, g: Stage, ds: set<Dataset>)
    requires Inv(s, ds) && SameSources(s.reg, s'.reg)
    requires s'.runs == s.runs[p := g] && (g.Returned? || g.Failed?) && g.d in ds
    ensures forall q :: q in s'.runs ==> StageGood(s'.reg, s'.runs[q], ds)
  {
    forall q | q in s'.runs ensures StageGood(s'.reg, s'.runs[q], ds) {
      if q != p { assert StageGood(s.reg, s.runs[q], ds); }
    }
  }

  lemma ActivateKeepsInv(s: State, p: nat, ds: set<Dataset>)
    requires Inv(s, ds) && p in s.runs && s.runs[p].Activating?
    ensures Inv(Apply(s, ActivateRow(p)), ds)
  {
    var g := s.runs[p];
    assert StageGood(s.reg, g, ds);
    StagesKeep(s, Apply(s, ActivateRow(p)), p, Returned(g.d, g.id), ds);
  }

  lemma CompensateKeepsInv(s: State, p: nat, ds: set<Dataset>)
    requires Inv(s, ds) && p in s.runs && s.runs[p].Compensating?
    ensures Inv(Apply(s, Compensate(p)), ds)
  {
    var g := s.runs[p];
    assert StageGood(s.reg, g, ds);
    StagesKeep(s, Apply(s, Compensate(p)), p, Failed(g.d), ds);
  }

  lemma {:induction false} InvKept(s: State, acts: seq<Action>, ds: set<Dataset>)
    requires Inv(s, ds) && Within(acts, ds)
    ensures Inv(Exec(s, acts), ds)
    decreases |acts|
  {
    if acts != [] {
      assert acts[0] in acts;
      StepKeepsInv(s, acts[0], ds);
      InvKept(Apply(s, acts[0]), acts[1..], ds);
    }
  }

  /** Any number of registrations, interleaved at will and cut off anywhere, in
      a bucket that already holds anything: no two rows have the same name and
      version, and every ready row has all its objects, with their contents. */
  lemma RegistrySafety(objects: Objects, acts: seq<Action>, ds: set<Dataset>)
    requires Universe(ds) && Within(acts, ds)
    ensures var e := Exec(State(Registry(map[], 1, objects), map[]), acts);
            && OneRowPerRef(e.reg.rows)
            && (forall i :: i in e.reg.rows && e.reg.rows[i].status == Ready ==> AllStored(e.reg.objects, e.reg.rows[i].source))
  {
    InvKept(State(Registry(map[], 1, objects), map[]), acts, ds);
  }

  // -------------------------------------------------------- idempotence

  ghost predicate IsReady(s: State, i: int, d: Dataset) {
    i in s.reg.rows && s.reg.rows[i] == Reg(d, Ready)
  }

  lemma ReadyStep(s: State, a: Action, ds: set<Dataset>, i: int, d: Dataset)
    requires Inv(s, ds) && IsReady(s, i, d)
    ensures IsReady(Apply(s, a), i, d)
  {
    match a
    case ReserveRow(p) =>
      if p in s.runs && s.runs[p].Began? {
        var x := Existing(s.reg.rows, s.runs[p].d);
        assert x.Some? ==> Names(s.reg.rows, s.runs[p].d, x.value);
      }
    case _ =>
  }

  lemma {:induction false} ReadyIsStable(s: State, acts: seq<Action>, ds: set<Dataset>, i: int, d: Dataset)
    requires Inv(s, ds) && Within(acts, ds) && IsReady(s, i, d)
    ensures IsReady(Exec(s, acts), i, d)
    decreases |acts|
  {
    if acts != [] {
      assert acts[0] in acts;
      ReadyStep(s, acts[0], ds, i, d);
      StepKeepsInv(s, acts[0], ds);
      ReadyIsStable(Apply(s, acts[0]), acts[1..], ds, i, d);
    }
  }

  /** Once a version is ready, every later registration under that name and
      version, whatever runs in between, returns the same id at its reserve
      step and changes nothing. */
  lemma LaterRunsReturnTheSameId(s: State, acts: seq<Action>, ds: set<Dataset>, i: int, d: Dataset, p: nat, e: Dataset)
    requires Inv(s, ds) && Within(acts, ds) && IsReady(s, i, d) && SameRef(d, e)
    requires p in Exec(s, acts).runs && Exec(s, acts).runs[p] == Began(e)
    ensures var m := Exec(s, acts);
            Apply(m, ReserveRow(p)) == m.(runs := m.runs[p := Returned(e, i)])
  {
    var m := Exec(s, acts);
    ReadyIsStable(s, acts, ds, i, d);
    InvKept(s, acts, ds);
    assert Names(m.reg.rows, e, i);
    var x := Existing(m.reg.rows, e);
    assert Names(m.reg.rows, e, x.value);
  }

  // -------------------------------------------------------- overlapping runs

  lemma DeadStep(s: State, a: Action, i: int)
    requires i < s.reg.nextId && i !in s.reg.rows
    ensures i < Apply(s, a).reg.nextId && i !in Apply(s, a).reg.rows
  {}

  lemma {:induction false} DeadIdsStayDead(s: State, acts: seq<Action>, i: int)
    requires i < s.reg.nextId && i !in s.reg.rows
    ensures i !in Exec(s, acts).reg.rows
    decreases |acts|
  {
    if acts != [] {
      DeadStep(s, acts[0], i);
      DeadIdsStayDead(Apply(s, acts[0]), acts[1..], i);
    }
  }

  /** A run that is overtaken by another registration of the same content loses
      its row for good: if it goes on to return an id, no row ever has it. */
  lemma OvertakenRunReturnsDeadId(s: State, ds: set<Dataset>, q: nat, id: int, acts: seq<Action>)
    requires Inv(s, ds) && q in s.runs && s.runs[q].Began?
    requires id in s.reg.rows && s.reg.rows[id].status != Ready && SameRef(s.reg.rows[id].source, s.runs[q].d)
    ensures id !in Exec(Apply(s, ReserveRow(q)), acts).reg.rows
  {
    var d := s.runs[q].d;
    assert Names(s.reg.rows, d, id);
    var x := Existing(s.reg.rows, d);
    assert Names(s.reg.rows, d, x.value);
    DeadIdsStayDead(Apply(s, ReserveRow(q)), acts, id);
  }

  /** The overtaken run notices nothing: with its files uploaded it verifies,
      activates a row that is not there, and returns the dead id. */
  lemma OvertakenRunStillReturns(s: State, p: nat, d: Dataset, id: int)
    requires Valid(d) && p in s.runs && s.runs[p] == Uploading(d, id, |Puts(d)|)
    requires id !in s.reg.rows && AllStored(s.reg.objects, d)
    ensures Apply(Apply(s, Verify(p)), ActivateRow(p)) == s.(runs := s.runs[p := Returned(d, id)])
  {
    assert KeysPresent(s.reg.objects, d);
    assert Apply(s, Verify(p)).runs[p] == Activating(d, id);
    assert s.runs[p := Activating(d, id)][p := Returned(d, id)] == s.runs[p := Returned(d, id)];
  }

  // ---------------------------------------------- when a returned id is good

  /** The run has reserved an id and has not finished with it. */
  predicate Holding(g: Stage) {
    g.Uploading? || g.Activating? || g.Compensating?
  }

  predicate Owns(g: Stage, id: int) {
    Holding(g) && g.id == id
  }

  /** The step reserves the name and version of `d`. */
  predicate Reserves(s: State, a: Action, d: Dataset) {
    a.ReserveRow? && a.p in s.runs && s.runs[a.p].Began? && SameRef(s.runs[a.p].d, d)
  }

  predicate Compensates(s: State, a: Action, id: int) {
    && a.Compensate? && a.p in s.runs && s.runs[a.p].Compensating? && s.runs[a.p].id == id
    && id in s.reg.rows && s.reg.rows[id].status == Pending
  }

  /** The verification lets a run through exactly when all it uploaded is in the bucket. */
  lemma VerifyExactly(s: State, p: nat, d: Dataset, id: int)
    requires p in s.runs && s.runs[p] == Uploading(d, id, |Puts(d)|)
    ensures var s' := Apply(s, Verify(p));
            && s'.reg == s.reg && p in s'.runs
            && s'.runs[p] == if forall f :: f in Puts(d) ==> StoragePath(d) + f.path in s.reg.objects
                             then Activating(d, id) else Compensating(d, id)
  {}

  /** An activation makes the row ready exactly when it is still there. */
  lemma ActivationExactly(s: State, ds: set<Dataset>, p: nat, d: Dataset, id: int)
    requires Inv(s, ds) && p in s.runs && s.runs[p] == Activating(d, id)
    ensures IsReady(Apply(s, ActivateRow(p)), id, d) <==> id in s.reg.rows
  {
    assert StageGood(s.reg, s.runs[p], ds);
  }

  /** What makes a row go: a reservation of its name and version while it is not
      ready, or the compensation of the run that owns it. */
  lemma RowGoesExactly(s: State, ds: set<Dataset>, a: Action, id: int)
    requires Inv(s, ds) && id in s.reg.rows
    ensures id !in Apply(s, a).reg.rows
            <==> (Reserves(s, a, s.reg.rows[id].source) && s.reg.rows[id].status != Ready) || Compensates(s, a, id)
  {
    if a.ReserveRow? && a.p in s.runs && s.runs[a.p].Began? {
      var x := Existing(s.reg.rows, s.runs[a.p].d);
      assert x.Some? ==> Names(s.reg.rows, s.runs[a.p].d, x.value);
      if SameRef(s.runs[a.p].d, s.reg.rows[id].source) { assert Names(s.reg.rows, s.runs[a.p].d, id); }
    }
  }

  /** Every reserved id has one owner, and its row, while it lasts, is pending. */
  ghost predicate Owned(s: State) {
    && (forall p, q :: p in s.runs && q in s.runs && Holding(s.runs[p]) && Owns(s.runs[q], s.runs[p].id) ==> p == q)
    && (forall p :: p in s.runs && Holding(s.runs[p]) ==>
          && s.runs[p].id < s.reg.nextId
          && (s.runs[p].id in s.reg.rows ==> s.reg.rows[s.runs[p].id].status == Pending))
  }

  /** What a step does to stages and rows, as far as ownership goes. */
  lemma OwnerStep(s: State, a: Action, p: nat, id: int)
    requires p in Apply(s, a).runs && Owns(Apply(s, a).runs[p], id)
    ensures (p in s.runs && Owns(s.runs[p], id))
            || (a == ReserveRow(p) && p in s.runs && s.runs[p].Began? && id == s.reg.nextId)
  {}

  lemma ReservedIdIsFresh(s: State, a: Action, p: nat)
    requires a == ReserveRow(p) && p in s.runs && s.runs[p].Began?
    requires p in Apply(s, a).runs && Owns(Apply(s, a).runs[p], s.reg.nextId)
    ensures Apply(s, a).reg.nextId == s.reg.nextId + 1
    ensures s.reg.nextId in Apply(s, a).reg.rows ==> Apply(s, a).reg.rows[s.reg.nextId].status == Pending
  {}

  lemma IdsGrow(s: State, a: Action)
    ensures s.reg.nextId <= Apply(s, a).reg.nextId
  {}

  /** An owned row stays pending until its owner activates it. */
  lemma OwnedRowStaysPending(s: State, a: Action, p: nat, id: int)
    requires Owned(s) && p in s.runs && Owns(s.runs[p], id)
    requires p in Apply(s, a).runs && Owns(Apply(s, a).runs[p], id)
    ensures id in Apply(s, a).reg.rows ==> Apply(s, a).reg.rows[id].status == Pending
  {
    if a.ActivateRow? && a.p in s.runs && s.runs[a.p].Activating? {
      assert Owns(s.runs[a.p], s.runs[a.p].id);
    }
  }

  lemma OwnedStep(s: State, a: Action)
    requires Owned(s)
    ensures Owned(Apply(s, a))
  {
    var s' := Apply(s, a);
    IdsGrow(s, a);
    forall p, q | p in s'.runs && q in s'.runs && Holding(s'.runs[p]) && Owns(s'.runs[q], s'.runs[p].id)
      ensures p == q
    {
      OwnerStep(s, a, p, s'.runs[p].id);
      OwnerStep(s, a, q, s'.runs[p].id);
    }
    forall p | p in s'.runs && Holding(s'.runs[p])
      ensures var id := s'.runs[p].id;
              id < s'.reg.nextId && (id in s'.reg.rows ==> s'.reg.rows[id].status == Pending)
    {
      var id := s'.runs[p].id;
      OwnerStep(s, a, p, id);
      if p in s.runs && Owns(s.runs[p], id) {
        OwnedRowStaysPending(s, a, p, id);
      } else {
        ReservedIdIsFresh(s, a, p);
      }
    }
  }

  /** An id whose owner has let go of it is never owned again. */
  lemma {:induction false} NeverOwnedAgain(s: State, acts: seq<Action>, id: int)
    requires id < s.reg.nextId && forall p :: p in s.runs ==> !Owns(s.runs[p], id)
    ensures forall p :: p in Exec(s, acts).runs ==> !Owns(Exec(s, acts).runs[p], id)
    decreases |acts|
  {
    if acts != [] {
      var s' := Apply(s, acts[0]);
      IdsGrow(s, acts[0]);
      forall p | p in s'.runs ensures !Owns(s'.runs[p], id) {
        if Owns(s'.runs[p], id) { OwnerStep(s, acts[0], p, id); }
      }
      NeverOwnedAgain(s', acts[1..], id);
    }
  }

  /** Some step of the run reserves the name and version of `d`. */
  ghost predicate Overtaken(s: State, acts: seq<Action>, d: Dataset)
    decreases |acts|
  {
    acts != [] && (Reserves(s, acts[0], d) || Overtaken(Apply(s, acts[0]), acts[1..], d))
  }

  lemma OwnedRowStep(s: State, a: Action, ds: set<Dataset>, p: nat, d: Dataset, id: int)
    requires Inv(s, ds) && Owned(s)
    requires p in s.runs && Owns(s.runs[p], id) && s.runs[p].d == d
    requires p in Apply(s, a).runs && Owns(Apply(s, a).runs[p], id)
    ensures Apply(s, a).runs[p].d == d
    ensures id in Apply(s, a).reg.rows <==> id in s.reg.rows && !Reserves(s, a, d)
  {
    assert StageGood(s.reg, s.runs[p], ds);
    if id in s.reg.rows {
      RowGoesExactly(s, ds, a, id);
      assert Compensates(s, a, id) ==> a.p == p;
    } else {
      DeadStep(s, a, id);
    }
  }

  /** The row a run has reserved is there at its activation exactly when nobody
      reserved the same name and version in between. */
  lemma {:induction false} OwnedRowLasts(s: State, acts: seq<Action>, ds: set<Dataset>, p: nat, d: Dataset, id: int)
    requires Inv(s, ds) && Owned(s) && Within(acts, ds)
    requires p in s.runs && Owns(s.runs[p], id) && s.runs[p].d == d
    requires p in Exec(s, acts).runs && Exec(s, acts).runs[p] == Activating(d, id)
    ensures id in Exec(s, acts).reg.rows <==> id in s.reg.rows && !Overtaken(s, acts, d)
    decreases |acts|
  {
    if acts != [] {
      var s' := Apply(s, acts[0]);
      assert acts[0] in acts;
      StepKeepsInv(s, acts[0], ds);
      OwnedStep(s, acts[0]);
      if p in s'.runs && Owns(s'.runs[p], id) {
        OwnedRowStep(s, acts[0], ds, p, d, id);
        OwnedRowLasts(s', acts[1..], ds, p, d, id);
      } else {
        LetGo(s, acts[0], p, id);
        NeverOwnedAgain(s', acts[1..], id);
        assert Owns(Exec(s, acts).runs[p], id);
      }
    }
  }

  lemma LetGo(s: State, a: Action, p: nat, id: int)
    requires Owned(s) && p in s.runs && Owns(s.runs[p], id)
    requires p !in Apply(s, a).runs || !Owns(Apply(s, a).runs[p], id)
    ensures id < Apply(s, a).reg.nextId
    ensures forall q :: q in Apply(s, a).runs ==> !Owns(Apply(s, a).runs[q], id)
  {
    IdsGrow(s, a);
    forall q | q in Apply(s, a).runs ensures !Owns(Apply(s, a).runs[q], id) {
      if Owns(Apply(s, a).runs[q], id) { OwnerStep(s, a, q, id); }
    }
  }

  lemma {:induction false} OwnedKept(s: State, acts: seq<Action>)
    requires Owned(s)
    ensures Owned(Exec(s, acts))
    decreases |acts|
  {
    if acts != [] {
      OwnedStep(s, acts[0]);
      OwnedKept(Apply(s, acts[0]), acts[1..]);
    }
  }

  /** What becomes of an id from its activation on is settled by then. */
  lemma SettledAtActivation(m: State, ds: set<Dataset>, p: nat, d: Dataset, id: int, after: seq<Action>)
    requires Inv(m, ds) && Within(after, ds) && p in m.runs && m.runs[p] == Activating(d, id)
    ensures var e := Apply(m, ActivateRow(p));
            && p in e.runs && e.runs[p] == Returned(d, id)
            && (IsReady(Exec(e, after), id, d) <==> id in m.reg.rows)
  {
    var e := Apply(m, ActivateRow(p));
    assert StageGood(m.reg, m.runs[p], ds);
    StepKeepsInv(m, ActivateRow(p), ds);
    ActivationExactly(m, ds, p, d, id);
    if id in m.reg.rows {
      ReadyIsStable(e, after, ds, id, d);
    } else {
      DeadStep(m, ActivateRow(p), id);
      DeadIdsStayDead(e, after, id);
    }
  }

  lemma ReservedRowLasts(s: State, ds: set<Dataset>, p: nat, d: Dataset, during: seq<Action>)
    requires Inv(s, ds) && Owned(s) && Within(during, ds)
    requires p in s.runs && s.runs[p] == Began(d) && !Reserve(s.reg, d).2
    requires var m := Exec(Apply(s, ReserveRow(p)), during);
             p in m.runs && m.runs[p] == Activating(d, s.reg.nextId)
    ensures var r := Apply(s, ReserveRow(p));
            && Inv(Exec(r, during), ds)
            && (s.reg.nextId in Exec(r, during).reg.rows <==> !Overtaken(r, during, d))
  {
    var r := Apply(s, ReserveRow(p));
    StepKeepsInv(s, ReserveRow(p), ds);
    OwnedStep(s, ReserveRow(p));
    InvKept(r, during, ds);
    OwnedRowLasts(r, during, ds, p, d, s.reg.nextId);
  }

  /** Every reachable state is one that the next theorem speaks of. */
  lemma ReachableIsGood(objects: Objects, before: seq<Action>, ds: set<Dataset>)
    requires Universe(ds) && Within(before, ds)
    ensures var s := Exec(State(Registry(map[], 1, objects), map[]), before);
            Inv(s, ds) && Owned(s)
  {
    InvKept(State(Registry(map[], 1, objects), map[]), before, ds);
    OwnedKept(State(Registry(map[], 1, objects), map[]), before);
  }

  /** The id that a run reserves and returns after its upload is that of a ready
      row, for good, exactly when no other run reserved that name and version
      between its reservation and its activation. */
  lemma ReturnedIdIsReadyExactly(s: State, ds: set<Dataset>, p: nat, d: Dataset,
                                 during: seq<Action>, m: State, after: seq<Action>)
    requires Inv(s, ds) && Owned(s) && Within(during, ds) && Within(after, ds)
    requires p in s.runs && s.runs[p] == Began(d) && !Reserve(s.reg, d).2
    requires m == Exec(Apply(s, ReserveRow(p)), during)
    requires p in m.runs && m.runs[p] == Activating(d, s.reg.nextId)
    ensures var e := Apply(m, ActivateRow(p));
            && p in e.runs && e.runs[p] == Returned(d, s.reg.nextId)
            && (IsReady(Exec(e, after), s.reg.nextId, d) <==> !Overtaken(Apply(s, ReserveRow(p)), during, d))
  {
    ReservedRowLasts(s, ds, p, d, during);
    SettledAtActivation(m, ds, p, d, s.reg.nextId, after);
  }
}
