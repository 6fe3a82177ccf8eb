/** The shared state of the job protocol and the atomic effect of every SQL
    statement and Redis command on it.

    One `Store` value holds the Postgres `jobs` table, the two Redis lists, the
    Redis status hashes and the clock.  Each function below is the effect of a
    single statement, transaction or Redis pipeline, the unit of atomicity of
    the running system. */
module Store {
  import opened Wrappers

  /** A job id (a UUID; only its identity matters). */
  type JobId = nat

  datatype Status = Queued | Running | Completed | Failed | Cancelled

  /** What a Redis list may hold: the text of a job id, or any other text,
      which `UUID(...)` refuses. */
  datatype Entry = JobRef(id: JobId) | Junk(text: string)

  /** The error_message column, kept structured rather than as rendered text. */
  datatype Reason =
    | UnsupportedFormat(format: string, path: string)
    | NotInAllowList(model: string)
    | FlaggedUnsupported
    | TooManyParameters(count: int)
    | WorkerError(text: string)
    | EnqueueFailed(text: string)

  datatype Row = Row(
    status: Status,
    baseModel: string,
    datasetPath: string,
    checkpoint: Option<string>,
    error: Option<Reason>,
    createdAt: int,
    updatedAt: int)

  /** A status hash: its two fields and the key's expiry, if one is set. */
  datatype Live = Live(status: Status, updatedAt: int, expiresAt: Option<int>)

  /** Times are microseconds on one clock. */
  datatype Store = Store(
    rows: map<JobId, Row>,
    queue: seq<Entry>,
    processing: seq<Entry>,
    hash: map<JobId, Live>,
    now: int)

  const SECOND := 1_000_000
  const TERMINAL_TTL := 24 * 3600 * SECOND

  predicate Terminal(s: Status) {
    s == Completed || s == Failed || s == Cancelled
  }

  function CheckpointPrefix(id: JobId): string {
    "checkpoints/" + Digits(id) + "/"
  }

  /** Decimal text, standing for the canonical text of a UUID. */
  function Digits(n: nat): string {
    if n < 10 then [('0' as int + n) as char] else Digits(n / 10) + [('0' as int + n % 10) as char]
  }

  // ---------------------------------------------------------------- rows

  predicate Has(st: Store, id: JobId, s: Status) {
    id in st.rows && st.rows[id].status == s
  }

  function PutRow(st: Store, id: JobId, r: Row): Store {
    st.(rows := st.rows[id := r])
  }

  function MarkRunning(st: Store, id: JobId): Store {
    if Has(st, id, Queued)
    then PutRow(st, id, st.rows[id].(status := Running, updatedAt := st.now))
    else st
  }

  function Heartbeat(st: Store, id: JobId): Store {
    if Has(st, id, Running)
    then PutRow(st, id, st.rows[id].(updatedAt := st.now))
    else st
  }

  function MarkCompleted(st: Store, id: JobId, path: string): Store {
    if Has(st, id, Running)
    then PutRow(st, id, st.rows[id].(status := Completed, checkpoint := Some(path), updatedAt := st.now))
    else st
  }

  function MarkFailed(st: Store, id: JobId, why: Reason): Store {
    if Has(st, id, Running)
    then PutRow(st, id, st.rows[id].(status := Failed, error := Some(why), updatedAt := st.now))
    else st
  }

  function ResetToQueued(st: Store, id: JobId): Store {
    if Has(st, id, Running)
    then PutRow(st, id, st.rows[id].(status := Queued, updatedAt := st.now))
    else st
  }

  function Insert(st: Store, id: JobId, model: string, path: string): Store {
    PutRow(st, id, Row(Queued, model, path, None, None, st.now, st.now))
  }

  /** The backend's transition table; terminal statuses have no way out. */
  predicate ValidTransition(from: Status, to: Status) {
    match from
    case Queued => to == Running || to == Cancelled
    case Running => to == Completed || to == Failed || to == Cancelled
    case _ => false
  }

  /** The fields of the backend's Update; None leaves a column unchanged. */
  datatype Fields = Fields(status: Option<Status>, checkpoint: Option<string>, error: Option<Reason>)

  datatype UpdateError = NotFound | InvalidTransition(from: Status, to: Status)

  function OrElse<T>(o: Option<T>, was: Option<T>): Option<T> {
    if o.Some? then o else was
  }

  function Update(st: Store, id: JobId, f: Fields): (r: (Store, Result<Row, UpdateError>)) {
    if id !in st.rows then (st, Err(NotFound))
    else
      var row := st.rows[id];
      var to := if f.status.Some? then f.status.value else row.status;
      if f.status.Some? && !ValidTransition(row.status, to) then (st, Err(InvalidTransition(row.status, to)))
      else
        var row' := row.(status := to, checkpoint := OrElse(f.checkpoint, row.checkpoint),
                         error := OrElse(f.error, row.error), updatedAt := st.now);
        (PutRow(st, id, row'), Ok(row'))
  }

  function Cancel(st: Store, id: JobId): Store {
    Update(st, id, Fields(Some(Cancelled), None, None)).0
  }

  function FailFromBackend(st: Store, id: JobId, why: Reason): Store {
    Update(st, id, Fields(Some(Failed), None, Some(why))).0
  }

  function StaleRunning(st: Store, visibility: int): set<JobId> {
    set id | id in st.rows && st.rows[id].status == Running && st.rows[id].updatedAt < st.now - visibility
  }

  function OrphanQueued(st: Store, grace: int): set<JobId> {
    set id | id in st.rows && st.rows[id].status == Queued
             && st.rows[id].createdAt < st.now - grace && st.rows[id].updatedAt < st.now - grace
  }

  predicate Distinct(ids: seq<JobId>) {
    forall i, j :: 0 <= i < j < |ids| ==> ids[i] != ids[j]
  }

  /** A query result: every matching id once, in whatever order the database chose. */
  predicate Enumerates(ids: seq<JobId>, s: set<JobId>) {
    && Distinct(ids)
    && (forall id | id in ids :: id in s)
    && (forall id | id in s :: id in ids)
  }

  // --------------------------------------------------------------- lists

  /** LREM with count 0: every occurrence goes. */
  function RemoveAll<T(==, !new)>(s: seq<T>, x: T): (r: seq<T>)
    ensures forall y :: y in r <==> y in s && y != x
  {
    if s == [] then []
    else if s[0] == x then RemoveAll(s[1..], x) else [s[0]] + RemoveAll(s[1..], x)
  }

  lemma {:induction false} RemoveAllCounts<T(!new)>(s: seq<T>, x: T)
    ensures multiset(RemoveAll(s, x)) == multiset(s)[x := 0]
  {
    if s != [] {
      RemoveAllCounts(s[1..], x);
      assert s == [s[0]] + s[1..];
    }
  }

  /** LPUSH of a job id on jobs:queue. */
  function Enqueue(st: Store, id: JobId): Store {
    st.(queue := [JobRef(id)] + st.queue)
  }

  function Dequeue(st: Store, id: JobId): Store {
    st.(queue := RemoveAll(st.queue, JobRef(id)))
  }

  /** BRPOPLPUSH: the right end of jobs:queue moves to the left end of jobs:processing. */
  function Claim(st: Store): Store
    requires st.queue != []
  {
    st.(queue := st.queue[..|st.queue| - 1], processing := [Next(st)] + st.processing)
  }

  function Next(st: Store): Entry
    requires st.queue != []
  {
    st.queue[|st.queue| - 1]
  }

  function Ack(st: Store, e: Entry): Store {
    st.(processing := RemoveAll(st.processing, e))
  }

  /** The reconciler's pipeline: LREM from processing, LPUSH on the queue. */
  function Requeue(st: Store, id: JobId): Store {
    st.(processing := RemoveAll(st.processing, JobRef(id)), queue := [JobRef(id)] + st.queue)
  }

  function Members(s: seq<Entry>): set<Entry> {
    set e | e in s
  }

  /** The entries of `s` that are not in `gone`, in order. */
  function Without(s: seq<Entry>, gone: set<Entry>): seq<Entry> {
    if s == [] then []
    else (if s[0] in gone then [] else [s[0]]) + Without(s[1..], gone)
  }

  lemma {:induction false} InWithout(s: seq<Entry>, gone: set<Entry>)
    ensures forall e :: e in Without(s, gone) <==> e in s && e !in gone
  {
    if s != [] { InWithout(s[1..], gone); }
  }

  lemma WithoutCons(x: Entry, s: seq<Entry>, gone: set<Entry>)
    ensures Without([x] + s, gone) == (if x in gone then [] else [x]) + Without(s, gone)
  {
    assert ([x] + s)[1..] == s;
  }

  lemma {:induction false} WithoutTwice(s: seq<Entry>, a: set<Entry>, b: set<Entry>)
    ensures Without(Without(s, a), b) == Without(s, a + b)
  {
    if s != [] {
      WithoutTwice(s[1..], a, b);
      if s[0] in a {
        assert Without(s, a) == Without(s[1..], a);
      } else {
        WithoutCons(s[0], Without(s[1..], a), b);
        assert s[0] in a + b <==> s[0] in b;
      }
    }
  }

  lemma {:induction false} RemoveIsWithout(s: seq<Entry>, e: Entry)
    ensures RemoveAll(s, e) == Without(s, {e})
  {
    if s != [] { RemoveIsWithout(s[1..], e); }
  }

  lemma {:induction false} WithoutNothing(s: seq<Entry>)
    ensures Without(s, {}) == s
  {
    if s != [] { WithoutNothing(s[1..]); }
  }

  lemma ClaimFacts(st: Store)
    requires st.queue != []
    ensures Next(st) in st.queue
    ensures multiset(st.queue) == multiset(Claim(st).queue) + multiset{Next(st)}
    ensures forall e :: e in Claim(st).queue ==> e in st.queue
    ensures forall e :: e in st.queue ==> e in Claim(st).queue || e == Next(st)
    ensures forall e :: e in Claim(st).processing <==> e in st.processing || e == Next(st)
  {
    assert st.queue == Claim(st).queue + [Next(st)];
  }

  // -------------------------------------------------------------- hashes

  /** The published timestamp carries whole seconds only. */
  function FloorToSecond(t: int): int {
    t / SECOND * SECOND
  }

  predicate Visible(st: Store, id: JobId) {
    id in st.hash && (st.hash[id].expiresAt.Some? ==> st.now < st.hash[id].expiresAt.value)
  }

  /** HSET keeps an expiry already set on a live key; EXPIRE follows a terminal publish. */
  function Publish(st: Store, id: JobId, status: Status, terminal: bool): Store {
    var expiry :=
      if terminal then Some(st.now + TERMINAL_TTL)
      else if Visible(st, id) then st.hash[id].expiresAt
      else None;
    st.(hash := st.hash[id := Live(status, FloorToSecond(st.now), expiry)])
  }

  function Advance(st: Store, d: nat): Store {
    st.(now := st.now + d)
  }

  function FlushRedis(st: Store): Store {
    st.(queue := [], processing := [], hash := map[])
  }
}
