/** The services every process talks to, and the clients it talks through.

    `World` stands for the Postgres server, the Redis server, the bucket and the
    clock; the client classes mirror the worker's repository, queue, publisher
    and checkpoint store.  Each method changes the shared fields in place and
    promises the effect that `Store` gives the statement it runs. */
module Clients {
  import opened Wrappers
  import opened Store
  import Effect = Store
  import opened Validation
  import opened ObjectStore

  class World {
    var rows: map<JobId, Row>
    var queue: seq<Entry>
    var processing: seq<Entry>
    var hash: map<JobId, Live>
    var now: int
    var objects: Objects
    const models: seq<Model>

    constructor (now: int, models: seq<Model>)
      ensures St() == Store(map[], [], [], map[], now) && objects == map[] && this.models == models
    {
      this.rows, this.queue, this.processing, this.hash, this.objects := map[], [], [], map[], map[];
      this.now, this.models := now, models;
    }

    function St(): Store
      reads this
    {
      Store(rows, queue, processing, hash, now)
    }

    method Wait(d: nat)
      modifies this`now
      ensures St() == Advance(old(St()), d)
    {
      now := now + d;
    }
  }

  /** At most this row differs, and none appears or disappears. */
  ghost predicate OnlyRow(was: map<JobId, Row>, rows: map<JobId, Row>, id: JobId) {
    rows.Keys == was.Keys && forall i :: i in was && i != id ==> rows[i] == was[i]
  }

  /** PostgresJobRepository. */
  class JobRepository {
    const world: World

    constructor (world: World)
      ensures this.world == world
    {
      this.world := world;
    }

    method GetJob(id: JobId) returns (job: Option<Row>)
      ensures job == if id in world.rows then Some(world.rows[id]) else None
    {
      job := if id in world.rows then Some(world.rows[id]) else None;
    }

    method GetModelMeta(repo: string) returns (m: Option<Model>)
      ensures m == ModelMeta(world.models, repo)
    {
      m := ModelMeta(world.models, repo);
    }

    method MarkRunning(id: JobId)
      modifies world`rows
      ensures world.St() == Effect.MarkRunning(old(world.St()), id)
      ensures OnlyRow(old(world.rows), world.rows, id)
      ensures id in old(world.rows) ==>
                world.rows[id] == if old(world.rows)[id].status == Queued then old(world.rows)[id].(status := Running, updatedAt := world.now) else old(world.rows)[id]
    {
      if id in world.rows && world.rows[id].status == Queued {
        world.rows := world.rows[id := world.rows[id].(status := Running, updatedAt := world.now)];
      }
    }

    method Heartbeat(id: JobId)
      modifies world`rows
      ensures world.St() == Effect.Heartbeat(old(world.St()), id)
      ensures OnlyRow(old(world.rows), world.rows, id)
      ensures id in old(world.rows) ==>
                world.rows[id] == if old(world.rows)[id].status == Running then old(world.rows)[id].(updatedAt := world.now) else old(world.rows)[id]
    {
      if id in world.rows && world.rows[id].status == Running {
        world.rows := world.rows[id := world.rows[id].(updatedAt := world.now)];
      }
    }

    method MarkCompleted(id: JobId, path: string)
      modifies world`rows
      ensures world.St() == Effect.MarkCompleted(old(world.St()), id, path)
      ensures OnlyRow(old(world.rows), world.rows, id)
      ensures id in old(world.rows) ==>
                world.rows[id] == if old(world.rows)[id].status == Running then old(world.rows)[id].(status := Completed, checkpoint := Some(path), updatedAt := world.now) else old(world.rows)[id]
    {
      if id in world.rows && world.rows[id].status == Running {
        world.rows := world.rows[id := world.rows[id].(status := Completed, checkpoint := Some(path), updatedAt := world.now)];
      }
    }

    method MarkFailed(id: JobId, why: Reason)
      modifies world`rows
      ensures world.St() == Effect.MarkFailed(old(world.St()), id, why)
      ensures OnlyRow(old(world.rows), world.rows, id)
      ensures id in old(world.rows) ==>
                world.rows[id] == if old(world.rows)[id].status == Running then old(world.rows)[id].(status := Failed, error := Some(why), updatedAt := world.now) else old(world.rows)[id]
    {
      if id in world.rows && world.rows[id].status == Running {
        world.rows := world.rows[id := world.rows[id].(status := Failed, error := Some(why), updatedAt := world.now)];
      }
    }

    method ResetToQueued(id: JobId)
      modifies world`rows
      ensures world.St() == Effect.ResetToQueued(old(world.St()), id)
      ensures OnlyRow(old(world.rows), world.rows, id)
      ensures id in old(world.rows) ==>
                world.rows[id] == if old(world.rows)[id].status == Running then old(world.rows)[id].(status := Queued, updatedAt := world.now) else old(world.rows)[id]
    {
      if id in world.rows && world.rows[id].status == Running {
        world.rows := world.rows[id := world.rows[id].(status := Queued, updatedAt := world.now)];
      }
    }

    method FindStaleRunning(visibility: int) returns (ids: seq<JobId>)
      ensures Enumerates(ids, StaleRunning(world.St(), visibility))
      ensures Distinct(ids) && forall id ::
                id in ids <==> id in world.rows && world.rows[id].status == Running
                               && world.rows[id].updatedAt < world.now - visibility
    {
      ids := SelectIds(StaleRunning(world.St(), visibility));
    }

    method FindOrphanQueued(grace: int) returns (ids: seq<JobId>)
      ensures Enumerates(ids, OrphanQueued(world.St(), grace))
      ensures Distinct(ids) && forall id ::
                id in ids <==> id in world.rows && world.rows[id].status == Queued
                               && world.rows[id].createdAt < world.now - grace && world.rows[id].updatedAt < world.now - grace
    {
      ids := SelectIds(OrphanQueued(world.St(), grace));
    }

    /** The query has no ORDER BY: the rows come back in some order. */
    static method SelectIds(matching: set<JobId>) returns (ids: seq<JobId>)
      ensures Enumerates(ids, matching)
    {
      ids := [];
      var rest := matching;
      while rest != {}
        invariant rest <= matching
        invariant Enumerates(ids, matching - rest)
        decreases rest
      {
        var id :| id in rest;
        ids := ids + [id];
        rest := rest - {id};
      }
    }
  }

  /** RedisQueue. */
  class RedisQueue {
    const world: World

    constructor (world: World)
      ensures this.world == world
    {
      this.world := world;
    }

    method Claim() returns (e: Option<Entry>)
      modifies world`queue, world`processing
      ensures old(world.queue) == [] ==> e == None && world.St() == old(world.St())
      ensures old(world.queue) != [] ==> e == Some(Next(old(world.St()))) && world.St() == Effect.Claim(old(world.St()))
      ensures old(world.queue) != [] ==> world.queue + [e.value] == old(world.queue) && world.processing == [e.value] + old(world.processing)
    {
      if world.queue == [] {
        e := None;
      } else {
        var last := |world.queue| - 1;
        e := Some(world.queue[last]);
        world.processing := [world.queue[last]] + world.processing;
        world.queue := world.queue[..last];
      }
    }

    method Ack(e: Entry)
      modifies world`processing
      ensures world.St() == Effect.Ack(old(world.St()), e)
      ensures multiset(world.processing) == multiset(old(world.processing))[e := 0]
    {
      RemoveAllCounts(world.processing, e);
      world.processing := RemoveAll(world.processing, e);
    }

    method Requeue(id: JobId)
      modifies world`queue, world`processing
      ensures world.St() == Effect.Requeue(old(world.St()), id)
      ensures multiset(world.processing) == multiset(old(world.processing))[JobRef(id) := 0]
      ensures world.queue == [JobRef(id)] + old(world.queue)
    {
      RemoveAllCounts(world.processing, JobRef(id));
      world.processing := RemoveAll(world.processing, JobRef(id));
      world.queue := [JobRef(id)] + world.queue;
    }

    method QueuedIds() returns (ids: set<Entry>)
      ensures ids == Members(world.queue)
    {
      ids := set e | e in world.queue;
    }

    method InFlightIds() returns (ids: set<Entry>)
      ensures ids == Members(world.processing)
    {
      ids := set e | e in world.processing;
    }
  }

  /** StatusPublisher. */
  class StatusPublisher {
    const world: World

    constructor (world: World)
      ensures this.world == world
    {
      this.world := world;
    }

    method Publish(id: JobId, status: Status, terminal: bool)
      modifies world`hash
      ensures world.St() == Effect.Publish(old(world.St()), id, status, terminal)
      ensures world.hash.Keys == old(world.hash).Keys + {id}
      ensures forall i :: i in old(world.hash) && i != id ==> world.hash[i] == old(world.hash)[i]
      ensures var h := world.hash[id];
              && h.status == status
              && h.updatedAt % 1_000_000 == 0 && h.updatedAt <= world.now < h.updatedAt + 1_000_000
              && h.expiresAt == if terminal then Some(world.now + 86_400 * 1_000_000)
                                else if Visible(old(world.St()), id) then old(world.hash)[id].expiresAt else None
    {
      var kept := if Visible(world.St(), id) then world.hash[id].expiresAt else None;
      world.hash := world.hash[id := Live(status, FloorToSecond(world.now), kept)];
      if terminal {
        world.hash := world.hash[id := world.hash[id].(expiresAt := Some(world.now + TERMINAL_TTL))];
      }
    }
  }

  /** Why an upload that meets an S3 error at file `faultAt` fails, if it does. */
  function UploadError(id: JobId, files: seq<File>, faultAt: Option<nat>): Option<string> {
    if files == [] then Some("no checkpoint files produced")
    else if faultAt.Some? && faultAt.value < |files|
    then Some("failed to upload " + CheckpointPrefix(id) + files[faultAt.value].path)
    else None
  }

  /** GarageCheckpointStore; an S3 error at the n-th file ends the upload there. */
  class CheckpointStore {
    const world: World

    constructor (world: World)
      ensures this.world == world
    {
      this.world := world;
    }

    method Upload(id: JobId, files: seq<File>, faultAt: Option<nat>) returns (r: Result<string, string>)
      modifies world`objects
      ensures match UploadError(id, files, faultAt)
              case None => r == Ok(CheckpointPrefix(id))
              case Some(text) => r == Err(text)
      ensures r.Ok? <==> files != [] && !(faultAt.Some? && faultAt.value < |files|)
      ensures r.Ok? ==> r.value == "checkpoints/" + Digits(id) + "/"
      ensures world.objects == PutAll(old(world.objects), CheckpointPrefix(id),
                                      if faultAt.Some? && faultAt.value < |files| then files[..faultAt.value] else files)
    {
      var prefix := CheckpointPrefix(id);
      if files == [] {
        return Err("no checkpoint files produced");
      }
      for i := 0 to |files|
        invariant faultAt.Some? ==> faultAt.value >= i
        invariant world.objects == PutAll(old(world.objects), prefix, files[..i])
      {
        if faultAt == Some(i) {
          return Err("failed to upload " + prefix + files[i].path);
        }
        world.objects := world.objects[prefix + files[i].path := files[i].content];
        assert files[..i + 1][..i] == files[..i];
      }
      assert files[..|files|] == files;
      return Ok(prefix);
    }
  }
}
