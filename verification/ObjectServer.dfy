/** The PUT, GET and DELETE handlers of the object API: over any sequence of requests they
    behave like a plain map from bucket and key to bytes. */
module ObjectServer {
  import opened Common
  import opened Placement
  import opened ChunkStore
  import opened Handoff
  import opened Wal
  import opened ServiceModel
  import opened ChunkService
  import opened Metadata
  import opened ObjectModel
  import opened ObjectSteps
  import opened ObjectSpec

  datatype Response = Response(status: nat, body: Bytes)

  const PUT_OBJECT: nat := 1
  const DELETE_OBJECT: nat := 2

  class Server {
    const chunkSize: nat
    const meta: MetadataStore
    const chunks: DistributedChunkService
    const wal: WriteAheadLog

    ghost var model: Model
    ghost var backed: set<Key>
    ghost var full: set<Key>
    ghost var litter: set<string>

    ghost function Now(): View
      reads this, meta, chunks.cluster, chunks.local, chunks.peers, chunks.handoff
    {
      View(chunks.Snap(), meta.objects, meta.lists, meta.open, model, backed, full, litter)
    }

    ghost predicate Valid()
      reads this, meta, wal, chunks.cluster, chunks.local, chunks.local.cache, chunks.peers, chunks.handoff
    {
      meta.Valid() && wal.Valid() && chunks.Valid() && Consistent(chunks.cfg, Now())
    }

    constructor (cfg: Config, chunkSize: nat, cacheBytes: nat, walHash: string -> string)
      requires Proper(cfg)
      ensures Valid() && chunks.cfg == cfg && this.chunkSize == chunkSize && model == map[]
      ensures WritesFit(cfg, chunks.cluster.nodes) && (cfg.readQuorum <= 1 || ReadsFit(cfg, chunks.cluster.nodes)) ==>
                InOrder(cfg, Now())
      ensures chunks.cluster.nodes == Refreshed(cfg, map[])
      ensures fresh(meta) && fresh(wal) && fresh(chunks) && fresh(chunks.cluster) && fresh(chunks.local)
      ensures fresh(chunks.local.cache) && fresh(chunks.peers) && fresh(chunks.handoff)
    {
      hide Refreshed, LoadFile, Whole, Filed, AllHealthy, Represents, Backed, FullyPlaced, WritesFit, ReadsFit, SoundAt;
      hide Store.Valid, PeerNodes.Valid, WriteAheadLog.Valid, MetadataStore.Valid, Proper;
      this.chunkSize := chunkSize;
      meta := new MetadataStore();
      var service := new DistributedChunkService(cfg, cacheBytes);
      chunks := service;
      wal := new WriteAheadLog(walHash);
      model, backed, full, litter := map[], {}, {}, {};
      new;
      chunks.RefreshSeedMembers();
      RefreshedTwice(cfg, map[]);
      NoObjects(cfg, chunks.Snap());
      if WritesFit(cfg, chunks.cluster.nodes) && (cfg.readQuorum <= 1 || ReadsFit(cfg, chunks.cluster.nodes)) {
        SoundAtStart(cfg, chunks.Snap());
      }
    }

    // ------------------------------------------------------------------------- PUT

    /** The loop storing the chunks of an object. */
    method Upload(parts: seq<Bytes>, w: World) returns (r: Result<seq<ChunkRef>>)
      requires chunks.Valid() && Settled(chunks.cfg, chunks.cluster.nodes)
      modifies chunks.cluster, chunks.local, chunks.local.cache, chunks.peers, chunks.handoff
      ensures chunks.Valid() && Grew(chunks.cfg, old(chunks.Snap()), chunks.Snap())
      ensures r.Ok? ==> Spells(chunks.cfg.sha, r.value, parts) && Stored(r.value, chunks.local.disk)
      ensures r.Ok? ==> OnlyTouched(old(chunks.Snap()), chunks.Snap(), Names(r.value))
      ensures r.Ok? && Smooth(chunks.cfg, chunks.cluster.nodes, w) ==> AllPlaced(chunks.cfg, chunks.Snap(), r.value)
      ensures r.Err? ==> StatusOf(r.code) == 500
      ensures Smooth(chunks.cfg, chunks.cluster.nodes, w) && WritesFit(chunks.cfg, chunks.cluster.nodes) ==> r.Ok?
    {
      hide Settled, Uploaded, Spells, Stored, Grew, AllPlaced, Smooth, WritesFit, PutBy, OnlyTouched, Names;
      ghost var cfg, s0 := chunks.cfg, chunks.Snap();
      var refs := [];
      NothingUploaded(cfg, s0, w);
      assert parts[..0] == [];
      for i := 0 to |parts|
        invariant chunks.Valid() && Settled(cfg, s0.members)
        invariant Uploaded(cfg, s0, chunks.Snap(), w, parts[..i], refs)
      {
        ghost var s := chunks.Snap();
        var ref;
        ghost var plan, acked;
        ref, plan, acked := chunks.Put(parts[i], w);
        assert parts[..i + 1] == parts[..i] + [parts[i]];
        OneUploaded(cfg, s0, s, chunks.Snap(), w, parts[..i], refs, parts[i], ref, plan, acked);
        if ref.Err? {
          return Err(ref.code);
        }
        refs := refs + [ref.value];
      }
      assert parts[..|parts|] == parts;
      UploadedMeans(cfg, s0, chunks.Snap(), w, parts, refs);
      r := Ok(refs);
    }

    method PutObject(bucket: string, key: string, body: Bytes, env: Env) returns (response: Response, ghost done: bool)
      requires Valid()
      modifies this, meta, wal, chunks.cluster, chunks.local, chunks.local.cache, chunks.peers, chunks.handoff
      ensures Valid()
      ensures PutDone(chunks.cfg, old(Now()), (bucket, key), body, env, Now(), response.status, done)
      ensures done ==>
                wal.records == old(wal.records) + [Record(PUT_OBJECT, bucket + "/" + key, chunks.cfg.sha(body))]
    {
      hide MetadataStore.Valid, WriteAheadLog.Valid, DistributedChunkService.Valid, Consistent, PutDone, Smooth;
      hide WritesFit, Spells, Stored, Grew, AllPlaced, OnlyTouched, Names, Flatten, Settled, PutView;
      ghost var cfg, v, k := chunks.cfg, Now(), (bucket, key);
      done := false;
      if bucket == "" || key == "" {
        PutRefused(cfg, v, k, body, env, 400);
        return Response(StatusOf(Invalid), []), done;
      }
      var checksum := chunks.cfg.sha(body);
      var walOk: bool := *;
      var logged := wal.Append(Record(PUT_OBJECT, bucket + "/" + key, checksum), env.walOk || walOk);
      if !logged {
        PutRefused(cfg, v, k, body, env, 500);
        return Response(StatusOf(Internal), []), done;
      }
      var parts := ChunkBytes(body, chunkSize);
      ConsistentSettled(cfg, v);
      var refs := Upload(parts, env.net);
      GrewMembers(cfg, v.s, chunks.Snap());
      if refs.Err? {
        PutStopped(cfg, v, k, body, env, chunks.Snap());
        return Response(StatusOf(refs.code), []), done;
      }
      SpelledSome(cfg.sha, refs.value, parts);
      ghost var calm := Smooth(cfg, v.s.members, env.net);
      assert Now() == v.(s := chunks.Snap());
      var saved;
      saved, done := Save(bucket, key, body, refs.value, env, calm);
      if done {
        PutTookEffect(cfg, v, k, body, env, chunks.Snap(), parts, refs.value, saved);
        SameView(v, chunks.Snap(), k, refs.value, body, checksum, !saved, calm);
      } else {
        PutStopped(cfg, v, k, body, env, chunks.Snap());
      }
      response := Response(if saved then 201 else StatusOf(Internal), []);
    }

    /** The rows of an object whose chunks are stored. */
    method Save(bucket: string, key: string, body: Bytes, refs: seq<ChunkRef>, env: Env, ghost calm: bool)
      returns (saved: bool, ghost done: bool)
      requires meta.Valid() && refs != []
      modifies this, meta
      ensures meta.Valid() && (saved ==> done) && (env.dbOk ==> (done <==> saved)) && (done ==> !old(meta.open))
      ensures env.dbOk && !old(meta.open) ==> saved
      ensures Now() == if !done then old(Now()) else
                PutView(old(Now()), chunks.Snap(), (bucket, key), refs, body, chunks.cfg.sha(body), !saved, calm)
    {
      hide MetadataStore.Valid, Names;
      ghost var v := Now();
      saved, done := meta.PutObject(ObjectMetadata(bucket, key, |body|, chunks.cfg.sha(body), refs), env.dbOk);
      if done {
        ghost var v' := PutView(v, v.s, (bucket, key), refs, body, chunks.cfg.sha(body), !saved, calm);
        model, backed, full, litter := v'.model, v'.backed, v'.full, v'.litter;
      }
    }

    // ------------------------------------------------------------------------- GET

    /** The loop reading the chunks of an object. */
    method Download(refs: seq<ChunkRef>, w: World) returns (r: Result<Bytes>, ghost found: seq<Bytes>)
      requires chunks.Valid() && Settled(chunks.cfg, chunks.cluster.nodes)
      modifies chunks.cluster, chunks.local, chunks.local.cache, chunks.peers
      ensures chunks.Valid() && Grew(chunks.cfg, old(chunks.Snap()), chunks.Snap())
      ensures OnlyTouched(old(chunks.Snap()), chunks.Snap(), Names(refs))
      ensures r.Ok? ==> Found(chunks.cfg.sha, refs, found) && Flatten(found) == r.value
      ensures r.Err? ==> StatusOf(r.code) == 500
      ensures AllSure(chunks.cfg, old(chunks.Snap()), w, refs) ==> r.Ok?
    {
      hide Settled, Grew, GetBy, SureRead, PlanFor, PlansEnd, Found, Flatten, CollisionFree, OnlyTouched, Names;
      ghost var cfg, s0 := chunks.cfg, chunks.Snap();
      var out := [];
      found := [];
      NothingFound(cfg, s0, refs);
      for i := 0 to |refs|
        invariant chunks.Valid() && Settled(cfg, s0.members) && Grew(cfg, s0, chunks.Snap())
        invariant OnlyTouched(s0, chunks.Snap(), Names(refs))
        invariant Found(cfg.sha, refs[..i], found) && Flatten(found) == out
      {
        ghost var s := chunks.Snap();
        var ref := refs[i];
        GrewMembers(cfg, s0, s);
        if SureRead(cfg, s0, w, ref.checksum) { SureReadGrows(cfg, s0, s, w, ref.checksum); }
        HealthyPlansEnd(s.members, cfg.hash, cfg.replication) by { SettledHealthy(cfg, s0.members); }
        var targets := chunks.cluster.WritePlan(ref.checksum, chunks.cfg.replication);
        if SureRead(cfg, s, w, ref.checksum) { SureReadPlan(cfg, s, ref.checksum, w, targets); }
        if |targets| < chunks.cfg.readQuorum && |targets| < chunks.cfg.replication {
          return Err(Unavailable), found;
        }
        var data;
        ghost var plan, asked, answered;
        data, plan, asked, answered := chunks.Get(ref.checksum, w);
        OneRead(cfg, s0, s, chunks.Snap(), refs, i, w, data, plan, asked, answered);
        if data.Err? {
          return Err(data.code), found;
        }
        OneFound(cfg.sha, refs, i, found, data.value);
        out := out + data.value;
        found := found + [data.value];
      }
      assert refs[..|refs|] == refs;
      r := Ok(out);
    }

    method GetObject(bucket: string, key: string, env: Env) returns (response: Response, ghost answered: bool)
      requires Valid()
      modifies chunks.cluster, chunks.local, chunks.local.cache, chunks.peers
      ensures Valid()
      ensures GetDone(chunks.cfg, old(Now()), (bucket, key), env, Now(), response.status, response.body, answered)
    {
      hide MetadataStore.Valid, WriteAheadLog.Valid, DistributedChunkService.Valid, Consistent, GetDone, Grew;
      hide OnlyTouched, Names, AllSure, Found, Flatten, Settled;
      ghost var cfg, v, k := chunks.cfg, Now(), (bucket, key);
      var found;
      found, answered := meta.GetObject(bucket, key, env.dbOk);
      ConsistentSettled(cfg, v);
      if found.Err? {
        GetNothing(cfg, v, k, env, answered);
        return Response(StatusOf(found.code), []), answered;
      }
      var out;
      ghost var parts;
      out, parts := Download(found.value.chunks, env.net);
      GetRead(cfg, v, k, env, chunks.Snap(), found.value.chunks, if out.Ok? then Some(parts) else None);
      if out.Err? {
        return Response(StatusOf(out.code), []), answered;
      }
      if chunks.cfg.sha(out.value) != found.value.checksum {
        return Response(StatusOf(Internal), []), answered;
      }
      response := Response(200, out.value);
    }

    // ---------------------------------------------------------------------- DELETE

    /** The loop deleting the chunks that no row names any more. `misread` has the chunks
        whose reference count was not answered and so taken for zero. */
    method Collect(refs: seq<ChunkRef>, w: World, dbOk: bool) returns (ghost misread: set<string>)
      requires meta.Valid() && chunks.Valid() && Settled(chunks.cfg, chunks.cluster.nodes)
      modifies chunks.cluster, chunks.local, chunks.peers
      ensures chunks.Valid() && LiveUntouched(old(chunks.Snap()), chunks.Snap(), meta.lists, misread)
      ensures OnlyTouched(old(chunks.Snap()), chunks.Snap(), Names(refs))
      ensures misread <= Names(refs) && (dbOk ==> misread == {})
      ensures Smooth(chunks.cfg, chunks.cluster.nodes, w) ==> Collected(chunks.cfg, chunks.Snap(), meta.lists, refs)
    {
      hide Settled, RemoveBy, LiveUntouched, Collected, Smooth, Referenced, Names, OnlyTouched;
      hide MetadataStore.Valid, DistributedChunkService.Valid;
      ghost var cfg, s0 := chunks.cfg, chunks.Snap();
      misread := {};
      NothingCollected(cfg, s0, meta.lists, refs);
      for i := 0 to |refs|
        invariant chunks.Valid() && Settled(cfg, s0.members) && LiveUntouched(s0, chunks.Snap(), meta.lists, misread)
        invariant OnlyTouched(s0, chunks.Snap(), Names(refs)) && misread <= Names(refs) && (dbOk ==> misread == {})
        invariant Smooth(cfg, s0.members, w) ==> Collected(cfg, chunks.Snap(), meta.lists, refs[..i])
      {
        ghost var s := chunks.Snap();
        SparedMembers(s0, s, meta.lists, misread);
        var references;
        ghost var answered, plan, removed;
        references, answered := meta.ChunkRefCount(refs[i].checksum, dbOk);
        var r;
        r, plan, removed := chunks.Remove(refs[i].checksum, references, w);
        OneCollected(cfg, s0, s, chunks.Snap(), w, meta.lists, misread, refs, i, references, answered,
                     r, plan, removed);
        CollectingTouches(cfg, s0, s, chunks.Snap(), w, refs, i, references, r, plan, removed);
        if !answered {
          NameOf(refs, i);
          misread := misread + {refs[i].checksum};
        }
      }
      SparedMembers(s0, chunks.Snap(), meta.lists, misread);
      assert refs[..|refs|] == refs;
    }

    method DeleteObject(bucket: string, key: string, env: Env)
      returns (response: Response, ghost gone: bool, ghost misread: set<string>)
      requires Valid()
      modifies this, meta`objects, meta`rows, meta`lists, wal, chunks.cluster, chunks.local, chunks.peers
      ensures Valid()
      ensures DeleteDone(chunks.cfg, old(Now()), (bucket, key), env, Now(), response.status, gone, misread)
      ensures response.status == 204 ==>
                wal.records == old(wal.records) + [Record(DELETE_OBJECT, bucket + "/" + key, "delete")]
    {
      hide MetadataStore.Valid, WriteAheadLog.Valid, DistributedChunkService.Valid, Consistent, DeleteDone, Settled;
      hide OnlyTouched, Names, LiveUntouched, Collected, Smooth, Spared, Unhurt, Swept;
      ghost var cfg, v, k := chunks.cfg, Now(), (bucket, key);
      gone, misread := false, {};
      var found;
      ghost var answered;
      found, answered := meta.GetObject(bucket, key, env.dbOk);
      ConsistentSettled(cfg, v);
      if found.Err? {
        DeleteRefused(cfg, v, k, env, 404);
        return Response(StatusOf(found.code), []), gone, misread;
      }
      var walOk: bool := *;
      var logged := wal.Append(Record(DELETE_OBJECT, bucket + "/" + key, "delete"), env.walOk || walOk);
      if !logged {
        DeleteRefused(cfg, v, k, env, 500);
        return Response(StatusOf(Internal), []), gone, misread;
      }
      var deleted;
      ghost var rowsGone;
      deleted, rowsGone, gone := Unlink(bucket, key, env.dbOk);
      ghost var u := Now();
      UnlinkedConsistent(cfg, v, k, rowsGone, gone);
      if deleted.Err? {
        DeleteMissed(cfg, v, k, env, rowsGone);
        return Response(StatusOf(deleted.code), []), gone, misread;
      }
      misread := Sweep(v, k, gone, found.value.chunks, env);
      SweptConsistent(cfg, v, u, k, chunks.Snap(), gone, misread);
      DeleteSwept(cfg, v, k, env, rowsGone, gone, found.value.chunks, chunks.Snap(), misread);
      response := Response(204, []);
    }

    /** The rows of an object go, as far as the statements succeed. */
    method Unlink(bucket: string, key: string, dbOk: bool)
      returns (deleted: Result<()>, ghost rowsGone: bool, ghost gone: bool)
      requires meta.Valid() && (bucket, key) in meta.objects
      modifies this, meta`objects, meta`rows, meta`lists
      ensures meta.Valid() && (dbOk ==> rowsGone && gone) && (gone ==> deleted.Ok?)
      ensures deleted.Err? ==> deleted.code == NotFound
      ensures Now() == Unlinked(old(Now()), (bucket, key), rowsGone, gone)
    {
      hide MetadataStore.Valid, Spared;
      ghost var v := Now();
      deleted, rowsGone, gone := meta.DeleteObject(bucket, key, dbOk);
      ghost var u := Unlinked(v, (bucket, key), rowsGone, gone);
      model, backed, full := u.model, u.backed, u.full;
    }

    /** The chunks of a deletion that began in view `v` go, as far as they may. */
    method Sweep(ghost v: View, ghost k: Key, ghost gone: bool, refs: seq<ChunkRef>, env: Env)
      returns (ghost misread: set<string>)
      requires meta.Valid() && chunks.Valid() && Settled(chunks.cfg, chunks.cluster.nodes)
      modifies this, chunks.cluster, chunks.local, chunks.peers
      ensures chunks.Valid() && LiveUntouched(old(chunks.Snap()), chunks.Snap(), meta.lists, misread)
      ensures OnlyTouched(old(chunks.Snap()), chunks.Snap(), Names(refs))
      ensures misread <= Names(refs) && (env.dbOk ==> misread == {})
      ensures Smooth(chunks.cfg, old(chunks.cluster.nodes), env.net) ==>
                Collected(chunks.cfg, chunks.Snap(), meta.lists, refs)
      ensures Now() == Swept(v, old(Now()), k, chunks.Snap(), gone, misread)
    {
      hide MetadataStore.Valid, DistributedChunkService.Valid, Settled, LiveUntouched, OnlyTouched, Names, Smooth;
      hide Collected, Unhurt;
      ghost var u := Now();
      misread := Collect(refs, env.net, env.dbOk);
      SparedMembers(u.s, chunks.Snap(), meta.lists, misread);
      ghost var v' := Swept(v, u, k, chunks.Snap(), gone, misread);
      backed, full, litter := v'.backed, v'.full, v'.litter;
    }

    // ---------------------------------------------------------------------- whole runs

    ghost predicate AllFaultless(envs: seq<Env>)
      reads chunks.cluster
    {
      forall i :: 0 <= i < |envs| ==> Faultless(chunks.cfg, chunks.cluster.nodes, envs[i])
    }

    /** One request, and whether it took effect. Without faults the answer is exactly the
        plain map's. */
    method Handle(q: Request, env: Env) returns (a: Response, ghost done: bool)
      requires Valid() && Injective(chunks.cfg.sha)
      modifies this, meta, wal, chunks.cluster, chunks.local, chunks.local.cache, chunks.peers, chunks.handoff
      ensures Valid() && chunks.cluster.nodes == old(chunks.cluster.nodes)
      ensures model == Next(old(model), q, done) && Right(old(model), q, a, done, env.dbOk)
      ensures old(InOrder(chunks.cfg, Now())) && Faultless(chunks.cfg, chunks.cluster.nodes, env) ==>
                InOrder(chunks.cfg, Now()) && Exact(old(model), q, a)
    {
      hide Server.Valid, Injective, PutDone, GetDone, DeleteDone, InOrder, Faultless;
      ghost var cfg, v := chunks.cfg, Now();
      done := false;
      if q.Put? {
        a, done := PutObject(q.bucket, q.key, q.body, env);
        PutIsRight(cfg, v, (q.bucket, q.key), q.body, env, Now(), a.status, done);
      } else if q.Get? {
        ghost var answered;
        a, answered := GetObject(q.bucket, q.key, env);
        GetIsRight(cfg, v, (q.bucket, q.key), env, Now(), a.status, a.body, answered);
      } else {
        ghost var misread;
        a, done, misread := DeleteObject(q.bucket, q.key, env);
        DeleteIsRight(cfg, v, (q.bucket, q.key), env, Now(), a.status, done, misread);
      }
    }

    /** Requests served one after the other, each in its own surroundings: every answer is
        one that the plain map allows, and with no faults exactly the one it gives. */
    method Serve(requests: seq<Request>, envs: seq<Env>) returns (responses: seq<Response>, ghost done: seq<bool>)
      requires Valid() && Injective(chunks.cfg.sha) && |envs| == |requests|
      modifies this, meta, wal, chunks.cluster, chunks.local, chunks.local.cache, chunks.peers, chunks.handoff
      ensures Valid() && chunks.cluster.nodes == old(chunks.cluster.nodes) && |responses| == |done| == |requests|
      ensures model == After(old(model), requests, done)
      ensures forall i :: 0 <= i < |requests| ==>
                Right(After(old(model), requests[..i], done[..i]), requests[i], responses[i], done[i], envs[i].dbOk)
      ensures old(InOrder(chunks.cfg, Now()) && AllFaultless(envs)) ==>
                && InOrder(chunks.cfg, Now())
                && forall i :: 0 <= i < |requests| ==>
                     Exact(After(old(model), requests[..i], done[..i]), requests[i], responses[i])
    {
      hide Server.Valid, InOrder, After, Injective, Faultless, Right, Exact;
      ghost var nodes := chunks.cluster.nodes;
      ghost var ideal := InOrder(chunks.cfg, Now()) && AllFaultless(envs);
      responses, done := [], [];
      AfterNothing(model, requests);
      for i := 0 to |requests|
        invariant Valid() && chunks.cluster.nodes == nodes && (ideal ==> InOrder(chunks.cfg, Now()))
        invariant |responses| == |done| == i && model == After(old(model), requests[..i], done)
        invariant forall j :: 0 <= j < i ==>
                    Right(After(old(model), requests[..j], done[..j]), requests[j], responses[j], done[j], envs[j].dbOk)
        invariant ideal ==> forall j :: 0 <= j < i ==>
                    Exact(After(old(model), requests[..j], done[..j]), requests[j], responses[j])
      {
        ghost var before := done;
        var a;
        ghost var took;
        a, took := Handle(requests[i], envs[i]);
        responses, done := responses + [a], done + [took];
        AfterOneMore(old(model), requests, i, before, took);
        assert forall j :: 0 <= j <= i ==> done[..j] == before[..j];
        assert before[..i] == before;
      }
      assert requests[..|requests|] == requests;
    }
  }

  lemma ConsistentSettled(cfg: Config, v: View)
    requires Consistent(cfg, v)
    ensures Settled(cfg, v.s.members) && v.objects.Keys == v.model.Keys
    ensures forall k :: k in v.model ==> v.objects[k].checksum == cfg.sha(v.model[k])
  {
    hide Settled, Backed, FullyPlaced;
    SameKeys(cfg.sha, v.objects, v.model);
  }

  lemma SpelledSome(sha: Bytes -> string, refs: seq<ChunkRef>, parts: seq<Bytes>)
    requires Spells(sha, refs, parts) && parts != []
    ensures refs != []
  {
  }

  lemma PutIsRight(cfg: Config, v: View, k: Key, body: Bytes, env: Env, v': View, status: nat, done: bool)
    requires PutDone(cfg, v, k, body, env, v', status, done)
    ensures var q := Put(k.0, k.1, body);
            && v'.s.members == v.s.members && v'.model == Next(v.model, q, done)
            && Right(v.model, q, Response(status, []), done, env.dbOk)
            && (InOrder(cfg, v) && Faultless(cfg, v.s.members, env) ==>
                  InOrder(cfg, v') && Exact(v.model, q, Response(status, [])))
  {
    hide InOrder, Faultless, Grew;
    GrewMembers(cfg, v.s, v'.s);
  }

  lemma GetIsRight(cfg: Config, v: View, k: Key, env: Env, v': View, status: nat, body: Bytes, answered: bool)
    requires GetDone(cfg, v, k, env, v', status, body, answered) && Injective(cfg.sha)
    ensures var q := Get(k.0, k.1);
            && v'.s.members == v.s.members && v'.model == Next(v.model, q, false)
            && Right(v.model, q, Response(status, body), false, env.dbOk)
            && (InOrder(cfg, v) && Faultless(cfg, v.s.members, env) ==>
                  InOrder(cfg, v') && Exact(v.model, q, Response(status, body)))
  {
    hide Injective, Grew, Intact, Calm, CollisionFree, ReadsFit, WritesFit, Tidy;
    GrewMembers(cfg, v.s, v'.s);
  }

  lemma DeleteIsRight(cfg: Config, v: View, k: Key, env: Env, v': View, status: nat, gone: bool, misread: set<string>)
    requires DeleteDone(cfg, v, k, env, v', status, gone, misread)
    ensures var q := Delete(k.0, k.1);
            && v'.s.members == v.s.members && v'.model == Next(v.model, q, gone)
            && Right(v.model, q, Response(status, []), gone, env.dbOk)
            && (InOrder(cfg, v) && Faultless(cfg, v.s.members, env) ==>
                  InOrder(cfg, v') && Exact(v.model, q, Response(status, [])))
  {
    hide InOrder, LiveUntouched, Names, Unhurt, Collected, Smooth;
    SparedMembers(v.s, v'.s, v'.lists, misread);
  }

  // ----------------------------------------------------------------------- whole runs

  datatype Request =
    | Put(bucket: string, key: string, body: Bytes)
    | Get(bucket: string, key: string)
    | Delete(bucket: string, key: string)

  /** What a request that took effect, or did not, means for the plain map. */
  function Next(m: Model, q: Request, done: bool): Model {
    if q.Put? && done then m[(q.bucket, q.key) := q.body]
    else if q.Delete? && done then m - {(q.bucket, q.key)}
    else m
  }

  function After(m: Model, qs: seq<Request>, done: seq<bool>): Model
    requires |qs| == |done|
  {
    if qs == [] then m else Next(After(m, qs[..|qs| - 1], done[..|qs| - 1]), qs[|qs| - 1], done[|qs| - 1])
  }

  /** An answer that the plain map allows, and what it says about the effect. */
  predicate Right(m: Model, q: Request, a: Response, done: bool, dbOk: bool) {
    match q
    case Put(bucket, key, _) =>
      && (a.status == 400 <==> bucket == "" || key == "") && a.status != 404
      && (a.status == 201 ==> done) && (dbOk ==> (done <==> a.status == 201))
    case Get(bucket, key) =>
      && NotFoundRight(m, (bucket, key), a, dbOk)
      && (a.status == 200 ==> (bucket, key) in m && a.body == m[(bucket, key)])
    case Delete(bucket, key) =>
      && NotFoundRight(m, (bucket, key), a, dbOk)
      && (done ==> a.status == 204) && (dbOk ==> (done <==> a.status == 204))
  }

  /** Absent keys are always reported; others only when a metadata statement may have failed. */
  predicate NotFoundRight(m: Model, k: Key, a: Response, dbOk: bool) {
    (k !in m ==> a.status == 404) && (a.status == 404 && dbOk ==> k !in m)
  }

  /** The answer of the plain map itself. */
  predicate Exact(m: Model, q: Request, a: Response) {
    match q
    case Put(bucket, key, _) => a.status == if bucket == "" || key == "" then 400 else 201
    case Get(bucket, key) => if (bucket, key) in m then a == Response(200, m[(bucket, key)]) else a.status == 404
    case Delete(bucket, key) => a.status == if (bucket, key) in m then 204 else 404
  }

  lemma AfterNothing(m: Model, qs: seq<Request>)
    ensures After(m, qs[..0], []) == m
  {
  }

  lemma AfterOneMore(m: Model, qs: seq<Request>, i: nat, done: seq<bool>, took: bool)
    requires |done| == i < |qs|
    ensures After(m, qs[..i + 1], done + [took]) == Next(After(m, qs[..i], done), qs[i], took)
  {
    assert qs[..i + 1][..i] == qs[..i] && (done + [took])[..i] == done;
  }

  /** The request number `i` is the one that decides what key `k` holds at the end. */
  predicate Decides(qs: seq<Request>, done: seq<bool>, k: Key, i: nat)
    requires |qs| == |done| && i < |qs|
  {
    && Commits(qs[i], done[i], k)
    && forall j :: i < j < |qs| ==> !Commits(qs[j], done[j], k)
  }

  /** The request put or deleted `k`. */
  predicate Commits(q: Request, done: bool, k: Key) {
    (q.bucket, q.key) == k && done && !q.Get?
  }

  /** The map after a run holds for each key the body of the latest PUT that took effect, unless
      a DELETE took effect after it. */
  lemma {:induction false} LatestCommitted(qs: seq<Request>, done: seq<bool>, k: Key)
    requires |qs| == |done|
    ensures k in After(map[], qs, done) <==> exists i :: 0 <= i < |qs| && qs[i].Put? && Decides(qs, done, k, i)
    ensures forall i :: 0 <= i < |qs| && qs[i].Put? && Decides(qs, done, k, i) ==>
              k in After(map[], qs, done) && After(map[], qs, done)[k] == qs[i].body
  {
    if qs != [] {
      var n := |qs| - 1;
      var qs', done' := qs[..n], done[..n];
      LatestCommitted(qs', done', k);
      if Commits(qs[n], done[n], k) {
        assert Decides(qs, done, k, n);
      } else {
        forall i | 0 <= i < n
          ensures Decides(qs, done, k, i) <==> Decides(qs', done', k, i)
        {
          DecidesPrefix(qs, done, k, i);
        }
      }
    }
  }

  lemma DecidesPrefix(qs: seq<Request>, done: seq<bool>, k: Key, i: nat)
    requires |qs| == |done| && i < |qs| - 1 && !Commits(qs[|qs| - 1], done[|qs| - 1], k)
    ensures Decides(qs, done, k, i) <==> Decides(qs[..|qs| - 1], done[..|qs| - 1], k, i)
  {
    hide Commits;
    var n := |qs| - 1;
    var qs', done' := qs[..n], done[..n];
    assert forall j :: 0 <= j < n ==> qs'[j] == qs[j] && done'[j] == done[j];
    if Decides(qs', done', k, i) {
      forall j | i < j < |qs|
        ensures !Commits(qs[j], done[j], k)
      {
        if j < n { assert !Commits(qs'[j], done'[j], k); }
      }
    }
  }
}
