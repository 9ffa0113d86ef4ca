/** What one request may do: to the map it implements, to the tables, and to every copy of
    every chunk. */
module ObjectSpec {
  import opened Common
  import opened Placement
  import opened ChunkStore
  import opened ServiceModel
  import opened Metadata
  import opened ObjectModel
  import opened ObjectSteps

  /** What a request can rely on: the chunk layer's surroundings, the log and the database. */
  datatype Env = Env(net: World, walOk: bool, dbOk: bool)

  /** Nothing goes wrong during the request. */
  ghost predicate Faultless(cfg: Config, members: Members, env: Env) {
    Smooth(cfg, members, env.net) && env.walOk && env.dbOk
  }

  /** The state behind the handlers, and what it stands for: the map; the keys whose rows are
      complete and whose chunks are all on the local disk; those whose chunks are on all their
      replicas; and the chunks that overwriting PUTs have left behind. */
  datatype View = View(s: State, objects: Objects, lists: ChunkLists, open: bool, model: Model, backed: set<Key>,
                       full: set<Key>, litter: set<string>)

  ghost predicate Consistent(cfg: Config, v: View) {
    && Settled(cfg, v.s.members)
    && Represents(cfg.sha, v.objects, v.model)
    && Backed(cfg.sha, v.lists, v.model, v.backed, v.s.disk)
    && FullyPlaced(cfg, v.s, v.lists, v.full)
  }

  /** No transaction is left open, and everything is where faultless requests put it. */
  ghost predicate InOrder(cfg: Config, v: View) {
    !v.open && SoundAt(cfg, v.s, v.lists, v.model, v.backed, v.full, v.litter)
  }

  // ------------------------------------------------------------------------- PUT

  /** `done` says whether the object was put: always with a 201, and otherwise only when the
      COMMIT failed without undoing the changes. */
  ghost predicate PutDone(cfg: Config, v: View, k: Key, body: Bytes, env: Env, v': View, status: nat, done: bool) {
    && Grew(cfg, v.s, v'.s)
    && (status == 201 || status == 400 || status == 500)
    && (status == 400 <==> k.0 == "" || k.1 == "")
    && (status == 201 ==> done) && (env.dbOk ==> (done <==> status == 201))
    && v'.model == (if done then v.model[k := body] else v.model)
    && v'.backed == (if done then v.backed + {k} else v.backed)
    && v.full - {k} <= v'.full
    && v'.litter == (if done then v.litter + Names(ListOf(v.lists, k)) else v.litter)
    && (env.dbOk ==> v'.open == v.open)
    && (InOrder(cfg, v) && Faultless(cfg, v.s.members, env) ==>
          InOrder(cfg, v') && (status == 201 || k.0 == "" || k.1 == ""))
  }

  /** Refused before anything was stored. */
  lemma PutRefused(cfg: Config, v: View, k: Key, body: Bytes, env: Env, status: nat)
    requires if k.0 == "" || k.1 == "" then status == 400 else status == 500 && !env.walOk
    ensures PutDone(cfg, v, k, body, env, v, status, false)
  {
    hide SoundAt, Smooth;
    GrewNot(cfg, v.s);
  }

  /** Chunks were stored, the object was not. */
  lemma PutStopped(cfg: Config, v: View, k: Key, body: Bytes, env: Env, s': State)
    requires Consistent(cfg, v) && Grew(cfg, v.s, s') && k.0 != "" && k.1 != ""
    requires Smooth(cfg, v.s.members, env.net) && WritesFit(cfg, v.s.members) ==> !env.dbOk || v.open
    ensures Consistent(cfg, v.(s := s')) && PutDone(cfg, v, k, body, env, v.(s := s'), 500, false)
  {
    hide Settled, Represents, Backed, FullyPlaced, Grew, Smooth, WritesFit, SoundAt;
    GrewMembers(cfg, v.s, s');
    GrowthIsSafe(cfg, v.s, s', v.lists, v.model, v.backed, v.full);
    if InOrder(cfg, v) { SoundFits(cfg, v.s, v.lists, v.model, v.backed, v.full, v.litter); }
  }

  /** The view once the chunks and then the rows are stored. */
  ghost function PutView(v: View, s': State, k: Key, refs: seq<ChunkRef>, body: Bytes, checksum: string, open: bool,
                         calm: bool): View {
    View(s', v.objects[k := ObjectRow(|body|, checksum)], v.lists[k := refs], open, v.model[k := body], v.backed + {k},
         if calm then v.full + {k} else v.full - {k}, v.litter + Names(ListOf(v.lists, k)))
  }

  lemma SameView(v: View, s': State, k: Key, refs: seq<ChunkRef>, body: Bytes, checksum: string, open: bool, calm: bool)
    ensures PutView(v.(s := s'), s', k, refs, body, checksum, open, calm)
         == PutView(v, s', k, refs, body, checksum, open, calm)
  {
  }

  lemma PutTookEffect(cfg: Config, v: View, k: Key, body: Bytes, env: Env, s': State, parts: seq<Bytes>,
                      refs: seq<ChunkRef>, saved: bool)
    requires Consistent(cfg, v) && Grew(cfg, v.s, s') && k.0 != "" && k.1 != "" && !v.open && (env.dbOk ==> saved)
    requires Spells(cfg.sha, refs, parts) && Flatten(parts) == body && Stored(refs, s'.disk)
    requires OnlyTouched(v.s, s', Names(refs)) && (Smooth(cfg, v.s.members, env.net) ==> AllPlaced(cfg, s', refs))
    ensures var v' := PutView(v, s', k, refs, body, cfg.sha(body), !saved, Smooth(cfg, v.s.members, env.net));
            Consistent(cfg, v') && PutDone(cfg, v, k, body, env, v', if saved then 201 else 500, true)
  {
    hide Settled, Represents, Backed, FullyPlaced, Grew, Smooth, SoundAt, Spells, Stored, AllPlaced, OnlyTouched, Names;
    hide Flatten;
    GrewMembers(cfg, v.s, s');
    GrowthIsSafe(cfg, v.s, s', v.lists, v.model, v.backed, v.full);
    ObjectAdded(cfg, s', v.objects, v.lists, v.model, v.backed, v.full, k, refs, parts, body,
                Smooth(cfg, v.s.members, env.net));
    if InOrder(cfg, v) {
      SoundAfterPut(cfg, v.s, s', v.lists, v.model, v.backed, v.full, v.litter, k, refs, body);
    }
  }

  // ------------------------------------------------------------------------- GET

  /** The read quorum can be met for the object: its local copies are enough, or all its
      replicas are written and nothing fails now. */
  ghost predicate Readable(cfg: Config, v: View, k: Key, w: World) {
    && CollisionFree(cfg.hash, v.s.members.Keys) && Intact(cfg.sha, v.s.disk) && k in v.backed
    && (cfg.readQuorum <= 1 || (k in v.full && Calm(v.s.members, w) && ReadsFit(cfg, v.s.members)))
  }

  /** `answered` says whether the object query was. A wrong body is never returned, even when
      chunk rows are missing: the object's checksum is tested last. */
  ghost predicate GetDone(cfg: Config, v: View, k: Key, env: Env, v': View, status: nat, body: Bytes, answered: bool) {
    && Grew(cfg, v.s, v'.s) && v' == v.(s := v'.s)
    && (status == 200 || status == 404 || status == 500)
    && (env.dbOk ==> answered)
    && (status == 404 <==> k !in v.model || !answered)
    && (status == 200 ==> cfg.sha(body) == cfg.sha(v.model[k]))
    && (status == 200 && Injective(cfg.sha) ==> body == v.model[k])
    && (k in v.model && Injective(cfg.sha) && env.dbOk && Readable(cfg, v, k, env.net) ==> status == 200)
    && (InOrder(cfg, v) ==> InOrder(cfg, v'))
  }

  lemma GetNothing(cfg: Config, v: View, k: Key, env: Env, answered: bool)
    requires Consistent(cfg, v) && (k !in v.model || !answered) && (env.dbOk ==> answered)
    ensures GetDone(cfg, v, k, env, v, 404, [], answered)
  {
    hide SoundAt, Injective, CollisionFree, Intact, Calm, ReadsFit;
    GrewNot(cfg, v.s);
  }

  /** Reading the chunks `refs` moved the state; `found` is what was read, if all was. */
  lemma GetRead(cfg: Config, v: View, k: Key, env: Env, s': State, refs: seq<ChunkRef>, found: Option<seq<Bytes>>)
    requires Consistent(cfg, v) && k in v.model && Grew(cfg, v.s, s') && OnlyTouched(v.s, s', Names(refs))
    requires refs <= ListOf(v.lists, k) && (env.dbOk ==> refs == ListOf(v.lists, k))
    requires AllSure(cfg, v.s, env.net, refs) ==> found.Some?
    requires found.Some? ==> Found(cfg.sha, refs, found.value)
    ensures Consistent(cfg, v.(s := s'))
    ensures var out := if found.Some? then Flatten(found.value) else [];
            var status := if found.Some? && cfg.sha(out) == cfg.sha(v.model[k]) then 200 else 500;
            GetDone(cfg, v, k, env, v.(s := s'), status, if status == 200 then out else [], true)
  {
    hide Settled, Represents, Backed, FullyPlaced, Grew, SoundAt, OnlyTouched, Names, AllSure, Found, Flatten;
    hide Injective, CollisionFree, Intact, Calm, ReadsFit;
    GrewMembers(cfg, v.s, s');
    GrowthIsSafe(cfg, v.s, s', v.lists, v.model, v.backed, v.full);
    if Readable(cfg, v, k, env.net) { ObjectIsSure(cfg, v.s, env.net, v.lists, v.model, v.backed, v.full, k); }
    if InOrder(cfg, v) { SoundAfterGet(cfg, v.s, s', v.lists, v.model, v.backed, v.full, v.litter, k, refs); }
    if found.Some? && Injective(cfg.sha) {
      if env.dbOk && k in v.backed {
        ObjectRead(cfg.sha, v.lists, v.model, v.backed, v.s.disk, k, found.value);
      }
      if cfg.sha(Flatten(found.value)) == cfg.sha(v.model[k]) {
        SameBytes(cfg.sha, Flatten(found.value), v.model[k]);
      }
    }
  }

  // ---------------------------------------------------------------------- DELETE

  /** Garbage-collection safety: no copy, on any node, of a chunk that a remaining row names is
      removed or changed, except of the object's chunks whose reference count was misread.
      `gone` says whether the object row was deleted: always before a 204, unless a statement
      failed unnoticed. */
  ghost predicate DeleteDone(cfg: Config, v: View, k: Key, env: Env, v': View, status: nat, gone: bool,
                             misread: set<string>) {
    && LiveUntouched(v.s, v'.s, v'.lists, misread) && v'.open == v.open
    && (status == 204 || status == 404 || status == 500)
    && (k !in v.model ==> status == 404 && !gone)
    && v'.model == (if gone then v.model - {k} else v.model)
    && (gone ==> status == 204) && (status == 204 ==> gone || !env.dbOk)
    && (env.dbOk ==> misread == {} && (status == 404 <==> k !in v.model))
    && misread <= Names(ListOf(v.lists, k))
    && Unhurt(v.lists, v.backed - {k}, misread) <= v'.backed
    && Unhurt(v.lists, v.full - {k}, misread) <= v'.full
    && (status != 204 ==> v'.s == v.s)
    && (env.walOk && env.dbOk && k in v.model ==> status == 204)
    && (status == 204 && env.dbOk && Smooth(cfg, v.s.members, env.net) ==>
          Collected(cfg, v'.s, v'.lists, ListOf(v.lists, k)))
    && v'.litter == (if gone then v.litter - Names(ListOf(v.lists, k)) else v.litter)
    && (InOrder(cfg, v) && Faultless(cfg, v.s.members, env) ==> InOrder(cfg, v'))
  }

  lemma DeleteRefused(cfg: Config, v: View, k: Key, env: Env, status: nat)
    requires Consistent(cfg, v)
    requires (status == 404 && (env.dbOk ==> k !in v.model)) || (status == 500 && k in v.model && !env.walOk)
    ensures DeleteDone(cfg, v, k, env, v, status, false, {})
  {
    hide SoundAt, Settled, Represents, Backed, FullyPlaced, LiveUntouched, Names, Smooth, Collected, Unhurt;
    NothingCollected(cfg, v.s, v.lists, []);
    UnhurtKept(v.lists, v.lists, v.backed, v.backed, k, {});
    UnhurtKept(v.lists, v.lists, v.full, v.full, k, {});
  }

  /** The view once the rows are deleted, as far as they are. */
  ghost function Unlinked(v: View, k: Key, rowsGone: bool, gone: bool): View {
    v.(objects := if gone then v.objects - {k} else v.objects,
       lists := if rowsGone then v.lists - {k} else v.lists,
       model := if gone then v.model - {k} else v.model,
       backed := Spared(v.backed, k, rowsGone, gone),
       full := Spared(v.full, k, rowsGone, gone))
  }

  lemma UnlinkedConsistent(cfg: Config, v: View, k: Key, rowsGone: bool, gone: bool)
    requires Consistent(cfg, v)
    ensures Consistent(cfg, Unlinked(v, k, rowsGone, gone))
  {
    hide Settled, Represents, Backed, FullyPlaced, Spared;
    ObjectDropped(cfg, v.s, v.objects, v.lists, v.model, v.backed, v.full, k, rowsGone, gone);
  }

  /** The statements were taken for having found nothing. */
  lemma DeleteMissed(cfg: Config, v: View, k: Key, env: Env, rowsGone: bool)
    requires Consistent(cfg, v) && k in v.model && !env.dbOk
    ensures DeleteDone(cfg, v, k, env, Unlinked(v, k, rowsGone, false), 404, false, {})
  {
    hide SoundAt, Settled, Represents, Backed, FullyPlaced, LiveUntouched, Names, Smooth, Collected, Unhurt;
    var v' := Unlinked(v, k, rowsGone, false);
    NothingCollected(cfg, v.s, v'.lists, []);
    UnhurtKept(v.lists, v'.lists, v.backed, v'.backed, k, {});
    UnhurtKept(v.lists, v'.lists, v.full, v'.full, k, {});
  }

  /** The view once the chunks are collected as well. */
  ghost function Swept(v: View, u: View, k: Key, s': State, gone: bool, misread: set<string>): View {
    u.(s := s', backed := Unhurt(u.lists, u.backed, misread), full := Unhurt(u.lists, u.full, misread),
       litter := if gone then v.litter - Names(ListOf(v.lists, k)) else v.litter)
  }

  lemma SweptConsistent(cfg: Config, v: View, u: View, k: Key, s': State, gone: bool, misread: set<string>)
    requires Consistent(cfg, u) && LiveUntouched(u.s, s', u.lists, misread)
    ensures Consistent(cfg, Swept(v, u, k, s', gone, misread))
  {
    hide Settled, Represents, Backed, FullyPlaced, LiveUntouched, Unhurt;
    SparedMembers(u.s, s', u.lists, misread);
    DeletionIsSafe(cfg, u.s, s', u.lists, u.model, u.backed, u.full, misread);
  }

  lemma DeleteSwept(cfg: Config, v: View, k: Key, env: Env, rowsGone: bool, gone: bool, refs: seq<ChunkRef>,
                    s': State, misread: set<string>)
    requires Consistent(cfg, v) && k in v.model && (env.dbOk ==> rowsGone && gone)
    requires refs <= ListOf(v.lists, k) && (env.dbOk ==> refs == ListOf(v.lists, k))
    requires var u := Unlinked(v, k, rowsGone, gone);
             && LiveUntouched(v.s, s', u.lists, misread) && OnlyTouched(v.s, s', Names(refs))
             && misread <= Names(refs) && (env.dbOk ==> misread == {})
             && (Smooth(cfg, v.s.members, env.net) ==> Collected(cfg, s', u.lists, refs))
    ensures var u := Unlinked(v, k, rowsGone, gone);
            DeleteDone(cfg, v, k, env, Swept(v, u, k, s', gone, misread), 204, gone, misread)
  {
    hide SoundAt, Settled, Represents, Backed, FullyPlaced, LiveUntouched, Names, Smooth, Collected, Unhurt;
    hide OnlyTouched;
    var u := Unlinked(v, k, rowsGone, gone);
    NamesOfPrefix(ListOf(v.lists, k), refs);
    UnhurtKept(v.lists, u.lists, v.backed, u.backed, k, misread);
    UnhurtKept(v.lists, u.lists, v.full, u.full, k, misread);
    if InOrder(cfg, v) && Faultless(cfg, v.s.members, env) {
      SoundAfterDelete(cfg, v.s, s', v.lists, v.model, v.backed, v.full, v.litter, k);
    }
  }

  /** Keys other than `k` that avoid the misread chunks stay backed or full. */
  lemma UnhurtKept(lists: ChunkLists, lists': ChunkLists, keys: set<Key>, keys': set<Key>, k: Key, hit: set<string>)
    requires keys - {k} <= keys' && forall x :: x in lists && x != k ==> x in lists' && lists'[x] == lists[x]
    ensures Unhurt(lists, keys - {k}, hit) <= Unhurt(lists', keys', hit)
    ensures Unhurt(lists, keys - {k}, hit) <= keys'
  {
    hide Avoids;
  }
}
