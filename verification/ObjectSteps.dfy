/** What the loops of the object handlers keep, step by step. */
module ObjectSteps {
  import opened Common
  import opened HashRing
  import opened Placement
  import opened ChunkStore
  import opened ServiceModel
  import opened Metadata
  import opened ObjectModel

  function StatusOf(code: Code): nat {
    match code
    case Invalid => 400
    case NotFound => 404
    case Unavailable => 500
    case Internal => 500
  }

  lemma NoObjects(cfg: Config, s: State)
    ensures Represents(cfg.sha, map[], map[]) && Backed(cfg.sha, map[], map[], {}, s.disk)
    ensures FullyPlaced(cfg, s, map[], {})
  {
  }

  lemma GrewNot(cfg: Config, s: State)
    ensures Grew(cfg, s, s)
  {
  }

  lemma GrewMembers(cfg: Config, s: State, s': State)
    requires Grew(cfg, s, s')
    ensures s'.members == s.members
  {
  }

  // ------------------------------------------------------------------ the steps of a PUT

  ghost predicate Uploaded(cfg: Config, s0: State, s: State, w: World, parts: seq<Bytes>, refs: seq<ChunkRef>) {
    && Grew(cfg, s0, s) && Spells(cfg.sha, refs, parts) && Stored(refs, s.disk)
    && OnlyTouched(s0, s, Names(refs))
    && (Smooth(cfg, s0.members, w) ==> AllPlaced(cfg, s, refs))
  }

  lemma NothingUploaded(cfg: Config, s: State, w: World)
    ensures Uploaded(cfg, s, s, w, [], [])
  {
    TouchedNothing(s, Names([]));
  }

  lemma UploadedMeans(cfg: Config, s0: State, s: State, w: World, parts: seq<Bytes>, refs: seq<ChunkRef>)
    requires Uploaded(cfg, s0, s, w, parts, refs)
    ensures Grew(cfg, s0, s) && s.members == s0.members && Spells(cfg.sha, refs, parts) && Stored(refs, s.disk)
    ensures OnlyTouched(s0, s, Names(refs))
    ensures Smooth(cfg, s.members, w) ==> AllPlaced(cfg, s, refs)
  {
    hide Spells, Stored, Smooth, AllPlaced, Extends, Intact, OnlyTouched;
  }

  lemma StoredGrows(cfg: Config, s: State, s': State, refs: seq<ChunkRef>, ref: ChunkRef)
    requires Grew(cfg, s, s') && Stored(refs, s.disk) && ref.checksum in s'.disk
    ensures Stored(refs + [ref], s'.disk)
  {
    hide Intact;
  }

  lemma NamesSnoc(refs: seq<ChunkRef>, ref: ChunkRef)
    ensures Names(refs + [ref]) == Names(refs) + {ref.checksum}
  {
  }

  lemma OneUploaded(cfg: Config, s0: State, s: State, s': State, w: World, parts: seq<Bytes>, refs: seq<ChunkRef>,
                    part: Bytes, r: Result<ChunkRef>, plan: seq<StorageNode>, acked: set<string>)
    requires Uploaded(cfg, s0, s, w, parts, refs) && Settled(cfg, s0.members)
    requires PutBy(cfg, s, part, w, s', r, plan, acked)
    ensures Grew(cfg, s0, s') && s'.members == s0.members
    ensures r.Ok? ==> Uploaded(cfg, s0, s', w, parts + [part], refs + [r.value])
    ensures r.Err? ==> StatusOf(r.code) == 500
    ensures Smooth(cfg, s0.members, w) && WritesFit(cfg, s0.members) ==> r.Ok?
  {
    UploadedMeans(cfg, s0, s, w, parts, refs);
    hide Settled, Grew, Spells, Stored, AllPlaced, PutBy, Smooth, WritesFit, OnlyTouched, Names;
    PutGrows(cfg, s, part, w, s', r, plan, acked);
    GrewMembers(cfg, s, s');
    GrewTwice(cfg, s0, s, s');
    if Smooth(cfg, s0.members, w) {
      PutPlaces(cfg, s, part, w, s', r, plan, acked);
      if WritesFit(cfg, s0.members) { CalmPutSucceeds(cfg, s, part, w, s', r, plan, acked); }
      if r.Ok? { PlacedOneMore(cfg, s, s', refs, r.value); }
    }
    if r.Ok? {
      StoredGrows(cfg, s, s', refs, r.value);
      SpellsOneMore(cfg.sha, refs, parts, part);
      PutTouches(cfg, s, part, w, s', r, plan, acked);
      TouchedThrough(s0, s, s', Names(refs), {r.value.checksum});
      NamesSnoc(refs, r.value);
    }
  }

  lemma PlacedOneMore(cfg: Config, s: State, s': State, refs: seq<ChunkRef>, ref: ChunkRef)
    requires Grew(cfg, s, s') && AllPlaced(cfg, s, refs) && Placed(cfg, s', ref.checksum)
    ensures AllPlaced(cfg, s', refs + [ref])
  {
    hide Grew, Placed;
    AllPlacedGrows(cfg, s, s', refs);
  }

  lemma SpellsOneMore(sha: Bytes -> string, refs: seq<ChunkRef>, parts: seq<Bytes>, part: Bytes)
    requires Spells(sha, refs, parts)
    ensures Spells(sha, refs + [ChunkRef(sha(part), |part|)], parts + [part])
  {
  }

  lemma ObjectAdded(cfg: Config, s: State, objects: Objects, lists: ChunkLists, model: Model,
                    backed: set<Key>, full: set<Key>, k: Key, refs: seq<ChunkRef>, parts: seq<Bytes>, body: Bytes,
                    calm: bool)
    requires Represents(cfg.sha, objects, model) && Backed(cfg.sha, lists, model, backed, s.disk)
    requires FullyPlaced(cfg, s, lists, full)
    requires Spells(cfg.sha, refs, parts) && Flatten(parts) == body
    requires Stored(refs, s.disk) && (calm ==> AllPlaced(cfg, s, refs))
    ensures Represents(cfg.sha, objects[k := ObjectRow(|body|, cfg.sha(body))], model[k := body])
    ensures Backed(cfg.sha, lists[k := refs], model[k := body], backed + {k}, s.disk)
    ensures FullyPlaced(cfg, s, lists[k := refs], if calm then full + {k} else full - {k})
  {
    assert Written(cfg.sha, refs, body);
    hide Written, Stored, AllPlaced;
  }

  // ------------------------------------------------------------------ the steps of a GET

  ghost predicate Found(sha: Bytes -> string, refs: seq<ChunkRef>, found: seq<Bytes>) {
    |found| == |refs| && forall i :: 0 <= i < |found| ==> sha(found[i]) == refs[i].checksum
  }

  ghost predicate AllSure(cfg: Config, s: State, w: World, refs: seq<ChunkRef>) {
    forall i :: 0 <= i < |refs| ==> SureRead(cfg, s, w, refs[i].checksum)
  }

  lemma SettledHealthy(cfg: Config, members: Members)
    requires Settled(cfg, members)
    ensures Filed(members) && AllHealthy(members)
  {
  }

  lemma NothingFound(cfg: Config, s: State, refs: seq<ChunkRef>)
    ensures Grew(cfg, s, s) && OnlyTouched(s, s, Names(refs))
    ensures Found(cfg.sha, refs[..0], []) && Flatten([]) == []
  {
  }

  lemma OneFound(sha: Bytes -> string, refs: seq<ChunkRef>, i: nat, found: seq<Bytes>, data: Bytes)
    requires i < |refs| && Found(sha, refs[..i], found) && sha(data) == refs[i].checksum
    ensures Found(sha, refs[..i + 1], found + [data]) && Flatten(found + [data]) == Flatten(found) + data
  {
    assert (found + [data])[..|found|] == found;
  }

  lemma OneRead(cfg: Config, s0: State, s: State, s': State, refs: seq<ChunkRef>, i: nat, w: World, r: Result<Bytes>,
                plan: seq<StorageNode>, asked: nat, answered: set<string>)
    requires i < |refs| && GetBy(cfg, s, refs[i].checksum, w, s', r, plan, asked, answered)
    requires Settled(cfg, s.members) && Grew(cfg, s0, s) && OnlyTouched(s0, s, Names(refs))
    ensures Grew(cfg, s0, s') && OnlyTouched(s0, s', Names(refs))
    ensures if r.Ok? then cfg.sha(r.value) == refs[i].checksum else StatusOf(r.code) == 500
    ensures SureRead(cfg, s, w, refs[i].checksum) ==> r.Ok?
  {
    hide GetBy, Settled, Grew, SureRead, OnlyTouched, Names;
    var c := refs[i].checksum;
    GetGrows(cfg, s, c, w, s', r, plan, asked, answered);
    GrewTwice(cfg, s0, s, s');
    GetTouches(cfg, s, c, w, s', r, plan, asked, answered);
    TouchedThrough(s0, s, s', Names(refs), {c});
    NameOf(refs, i);
    assert Names(refs) + {c} == Names(refs);
    if SureRead(cfg, s, w, c) { SureReadSucceeds(cfg, s, c, w, s', r, plan, asked, answered); }
  }

  lemma SameKeys(sha: Bytes -> string, objects: Objects, model: Model)
    requires Represents(sha, objects, model)
    ensures objects.Keys == model.Keys
    ensures forall k :: k in model ==> objects[k].checksum == sha(model[k])
  {
  }

  lemma ObjectIsSure(cfg: Config, s: State, w: World, lists: ChunkLists, model: Model,
                     backed: set<Key>, full: set<Key>, k: Key)
    requires k in backed && Backed(cfg.sha, lists, model, backed, s.disk) && FullyPlaced(cfg, s, lists, full)
    requires CollisionFree(cfg.hash, s.members.Keys) && Intact(cfg.sha, s.disk)
    requires cfg.readQuorum <= 1 || (k in full && Calm(s.members, w) && ReadsFit(cfg, s.members))
    ensures AllSure(cfg, s, w, ListOf(lists, k))
  {
    hide CollisionFree, Intact, Calm, ReadsFit, Placed, Written;
    forall i | 0 <= i < |lists[k]|
      ensures SureRead(cfg, s, w, lists[k][i].checksum)
    {
      assert Stored(lists[k], s.disk);
    }
  }

  /** The chunks found for a backed object are the object. */
  lemma ObjectRead(sha: Bytes -> string, lists: ChunkLists, model: Model, backed: set<Key>, disk: map<string, Bytes>,
                   k: Key, found: seq<Bytes>)
    requires Injective(sha) && k in backed && Backed(sha, lists, model, backed, disk)
    requires Found(sha, ListOf(lists, k), found)
    ensures k in model && Flatten(found) == model[k]
  {
    hide Injective, Flatten, Stored;
    assert Written(sha, lists[k], model[k]);
    var parts :| Spells(sha, lists[k], parts) && Flatten(parts) == model[k];
    Reassembled(sha, lists[k], parts, found);
  }

  // --------------------------------------------------------------- the steps of a DELETE

  lemma NothingCollected(cfg: Config, s: State, lists: ChunkLists, refs: seq<ChunkRef>)
    ensures LiveUntouched(s, s, lists, {}) && Collected(cfg, s, lists, refs[..0])
    ensures OnlyTouched(s, s, Names(refs))
  {
  }

  lemma NameOf(refs: seq<ChunkRef>, i: nat)
    requires i < |refs|
    ensures refs[i].checksum in Names(refs)
  {
    assert refs[i] in refs;
  }

  lemma SparedMembers(s: State, s': State, lists: ChunkLists, except: set<string>)
    requires LiveUntouched(s, s', lists, except)
    ensures s'.members == s.members
  {
  }

  lemma OneCollected(cfg: Config, s0: State, s: State, s': State, w: World, lists: ChunkLists, misread: set<string>,
                     refs: seq<ChunkRef>, i: nat, references: int, answered: bool,
                     r: Result<()>, plan: seq<StorageNode>, removed: set<string>)
    requires i < |refs| && RemoveBy(cfg, s, refs[i].checksum, references, w, s', r, plan, removed)
    requires references <= 0 <==> !Referenced(lists, refs[i].checksum) || !answered
    requires Settled(cfg, s0.members) && LiveUntouched(s0, s, lists, misread)
    requires Smooth(cfg, s0.members, w) ==> Collected(cfg, s, lists, refs[..i])
    ensures LiveUntouched(s0, s', lists, if answered then misread else misread + {refs[i].checksum})
    ensures Smooth(cfg, s0.members, w) ==> Collected(cfg, s', lists, refs[..i + 1])
  {
    hide Settled, LiveUntouched, RemoveBy, Smooth, Referenced, Gone;
    var c := refs[i].checksum;
    var misread' := if answered then misread else misread + {c};
    SparedMembers(s0, s, lists, misread);
    RemovalSpares(cfg, s, c, references, w, s', r, plan, removed, lists, misread');
    SparedButMore(s0, s, lists, misread, misread');
    SparedTwice(s0, s, s', lists, misread');
    if Smooth(cfg, s0.members, w) {
      if references <= 0 { RemovalCollects(cfg, s, c, references, w, s', r, plan, removed); }
      forall j | 0 <= j < i + 1 && !Referenced(lists, refs[j].checksum)
        ensures Gone(cfg, s', refs[j].checksum)
      {
        if j < i {
          assert refs[..i][j] == refs[j];
          StaysGone(cfg, s, s', lists, misread', refs[j].checksum);
        }
      }
    }
  }

  lemma CollectingTouches(cfg: Config, s0: State, s: State, s': State, w: World, refs: seq<ChunkRef>, i: nat,
                          references: int, r: Result<()>, plan: seq<StorageNode>, removed: set<string>)
    requires i < |refs| && RemoveBy(cfg, s, refs[i].checksum, references, w, s', r, plan, removed)
    requires Settled(cfg, s.members) && OnlyTouched(s0, s, Names(refs))
    ensures OnlyTouched(s0, s', Names(refs))
  {
    hide Settled, RemoveBy, OnlyTouched, Names;
    RemoveTouches(cfg, s, refs[i].checksum, references, w, s', r, plan, removed);
    TouchedThrough(s0, s, s', Names(refs), {refs[i].checksum});
    NameOf(refs, i);
    assert Names(refs) + {refs[i].checksum} == Names(refs);
  }

  /** The keys that an incomplete or complete deletion of `k` leaves as they were. */
  ghost function Spared(keys: set<Key>, k: Key, rowsGone: bool, objectGone: bool): set<Key> {
    if rowsGone || objectGone then keys - {k} else keys
  }

  lemma ObjectDropped(cfg: Config, s: State, objects: Objects, lists: ChunkLists, model: Model,
                      backed: set<Key>, full: set<Key>, k: Key, rowsGone: bool, objectGone: bool)
    requires Represents(cfg.sha, objects, model) && Backed(cfg.sha, lists, model, backed, s.disk)
    requires FullyPlaced(cfg, s, lists, full)
    ensures var objects' := if objectGone then objects - {k} else objects;
            var lists' := if rowsGone then lists - {k} else lists;
            var model' := if objectGone then model - {k} else model;
            && Represents(cfg.sha, objects', model')
            && Backed(cfg.sha, lists', model', Spared(backed, k, rowsGone, objectGone), s.disk)
            && FullyPlaced(cfg, s, lists', Spared(full, k, rowsGone, objectGone))
  {
    hide Written, Stored, AllPlaced;
  }

  lemma NobodyHurt(cfg: Config, s: State, lists: ChunkLists, model: Model, backed: set<Key>, full: set<Key>)
    requires Backed(cfg.sha, lists, model, backed, s.disk) && FullyPlaced(cfg, s, lists, full)
    ensures Unhurt(lists, backed, {}) == backed && Unhurt(lists, full, {}) == full
  {
    hide Stored, AllPlaced, Written;
  }

  lemma AllUnhurt(lists: ChunkLists, keys: set<Key>)
    requires keys <= lists.Keys
    ensures Unhurt(lists, keys, {}) == keys
  {
  }

  lemma StillIntact(cfg: Config, s: State, s': State)
    requires Grew(cfg, s, s')
    ensures s'.members == s.members && (Intact(cfg.sha, s.disk) ==> Intact(cfg.sha, s'.disk))
  {
    hide Intact;
  }

  lemma SparedIntact(cfg: Config, s: State, s': State, lists: ChunkLists, except: set<string>)
    requires LiveUntouched(s, s', lists, except)
    ensures s'.members == s.members && (Intact(cfg.sha, s.disk) ==> Intact(cfg.sha, s'.disk))
  {
    hide Referenced, Untouched;
  }

  // ------------------------------------------------------------------- faultless runs

  /** Every object has its rows, is on the local disk and on all its replicas; what no row names
      is on all targets if an overwriting PUT left it, else on none; quorums can be met. */
  ghost predicate SoundAt(cfg: Config, s: State, lists: ChunkLists, model: Model, backed: set<Key>, full: set<Key>,
                          litter: set<string>) {
    && full == backed == model.Keys == lists.Keys
    && Intact(cfg.sha, s.disk) && Tidy(cfg, s, lists, litter)
    && WritesFit(cfg, s.members) && (cfg.readQuorum <= 1 || ReadsFit(cfg, s.members))
  }

  lemma SoundFits(cfg: Config, s: State, lists: ChunkLists, model: Model, backed: set<Key>, full: set<Key>,
                  litter: set<string>)
    requires SoundAt(cfg, s, lists, model, backed, full, litter)
    ensures WritesFit(cfg, s.members)
  {
  }

  lemma SoundAtStart(cfg: Config, s: State)
    requires s.disk == map[] && s.peers == map[]
    requires WritesFit(cfg, s.members) && (cfg.readQuorum <= 1 || ReadsFit(cfg, s.members))
    ensures SoundAt(cfg, s, map[], map[], {}, {}, {})
  {
    hide PlanFor;
  }

  lemma SoundAfterPut(cfg: Config, s: State, s': State, lists: ChunkLists, model: Model, backed: set<Key>,
                      full: set<Key>, litter: set<string>, k: Key, refs: seq<ChunkRef>, body: Bytes)
    requires SoundAt(cfg, s, lists, model, backed, full, litter) && FullyPlaced(cfg, s, lists, full)
    requires Grew(cfg, s, s') && OnlyTouched(s, s', Names(refs))
    ensures SoundAt(cfg, s', lists[k := refs], model[k := body], backed + {k}, full + {k},
                    litter + Names(ListOf(lists, k)))
  {
    hide Tidy, Intact, WritesFit, ReadsFit, FullyPlaced, OnlyTouched, Names, Grew;
    EveryListPlaced(cfg, s, lists, full);
    TidyAfterPut(cfg, s, s', lists, k, refs, litter);
    StillIntact(cfg, s, s');
  }

  lemma SoundAfterGet(cfg: Config, s: State, s': State, lists: ChunkLists, model: Model, backed: set<Key>,
                      full: set<Key>, litter: set<string>, k: Key, refs: seq<ChunkRef>)
    requires SoundAt(cfg, s, lists, model, backed, full, litter) && refs <= ListOf(lists, k)
    requires Grew(cfg, s, s') && OnlyTouched(s, s', Names(refs))
    ensures SoundAt(cfg, s', lists, model, backed, full, litter)
  {
    hide Tidy, Intact, WritesFit, ReadsFit, OnlyTouched, Names, Grew;
    TidyAfterGet(cfg, s, s', lists, k, refs, litter);
    StillIntact(cfg, s, s');
  }

  lemma SoundAfterDelete(cfg: Config, s: State, s': State, lists: ChunkLists, model: Model, backed: set<Key>,
                         full: set<Key>, litter: set<string>, k: Key)
    requires SoundAt(cfg, s, lists, model, backed, full, litter) && k in model
    requires LiveUntouched(s, s', lists - {k}, {}) && OnlyTouched(s, s', Names(ListOf(lists, k)))
    requires Collected(cfg, s', lists - {k}, ListOf(lists, k))
    ensures SoundAt(cfg, s', lists - {k}, model - {k}, Unhurt(lists - {k}, backed - {k}, {}),
                    Unhurt(lists - {k}, full - {k}, {}), litter - Names(ListOf(lists, k)))
  {
    hide Tidy, Intact, WritesFit, ReadsFit, OnlyTouched, Names, LiveUntouched, Collected, Unhurt;
    TidyAfterDelete(cfg, s, s', lists, k, litter);
    SparedIntact(cfg, s, s', lists - {k}, {});
    AllUnhurt(lists - {k}, backed - {k});
    AllUnhurt(lists - {k}, full - {k});
  }
}
