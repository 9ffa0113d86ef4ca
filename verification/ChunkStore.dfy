/** Content-addressed chunks on disk behind a cache, and the splitting of objects into chunks. */
module ChunkStore {
  import opened Common
  import opened Lru

  datatype ChunkRef = ChunkRef(checksum: string, size: nat)

  ghost predicate Injective(sha: Bytes -> string) {
    forall a, b :: sha(a) == sha(b) ==> a == b
  }

  lemma SameBytes(sha: Bytes -> string, a: Bytes, b: Bytes)
    requires Injective(sha) && sha(a) == sha(b)
    ensures a == b
  {
  }

  /** Every cached value hashes to its key. */
  ghost predicate Sound(sha: Bytes -> string, entries: seq<(string, Bytes)>) {
    forall e :: e in entries ==> sha(e.1) == e.0
  }

  ghost predicate Within(entries: seq<(string, Bytes)>, m: map<string, Bytes>) {
    forall e :: e in entries ==> e.0 in m && m[e.0] == e.1
  }

  class Store {
    const sha: Bytes -> string
    const cache: LruCache<string, Bytes>
    var disk: map<string, Bytes>

    /** What was stored, as a plain map; and whether files were left alone since. */
    ghost var puts: map<string, Bytes>
    ghost var undisturbed: bool

    ghost predicate Valid()
      reads this, cache
    {
      && cache.Valid() && Sound(sha, cache.entries)
      && (forall c :: c in puts ==> sha(puts[c]) == c)
      && (undisturbed && Injective(sha) ==> disk == puts && Within(cache.entries, puts))
    }

    constructor (sha: Bytes -> string, cacheBytes: nat)
      ensures Valid() && fresh(cache) && this.sha == sha && disk == map[] && puts == map[] && undisturbed
      ensures cache.capacity == cacheBytes / 4096 + 1
    {
      this.sha := sha;
      cache := new LruCache(cacheBytes / 4096 + 1);
      disk, puts, undisturbed := map[], map[], true;
    }

    /** Stores a chunk under its hash. A file already there is trusted and left as it is. */
    method Put(bytes: Bytes, writable: bool) returns (r: Result<ChunkRef>)
      requires Valid()
      modifies this, cache
      ensures Valid() && undisturbed == old(undisturbed)
      ensures r.Ok? <==> writable || sha(bytes) in old(disk)
      ensures r.Ok? ==> r.value == ChunkRef(sha(bytes), |bytes|) && puts == old(puts)[sha(bytes) := bytes]
      ensures r.Ok? ==> disk == if sha(bytes) in old(disk) then old(disk) else old(disk)[sha(bytes) := bytes]
      ensures r.Err? ==> r.code == Internal && disk == old(disk) && puts == old(puts)
      ensures r.Err? ==> cache.entries == old(cache.entries)
    {
      var checksum := sha(bytes);
      if checksum !in disk {
        if !writable {
          return Err(Internal);
        }
        disk := disk[checksum := bytes];
      }
      puts := puts[checksum := bytes];
      cache.Put(checksum, bytes);
      r := Ok(ChunkRef(checksum, |bytes|));
    }

    /** Integrity: a successful read returns bytes with the asked-for hash, whatever
        happened to the files. Exactness: while nothing was removed or damaged, and
        hashes do not collide, the store is the plain map of all puts. */
    method Get(c: string) returns (r: Result<Bytes>)
      requires Valid()
      modifies cache
      ensures Valid()
      ensures r.Ok? ==> sha(r.value) == c
      ensures undisturbed && Injective(sha) ==> r == if c in puts then Ok(puts[c]) else Err(NotFound)
      ensures c in disk && sha(disk[c]) == c ==> r.Ok?
      ensures c !in disk && c !in old(cache.index) ==> r == Err(NotFound)
      ensures r.Err? ==> r.code == NotFound || r.code == Internal
    {
      var cached := cache.Get(c);
      if cached.Some? {
        assert (c, cached.value) in old(cache.entries);
        return Ok(cached.value);
      }
      assert undisturbed && Injective(sha) ==> Within(cache.entries, puts);
      if c !in disk {
        return Err(NotFound);
      }
      var bytes := disk[c];
      if sha(bytes) != c {
        return Err(Internal);
      }
      cache.Put(c, bytes);
      r := Ok(bytes);
    }

    /** Deletes the file; the cache is not told. */
    method RemoveIfUnreferenced(c: string, references: int, removable: bool) returns (r: Result<()>)
      requires Valid()
      modifies this
      ensures Valid()
      ensures references > 0 ==> r.Ok? && disk == old(disk) && undisturbed == old(undisturbed)
      ensures references <= 0 ==> r.Ok? == removable
      ensures references <= 0 && r.Ok? ==> disk == old(disk) - {c} && !undisturbed
      ensures r.Err? ==> disk == old(disk) && undisturbed == old(undisturbed)
      ensures puts == old(puts)
    {
      if references > 0 {
        return Ok(());
      }
      if !removable {
        return Err(Internal);
      }
      disk := disk - {c};
      undisturbed := false;
      r := Ok(());
    }

    /** Anything at all happens to one file. */
    method Damage(c: string, bytes: Bytes)
      requires Valid()
      modifies this
      ensures Valid() && disk == old(disk)[c := bytes] && puts == old(puts) && !undisturbed
    {
      disk := disk[c := bytes];
      undisturbed := false;
    }
  }

  // ---------------------------------------------------------------------- chunking

  function Flatten(chunks: seq<Bytes>): Bytes {
    if chunks == [] then [] else Flatten(chunks[..|chunks| - 1]) + chunks[|chunks| - 1]
  }

  /** The chunk size used when none is configured. */
  const DEFAULT_CHUNK_SIZE: nat := 4 * 1024 * 1024

  /** Chunks of one size, a last one that may be shorter, and one empty chunk for
      an empty input; together they are the input. */
  method ChunkBytes(input: Bytes, chunkSize: nat) returns (chunks: seq<Bytes>)
    ensures Flatten(chunks) == input && chunks != []
    ensures var size := if chunkSize == 0 then DEFAULT_CHUNK_SIZE else chunkSize;
            && (forall i :: 0 <= i < |chunks| - 1 ==> |chunks[i]| == size)
            && |chunks[|chunks| - 1]| <= size
            && (|chunks[|chunks| - 1]| == 0 <==> input == [])
  {
    var size := if chunkSize == 0 then DEFAULT_CHUNK_SIZE else chunkSize;
    chunks := [];
    var offset := 0;
    while offset < |input|
      invariant Flatten(chunks) == input[..Min(offset, |input|)]
      invariant offset > 0 <==> chunks != []
      invariant forall i :: 0 <= i < |chunks| ==> 0 < |chunks[i]| <= size
      invariant offset <= |input| ==> forall i :: 0 <= i < |chunks| ==> |chunks[i]| == size
      invariant forall i :: 0 <= i < |chunks| - 1 ==> |chunks[i]| == size
      decreases |input| - offset
    {
      var end := Min(|input|, offset + size);
      var part := input[offset..end];
      assert (chunks + [part])[..|chunks|] == chunks;
      assert input[..offset] + part == input[..end];
      chunks := chunks + [part];
      offset := offset + size;
    }
    assert input[..|input|] == input;
    if input == [] {
      chunks := chunks + [[]];
      assert chunks[..0] == [];
    }
  }
}
