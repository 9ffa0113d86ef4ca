/** The write-ahead log: one checksummed line per record, and what a crash in the
    middle of writing leaves of it. */
module Wal {
  import opened Common
  import opened Text

  /** `kind` is the numeric record type: put 1, delete 2, raft entry 3, hinted handoff 4. */
  datatype Record = Record(kind: nat, key: string, payload: string)

  /** The shape of a hexadecimal SHA-256: 64 characters, none a tab or a newline. */
  ghost predicate HexLike(hash: string -> string) {
    forall s :: |hash(s)| == 64 && Free(hash(s), '\t') && Free(hash(s), '\n')
  }

  /** Fields as the program writes them. */
  predicate Plain(r: Record) {
    Free(r.key, '\t') && Free(r.key, '\n') && Free(r.payload, '\t') && Free(r.payload, '\n')
  }

  ghost predicate AllPlain(rs: seq<Record>) {
    forall i :: 0 <= i < |rs| ==> Plain(rs[i])
  }

  // -------------------------------------------------------------------------- writing

  function Payload(r: Record): string {
    Decimal(r.kind) + "\t" + r.key + "\t" + r.payload
  }

  /** A record's line, without its newline. */
  function Body(r: Record, hash: string -> string): string {
    Payload(r) + "\t" + hash(Payload(r))
  }

  /** The file after appending the records in order. */
  function File(rs: seq<Record>, hash: string -> string): string {
    if rs == [] then "" else Body(rs[0], hash) + "\n" + File(rs[1..], hash)
  }

  // -------------------------------------------------------------------------- reading

  /** The tab-separated parts of a line; there is always at least one. */
  function Split(line: string): (parts: seq<string>)
    ensures |parts| > 0
    decreases |line|
  {
    var p := Before(line, '\t');
    if |p| == |line| then [line] else [p] + Split(line[|p| + 1..])
  }

  function ParseLine(line: string, hash: string -> string): Result<Record> {
    var parts := Split(line);
    if |parts| != 4 then Err(Internal)
    else if hash(parts[0] + "\t" + parts[1] + "\t" + parts[2]) != parts[3] then Err(Internal)
    else
      var n := LeadingNumber(parts[0]);
      if n.None? then Err(Internal) else Ok(Record(n.value, parts[1], parts[2]))
  }

  function ReplayLines(lines: seq<string>, hash: string -> string): Result<seq<Record>> {
    if lines == [] then Ok([])
    else
      match ParseLine(lines[0], hash)
      case Err(e) => Err(e)
      case Ok(r) =>
        match ReplayLines(lines[1..], hash)
        case Err(e) => Err(e)
        case Ok(rs) => Ok([r] + rs)
  }

  function Replay(file: string, hash: string -> string): Result<seq<Record>> {
    ReplayLines(Lines(file), hash)
  }

  // ------------------------------------------------------------------- the log object

  class WriteAheadLog {
    const hash: string -> string
    var file: string
    ghost var records: seq<Record>

    ghost predicate Valid()
      reads this
    {
      file == File(records, hash)
    }

    constructor (hash: string -> string)
      ensures Valid() && this.hash == hash && records == []
    {
      this.hash := hash;
      file, records := "", [];
    }

    method Append(r: Record, writable: bool) returns (ok: bool)
      requires Valid()
      modifies this
      ensures Valid() && ok == writable
      ensures records == if ok then old(records) + [r] else old(records)
    {
      if !writable {
        return false;
      }
      var line := Decimal(r.kind) + "\t" + r.key + "\t" + r.payload;
      var checksum := hash(line);
      FileSnoc(records, r, hash);
      file := file + line + "\t" + checksum + "\n";
      records := records + [r];
      ok := true;
    }

    /** The reading loop, with the splitting loop inside it. */
    method ReplayFile() returns (out: Result<seq<Record>>)
      ensures out == Replay(file, hash)
    {
      hide Lines, ReplayLines, Split, LeadingNumber;
      var rest := file;
      var records := [];
      PrependedEnds([], Replay(file, hash));
      while rest != []
        invariant Replay(file, hash) == Prepended(records, ReplayLines(Lines(rest), hash))
        decreases |rest|
      {
        var line := Before(rest, '\n');
        LinesStep(rest);
        rest := if |line| == |rest| then [] else rest[|line| + 1..];
        ReplayCons(line, Lines(rest), hash);
        var parts := SplitLine(line);
        if |parts| != 4 {
          return Err(Internal);
        }
        var payload := parts[0] + "\t" + parts[1] + "\t" + parts[2];
        if hash(payload) != parts[3] {
          return Err(Internal);
        }
        var n := LeadingNumber(parts[0]);
        if n.None? {
          return Err(Internal);
        }
        var record := Record(n.value, parts[1], parts[2]);
        PrependedTwice(records, record, ReplayLines(Lines(rest), hash));
        records := records + [record];
      }
      NoLines(hash);
      PrependedEnds(records, Ok([]));
      out := Ok(records);
    }
  }

  function Prepended(rs: seq<Record>, r: Result<seq<Record>>): Result<seq<Record>> {
    if r.Ok? then Ok(rs + r.value) else r
  }

  lemma PrependedTwice(rs: seq<Record>, r: Record, x: Result<seq<Record>>)
    ensures Prepended(rs, Prepended([r], x)) == Prepended(rs + [r], x)
  {
    if x.Ok? { assert rs + ([r] + x.value) == rs + [r] + x.value; }
  }

  lemma NoLines(hash: string -> string)
    ensures Lines([]) == [] && ReplayLines([], hash) == Ok([])
  {
  }

  lemma PrependedEnds(rs: seq<Record>, x: Result<seq<Record>>)
    ensures Prepended([], x) == x && Prepended(rs, Ok([])) == Ok(rs)
  {
    if x.Ok? { assert [] + x.value == x.value; }
    assert rs + [] == rs;
  }

  lemma LinesStep(f: string)
    requires f != []
    ensures var l := Before(f, '\n');
            Lines(f) == [l] + Lines(if |l| == |f| then [] else f[|l| + 1..])
  {
  }

  lemma ReplayCons(line: string, lines: seq<string>, hash: string -> string)
    ensures ReplayLines([line] + lines, hash) ==
            var first := ParseLine(line, hash);
            if first.Err? then Err(first.code) else Prepended([first.value], ReplayLines(lines, hash))
  {
    hide ParseLine;
    assert ([line] + lines)[1..] == lines;
  }

  lemma SplitStep(s: string)
    ensures var p := Before(s, '\t');
            Split(s) == if |p| == |s| then [s] else [p] + Split(s[|p| + 1..])
  {
  }

  method SplitLine(line: string) returns (parts: seq<string>)
    ensures parts == Split(line)
  {
    hide Split;
    parts := [];
    var start := 0;
    assert line[0..] == line;
    while true
      invariant 0 <= start <= |line|
      invariant parts + Split(line[start..]) == Split(line)
      decreases |line| - start
    {
      var field := Before(line[start..], '\t');
      SplitStep(line[start..]);
      if start + |field| == |line| {
        parts := parts + [line[start..]];
        return;
      }
      assert line[start..][|field| + 1..] == line[start + |field| + 1..];
      parts := parts + [field];
      start := start + |field| + 1;
    }
  }

  // ----------------------------------------------------------------------- the theorem

  lemma {:induction false} FileSnoc(rs: seq<Record>, r: Record, hash: string -> string)
    ensures File(rs + [r], hash) == File(rs, hash) + Body(r, hash) + "\n"
  {
    if rs == [] {
      assert rs + [r] == [r];
      assert File([r][1..], hash) == "";
    } else {
      assert (rs + [r])[1..] == rs[1..] + [r];
      FileSnoc(rs[1..], r, hash);
    }
  }

  lemma SplitCons(a: string, rest: string)
    requires Free(a, '\t')
    ensures Split(a + "\t" + rest) == [a] + Split(rest)
  {
    var s := a + "\t" + rest;
    assert s == a + ['\t'] + rest;
    BeforeAt(a, '\t', rest);
    assert s[|a| + 1..] == rest;
  }

  lemma SplitOne(a: string)
    requires Free(a, '\t')
    ensures Split(a) == [a]
  {
    BeforeAll(a, '\t');
  }

  /** The four parts of a line built from three tab-free fields and any tail. */
  lemma SplitFour(a: string, b: string, c: string, d: string)
    requires Free(a, '\t') && Free(b, '\t') && Free(c, '\t') && Free(d, '\t')
    ensures Split(a + "\t" + b + "\t" + c + "\t" + d) == [a, b, c, d]
  {
    hide Split;
    SplitOne(d);
    SplitCons(c, d);
    SplitCons(b, c + "\t" + d);
    SplitCons(a, b + "\t" + (c + "\t" + d));
    assert a + "\t" + b + "\t" + c + "\t" + d == a + "\t" + (b + "\t" + (c + "\t" + d));
    assert b + "\t" + c + "\t" + d == b + "\t" + (c + "\t" + d);
  }

  /** A line's fields: kind, key, payload and the checksum of the three. */
  lemma BodyFields(r: Record, hash: string -> string)
    requires Plain(r) && HexLike(hash)
    ensures Split(Body(r, hash)) == [Decimal(r.kind), r.key, r.payload,
                                     hash(Decimal(r.kind) + "\t" + r.key + "\t" + r.payload)]
  {
    SplitFour(Decimal(r.kind), r.key, r.payload, hash(Payload(r)));
  }

  lemma BodyParses(r: Record, hash: string -> string)
    requires Plain(r) && HexLike(hash)
    ensures ParseLine(Body(r, hash), hash) == Ok(r) && Free(Body(r, hash), '\n') && Body(r, hash) != []
  {
    BodyFields(r, hash);
    NumberReadsBack(r.kind);
  }

  /** Fewer than three tabs mean fewer than four parts. */
  lemma FewParts(p: string, a: string, b: string, c: string)
    requires Free(a, '\t') && Free(b, '\t') && Free(c, '\t')
    requires p <= a + "\t" + b + "\t" + c
    ensures |Split(p)| <= 3
  {
    hide Split;
    if |p| <= |a| {
      assert p <= a;
      SplitOne(p);
    } else {
      var p1 := p[|a| + 1..];
      assert p == a + "\t" + p1;
      SplitCons(a, p1);
      assert p1 <= b + "\t" + c;
      if |p1| <= |b| {
        assert p1 <= b;
        SplitOne(p1);
      } else {
        var p2 := p1[|b| + 1..];
        assert p1 == b + "\t" + p2;
        SplitCons(b, p2);
        assert p2 <= c;
        SplitOne(p2);
      }
    }
  }

  /** A line cut short anywhere is refused. */
  lemma TornBodyRefused(r: Record, hash: string -> string, p: string)
    requires Plain(r) && HexLike(hash) && p <= Body(r, hash) && p != Body(r, hash)
    ensures ParseLine(p, hash).Err?
  {
    var a := Decimal(r.kind);
    var line := Payload(r);
    if |p| <= |line| {
      assert p <= a + "\t" + r.key + "\t" + r.payload;
      FewParts(p, a, r.key, r.payload);
    } else {
      var d := p[|line| + 1..];
      assert p == line + "\t" + d;
      assert d <= hash(line);
      SplitFour(a, r.key, r.payload, d);
    }
  }

  /** What replay makes of the first `n` bytes of the file: the records written whole -
      the last one may lack its newline - and an error for anything torn. */
  function Survivors(rs: seq<Record>, hash: string -> string, n: nat): Result<seq<Record>>
    requires n <= |File(rs, hash)|
  {
    if rs == [] || n == 0 then Ok([])
    else
      var b := |Body(rs[0], hash)|;
      if n < b then Err(Internal)
      else if n == b then Ok([rs[0]])
      else Prepended([rs[0]], Survivors(rs[1..], hash, n - b - 1))
  }

  /** Crash truncation, exactly: replaying the file cut at any byte. */
  lemma {:induction false} ReplayCut(rs: seq<Record>, hash: string -> string, n: nat)
    requires AllPlain(rs) && HexLike(hash) && n <= |File(rs, hash)|
    ensures Replay(File(rs, hash)[..n], hash) == Survivors(rs, hash, n)
  {
    var f := File(rs, hash);
    if rs == [] || n == 0 {
      assert f[..n] == "";
    } else {
      var body, rest := Body(rs[0], hash), File(rs[1..], hash);
      BodyParses(rs[0], hash);
      hide ParseLine, Body, Lines, ReplayLines, HexLike;
      if n <= |body| {
        assert f[..n] == body[..n];
        assert Free(body[..n], '\n');
        LastLine(body[..n]);
        if n < |body| {
          TornBodyRefused(rs[0], hash, body[..n]);
          ReplayCons(body[..n], [], hash);
          assert [body[..n]] + [] == [body[..n]];
        } else {
          assert body[..n] == body;
          ReplayCons(body, [], hash);
          assert [body] + [] == [body];
          NoLines(hash);
          PrependedEnds([rs[0]], Ok([]));
        }
      } else {
        var m := n - |body| - 1;
        assert f[..n] == body + "\n" + rest[..m];
        LinesCons(body, rest[..m]);
        ReplayCut(rs[1..], hash, m);
        ReplayCons(body, Lines(rest[..m]), hash);
      }
    }
  }

  /** So no cut ever yields anything but a prefix of what was appended, or an error. */
  lemma {:induction false} SurvivorsArePrefix(rs: seq<Record>, hash: string -> string, n: nat)
    requires n <= |File(rs, hash)|
    ensures Survivors(rs, hash, n).Ok? ==> Survivors(rs, hash, n).value <= rs
    ensures n == |File(rs, hash)| ==> Survivors(rs, hash, n) == Ok(rs)
  {
    if rs != [] && n > 0 {
      var b := |Body(rs[0], hash)|;
      hide Body;
      if n > b {
        SurvivorsArePrefix(rs[1..], hash, n - b - 1);
        assert [rs[0]] + rs[1..] == rs;
      } else if n == b {
        assert [rs[0]] <= rs;
      }
    }
  }

  // -------------------------------------------------------------- what can be replayed

  lemma {:induction false} SplitFree(line: string, c: char)
    requires Free(line, c)
    ensures forall i :: 0 <= i < |Split(line)| ==> Free(Split(line)[i], c) && Free(Split(line)[i], '\t')
    decreases |line|
  {
    var p := Before(line, '\t');
    if |p| < |line| {
      SplitFree(line[|p| + 1..], c);
    }
  }

  lemma {:induction false} LinesFree(f: string)
    ensures forall i :: 0 <= i < |Lines(f)| ==> Free(Lines(f)[i], '\n')
    decreases |f|
  {
    if f != [] {
      var l := Before(f, '\n');
      if |l| < |f| { LinesFree(f[|l| + 1..]); }
    }
  }

  lemma {:induction false} ReplayedLinesPlain(lines: seq<string>, hash: string -> string)
    requires forall i :: 0 <= i < |lines| ==> Free(lines[i], '\n')
    ensures ReplayLines(lines, hash).Ok? ==> AllPlain(ReplayLines(lines, hash).value)
  {
    if lines != [] {
      SplitFree(lines[0], '\n');
      ReplayedLinesPlain(lines[1..], hash);
    }
  }

  /** The whole file gives back what was appended exactly when every field is free of tabs and newlines. */
  lemma ReplayFaithfulExactly(rs: seq<Record>, hash: string -> string)
    requires HexLike(hash)
    ensures Replay(File(rs, hash), hash) == Ok(rs) <==> AllPlain(rs)
  {
    var f := File(rs, hash);
    if AllPlain(rs) {
      assert f[..|f|] == f;
      ReplayCut(rs, hash, |f|);
      SurvivorsArePrefix(rs, hash, |f|);
    }
    LinesFree(f);
    ReplayedLinesPlain(Lines(f), hash);
  }

  // -------------------------------------------------------------------- damaged records

  function Join(parts: seq<string>): string
    requires |parts| > 0
  {
    if |parts| == 1 then parts[0] else parts[0] + "\t" + Join(parts[1..])
  }

  lemma JoinCons(p: string, parts: seq<string>)
    requires |parts| > 0
    ensures Join([p]) == p && Join([p] + parts) == p + "\t" + Join(parts)
  {
    assert ([p] + parts)[1..] == parts;
  }

  lemma {:induction false} JoinSplit(line: string)
    ensures Join(Split(line)) == line
    decreases |line|
  {
    hide Join, Split;
    SplitStep(line);
    var p := Before(line, '\t');
    if |p| < |line| {
      var rest := line[|p| + 1..];
      JoinSplit(rest);
      JoinCons(p, Split(rest));
      assert line == p + "\t" + rest;
    } else {
      JoinCons(line, [line]);
    }
  }

  lemma JoinFour(a: string, b: string, c: string, d: string)
    ensures Join([a, b, c, d]) == a + "\t" + b + "\t" + c + "\t" + d
  {
    hide Join;
    JoinCons(d, [d]);
    JoinCons(c, [d]);
    JoinCons(b, [c, d]);
    JoinCons(a, [b, c, d]);
    assert [a] + [b, c, d] == [a, b, c, d] && [b] + [c, d] == [b, c, d] && [c] + [d] == [c, d];
    assert a + "\t" + (b + "\t" + (c + "\t" + d)) == a + "\t" + b + "\t" + c + "\t" + d;
  }

  /** The line ends in the checksum of what stands before it. */
  ghost predicate Checked(line: string, hash: string -> string) {
    exists p :: line == p + "\t" + hash(p)
  }

  lemma ParsedIsChecked(line: string, hash: string -> string)
    requires ParseLine(line, hash).Ok?
    ensures Checked(line, hash)
  {
    JoinSplit(line);
    hide Split, LeadingNumber;
    var parts := Split(line);
    assert parts == [parts[0], parts[1], parts[2], parts[3]];
    JoinFour(parts[0], parts[1], parts[2], parts[3]);
    assert line == parts[0] + "\t" + parts[1] + "\t" + parts[2] + "\t" + parts[3];
  }

  lemma {:induction false} ReplayChecksLines(lines: seq<string>, hash: string -> string)
    requires ReplayLines(lines, hash).Ok?
    ensures forall l :: l in lines ==> Checked(l, hash)
  {
    hide ParseLine, Checked;
    if lines != [] {
      ParsedIsChecked(lines[0], hash);
      ReplayChecksLines(lines[1..], hash);
    }
  }

  /** A file that replays has nothing but lines that end in their own checksum. */
  lemma ReplayedIsChecked(f: string, hash: string -> string)
    requires Replay(f, hash).Ok?
    ensures forall l :: l in Lines(f) ==> Checked(l, hash)
  {
    ReplayChecksLines(Lines(f), hash);
  }

  /** The file of `rs` with other texts in place of the records, their checksums kept. */
  function Damaged(rs: seq<Record>, texts: seq<string>, hash: string -> string): string
    requires |texts| == |rs|
  {
    if rs == [] then "" else texts[0] + "\t" + hash(Payload(rs[0])) + "\n" + Damaged(rs[1..], texts[1..], hash)
  }

  lemma {:induction false} DamagedLine(rs: seq<Record>, texts: seq<string>, hash: string -> string, i: nat)
    requires |texts| == |rs| && i < |rs| && HexLike(hash) && forall k :: 0 <= k < |texts| ==> Free(texts[k], '\n')
    ensures texts[i] + "\t" + hash(Payload(rs[i])) in Lines(Damaged(rs, texts, hash))
  {
    hide Lines, Payload;
    var line, rest := texts[0] + "\t" + hash(Payload(rs[0])), Damaged(rs[1..], texts[1..], hash);
    LinesCons(line, rest);
    if i > 0 {
      DamagedLine(rs[1..], texts[1..], hash, i - 1);
    }
  }

  lemma LastTab(a: string, b: string)
    requires Free(b, '\t')
    ensures var s := a + "\t" + b; s[|a|] == '\t' && forall k :: |a| < k < |s| ==> s[k] != '\t'
  {
    var s := a + "\t" + b;
    forall k | |a| < k < |s|
      ensures s[k] != '\t'
    {
      assert s[k] == b[k - |a| - 1];
    }
  }

  /** Where the checksum begins is never in doubt. */
  lemma SameTail(a: string, b: string, c: string, d: string)
    requires a + "\t" + b == c + "\t" + d && Free(b, '\t') && Free(d, '\t')
    ensures a == c && b == d
  {
    var s, t := a + "\t" + b, c + "\t" + d;
    LastTab(a, b);
    LastTab(c, d);
    assert |a| == |c|;
    assert a == s[..|a|] && c == t[..|c|] && b == s[|a| + 1..] && d == t[|c| + 1..];
  }

  /** Damage to the record of any line is noticed, unless the new text has the old one's checksum. */
  lemma DamageRefused(rs: seq<Record>, texts: seq<string>, hash: string -> string, i: nat)
    requires |texts| == |rs| && i < |rs| && HexLike(hash) && forall k :: 0 <= k < |texts| ==> Free(texts[k], '\n')
    requires hash(texts[i]) != hash(Payload(rs[i]))
    ensures Replay(Damaged(rs, texts, hash), hash).Err?
  {
    hide Replay, Lines, Damaged, Payload;
    var f := Damaged(rs, texts, hash);
    var line := texts[i] + "\t" + hash(Payload(rs[i]));
    DamagedLine(rs, texts, hash, i);
    if Replay(f, hash).Ok? {
      ReplayedIsChecked(f, hash);
      var p :| line == p + "\t" + hash(p);
      SameTail(texts[i], hash(Payload(rs[i])), p, hash(p));
      assert false;
    }
  }

  lemma {:induction false} UndamagedIsFile(rs: seq<Record>, texts: seq<string>, hash: string -> string)
    requires |texts| == |rs| && forall i :: 0 <= i < |rs| ==> texts[i] == Payload(rs[i])
    ensures Damaged(rs, texts, hash) == File(rs, hash)
  {
    hide Payload;
    if rs != [] { UndamagedIsFile(rs[1..], texts[1..], hash); }
  }

  /** Under a hash that tells the texts from the records, a file with its checksums kept replays
      only if it is the file that was written. */
  lemma OnlyTheFileReplays(rs: seq<Record>, texts: seq<string>, hash: string -> string)
    requires |texts| == |rs| && HexLike(hash) && forall k :: 0 <= k < |texts| ==> Free(texts[k], '\n')
    requires forall i :: 0 <= i < |rs| && hash(texts[i]) == hash(Payload(rs[i])) ==> texts[i] == Payload(rs[i])
    ensures Replay(Damaged(rs, texts, hash), hash).Ok? ==> Damaged(rs, texts, hash) == File(rs, hash)
  {
    hide Replay, Damaged, Payload;
    if Replay(Damaged(rs, texts, hash), hash).Ok? {
      forall i | 0 <= i < |rs|
        ensures texts[i] == Payload(rs[i])
      {
        if hash(texts[i]) != hash(Payload(rs[i])) {
          DamageRefused(rs, texts, hash, i);
        }
      }
      UndamagedIsFile(rs, texts, hash);
    }
  }
}
