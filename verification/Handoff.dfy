/** The hinted-handoff queue: a text file of hints, appended to, read back and rewritten. */
module Handoff {
  import opened Common
  import opened Text
  import opened HashRing
  import opened ChunkStore

  datatype Hint = Hint(id: string, address: string, checksum: string, size: nat)

  /** What formatted extraction skips. */
  predicate IsSpace(c: char) {
    c == ' ' || c == '\t' || c == '\n' || c == '\r' || c == '\U{0b}' || c == '\U{0c}'
  }

  predicate Word(s: string) {
    s != [] && forall i :: 0 <= i < |s| ==> !IsSpace(s[i])
  }

  /** Hints that survive the file: three fields that are single words. */
  predicate Clean(h: Hint) {
    Word(h.id) && Word(h.address) && Word(h.checksum)
  }

  // -------------------------------------------------------------------------- writing

  function Line(h: Hint): string {
    h.id + "\t" + h.address + "\t" + h.checksum + "\t" + Decimal(h.size)
  }

  function Print(hs: seq<Hint>): string {
    if hs == [] then "" else Line(hs[0]) + "\n" + Print(hs[1..])
  }

  // -------------------------------------------------------------------------- reading

  function WordPrefix(s: string): (w: string)
    ensures w <= s && (forall i :: 0 <= i < |w| ==> !IsSpace(w[i]))
    ensures |w| < |s| ==> IsSpace(s[|w|])
  {
    if s == [] || IsSpace(s[0]) then [] else [s[0]] + WordPrefix(s[1..])
  }

  /** The words `>>` extracts one after the other. */
  function Words(s: string): (ws: seq<string>)
    ensures forall i :: 0 <= i < |ws| ==> Word(ws[i])
    decreases |s|
  {
    if s == [] then []
    else if IsSpace(s[0]) then Words(s[1..])
    else
      var w := WordPrefix(s);
      [w] + Words(s[|w|..])
  }

  function WordAt(ws: seq<string>, i: nat): string {
    if i < |ws| then ws[i] else ""
  }

  function ParseHint(line: string): Hint {
    var ws := Words(line);
    var n := LeadingNumber(WordAt(ws, 3));
    Hint(WordAt(ws, 0), WordAt(ws, 1), WordAt(ws, 2), if n.Some? then n.value else 0)
  }

  function LoadLines(lines: seq<string>): seq<Hint> {
    if lines == [] then []
    else
      var h := ParseHint(lines[0]);
      (if h.id != "" && h.checksum != "" then [h] else []) + LoadLines(lines[1..])
  }

  function LoadFile(file: string): seq<Hint> { LoadLines(Lines(file)) }

  // -------------------------------------------------------------------- the queue object

  class HintedHandoffQueue {
    var file: string

    constructor ()
      ensures file == ""
    {
      file := "";
    }

    method Enqueue(target: StorageNode, chunk: ChunkRef, writable: bool) returns (ok: bool)
      modifies this
      ensures ok == writable
      ensures var h := Hint(target.id, target.address, chunk.checksum, chunk.size);
              file == if ok then old(file) + Print([h]) else old(file)
    {
      ok := writable;
      if writable {
        hide Decimal;
        var h := Hint(target.id, target.address, chunk.checksum, chunk.size);
        PrintFrom([h], 0);
        assert Print([h][1..]) == "";
        file := file + (Line(h) + "\n");
      }
    }

    method Load() returns (hints: seq<Hint>)
      ensures hints == LoadFile(file)
    {
      hide Lines, LoadLines, ParseHint;
      hints := [];
      var rest := file;
      assert [] + LoadFile(file) == LoadFile(file);
      while rest != []
        invariant hints + LoadLines(Lines(rest)) == LoadFile(file)
        decreases |rest|
      {
        var line := Before(rest, '\n');
        LoadStep(rest);
        rest := if |line| == |rest| then [] else rest[|line| + 1..];
        var hint := ParseHint(line);
        if hint.id != "" && hint.checksum != "" {
          hints := hints + [hint];
        }
      }
      NothingToLoad();
    }

    method Replace(hints: seq<Hint>, writable: bool) returns (ok: bool)
      modifies this
      ensures ok == writable && file == if ok then Print(hints) else old(file)
    {
      ok := writable;
      if !writable { return; }
      hide Print, Line, Decimal;
      file := "";
      for i := 0 to |hints|
        invariant file + Print(hints[i..]) == Print(hints)
      {
        PrintFrom(hints, i);
        file := file + Line(hints[i]) + "\n";
      }
      PrintedAll(hints);
    }
  }

  lemma PrintFrom(hs: seq<Hint>, i: nat)
    requires i < |hs|
    ensures Print(hs[i..]) == Line(hs[i]) + "\n" + Print(hs[i + 1..])
  {
    hide Line;
    assert hs[i..][1..] == hs[i + 1..];
  }

  lemma PrintedAll(hs: seq<Hint>)
    ensures Print(hs[|hs|..]) == ""
  {
  }

  lemma NothingToLoad()
    ensures LoadLines(Lines([])) == []
  {
  }

  lemma LoadStep(f: string)
    requires f != []
    ensures var l := Before(f, '\n');
            var h := ParseHint(l);
            LoadLines(Lines(f)) == (if h.id != "" && h.checksum != "" then [h] else [])
                                   + LoadLines(Lines(if |l| == |f| then [] else f[|l| + 1..]))
  {
    hide ParseHint;
    var l := Before(f, '\n');
    var rest := Lines(if |l| == |f| then [] else f[|l| + 1..]);
    assert Lines(f) == [l] + rest;
    assert ([l] + rest)[1..] == rest;
  }

  // ------------------------------------------------------------------------- round trip

  lemma {:induction false} WordPrefixAt(w: string, rest: string)
    requires Word(w) && (rest == [] || IsSpace(rest[0]))
    ensures WordPrefix(w + rest) == w
    decreases |w|
  {
    assert (w + rest)[1..] == w[1..] + rest;
    if |w| > 1 {
      WordPrefixAt(w[1..], rest);
    } else {
      assert w[1..] + rest == rest;
    }
  }

  lemma WordsCons(w: string, rest: string)
    requires Word(w) && (rest == [] || IsSpace(rest[0]))
    ensures Words(w + rest) == [w] + Words(rest)
  {
    WordPrefixAt(w, rest);
    assert (w + rest)[|w|..] == rest;
  }

  lemma WordsSkip(s: string)
    ensures Words("\t" + s) == Words(s)
  {
    assert ("\t" + s)[1..] == s;
  }

  lemma DecimalIsWord(n: nat)
    ensures Word(Decimal(n))
  {
  }

  lemma WordsTab(w: string, rest: string)
    requires Word(w) && (rest == [] || IsSpace(rest[0]))
    ensures Words("\t" + w + rest) == [w] + Words(rest)
  {
    hide Words, Word, IsSpace;
    assert "\t" + w + rest == "\t" + (w + rest);
    WordsSkip(w + rest);
    WordsCons(w, rest);
  }

  lemma LineWords(h: Hint)
    requires Clean(h)
    ensures Words(Line(h)) == [h.id, h.address, h.checksum, Decimal(h.size)]
  {
    hide Words, Word, IsSpace;
    var d := Decimal(h.size);
    DecimalIsWord(h.size);
    TabIsSpace();
    NoWords();
    hide Decimal;
    var r3 := "\t" + d;
    var r2 := "\t" + h.checksum + r3;
    var r1 := "\t" + h.address + r2;
    assert Line(h) == h.id + r1;
    WordsCons(h.id, r1);
    WordsTab(h.address, r2);
    WordsTab(h.checksum, r3);
    assert r3 == "\t" + d + [];
    WordsTab(d, []);
  }

  lemma LineIsPlain(h: Hint)
    requires Clean(h)
    ensures Free(Line(h), '\n')
  {
    hide Word, Decimal;
    DecimalIsWord(h.size);
    NoNewline(h.id);
    NoNewline(h.address);
    NoNewline(h.checksum);
    NoNewline(Decimal(h.size));
  }

  lemma LineParses(h: Hint)
    requires Clean(h)
    ensures ParseHint(Line(h)) == h
  {
    hide Words, Line, Decimal, LeadingNumber;
    LineWords(h);
    NumberReadsBack(h.size);
  }

  lemma TabIsSpace()
    ensures IsSpace('\t')
  {
  }

  lemma NoWords()
    ensures Words([]) == []
  {
  }

  lemma NoNewline(w: string)
    requires Word(w)
    ensures Free(w, '\n')
  {
  }

  lemma {:induction false} CleanLoadsBack(hs: seq<Hint>)
    requires forall i :: 0 <= i < |hs| ==> Clean(hs[i])
    ensures LoadFile(Print(hs)) == hs
  {
    if hs == [] {
      NothingToLoad();
    } else {
      LineParses(hs[0]);
      LineIsPlain(hs[0]);
      hide Line, ParseHint, Word;
      CleanLoadsBack(hs[1..]);
      LinesCons(Line(hs[0]), Print(hs[1..]));
      LoadCons(Line(hs[0]), Lines(Print(hs[1..])));
      assert CleanNonEmpty(hs[0]);
      assert [hs[0]] + hs[1..] == hs;
    }
  }

  lemma LoadCons(line: string, lines: seq<string>)
    ensures var h := ParseHint(line);
            LoadLines([line] + lines) == (if h.id != "" && h.checksum != "" then [h] else []) + LoadLines(lines)
  {
    hide ParseHint;
    assert ([line] + lines)[1..] == lines;
  }

  predicate CleanNonEmpty(h: Hint) { h.id != "" && h.checksum != "" }

  lemma {:induction false} LoadedAreClean(lines: seq<string>)
    ensures forall i :: 0 <= i < |LoadLines(lines)| ==> Clean(LoadLines(lines)[i])
  {
    if lines != [] {
      LoadedAreClean(lines[1..]);
      ParsedIsClean(lines[0]);
      hide ParseHint, Clean;
    }
  }

  lemma ParsedIsClean(line: string)
    ensures var h := ParseHint(line);
            h.id != "" && h.checksum != "" ==> Clean(h)
  {
    hide Word, Words, LeadingNumber;
    WordsAreWords(line);
  }

  lemma WordsAreWords(s: string)
    ensures forall i :: 0 <= i < |Words(s)| ==> Word(Words(s)[i])
  {
  }

  /** Any line, well formed or not: a hint if it has three words, of size 0 without a number after them. */
  lemma LoadsLine(line: string)
    requires Free(line, '\n')
    ensures var ws := Words(line);
            LoadFile(line + "\n") == if |ws| < 3 then [] else
                                       [Hint(ws[0], ws[1], ws[2], if |ws| > 3 && LeadingNumber(ws[3]).Some?
                                                                  then LeadingNumber(ws[3]).value else 0)]
  {
    hide Words, LeadingNumber, Lines;
    LinesCons(line, "");
    assert line + "\n" + "" == line + "\n";
    NoLines();
    LoadCons(line, []);
    WordsAreWords(line);
    assert LeadingNumber("").None? by { EmptyIsNoNumber(); }
  }

  lemma EmptyIsNoNumber()
    ensures LeadingNumber("").None?
  {
  }

  /** The file gives back the hints written to it exactly when every field is one word. */
  lemma QueueFaithfulExactly(hs: seq<Hint>)
    ensures LoadFile(Print(hs)) == hs <==> forall i :: 0 <= i < |hs| ==> Clean(hs[i])
  {
    hide Clean, LoadLines, Print;
    if forall i :: 0 <= i < |hs| ==> Clean(hs[i]) {
      CleanLoadsBack(hs);
    }
    LoadedAreClean(Lines(Print(hs)));
  }

  /** Enqueueing is appending: the file of a longer list is the file with one more line. */
  lemma {:induction false} PrintSnoc(hs: seq<Hint>, h: Hint)
    ensures Print(hs + [h]) == Print(hs) + Print([h])
  {
    hide Line;
    if hs == [] {
      assert hs + [h] == [h];
    } else {
      assert (hs + [h])[1..] == hs[1..] + [h];
      PrintSnoc(hs[1..], h);
    }
  }

  /** The file is empty or ends with a line break, so that a line added to it is a line of its own. */
  predicate Whole(f: string) {
    f == [] || f[|f| - 1] == '\n'
  }

  lemma {:induction false} PrintIsWhole(hs: seq<Hint>)
    ensures Whole(Print(hs))
  {
    hide Line;
    if hs != [] { PrintIsWhole(hs[1..]); }
  }

  lemma {:induction false} LinesAppend(f: string, g: string)
    requires Whole(f)
    ensures Lines(f + g) == Lines(f) + Lines(g)
    decreases |f|
  {
    hide Lines, Before;
    if f == [] {
      assert f + g == g;
      NoLines();
    } else {
      var l, rest := FirstLine(f);
      assert f + g == l + "\n" + (rest + g);
      LinesCons(l, rest);
      LinesCons(l, rest + g);
      LinesAppend(rest, g);
    }
  }

  lemma NoLines()
    ensures Lines([]) == []
  {
  }

  lemma FirstLine(f: string) returns (l: string, rest: string)
    requires Whole(f) && f != []
    ensures f == l + "\n" + rest && Free(l, '\n') && Whole(rest)
  {
    l := Before(f, '\n');
    rest := f[|l| + 1..];
  }

  lemma {:induction false} LoadLinesConcat(a: seq<string>, b: seq<string>)
    ensures LoadLines(a + b) == LoadLines(a) + LoadLines(b)
  {
    hide ParseHint;
    if a == [] {
      assert a + b == b;
    } else {
      assert (a + b)[1..] == a[1..] + b;
      LoadLinesConcat(a[1..], b);
    }
  }

  lemma LoadAppend(f: string, g: string)
    requires Whole(f)
    ensures LoadFile(f + g) == LoadFile(f) + LoadFile(g)
  {
    hide Lines, LoadLines;
    LinesAppend(f, g);
    LoadLinesConcat(Lines(f), Lines(g));
  }

  /** What the file gives back of the hints written to it. */
  function Reloaded(hs: seq<Hint>): seq<Hint> { LoadFile(Print(hs)) }

  lemma ReloadedSnoc(hs: seq<Hint>, h: Hint)
    ensures Reloaded(hs + [h]) == Reloaded(hs) + Reloaded([h])
  {
    hide LoadFile, Print;
    PrintSnoc(hs, h);
    PrintIsWhole(hs);
    LoadAppend(Print(hs), Print([h]));
  }

  /** Whatever was read can be written and read again. */
  lemma LoadedReload(f: string)
    ensures Reloaded(LoadFile(f)) == LoadFile(f)
  {
    hide Lines, LoadLines, Print, Clean;
    LoadedAreClean(Lines(f));
    QueueFaithfulExactly(LoadFile(f));
  }

  lemma {:induction false} CleanReloads(hs: seq<Hint>, h: Hint)
    requires h in hs && Clean(h)
    ensures h in Reloaded(hs)
  {
    hide Clean, Reloaded;
    var n := |hs| - 1;
    assert hs == hs[..n] + [hs[n]];
    ReloadedSnoc(hs[..n], hs[n]);
    if h == hs[n] {
      ReloadedOne(h);
    } else {
      assert h in hs[..n];
      CleanReloads(hs[..n], h);
    }
  }

  lemma ReloadedOne(h: Hint)
    requires Clean(h)
    ensures Reloaded([h]) == [h]
  {
    hide Clean, LoadFile, Print;
    CleanLoadsBack([h]);
  }

  /** Any selection of clean hints comes back as it was written. */
  lemma CleanSelection(hs: seq<Hint>, some: seq<Hint>)
    requires Reloaded(hs) == hs && forall h :: h in some ==> h in hs
    ensures Reloaded(some) == some
  {
    hide Clean, LoadFile, Print;
    QueueFaithfulExactly(hs);
    QueueFaithfulExactly(some);
    forall i | 0 <= i < |some|
      ensures Clean(some[i])
    {
      assert some[i] in hs;
    }
  }
}
