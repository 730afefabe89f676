/** The splitter: each queued message becomes one record per line, and each line one
    record per chunk of `max` characters (`split_str_into_chunks`). */
module Splitter {
  import opened Arithmetic
  import opened Records

  /** `str::split("\n")`: the pieces between newlines, so never an empty list. */
  function Lines(s: string): (r: seq<string>)
    ensures |r| > 0
  {
    if s == "" then [""]
    else
      var rest := Lines(s[1..]);
      if s[0] == '\n' then [""] + rest else [[s[0]] + rest[0]] + rest[1..]
  }

  /** `chars().chunks(max)`: an empty line has no chunk. `chunks` panics on a size of 0. */
  function Chunks(s: string, max: nat): seq<string>
    requires max > 0
  {
    if s == "" then []
    else if |s| <= max then [s]
    else [s[..max]] + Chunks(s[max..], max)
  }

  function Pieces(lines: seq<string>, max: nat): seq<string>
    requires max > 0
  {
    if lines == [] then [] else Chunks(lines[0], max) + Pieces(lines[1..], max)
  }

  /** One copy of `log` for each message. */
  function Relabel(log: LogData, messages: seq<string>): (r: seq<LogData>)
    ensures |r| == |messages|
  {
    seq(|messages|, i requires 0 <= i < |messages| => log.(message := messages[i]))
  }

  function Split(log: LogData, max: nat): seq<LogData>
    requires max > 0
  {
    Relabel(log, Pieces(Lines(log.message), max))
  }

  function SplitAll(queue: seq<LogData>, max: nat): seq<LogData>
    requires max > 0
  {
    if queue == [] then [] else Split(queue[0], max) + SplitAll(queue[1..], max)
  }

  // ----- Lines -----

  /** Inverse of `Lines`: the pieces with a newline between each two. */
  function Unlines(ls: seq<string>): string
    requires |ls| > 0
  {
    if |ls| == 1 then ls[0] else ls[0] + "\n" + Unlines(ls[1..])
  }

  predicate AllOneLine(ls: seq<string>) {
    forall i :: 0 <= i < |ls| ==> OneLine(ls[i])
  }

  lemma {:induction false} LinesAreLines(s: string)
    ensures AllOneLine(Lines(s))
    ensures Unlines(Lines(s)) == s
  {
    if s != "" {
      LinesAreLines(s[1..]);
      var rest := Lines(s[1..]);
      var ls := Lines(s);
      assert s == [s[0]] + s[1..];
      if s[0] == '\n' {
        assert ls[1..] == rest;
        assert Unlines(ls) == "" + "\n" + s[1..];
      } else {
        assert ls[0] == [s[0]] + rest[0] && ls[1..] == rest[1..];
        if |rest| > 1 {
          assert Unlines(ls) == [s[0]] + rest[0] + "\n" + Unlines(rest[1..]);
          assert Unlines(rest) == rest[0] + "\n" + Unlines(rest[1..]);
        }
      }
    }
  }

  lemma {:induction false} OneLineHasOneLine(s: string)
    requires OneLine(s)
    ensures Lines(s) == [s]
  {
    if s != "" {
      assert s[0] in s;
      assert forall c :: c in s[1..] ==> c in s;
      OneLineHasOneLine(s[1..]);
      assert s == [s[0]] + s[1..];
    }
  }

  /** A newline-free prefix and its line end come off as the first piece. */
  lemma {:induction false} LinesPeel(a: string, b: string)
    requires OneLine(a)
    ensures Lines(a + "\n" + b) == [a] + Lines(b)
  {
    var s := a + "\n" + b;
    if a == "" {
      assert s[0] == '\n' && s[1..] == b;
    } else {
      assert a[0] in a;
      assert forall c :: c in a[1..] ==> c in a;
      LinesPeel(a[1..], b);
      assert s[1..] == a[1..] + "\n" + b;
      assert s[0] == a[0];
      assert a == [a[0]] + a[1..];
    }
  }

  /** `Lines` is the only way to cut `s` into newline-free pieces that `Unlines` puts back. */
  lemma {:induction false} LinesUnique(ls: seq<string>)
    requires |ls| > 0 && AllOneLine(ls)
    ensures Lines(Unlines(ls)) == ls
  {
    if |ls| == 1 {
      OneLineHasOneLine(ls[0]);
    } else {
      LinesUnique(ls[1..]);
      LinesPeel(ls[0], Unlines(ls[1..]));
    }
  }

  /** Cutting a text of ended lines at its newlines gives the lines back exactly when none holds a newline. */
  lemma EndedLinesRoundTrip(ss: seq<string>)
    ensures Lines(Concat(EndLines(ss))) == ss + [""] <==> AllOneLine(ss)
  {
    var text := Concat(EndLines(ss));
    if AllOneLine(ss) {
      EndedLinesCut(ss);
    }
    if Lines(text) == ss + [""] {
      LinesAreLines(text);
      forall i | 0 <= i < |ss| ensures OneLine(ss[i]) {
        assert (ss + [""])[i] == ss[i];
      }
    }
  }

  lemma {:induction false} EndedLinesCut(ss: seq<string>)
    requires AllOneLine(ss)
    ensures Lines(Concat(EndLines(ss))) == ss + [""]
  {
    if ss != [] {
      EndedLinesCut(ss[1..]);
      assert EndLines(ss)[1..] == EndLines(ss[1..]);
      LinesPeel(ss[0], Concat(EndLines(ss[1..])));
      assert ss == [ss[0]] + ss[1..];
    }
  }

  /** Cutting the global file at its newlines recovers one line for each record, in
      order, exactly when no printed field of a record holds a newline; and so for a
      context file with the compact form. */
  lemma OneRecordPerLine(rs: seq<LogData>)
    ensures Lines(Render(Body, rs)) == Bodies(Body, rs) + [""] <==> forall i :: 0 <= i < |rs| ==> Clean(rs[i])
    ensures Lines(Render(CompactBody, rs)) == Bodies(CompactBody, rs) + [""]
       <==> forall i :: 0 <= i < |rs| ==> CompactClean(rs[i])
  {
    EndedLinesRoundTrip(Bodies(Body, rs));
    EndedLinesRoundTrip(Bodies(CompactBody, rs));
    forall i | 0 <= i < |rs|
      ensures OneLine(Bodies(Body, rs)[i]) <==> Clean(rs[i])
      ensures OneLine(Bodies(CompactBody, rs)[i]) <==> CompactClean(rs[i])
    {
      BodyIsOneLine(rs[i]);
    }
  }

  // ----- Chunks -----

  lemma {:induction false} ChunkCount(s: string, max: nat)
    requires max > 0
    ensures |Chunks(s, max)| == CeilDiv(|s|, max)
  {
    if s == "" {
      DivUnique(max - 1, max, 0, max - 1);
    } else if |s| <= max {
      CeilDivSmall(|s|, max);
    } else {
      ChunkCount(s[max..], max);
      CeilDivStep(|s|, max);
    }
  }

  lemma SliceOfTail(s: string, k: nat, lo: nat, hi: nat)
    requires k <= |s| && lo <= hi <= |s| - k
    ensures s[k..][lo..hi] == s[k + lo..k + hi]
  {
  }

  /** Chunk `i` is the slice of `s` from `i * max`. */
  lemma {:induction false} ChunkAt(s: string, max: nat, i: nat)
    requires max > 0 && i < |Chunks(s, max)|
    ensures i * max < |s|
    ensures Chunks(s, max)[i] == s[i * max..Min(i * max + max, |s|)]
  {
    if i > 0 {
      ChunkAt(s[max..], max, i - 1);
      assert (i - 1) * max + max == i * max;
      var lo, hi := (i - 1) * max, Min((i - 1) * max + max, |s| - max);
      assert Chunks(s, max)[i] == s[max..][lo..hi];
      SliceOfTail(s, max, lo, hi);
    }
  }

  lemma {:induction false} ChunksConcat(s: string, max: nat)
    requires max > 0
    ensures Concat(Chunks(s, max)) == s
  {
    if s == "" {
    } else if |s| <= max {
      ConcatOne(s);
    } else {
      ChunksConcat(s[max..], max);
      assert s == s[..max] + s[max..];
    }
  }

  /** Non-empty chunks of exactly `max` characters, but for a last one that may be shorter. */
  predicate FullButLast(cs: seq<string>, max: nat) {
    forall i :: 0 <= i < |cs| ==> 1 <= |cs[i]| <= max && (i < |cs| - 1 ==> |cs[i]| == max)
  }

  lemma {:induction false} ChunksFull(s: string, max: nat)
    requires max > 0
    ensures FullButLast(Chunks(s, max), max)
  {
    if |s| > max {
      ChunksFull(s[max..], max);
    }
  }

  /** `Chunks` is the only way to cut `s` into full chunks with at most a short last one. */
  lemma {:induction false} ChunksUnique(cs: seq<string>, max: nat)
    requires max > 0 && FullButLast(cs, max)
    ensures Chunks(Concat(cs), max) == cs
  {
    if |cs| == 1 {
      ConcatOne(cs[0]);
      assert cs == [cs[0]];
    } else if |cs| > 1 {
      ChunksUnique(cs[1..], max);
      var s := Concat(cs);
      assert s == cs[0] + Concat(cs[1..]);
      assert |Concat(cs[1..])| >= |cs[1]| by {
        assert Concat(cs[1..]) == cs[1..][0] + Concat(cs[1..][1..]);
      }
      assert s[..max] == cs[0] && s[max..] == Concat(cs[1..]);
      assert cs == [cs[0]] + cs[1..];
    }
  }

  // ----- The splitter's contract -----

  function WithoutNewlines(s: string): string {
    if s == "" then "" else (if s[0] == '\n' then "" else [s[0]]) + WithoutNewlines(s[1..])
  }

  function Messages(rs: seq<LogData>): (ms: seq<string>)
    ensures |ms| == |rs|
  {
    seq(|rs|, i requires 0 <= i < |rs| => rs[i].message)
  }

  function PieceCount(lines: seq<string>, max: nat): nat
    requires max > 0
  {
    if lines == [] then 0 else CeilDiv(|lines[0]|, max) + PieceCount(lines[1..], max)
  }

  lemma ChunksOneLine(s: string, max: nat)
    requires max > 0 && OneLine(s)
    ensures AllOneLine(Chunks(s, max))
  {
    var cs := Chunks(s, max);
    forall i | 0 <= i < |cs| ensures OneLine(cs[i]) {
      ChunkAt(s, max, i);
      assert forall c :: c in cs[i] ==> c in s;
    }
  }

  lemma {:induction false} PiecesContract(lines: seq<string>, max: nat)
    requires max > 0 && AllOneLine(lines)
    ensures AllOneLine(Pieces(lines, max))
    ensures forall i :: 0 <= i < |Pieces(lines, max)| ==> 1 <= |Pieces(lines, max)[i]| <= max
    ensures |Pieces(lines, max)| == PieceCount(lines, max)
    ensures Concat(Pieces(lines, max)) == Concat(lines)
  {
    if lines != [] {
      PiecesContract(lines[1..], max);
      ChunkCount(lines[0], max);
      ChunksConcat(lines[0], max);
      ChunksFull(lines[0], max);
      ChunksOneLine(lines[0], max);
      ConcatAppend(Chunks(lines[0], max), Pieces(lines[1..], max));
    }
  }

  lemma {:induction false} LinesConcat(s: string)
    ensures Concat(Lines(s)) == WithoutNewlines(s)
  {
    if s == "" {
      ConcatOne("");
    } else {
      LinesConcat(s[1..]);
      var rest := Lines(s[1..]);
      if s[0] == '\n' {
        assert Lines(s)[1..] == rest;
      } else {
        assert Lines(s)[1..] == rest[1..];
        AppendAssoc([s[0]], rest[0], Concat(rest[1..]));
      }
    }
  }

  /** What one entry becomes: copies of it that differ in the message alone; non-empty
      newline-free messages of at most `max` characters that concatenate to the entry's
      message with its newlines deleted; ⌈|line|/max⌉ of them for each of its lines. */
  lemma SplitContract(log: LogData, max: nat)
    requires max > 0
    ensures forall i :: 0 <= i < |Split(log, max)| ==> Split(log, max)[i] == log.(message := Split(log, max)[i].message)
    ensures forall i :: 0 <= i < |Split(log, max)| ==>
      OneLine(Split(log, max)[i].message) && 1 <= |Split(log, max)[i].message| <= max
    ensures Concat(Messages(Split(log, max))) == WithoutNewlines(log.message)
    ensures |Split(log, max)| == PieceCount(Lines(log.message), max)
  {
    LinesAreLines(log.message);
    PiecesContract(Lines(log.message), max);
    LinesConcat(log.message);
    assert Messages(Split(log, max)) == Pieces(Lines(log.message), max);
  }

  /** Splitting does not depend on where the stream of entries is cut into batches. */
  lemma {:induction false} SplitAllAppend(a: seq<LogData>, b: seq<LogData>, max: nat)
    requires max > 0
    ensures SplitAll(a + b, max) == SplitAll(a, max) + SplitAll(b, max)
  {
    if a == [] {
      assert a + b == b;
    } else {
      SplitAllAppend(a[1..], b, max);
      assert (a + b)[1..] == a[1..] + b;
      AppendAssoc(Split(a[0], max), SplitAll(a[1..], max), SplitAll(b, max));
    }
  }

  /** A single entry is split as `Split` says, and a queue entry by entry, in order. */
  lemma SplitAllOne(log: LogData, max: nat)
    requires max > 0
    ensures SplitAll([log], max) == Split(log, max)
  {
    assert [log][1..] == [];
    assert Split(log, max) + [] == Split(log, max);
  }

  lemma SplitAllAt(queue: seq<LogData>, max: nat, k: nat)
    requires max > 0 && k < |queue|
    ensures SplitAll(queue, max) == SplitAll(queue[..k], max) + Split(queue[k], max) + SplitAll(queue[k + 1..], max)
  {
    assert queue == queue[..k] + ([queue[k]] + queue[k + 1..]);
    SplitAllAppend(queue[..k], [queue[k]] + queue[k + 1..], max);
    SplitAllAppend([queue[k]], queue[k + 1..], max);
    SplitAllOne(queue[k], max);
    AppendAssoc(SplitAll(queue[..k], max), Split(queue[k], max), SplitAll(queue[k + 1..], max));
  }

  /** The messages of the entries without their newlines, one after the other. */
  function PlainText(queue: seq<LogData>): string {
    if queue == [] then "" else WithoutNewlines(queue[0].message) + PlainText(queue[1..])
  }

  lemma MessagesAppend(a: seq<LogData>, b: seq<LogData>)
    ensures Messages(a + b) == Messages(a) + Messages(b)
  {
  }

  /** The records of a queue spell the messages of its entries, in queue order. */
  lemma {:induction false} QueueText(queue: seq<LogData>, max: nat)
    requires max > 0
    ensures Concat(Messages(SplitAll(queue, max))) == PlainText(queue)
  {
    if queue != [] {
      SplitContract(queue[0], max);
      QueueText(queue[1..], max);
      MessagesAppend(Split(queue[0], max), SplitAll(queue[1..], max));
      ConcatAppend(Messages(Split(queue[0], max)), Messages(SplitAll(queue[1..], max)));
    }
  }

  /** The pieces of line `l` of entry `k` of a queue: they come after the records of the
      entries before it and the pieces of the lines before it, make up the line, all but the
      last have exactly `max` characters, and their other fields are those of the entry. */
  lemma QueueLine(queue: seq<LogData>, max: nat, k: nat, l: nat)
    returns (before: seq<LogData>, here: seq<LogData>, after: seq<LogData>)
    requires max > 0 && k < |queue| && l < |Lines(queue[k].message)|
    ensures SplitAll(queue, max) == before + here + after
    ensures |before| == |SplitAll(queue[..k], max)| + PieceCount(Lines(queue[k].message)[..l], max)
    ensures Concat(Messages(here)) == Lines(queue[k].message)[l] && FullButLast(Messages(here), max)
    ensures forall i :: 0 <= i < |here| ==> here[i] == queue[k].(message := here[i].message)
  {
    var log := queue[k];
    var a, b, c := SplitLine(log, max, l);
    var rs := Split(log, max);
    assert Messages(rs) == a + b + c && |rs| == |a| + |b| + |c|;
    var x, y, z := rs[..|a|], rs[|a|..|a| + |b|], rs[|a| + |b|..];
    assert rs == x + y + z;
    SplitContract(log, max);
    SplitAllAt(queue, max, k);
    before, here, after := SplitAll(queue[..k], max) + x, y, z + SplitAll(queue[k + 1..], max);
    assert Messages(here) == b by {
      assert Messages(here) == Messages(rs)[|a|..|a| + |b|];
    }
    Regroup(SplitAll(queue[..k], max), x, y, z, SplitAll(queue[k + 1..], max));
  }

  lemma Regroup<T>(a: seq<T>, x: seq<T>, y: seq<T>, z: seq<T>, b: seq<T>)
    ensures a + (x + y + z) + b == (a + x) + y + (z + b)
  {
  }

  /** Every record is a newline-free copy of an entry of the queue, up to the message. */
  lemma {:induction false} SplitFrom(queue: seq<LogData>, max: nat, r: LogData) returns (i: nat)
    requires max > 0 && r in SplitAll(queue, max)
    ensures OneLine(r.message)
    ensures i < |queue| && r.(message := "") == queue[i].(message := "")
  {
    SplitContract(queue[0], max);
    if r in Split(queue[0], max) {
      i := 0;
    } else {
      i := SplitFrom(queue[1..], max, r);
      i := i + 1;
    }
  }

  /** An entry leaves records unless its message is newlines only. */
  predicate Prints(log: LogData) { WithoutNewlines(log.message) != "" }

  lemma PrintsOrNot(log: LogData, max: nat)
    requires max > 0
    ensures Prints(log) <==> Split(log, max) != []
  {
    SplitContract(log, max);
    if Split(log, max) != [] {
      assert Messages(Split(log, max))[0] == Split(log, max)[0].message;
    }
  }

  /** Every record comes from an entry that leaves records. */
  lemma {:induction false} PrintingEntry(queue: seq<LogData>, max: nat, r: LogData) returns (i: nat)
    requires max > 0 && r in SplitAll(queue, max)
    ensures i < |queue| && Prints(queue[i]) && r.(message := "") == queue[i].(message := "")
  {
    if r in Split(queue[0], max) {
      SplitContract(queue[0], max);
      PrintsOrNot(queue[0], max);
      i := 0;
    } else {
      i := PrintingEntry(queue[1..], max, r);
      i := i + 1;
    }
  }

  /** No record has a newline outside its message. */
  ghost predicate CleanBesides(rs: seq<LogData>) { forall i :: 0 <= i < |rs| ==> Clean(rs[i].(message := "")) }

  /** No entry that leaves records has a newline outside its message. */
  ghost predicate PrintingClean(queue: seq<LogData>) {
    forall i :: 0 <= i < |queue| ==> Prints(queue[i]) ==> Clean(queue[i].(message := ""))
  }

  lemma {:induction false} CleanEntries(queue: seq<LogData>, max: nat)
    requires max > 0
    ensures CleanBesides(SplitAll(queue, max)) <==> PrintingClean(queue)
  {
    if queue != [] {
      CleanEntries(queue[1..], max);
      CleanEntry(queue[0], max);
      CleanApart(Split(queue[0], max), SplitAll(queue[1..], max));
      PrintingCleanTail(queue);
    }
  }

  lemma CleanEntry(log: LogData, max: nat)
    requires max > 0
    ensures CleanBesides(Split(log, max)) <==> (Prints(log) ==> Clean(log.(message := "")))
  {
    SplitContract(log, max);
    PrintsOrNot(log, max);
    var rs := Split(log, max);
    assert forall i :: 0 <= i < |rs| ==> rs[i].(message := "") == log.(message := "");
    if rs != [] {
      assert rs[0].(message := "") == log.(message := "");
    }
  }

  lemma PrintingCleanTail(queue: seq<LogData>)
    requires queue != []
    ensures PrintingClean(queue) <==> ((Prints(queue[0]) ==> Clean(queue[0].(message := ""))) && PrintingClean(queue[1..]))
  {
    if PrintingClean(queue) {
      forall i | 0 <= i < |queue[1..]| && Prints(queue[1..][i]) ensures Clean(queue[1..][i].(message := "")) {
        assert queue[1..][i] == queue[i + 1];
      }
    } else {
      var i :| 0 <= i < |queue| && Prints(queue[i]) && !Clean(queue[i].(message := ""));
      if i > 0 {
        assert queue[1..][i - 1] == queue[i];
      }
    }
  }

  lemma CleanApart(a: seq<LogData>, b: seq<LogData>)
    ensures CleanBesides(a + b) <==> CleanBesides(a) && CleanBesides(b)
  {
    if CleanBesides(a + b) {
      assert forall i :: 0 <= i < |a| ==> (a + b)[i] == a[i];
      assert forall i :: 0 <= i < |b| ==> (a + b)[|a| + i] == b[i];
    }
  }

  /** The pieces of line `k` of a message come after those of the lines before it; they
      make up the line, and all but the last of them have exactly `max` characters. */
  lemma SplitLine(log: LogData, max: nat, k: nat) returns (before: seq<string>, here: seq<string>, after: seq<string>)
    requires max > 0 && k < |Lines(log.message)|
    ensures Messages(Split(log, max)) == before + here + after
    ensures |before| == PieceCount(Lines(log.message)[..k], max)
    ensures Concat(here) == Lines(log.message)[k] && FullButLast(here, max)
  {
    var lines := Lines(log.message);
    LinesAreLines(log.message);
    PiecesContract(lines[..k], max);
    before, here, after := Pieces(lines[..k], max), Chunks(lines[k], max), Pieces(lines[k + 1..], max);
    assert lines == lines[..k] + lines[k..] && lines[k..][1..] == lines[k + 1..];
    PiecesAppend(lines[..k], lines[k..], max);
    AppendAssoc(before, here, after);
    assert Messages(Split(log, max)) == Pieces(lines, max);
    ChunksConcat(lines[k], max);
    ChunksFull(lines[k], max);
  }

  // ----- Fusion -----

  lemma {:induction false} PiecesAppend(a: seq<string>, b: seq<string>, max: nat)
    requires max > 0
    ensures Pieces(a + b, max) == Pieces(a, max) + Pieces(b, max)
  {
    if a == [] {
      assert a + b == b;
    } else {
      PiecesAppend(a[1..], b, max);
      assert (a + b)[1..] == a[1..] + b;
      AppendAssoc(Chunks(a[0], max), Pieces(a[1..], max), Pieces(b, max));
    }
  }

  lemma PiecesOne(s: string, max: nat)
    requires max > 0
    ensures Pieces([s], max) == Chunks(s, max)
  {
    assert [s][1..] == [];
  }

  /** A cut at a multiple of the chunk size is invisible in the chunks. */
  lemma {:induction false} ChunksCut(s: string, k: nat, d: nat)
    requires d > 0 && k % d == 0 && k <= |s|
    ensures Chunks(s, d) == Chunks(s[..k], d) + Chunks(s[k..], d)
  {
    if k == 0 {
      assert s[..0] == "" && s[0..] == s;
    } else {
      if k < d {
        DivUnique(k, d, 0, k);
      }
      if |s| == k {
        assert s[..k] == s && s[k..] == "";
      } else {
        DivStep(k, d);
        ChunksCut(s[d..], k - d, d);
        assert s[d..][..k - d] == s[..k][d..];
        assert s[d..][k - d..] == s[k..];
        assert s[..k][..d] == s[..d];
        AppendAssoc([s[..d]], Chunks(s[..k][d..], d), Chunks(s[k..], d));
        if k == d {
          assert s[..k][d..] == "";
        }
      }
    }
  }

  lemma {:induction false} ChunksFuse(s: string, m: nat, d: nat)
    requires m > 0 && d > 0
    requires m % d == 0 || |s| <= m
    ensures Pieces(Chunks(s, m), d) == Chunks(s, d)
  {
    if |s| <= m {
      PiecesOne(s, d);
    } else {
      ChunksFuse(s[m..], m, d);
      PiecesAppend([s[..m]], Chunks(s[m..], m), d);
      PiecesOne(s[..m], d);
      ChunksCut(s, m, d);
    }
  }

  /** `x` and `y` differ at some common index. */
  ghost predicate Apart<T>(x: seq<T>, y: seq<T>) {
    exists i :: 0 <= i < |x| && i < |y| && x[i] != y[i]
  }

  lemma ApartBefore<T>(x: seq<T>, y: seq<T>, u: seq<T>, v: seq<T>)
    requires Apart(x, y)
    ensures Apart(x + u, y + v)
  {
    var i :| 0 <= i < |x| && i < |y| && x[i] != y[i];
    assert (x + u)[i] != (y + v)[i];
  }

  lemma ApartAfter<T>(p: seq<T>, x: seq<T>, y: seq<T>)
    requires Apart(x, y)
    ensures Apart(p + x, p + y)
  {
    var i :| 0 <= i < |x| && i < |y| && x[i] != y[i];
    assert (p + x)[|p| + i] != (p + y)[|p| + i];
  }

  /** A line longer than `m` shows the chunks of `m` when `d` does not divide `m`: the
      piece at index `m / d` ends early. */
  lemma ChunksClash(s: string, m: nat, d: nat)
    requires m > 0 && d > 0 && m % d != 0 && |s| > m
    ensures Apart(Pieces(Chunks(s, m), d), Chunks(s, d))
  {
    var j, r := m / d, m % d;
    assert m == d * j + r;
    PiecesAppend([s[..m]], Chunks(s[m..], m), d);
    PiecesOne(s[..m], d);
    ChunkLength(s[..m], d, j);
    ChunkLength(s, d, j);
  }

  lemma ChunkLength(s: string, d: nat, j: nat)
    requires d > 0 && d * j < |s|
    ensures j < |Chunks(s, d)| && |Chunks(s, d)[j]| == Min(d, |s| - d * j)
  {
    ChunkCount(s, d);
    CeilDivAbove(|s|, d, j);
    ChunkAt(s, d, j);
  }

  /** No line of the message is longer than `m`. */
  predicate Short(lines: seq<string>, m: nat) {
    forall i :: 0 <= i < |lines| ==> |lines[i]| <= m
  }

  lemma {:induction false} PiecesFuse(lines: seq<string>, m: nat, d: nat)
    requires m > 0 && d > 0
    ensures m % d == 0 || Short(lines, m) ==> Pieces(Pieces(lines, m), d) == Pieces(lines, d)
    ensures !(m % d == 0 || Short(lines, m)) ==> Apart(Pieces(Pieces(lines, m), d), Pieces(lines, d))
  {
    if lines != [] {
      var rest := lines[1..];
      PiecesFuse(rest, m, d);
      PiecesAppend(Chunks(lines[0], m), Pieces(rest, m), d);
      var x, y := Pieces(Chunks(lines[0], m), d), Chunks(lines[0], d);
      if m % d == 0 || |lines[0]| <= m {
        ChunksFuse(lines[0], m, d);
        if m % d != 0 {
          if Short(rest, m) {
            assert Short(lines, m);
          } else {
            assert !Short(lines, m);
            ApartAfter(x, Pieces(Pieces(rest, m), d), Pieces(rest, d));
          }
        }
      } else {
        ChunksClash(lines[0], m, d);
        ApartBefore(x, y, Pieces(Pieces(rest, m), d), Pieces(rest, d));
      }
    }
  }

  /** Splitting the records of newline-free messages again cuts each of them directly. */
  lemma {:induction false} SplitAgain(log: LogData, messages: seq<string>, d: nat)
    requires d > 0 && AllOneLine(messages)
    ensures SplitAll(Relabel(log, messages), d) == Relabel(log, Pieces(messages, d))
  {
    if messages != [] {
      var rs := Relabel(log, messages);
      SplitAgain(log, messages[1..], d);
      assert rs[1..] == Relabel(log, messages[1..]);
      OneLineHasOneLine(messages[0]);
      PiecesOne(messages[0], d);
      assert Split(rs[0], d) == Relabel(log, Chunks(messages[0], d));
    }
  }

  ghost predicate Fuses(queue: seq<LogData>, m: nat, d: nat)
    requires m > 0 && d > 0
  {
    SplitAll(SplitAll(queue, m), d) == SplitAll(queue, d)
  }

  /** No line of any message in the queue is longer than `m`. */
  predicate AllShort(queue: seq<LogData>, m: nat) {
    forall i :: 0 <= i < |queue| ==> Short(Lines(queue[i].message), m)
  }

  lemma SplitFuse(log: LogData, m: nat, d: nat)
    requires m > 0 && d > 0
    ensures m % d == 0 || Short(Lines(log.message), m) ==> SplitAll(Split(log, m), d) == Split(log, d)
    ensures !(m % d == 0 || Short(Lines(log.message), m)) ==> Apart(SplitAll(Split(log, m), d), Split(log, d))
  {
    var lines := Lines(log.message);
    LinesAreLines(log.message);
    PiecesContract(lines, m);
    SplitAgain(log, Pieces(lines, m), d);
    PiecesFuse(lines, m, d);
    if !(m % d == 0 || Short(lines, m)) {
      var x, y := Pieces(Pieces(lines, m), d), Pieces(lines, d);
      var i :| 0 <= i < |x| && i < |y| && x[i] != y[i];
      assert Relabel(log, x)[i].message != Relabel(log, y)[i].message;
    }
  }

  lemma {:induction false} FusesOrApart(queue: seq<LogData>, m: nat, d: nat)
    requires m > 0 && d > 0
    ensures m % d == 0 || AllShort(queue, m) ==> Fuses(queue, m, d)
    ensures !(m % d == 0 || AllShort(queue, m)) ==> Apart(SplitAll(SplitAll(queue, m), d), SplitAll(queue, d))
  {
    if queue != [] {
      var rest := queue[1..];
      FusesOrApart(rest, m, d);
      SplitAllAppend(Split(queue[0], m), SplitAll(rest, m), d);
      SplitFuse(queue[0], m, d);
      var x, y := SplitAll(Split(queue[0], m), d), Split(queue[0], d);
      var u, v := SplitAll(SplitAll(rest, m), d), SplitAll(rest, d);
      if m % d == 0 {
      } else if !Short(Lines(queue[0].message), m) {
        ApartBefore(x, y, u, v);
      } else if AllShort(rest, m) {
        assert AllShort(queue, m);
      } else {
        assert !AllShort(queue, m);
        ApartAfter(x, u, v);
      }
    }
  }

  /** Splitting by `m` and then by `d` is splitting by `d` exactly when `d` divides `m`
      or no line is longer than `m`; for `d == m` it is idempotence. */
  lemma SplitFusion(queue: seq<LogData>, m: nat, d: nat)
    requires m > 0 && d > 0
    ensures Fuses(queue, m, d) <==> m % d == 0 || AllShort(queue, m)
  {
    FusesOrApart(queue, m, d);
  }

  lemma SplitIdempotent(queue: seq<LogData>, m: nat)
    requires m > 0
    ensures SplitAll(SplitAll(queue, m), m) == SplitAll(queue, m)
  {
    DivUnique(m, m, 1, 0);
    FusesOrApart(queue, m, m);
  }
}
