/** Reading printed records back (`src/logger/log_data.rs`): what the printers show, and
    where, is fixed by a reader that knows nothing of them. */
module Reading {
  import opened Records
  import opened Splitter
  import opened Arithmetic

  /** The fields a line shows; a compact line shows no tag. */
  datatype Printed = Printed(
    level: LogLevel, time: string, tag: Option<string>,
    file: string, line: nat, column: nat, functionName: string, message: string)

  /** The text before the first `c`, and after it. */
  function Cut(s: string, c: char): Option<(string, string)> {
    if s == "" then None
    else if s[0] == c then Some(("", s[1..]))
    else
      var (before, after) :- Cut(s[1..], c);
      Some(([s[0]] + before, after))
  }

  function Skip(s: string, prefix: string): Option<string> {
    if prefix <= s then Some(s[|prefix|..]) else None
  }

  function LevelOf(c: char): Option<LogLevel> {
    match c
    case 'I' => Some(Info)
    case 'W' => Some(Warn)
    case 'E' => Some(Error)
    case 'D' => Some(Debug)
    case 'C' => Some(Crit)
    case 'O' => Some(Off)
    case _ => None
  }

  /** The number a numeral stands for. */
  function Value(s: string): Option<nat> {
    if s == "" || !('0' <= s[|s| - 1] <= '9') then None
    else
      var digit := s[|s| - 1] as int - '0' as int;
      if |s| == 1 then Some(digit)
      else
        var rest :- Value(s[..|s| - 1]);
        Some(10 * rest + digit)
  }

  /** `file:line:column @ function] message`. */
  function ReadLocation(s: string): Option<(string, nat, nat, string, string)> {
    var (file, s1) :- Cut(s, ':');
    var (line, s2) :- Cut(s1, ':');
    var (column, s3) :- Cut(s2, ' ');
    var s4 :- Skip(s3, "@ ");
    var (functionName, s5) :- Cut(s4, ']');
    var message :- Skip(s5, " ");
    var l :- Value(line);
    var c :- Value(column);
    Some((file, l, c, functionName, message))
  }

  /** `L time `, up to the bracket, and what follows it. */
  function ReadHead(s: string): Option<(LogLevel, string, string)> {
    if |s| < 2 || s[1] != ' ' then None
    else
      var level :- LevelOf(s[0]);
      var (time, rest) :- Cut(s[2..], '[');
      if time == "" || time[|time| - 1] != ' ' then None else Some((level, time[..|time| - 1], rest))
  }

  /** A line of the global file. */
  function ReadLine(s: string): Option<Printed> {
    var (level, time, s1) :- ReadHead(s);
    var (tag, s2) :- Cut(s1, ']');
    var s3 :- Skip(s2, " [");
    var (file, line, column, functionName, message) :- ReadLocation(s3);
    Some(Printed(level, time, Some(tag), file, line, column, functionName, message))
  }

  /** A line of a context file. */
  function ReadCompactLine(s: string): Option<Printed> {
    var (level, time, s1) :- ReadHead(s);
    var (file, line, column, functionName, message) :- ReadLocation(s1);
    Some(Printed(level, time, None, file, line, column, functionName, message))
  }

  /** No field holds the character that ends it. */
  predicate ReadableCompact(r: LogData) {
    && '[' !in r.time && ':' !in r.file
    && (r.functionName.Some? ==> ']' !in r.functionName.value)
  }

  predicate Readable(r: LogData) { ReadableCompact(r) && (r.tag.Some? ==> ']' !in r.tag.value) }

  /** What the line of `r` is to show. */
  function Shown(r: LogData, tag: Option<string>): Printed {
    Printed(r.level, r.time, tag, r.file, r.line, r.column,
            if r.functionName.Some? then r.functionName.value else "default", r.message)
  }

  function ShownTag(r: LogData): string { if r.tag.Some? then r.tag.value else "GLOBAL" }

  // ----- The parts of a line -----

  lemma {:induction false} CutAppend(a: string, c: char, b: string)
    requires c !in a
    ensures Cut(a + [c] + b, c) == Some((a, b))
  {
    var s := a + [c] + b;
    if a == "" {
      assert s[1..] == b;
    } else {
      assert a[0] in a && forall x :: x in a[1..] ==> x in a;
      CutAppend(a[1..], c, b);
      assert s[1..] == a[1..] + [c] + b && s[0] == a[0];
      assert a == [a[0]] + a[1..];
    }
  }

  lemma SkipAppend(a: string, b: string)
    ensures Skip(a + b, a) == Some(b)
  {
  }

  /** A numeral is read as its number; it has digits only, and no zero in front. */
  lemma {:induction false} NumeralReads(n: nat)
    ensures Value(Decimal(n)) == Some(n)
    ensures forall c :: c in Decimal(n) ==> '0' <= c <= '9'
    ensures n > 0 ==> Decimal(n)[0] != '0'
  {
    if n >= 10 {
      NumeralReads(n / 10);
      var s := Decimal(n);
      assert s[..|s| - 1] == Decimal(n / 10) && s[|s| - 1] == DigitChar(n % 10);
    }
  }

  /** `file:line:column @ function] message` from its parts. */
  function Place(file: string, line: string, column: string, functionName: string, message: string): string {
    file + ":" + (line + ":" + (column + " " + ("@ " + (functionName + "]" + (" " + message)))))
  }

  lemma PlaceReads(file: string, line: nat, column: nat, functionName: string, message: string)
    requires ':' !in file && ']' !in functionName
    ensures ReadLocation(Place(file, Decimal(line), Decimal(column), functionName, message))
         == Some((file, line, column, functionName, message))
  {
    var s5 := " " + message;
    var s4 := functionName + "]" + s5;
    var s3 := "@ " + s4;
    var s2 := Decimal(column) + " " + s3;
    var s1 := Decimal(line) + ":" + s2;
    NumeralReads(line);
    NumeralReads(column);
    CutAppend(file, ':', s1);
    CutAppend(Decimal(line), ':', s2);
    CutAppend(Decimal(column), ' ', s3);
    SkipAppend("@ ", s4);
    CutAppend(functionName, ']', s5);
    SkipAppend(" ", message);
  }

  lemma LocationReads(r: LogData)
    requires ReadableCompact(r)
    ensures Location(r)[0] == '['
    ensures ReadLocation(Location(r)[1..] + r.message)
         == Some((r.file, r.line, r.column, Shown(r, None).functionName, r.message))
  {
    var name := Shown(r, None).functionName;
    PlaceReads(r.file, r.line, r.column, name, r.message);
    LocationParts(r.file, Decimal(r.line), Decimal(r.column), name, r.message);
  }

  lemma LocationParts(file: string, line: string, column: string, functionName: string, message: string)
    ensures ("[" + file + ":" + line + ":" + column + " @ " + functionName + "] ")[1..] + message
         == Place(file, line, column, functionName, message)
  {
  }

  lemma HeadReads(r: LogData, rest: string)
    requires '[' !in r.time
    ensures ReadHead([r.level.Short()] + " " + r.time + " [" + rest) == Some((r.level, r.time, rest))
  {
    var s := [r.level.Short()] + " " + r.time + " [" + rest;
    var time := r.time + " ";
    assert s[2..] == time + "[" + rest;
    CutAppend(time, '[', rest);
    assert time[..|time| - 1] == r.time;
  }

  // ----- The printers -----

  lemma LineParts(head: string, tag: string, place: string, message: string)
    ensures head + " [" + tag + "] " + ("[" + place) + message == head + " [" + (tag + "]" + (" [" + (place + message)))
  {
  }

  lemma CompactLineParts(head: string, place: string, message: string)
    ensures head + " " + ("[" + place) + message == head + " [" + (place + message)
  {
  }

  /** The global line of a record shows, in this order, its level's letter, its time, its tag
      or "GLOBAL", its file, line and column, its function name or "default", its message. */
  lemma LineReads(r: LogData)
    requires Readable(r)
    ensures ReadLine(Body(r)) == Some(Shown(r, Some(ShownTag(r))))
  {
    LocationReads(r);
    var place := Location(r)[1..];
    assert Location(r) == "[" + place;
    LineParts([r.level.Short()] + " " + r.time, ShownTag(r), place, r.message);
    HeadReads(r, ShownTag(r) + "]" + (" [" + (place + r.message)));
    CutAppend(ShownTag(r), ']', " [" + (place + r.message));
    SkipAppend(" [", place + r.message);
  }

  /** And the compact line the same without the tag. */
  lemma CompactLineReads(r: LogData)
    requires ReadableCompact(r)
    ensures ReadCompactLine(CompactBody(r)) == Some(Shown(r, None))
  {
    LocationReads(r);
    var place := Location(r)[1..];
    assert Location(r) == "[" + place;
    CompactLineParts([r.level.Short()] + " " + r.time, place, r.message);
    HeadReads(r, place + r.message);
  }

  // ----- Files -----

  /** A global file of records cut at its newlines: each line shows the record. */
  lemma FileReads(rs: seq<LogData>)
    requires forall i :: 0 <= i < |rs| ==> Clean(rs[i]) && Readable(rs[i])
    ensures |Lines(Render(Body, rs))| == |rs| + 1
    ensures forall i :: 0 <= i < |rs| ==> ReadLine(Lines(Render(Body, rs))[i]) == Some(Shown(rs[i], Some(ShownTag(rs[i]))))
  {
    OneRecordPerLine(rs);
    forall i | 0 <= i < |rs| ensures ReadLine(Lines(Render(Body, rs))[i]) == Some(Shown(rs[i], Some(ShownTag(rs[i])))) {
      LineReads(rs[i]);
      assert (Bodies(Body, rs) + [""])[i] == Body(rs[i]);
    }
  }

  lemma CompactFileReads(rs: seq<LogData>)
    requires forall i :: 0 <= i < |rs| ==> CompactClean(rs[i]) && ReadableCompact(rs[i])
    ensures |Lines(Render(CompactBody, rs))| == |rs| + 1
    ensures forall i :: 0 <= i < |rs| ==> ReadCompactLine(Lines(Render(CompactBody, rs))[i]) == Some(Shown(rs[i], None))
  {
    OneRecordPerLine(rs);
    forall i | 0 <= i < |rs| ensures ReadCompactLine(Lines(Render(CompactBody, rs))[i]) == Some(Shown(rs[i], None)) {
      CompactLineReads(rs[i]);
      assert (Bodies(CompactBody, rs) + [""])[i] == CompactBody(rs[i]);
    }
  }
}
