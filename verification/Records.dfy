/** Log records and their printed form (`src/logger/log_data.rs`, `src/log_level.rs`). */
module Records {

  datatype Option<+T> = None | Some(value: T) {
    function GetOr(default: T): T {
      match this
      case Some(v) => v
      case None => default
    }

    predicate IsFailure() { None? }

    function PropagateFailure<U>(): Option<U>
      requires IsFailure()
    {
      None
    }

    function Extract(): T
      requires !IsFailure()
    {
      value
    }
  }

  datatype LogLevel = Info | Warn | Error | Debug | Crit | Off {
    function Short(): char {
      match this
      case Info => 'I'
      case Warn => 'W'
      case Error => 'E'
      case Debug => 'D'
      case Crit => 'C'
      case Off => 'O'
    }
  }

  type u32 = n: int | 0 <= n < 0x1_0000_0000

  /** `time` is the record's timestamp as the printers format it (`%Y-%m-%d %H:%M:%S`). */
  datatype LogData = LogData(
    level: LogLevel,
    tag: Option<string>,
    message: string,
    time: string,
    file: string,
    line: u32,
    column: u32,
    functionName: Option<string>
  )

  const DEFAULT_TAG := "GLOBAL"
  const DEFAULT_FUNCTION := "default"

  /** The decimal numeral of `n`. */
  function Decimal(n: nat): string {
    if n < 10 then [DigitChar(n)] else Decimal(n / 10) + [DigitChar(n % 10)]
  }

  function DigitChar(d: nat): (c: char)
    requires d < 10
    ensures '0' <= c <= '9'
  {
    '0' + d as char
  }

  /** The location part both printers share. */
  function Location(r: LogData): string {
    "[" + r.file + ":" + Decimal(r.line) + ":" + Decimal(r.column) + " @ "
    + r.functionName.GetOr(DEFAULT_FUNCTION) + "] "
  }

  /** What `write_to_io` prints, without its line end. */
  function Body(r: LogData): string {
    [r.level.Short()] + " " + r.time + " [" + r.tag.GetOr(DEFAULT_TAG) + "] " + Location(r) + r.message
  }

  /** What `write_compact_to_io` prints, without its line end. */
  function CompactBody(r: LogData): string {
    [r.level.Short()] + " " + r.time + " " + Location(r) + r.message
  }

  /** The concatenation of `ss`. */
  function Concat(ss: seq<string>): string {
    if ss == [] then "" else ss[0] + Concat(ss[1..])
  }

  lemma {:induction false} ConcatAppend(a: seq<string>, b: seq<string>)
    ensures Concat(a + b) == Concat(a) + Concat(b)
  {
    if a == [] {
      assert a + b == b;
    } else {
      ConcatAppend(a[1..], b);
      assert (a + b)[1..] == a[1..] + b;
      AppendAssoc(a[0], Concat(a[1..]), Concat(b));
    }
  }

  lemma ConcatOne(s: string)
    ensures Concat([s]) == s
  {
    assert [s][1..] == [];
    assert Concat([s]) == s + "";
  }

  /** The form a printer gives a record's line, without the line end: `Body` or `CompactBody`. */
  type Form = LogData -> string

  function Bodies(form: Form, rs: seq<LogData>): (ss: seq<string>)
    ensures |ss| == |rs|
    ensures forall i :: 0 <= i < |rs| ==> ss[i] == form(rs[i])
  {
    seq(|rs|, i requires 0 <= i < |rs| => form(rs[i]))
  }

  function EndLines(ss: seq<string>): (ls: seq<string>)
    ensures |ls| == |ss|
  {
    seq(|ss|, i requires 0 <= i < |ss| => ss[i] + "\n")
  }

  /** The text a writer receives for the records `rs`. */
  function Render(form: Form, rs: seq<LogData>): string { Concat(EndLines(Bodies(form, rs))) }

  lemma EndLinesAppend(a: seq<string>, b: seq<string>)
    ensures EndLines(a + b) == EndLines(a) + EndLines(b)
  {
  }

  lemma RenderAppend(form: Form, a: seq<LogData>, b: seq<LogData>)
    ensures Render(form, a + b) == Render(form, a) + Render(form, b)
  {
    assert Bodies(form, a + b) == Bodies(form, a) + Bodies(form, b);
    EndLinesAppend(Bodies(form, a), Bodies(form, b));
    ConcatAppend(EndLines(Bodies(form, a)), EndLines(Bodies(form, b)));
  }

  lemma RenderOne(form: Form, r: LogData)
    ensures Render(form, [r]) == form(r) + "\n"
  {
    assert EndLines(Bodies(form, [r])) == [form(r) + "\n"];
    ConcatOne(form(r) + "\n");
  }

  /** The records that carry tag `tag`, in order. */
  function WithTag(rs: seq<LogData>, tag: string): seq<LogData> {
    if rs == [] then []
    else if rs[0].tag == Some(tag) then [rs[0]] + WithTag(rs[1..], tag)
    else WithTag(rs[1..], tag)
  }

  lemma PrefixTransitive<T>(a: seq<T>, b: seq<T>, c: seq<T>)
    requires a <= b && b <= c
    ensures a <= c
  {
  }

  lemma AppendAssoc<T>(a: seq<T>, b: seq<T>, c: seq<T>)
    ensures a + (b + c) == (a + b) + c
  {
  }

  lemma {:induction false} WithTagAppend(a: seq<LogData>, b: seq<LogData>, tag: string)
    ensures WithTag(a + b, tag) == WithTag(a, tag) + WithTag(b, tag)
  {
    if a == [] {
      assert a + b == b;
    } else {
      WithTagAppend(a[1..], b, tag);
      assert (a + b)[1..] == a[1..] + b;
      AppendAssoc([a[0]], WithTag(a[1..], tag), WithTag(b, tag));
    }
  }

  lemma {:induction false} WithTagFrom(rs: seq<LogData>, tag: string)
    ensures forall r :: r in WithTag(rs, tag) ==> r in rs && r.tag == Some(tag)
  {
    if rs != [] {
      WithTagFrom(rs[1..], tag);
    }
  }

  // ----- Newlines -----

  predicate OneLine(s: string) { '\n' !in s }

  lemma OneLineAppend(a: string, b: string)
    ensures OneLine(a + b) <==> OneLine(a) && OneLine(b)
  {
    if OneLine(a + b) {
      forall c | c in a || c in b ensures c in a + b {}
    }
  }

  lemma {:induction false} DecimalIsOneLine(n: nat)
    ensures OneLine(Decimal(n))
  {
    if n >= 10 {
      DecimalIsOneLine(n / 10);
    }
  }

  /** The fields of `r` that end up in a context line hold no newline. */
  predicate CompactClean(r: LogData) {
    OneLine(r.time) && OneLine(r.file) && OneLine(r.functionName.GetOr(DEFAULT_FUNCTION)) && OneLine(r.message)
  }

  /** The fields of `r` that end up in a global line hold no newline. */
  predicate Clean(r: LogData) {
    CompactClean(r) && OneLine(r.tag.GetOr(DEFAULT_TAG))
  }

  lemma LocationIsOneLine(r: LogData)
    ensures OneLine(Location(r)) <==> OneLine(r.file) && OneLine(r.functionName.GetOr(DEFAULT_FUNCTION))
  {
    DecimalIsOneLine(r.line);
    DecimalIsOneLine(r.column);
    var f := r.functionName.GetOr(DEFAULT_FUNCTION);
    OneLineAppend("[", r.file);
    OneLineAppend("[" + r.file, ":");
    OneLineAppend("[" + r.file + ":", Decimal(r.line));
    OneLineAppend("[" + r.file + ":" + Decimal(r.line), ":");
    OneLineAppend("[" + r.file + ":" + Decimal(r.line) + ":", Decimal(r.column));
    OneLineAppend("[" + r.file + ":" + Decimal(r.line) + ":" + Decimal(r.column), " @ ");
    OneLineAppend("[" + r.file + ":" + Decimal(r.line) + ":" + Decimal(r.column) + " @ ", f);
    OneLineAppend("[" + r.file + ":" + Decimal(r.line) + ":" + Decimal(r.column) + " @ " + f, "] ");
  }

  /** A printed record stays on one line exactly when none of its printed text fields holds a newline. */
  lemma BodyIsOneLine(r: LogData)
    ensures OneLine(Body(r)) <==> Clean(r)
    ensures OneLine(CompactBody(r)) <==> CompactClean(r)
  {
    LocationIsOneLine(r);
    var p := [r.level.Short()] + " ";
    var t := r.tag.GetOr(DEFAULT_TAG);
    OneLineAppend(p, r.time);
    OneLineAppend(p + r.time, " [");
    OneLineAppend(p + r.time + " [", t);
    OneLineAppend(p + r.time + " [" + t, "] ");
    OneLineAppend(p + r.time + " [" + t + "] ", Location(r));
    OneLineAppend(p + r.time + " [" + t + "] " + Location(r), r.message);
    OneLineAppend(p + r.time, " ");
    OneLineAppend(p + r.time + " ", Location(r));
    OneLineAppend(p + r.time + " " + Location(r), r.message);
  }
}
