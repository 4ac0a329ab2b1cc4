/**
 * CsvReporter: a ScheduledReporter that appends one row per sample to a counters file and a
 * stopwatches file. Each file is represented by the text written to it through its PrintWriter.
 * Strings are wrapped in double quotes without any escaping, so the rows are not RFC 4180
 * CSV: a name holding the separator splits into extra columns.
 */
module Csv {
  import opened Wrappers
  import opened JavaLang
  import opened JavaText
  import opened Samples
  import opened ScheduledReporting

  const DefaultCountersFile: string := "counters.csv"
  const DefaultStopwatchesFile: string := "stopwatches.csv"
  const DefaultSeparator: char := ','

  /** What println ends a line with; the platform separator is taken to be a newline. */
  const LineSeparator: string := "\n"

  const NullPointer: Throwable := Exception("NullPointerException", None)
  const SimonIOException: Throwable := Exception("SimonException", Some(Exception("IOException", None)))

  // ---------------------------------------------------------------- fields and rows

  /** A field of a row: a String (possibly null), a long, or a double. */
  datatype Field = Str(s: Option<string>) | Long(n: int) | Dbl(d: Double)

  /** format: a String in double quotes, as it is; anything else by toString; null throws. */
  function Format(f: Field): (r: Outcome<string>)
  {
    match f
    case Str(None) => Threw(NullPointer)
    case Str(Some(s)) => Returned("\"" + s + "\"")
    case Long(n) => Returned(DecimalString(n))
    case Dbl(d) => Returned(d.asString)
  }

  /** A string field reads back by dropping the first and last character, whatever it holds. */
  lemma FormatQuotes(s: string)
    ensures Format(Str(Some(s))).Returned?
    ensures var t := Format(Str(Some(s))).value;
      |t| == |s| + 2 && t[0] == '"' && t[|t| - 1] == '"' && t[1..|t| - 1] == s
  {
  }

  const CountersHeader: seq<string> :=
    ["time", "name", "total", "min", "max", "minTimestamp", "maxTimestamp", "incrementSum", "decrementSum"]

  const StopwatchesHeader: seq<string> :=
    ["time", "name", "total", "min", "max", "minTimestamp", "maxTimestamp", "active", "maxActive",
     "maxActiveTimestamp", "last", "mean", "stdDev", "variance", "varianceN"]

  /** writeSample(currentTime, counterSample): one field per column of the counters header. */
  function CounterFields(time: int, c: CounterSample): (r: seq<Field>)
    ensures |r| == |CountersHeader| == 9
    ensures r[0] == Long(time) && r[1] == Str(c.name)
  {
    [Long(time), Str(c.name), Long(c.counter), Long(c.min), Long(c.max), Long(c.minTimestamp),
     Long(c.maxTimestamp), Long(c.incrementSum), Long(c.decrementSum)]
  }

  /** writeSample(currentTime, stopwatchSample): one field per column of the stopwatches header. */
  function StopwatchFields(time: int, s: StopwatchSample): (r: seq<Field>)
    ensures |r| == |StopwatchesHeader| == 15
    ensures r[0] == Long(time) && r[1] == Str(s.name)
  {
    [Long(time), Str(s.name), Long(s.total), Long(s.min), Long(s.max), Long(s.minTimestamp),
     Long(s.maxTimestamp), Long(s.active), Long(s.maxActive), Long(s.maxActiveTimestamp), Long(s.last),
     Dbl(s.mean), Dbl(s.standardDeviation), Dbl(s.variance), Dbl(s.varianceN)]
  }

  /** The first field whose formatting throws, if any. */
  function FirstUnformattable(fields: seq<Field>): (r: Option<nat>)
    ensures r.None? <==> forall j :: 0 <= j < |fields| ==> Format(fields[j]).Returned?
    ensures r.Some? ==> r.value < |fields| && Format(fields[r.value]).Threw?
    ensures r.Some? ==> forall j :: 0 <= j < r.value ==> Format(fields[j]).Returned?
    decreases |fields|
  {
    if |fields| == 0 then None
    else
      var n := |fields| - 1;
      var r := FirstUnformattable(fields[..n]);
      assert forall j :: 0 <= j < n ==> fields[..n][j] == fields[j];
      if r.Some? then r
      else if Format(fields[n]).Threw? then Some(n)
      else None
  }

  /**
   * The text the first i rounds of writeFields write when none of them throws: each field,
   * followed by the separator unless it is the row's last.
   */
  function Emitted(fields: seq<Field>, sep: char, i: nat): string
    requires i <= |fields|
    requires forall j :: 0 <= j < i ==> Format(fields[j]).Returned?
  {
    if i == 0 then ""
    else Emitted(fields, sep, i - 1) + Format(fields[i - 1]).value + (if i - 1 != |fields| - 1 then [sep] else [])
  }

  /** The formatted fields, when none throws. */
  function Formatted(fields: seq<Field>): (r: seq<string>)
    requires forall j :: 0 <= j < |fields| ==> Format(fields[j]).Returned?
    ensures |r| == |fields|
  {
    seq(|fields|, j requires 0 <= j < |fields| => Format(fields[j]).value)
  }

  /**
   * After i rounds, writeFields has written the first i formatted fields joined by the
   * separator, and a separator after them unless the row is complete.
   */
  lemma {:induction false} EmittedIsJoin(fields: seq<Field>, sep: char, i: nat)
    requires 1 <= i <= |fields|
    requires forall j :: 0 <= j < |fields| ==> Format(fields[j]).Returned?
    ensures Emitted(fields, sep, i) == Join(Formatted(fields)[..i], [sep]) + (if i < |fields| then [sep] else [])
  {
    var parts := Formatted(fields);
    if i == 1 {
      assert Emitted(fields, sep, 0) == "";
      assert parts[..1] == [parts[0]];
    } else {
      EmittedIsJoin(fields, sep, i - 1);
      assert parts[..i][..i - 1] == parts[..i - 1];
    }
  }

  /** A complete row: the formatted fields joined by the separator, with none after the last. */
  lemma RowIsJoin(fields: seq<Field>, sep: char)
    requires |fields| >= 1
    requires forall j :: 0 <= j < |fields| ==> Format(fields[j]).Returned?
    ensures Emitted(fields, sep, |fields|) == Join(Formatted(fields), [sep])
  {
    EmittedIsJoin(fields, sep, |fields|);
    assert Formatted(fields)[..|fields|] == Formatted(fields);
  }

  // ---------------------------------------------------------------- reading a row back

  /** The pieces of s between occurrences of c, empty pieces included. */
  function Split(s: string, c: char): (r: seq<string>)
    ensures |r| >= 1
    ensures forall i :: 0 <= i < |r| ==> c !in r[i]
    decreases |s|
  {
    match IndexOf(s, c)
    case None => [s]
    case Some(i) => [s[..i]] + Split(s[i + 1..], c)
  }

  /**
   * Splitting a joined row at the separator gives the parts back exactly when no part holds
   * the separator: a quoted name holding it breaks the row into more columns.
   */
  lemma SplitJoinIff(parts: seq<string>, c: char)
    requires |parts| >= 1
    ensures Split(Join(parts, [c]), c) == parts <==> forall i :: 0 <= i < |parts| ==> c !in parts[i]
  {
    if forall i :: 0 <= i < |parts| ==> c !in parts[i] {
      SplitOfJoin(parts, c);
    }
  }

  lemma {:induction false} SplitOfJoin(parts: seq<string>, c: char)
    requires |parts| >= 1
    requires forall i :: 0 <= i < |parts| ==> c !in parts[i]
    ensures Split(Join(parts, [c]), c) == parts
    decreases |parts|
  {
    if |parts| == 1 {
      assert IndexOf(parts[0], c) == None;
    } else {
      JoinFirst(parts, [c]);
      var rest := Join(parts[1..], [c]);
      var s := parts[0] + [c] + rest;
      assert s[..|parts[0]|] == parts[0];
      assert s[|parts[0]|] == c;
      assert IndexOf(s, c) == Some(|parts[0]|);
      assert s[|parts[0]| + 1..] == rest;
      SplitOfJoin(parts[1..], c);
      assert parts == [parts[0]] + parts[1..];
    }
  }

  // ---------------------------------------------------------------- writers

  /** A PrintWriter on a file: what has been written through it, and whether it is still open. */
  datatype PrintWriter = PrintWriter(text: string, open: bool)

  /** PrintWriter.write: a closed writer swallows the text (it only records an error). */
  function Write(w: PrintWriter, t: string): (r: PrintWriter)
    ensures r.open == w.open
  {
    if w.open then w.(text := w.text + t) else w
  }

  lemma WriteTwice(w: PrintWriter, a: string, b: string)
    ensures Write(Write(w, a), b) == Write(w, a + b)
  {
    if w.open {
      assert w.text + a + b == w.text + (a + b);
    }
  }

  /**
   * writeFields on a writer field: null throws at the first write; otherwise the formatted
   * fields go out until one throws, and a complete row ends with a line separator.
   */
  function WriteRow(w: Option<PrintWriter>, fields: seq<Field>, sep: char): (Option<PrintWriter>, Outcome<()>)
  {
    if w.None? then (w, Threw(NullPointer))
    else
      match FirstUnformattable(fields)
      case Some(k) => (Some(Write(w.value, Emitted(fields, sep, k))), Threw(NullPointer))
      case None => (Some(Write(w.value, Emitted(fields, sep, |fields|) + LineSeparator)), Returned(()))
  }

  /** Rows written in turn, stopping at the first that throws. */
  function WriteRows(w: Option<PrintWriter>, rows: seq<seq<Field>>, sep: char): (Option<PrintWriter>, Outcome<()>)
    decreases |rows|
  {
    if |rows| == 0 then (w, Returned(()))
    else
      var (w1, r1) := WriteRows(w, rows[..|rows| - 1], sep);
      if r1.Threw? then (w1, r1) else WriteRow(w1, rows[|rows| - 1], sep)
  }

  function CounterRows(time: int, counters: seq<CounterSample>): (r: seq<seq<Field>>)
    ensures |r| == |counters|
  {
    seq(|counters|, i requires 0 <= i < |counters| => CounterFields(time, counters[i]))
  }

  function StopwatchRows(time: int, stopwatches: seq<StopwatchSample>): (r: seq<seq<Field>>)
    ensures |r| == |stopwatches|
  {
    seq(|stopwatches|, i requires 0 <= i < |stopwatches| => StopwatchFields(time, stopwatches[i]))
  }

  /**
   * report(stopwatchSamples, counterSamples) at one time: all counter rows, then, unless one of
   * them threw, all stopwatch rows.
   */
  function ReportStep(counters: Option<PrintWriter>, stopwatches: Option<PrintWriter>, sep: char, time: int,
                      stopwatchSamples: seq<StopwatchSample>, counterSamples: seq<CounterSample>)
    : (Option<PrintWriter>, Option<PrintWriter>, Outcome<()>)
  {
    var (c1, r1) := WriteRows(counters, CounterRows(time, counterSamples), sep);
    if r1.Threw? then (c1, stopwatches, r1)
    else
      var (s1, r2) := WriteRows(stopwatches, StopwatchRows(time, stopwatchSamples), sep);
      (c1, s1, r2)
  }

  /** The line a complete row makes. */
  function RowLine(fields: seq<Field>, sep: char): string
    requires FirstUnformattable(fields).None?
  {
    Emitted(fields, sep, |fields|) + LineSeparator
  }

  /** Every field of a sample formats when the sample has a name. */
  lemma CounterRowFormats(time: int, c: CounterSample)
    ensures c.name.Some? <==> FirstUnformattable(CounterFields(time, c)).None?
  {
    if c.name.None? {
      assert Format(CounterFields(time, c)[1]).Threw?;
    }
  }

  lemma StopwatchRowFormats(time: int, s: StopwatchSample)
    ensures s.name.Some? <==> FirstUnformattable(StopwatchFields(time, s)).None?
  {
    if s.name.None? {
      assert Format(StopwatchFields(time, s)[1]).Threw?;
    }
  }

  /**
   * A row of a named sample starts with the report time and the quoted name, each followed by
   * the separator.
   */
  lemma RowStartsWithTimeAndName(time: int, fields: seq<Field>, name: string, sep: char)
    requires |fields| >= 3 && fields[0] == Long(time) && fields[1] == Str(Some(name))
    requires FirstUnformattable(fields).None?
    ensures StartsWith(RowLine(fields, sep), DecimalString(time) + [sep] + ("\"" + name + "\"") + [sep])
  {
    var head := DecimalString(time) + [sep] + ("\"" + name + "\"") + [sep];
    EmittedPrefix(fields, sep, 2, |fields|);
    EmittedTwo(fields, sep);
    assert Format(fields[0]).value == DecimalString(time);
    assert Format(fields[1]).value == "\"" + name + "\"";
    assert Emitted(fields, sep, 2) == head;
    var e := Emitted(fields, sep, |fields|);
    assert RowLine(fields, sep)[..|e|] == e;
    assert RowLine(fields, sep)[..|head|] == e[..|head|];
  }

  lemma EmittedTwo(fields: seq<Field>, sep: char)
    requires |fields| >= 3
    requires forall j :: 0 <= j < |fields| ==> Format(fields[j]).Returned?
    ensures Emitted(fields, sep, 2) == Format(fields[0]).value + [sep] + Format(fields[1]).value + [sep]
  {
    var first, second := Format(fields[0]).value, Format(fields[1]).value;
    assert Emitted(fields, sep, 1) == "" + first + [sep];
    assert "" + first + [sep] == first + [sep];
    assert Emitted(fields, sep, 2) == Emitted(fields, sep, 1) + second + [sep];
  }

  lemma {:induction false} EmittedPrefix(fields: seq<Field>, sep: char, i: nat, k: nat)
    requires i <= k <= |fields|
    requires forall j :: 0 <= j < |fields| ==> Format(fields[j]).Returned?
    ensures StartsWith(Emitted(fields, sep, k), Emitted(fields, sep, i))
    decreases k
  {
    if i < k {
      EmittedPrefix(fields, sep, i, k - 1);
      var a := Emitted(fields, sep, k - 1);
      var b := Emitted(fields, sep, i);
      assert Emitted(fields, sep, k)[..|a|] == a;
      assert a[..|b|] == b;
    }
  }

  /**
   * A counter sample without a name stops report before any stopwatch row: the stopwatches
   * writer is left as it was, and report throws NullPointerException.
   */
  lemma UnnamedCounterStopsReport(cw: PrintWriter, sw: Option<PrintWriter>, sep: char, time: int,
                                  stopwatchSamples: seq<StopwatchSample>, counterSamples: seq<CounterSample>, k: nat)
    requires k < |counterSamples| && counterSamples[k].name.None?
    ensures ReportStep(Some(cw), sw, sep, time, stopwatchSamples, counterSamples).1 == sw
    ensures ReportStep(Some(cw), sw, sep, time, stopwatchSamples, counterSamples).2 == Threw(NullPointer)
  {
    WriteRowsThrowsAt(Some(cw), CounterRows(time, counterSamples), sep, k);
  }

  /** Rows written on a writer throw when one of them holds a field that does not format. */
  lemma {:induction false} WriteRowsThrowsAt(w: Option<PrintWriter>, rows: seq<seq<Field>>, sep: char, k: nat)
    requires k < |rows| && FirstUnformattable(rows[k]).Some?
    ensures WriteRows(w, rows, sep).1 == Threw(NullPointer)
    decreases |rows|
  {
    var n := |rows| - 1;
    var prefix := rows[..n];
    if k < n {
      assert prefix[k] == rows[k];
      WriteRowsThrowsAt(w, prefix, sep, k);
    } else {
      var (w1, r1) := WriteRows(w, prefix, sep);
      if r1.Returned? {
        WriteRowsOutcome(w, prefix, sep);
      } else {
        WriteRowsOutcome(w, prefix, sep);
      }
    }
  }

  /** Whatever WriteRows ends with is Returned or the NullPointerException. */
  lemma {:induction false} WriteRowsOutcome(w: Option<PrintWriter>, rows: seq<seq<Field>>, sep: char)
    ensures WriteRows(w, rows, sep).1 == Returned(()) || WriteRows(w, rows, sep).1 == Threw(NullPointer)
    ensures w.None? && |rows| > 0 ==> WriteRows(w, rows, sep) == (None, Threw(NullPointer))
    ensures w.None? && |rows| == 0 ==> WriteRows(w, rows, sep) == (None, Returned(()))
    ensures w.Some? ==> WriteRows(w, rows, sep).0.Some?
    decreases |rows|
  {
    if |rows| > 0 {
      WriteRowsOutcome(w, rows[..|rows| - 1], sep);
    }
  }

  /** On an open writer, a row that formats is written whole as its line. */
  lemma NamedRowWrite(w: PrintWriter, fields: seq<Field>, sep: char)
    requires w.open && FirstUnformattable(fields).None?
    ensures WriteRow(Some(w), fields, sep) == (Some(PrintWriter(w.text + RowLine(fields, sep), true)), Returned(()))
  {
  }

  /**
   * On an open writer, rows of named samples are written whole, one line each, in order, and
   * the report goes through.
   */
  lemma {:induction false} NamedRowsAppend(w: PrintWriter, rows: seq<seq<Field>>, sep: char)
    requires w.open
    requires forall i :: 0 <= i < |rows| ==> FirstUnformattable(rows[i]).None?
    ensures WriteRows(Some(w), rows, sep) == (Some(PrintWriter(w.text + Lines(rows, sep), true)), Returned(()))
    decreases |rows|
  {
    if |rows| > 0 {
      var n := |rows| - 1;
      var prefix, last := rows[..n], rows[n];
      assert forall i :: 0 <= i < n ==> prefix[i] == rows[i];
      NamedRowsAppend(w, prefix, sep);
      var before := PrintWriter(w.text + Lines(prefix, sep), true);
      NamedRowWrite(before, last, sep);
      assert WriteRows(Some(w), rows, sep) == WriteRow(Some(before), last, sep);
      assert Lines(rows, sep) == Lines(prefix, sep) + RowLine(last, sep);
      assert before.text + RowLine(last, sep) == w.text + Lines(rows, sep);
    } else {
      assert Lines(rows, sep) == "";
      assert w.text + "" == w.text;
    }
  }

  /**
   * When every sample has a name and both writers are open, report appends one line per counter
   * sample to the counters file and one per stopwatch sample to the stopwatches file, in order.
   */
  lemma NamedReport(cw: PrintWriter, sw: PrintWriter, sep: char, time: int,
                    stopwatchSamples: seq<StopwatchSample>, counterSamples: seq<CounterSample>)
    requires cw.open && sw.open
    requires forall i :: 0 <= i < |counterSamples| ==> counterSamples[i].name.Some?
    requires forall i :: 0 <= i < |stopwatchSamples| ==> stopwatchSamples[i].name.Some?
    ensures var rows := CounterRows(time, counterSamples);
      forall i :: 0 <= i < |rows| ==> FirstUnformattable(rows[i]).None?
    ensures var rows := StopwatchRows(time, stopwatchSamples);
      forall i :: 0 <= i < |rows| ==> FirstUnformattable(rows[i]).None?
    ensures ReportStep(Some(cw), Some(sw), sep, time, stopwatchSamples, counterSamples)
      == (Some(PrintWriter(cw.text + Lines(CounterRows(time, counterSamples), sep), true)),
          Some(PrintWriter(sw.text + Lines(StopwatchRows(time, stopwatchSamples), sep), true)),
          Returned(()))
  {
    var rows := CounterRows(time, counterSamples);
    var rows2 := StopwatchRows(time, stopwatchSamples);
    forall i | 0 <= i < |rows|
      ensures FirstUnformattable(rows[i]).None?
    {
      CounterRowFormats(time, counterSamples[i]);
    }
    forall i | 0 <= i < |rows2|
      ensures FirstUnformattable(rows2[i]).None?
    {
      StopwatchRowFormats(time, stopwatchSamples[i]);
    }
    NamedRowsAppend(cw, rows, sep);
    NamedRowsAppend(sw, rows2, sep);
  }

  /** The lines of complete rows, in order. */
  function Lines(rows: seq<seq<Field>>, sep: char): string
    requires forall i :: 0 <= i < |rows| ==> FirstUnformattable(rows[i]).None?
    decreases |rows|
  {
    if |rows| == 0 then ""
    else
      var n := |rows| - 1;
      assert forall i :: 0 <= i < n ==> rows[..n][i] == rows[i];
      Lines(rows[..n], sep) + RowLine(rows[n], sep)
  }

  // ---------------------------------------------------------------- the reporter

  /** Which file cannot be opened by onStart, if any. */
  datatype OpenFailure = NoOpenFailure | CountersFileFails | StopwatchesFileFails

  /** The text a new writer starts with: the header, unless appending to a file that exists. */
  function InitialText(header: seq<string>, sep: char, appendFile: bool, exists_: bool): (r: string)
    ensures r != "" <==> !appendFile || !exists_
  {
    if !appendFile || !exists_ then Join(header, [sep]) + LineSeparator else ""
  }

  /**
   * What onStart leaves in the two writer fields, and its outcome: a failure opening the
   * counters file leaves both fields as they were; one opening the stopwatches file leaves a
   * fresh empty counters writer; otherwise both writers start with their InitialText.
   */
  function OnStartEffect(oldCounters: Option<PrintWriter>, oldStopwatches: Option<PrintWriter>, sep: char,
                         appendFile: bool, countersExist: bool, stopwatchesExist: bool, failure: OpenFailure)
    : (e: (Option<PrintWriter>, Option<PrintWriter>, Outcome<()>))
    ensures e.2.Returned? <==> failure == NoOpenFailure
    ensures e.2.Threw? ==> e.2 == Threw(SimonIOException) && e.1 == oldStopwatches
    ensures e.2.Returned? ==> e.0.Some? && e.0.value.open && e.1.Some? && e.1.value.open
  {
    match failure
    case CountersFileFails => (oldCounters, oldStopwatches, Threw(SimonIOException))
    case StopwatchesFileFails => (Some(PrintWriter("", true)), oldStopwatches, Threw(SimonIOException))
    case NoOpenFailure =>
      (Some(PrintWriter(InitialText(CountersHeader, sep, appendFile, countersExist), true)),
       Some(PrintWriter(InitialText(StopwatchesHeader, sep, appendFile, stopwatchesExist), true)),
       Returned(()))
  }

  /**
   * What onStop leaves in the two writer fields, and its outcome: each writer is closed in
   * turn, and a missing one throws NullPointerException before the next is touched.
   */
  function OnStopEffect(oldCounters: Option<PrintWriter>, oldStopwatches: Option<PrintWriter>)
    : (e: (Option<PrintWriter>, Option<PrintWriter>, Outcome<()>))
    ensures e.2.Returned? <==> oldCounters.Some? && oldStopwatches.Some?
    ensures e.2.Threw? ==> e.2 == Threw(NullPointer)
    ensures e.0.Some? ==> !e.0.value.open
    ensures oldCounters.Some? && e.1.Some? ==> !e.1.value.open
  {
    if oldCounters.None? then (oldCounters, oldStopwatches, Threw(NullPointer))
    else if oldStopwatches.None? then (Some(oldCounters.value.(open := false)), oldStopwatches, Threw(NullPointer))
    else (Some(oldCounters.value.(open := false)), Some(oldStopwatches.value.(open := false)), Returned(()))
  }

  /**
   * A start that opens both files followed by a stop returns normally and leaves both writers
   * closed, each holding exactly its header text.
   */
  lemma StartThenStopClosesWriters(oldCounters: Option<PrintWriter>, oldStopwatches: Option<PrintWriter>, sep: char,
                                   appendFile: bool, countersExist: bool, stopwatchesExist: bool)
    ensures var started := OnStartEffect(oldCounters, oldStopwatches, sep, appendFile, countersExist, stopwatchesExist, NoOpenFailure);
      var stopped := OnStopEffect(started.0, started.1);
      stopped.2 == Returned(())
      && stopped.0 == Some(PrintWriter(InitialText(CountersHeader, sep, appendFile, countersExist), false))
      && stopped.1 == Some(PrintWriter(InitialText(StopwatchesHeader, sep, appendFile, stopwatchesExist), false))
  {
  }

  class CsvReporter {
    /** The ScheduledReporter part of the object. */
    const base: ScheduledReporter
    var countersFile: string
    var stopwatchesFile: string
    var separator: char
    var appendFile: bool
    var countersWriter: Option<PrintWriter>
    var stopwatchesWriter: Option<PrintWriter>

    constructor(base: ScheduledReporter)
      ensures this.base == base
      ensures countersFile == "" && stopwatchesFile == "" && separator == '\0' && !appendFile
      ensures countersWriter.None? && stopwatchesWriter.None?
    {
      this.base := base;
      countersFile := "";
      stopwatchesFile := "";
      separator := '\0';
      appendFile := false;
      countersWriter := None;
      stopwatchesWriter := None;
    }

    /** forManager: the default files, ',' as separator, no appending. */
    static method ForManager(manager: Option<Manager>, defaultLocale: Locale, executorService: ExecutorService)
      returns (r: Outcome<CsvReporter>)
      ensures r.Threw? <==> manager.None?
      ensures r.Threw? ==> r.thrown == IllegalArgument
      ensures r.Returned? ==>
        fresh(r.value) && fresh(r.value.base)
        && r.value.countersFile == DefaultCountersFile && r.value.stopwatchesFile == DefaultStopwatchesFile
        && r.value.separator == DefaultSeparator && !r.value.appendFile
        && r.value.countersWriter.None? && r.value.stopwatchesWriter.None?
        && r.value.base.CurrentLifecycle() == NotStarted
        && r.value.base.CurrentSettings()
           == Settings(manager.value, executorService, DefaultDuration, DefaultTimeUnit, defaultLocale,
                       Some(DefaultFilter), Some(DefaultIncrementKey))
    {
      var b := ScheduledReporter.Create(manager, defaultLocale, executorService);
      if b.Threw? {
        return Threw(b.thrown);
      }
      var reporter := new CsvReporter(b.value);
      var _ := reporter.SetCountersFile(Some(DefaultCountersFile));
      var _ := reporter.SetStopwatchesFile(Some(DefaultStopwatchesFile));
      reporter.SetSeparator(DefaultSeparator);
      r := Returned(reporter);
    }

    /** countersFile(name): null or empty is refused and the old name kept. */
    method SetCountersFile(name: Option<string>) returns (r: Outcome<()>)
      modifies this
      ensures name.None? || name.value == "" ==> r == Threw(IllegalArgument) && countersFile == old(countersFile)
      ensures name.Some? && name.value != "" ==> r == Returned(()) && countersFile == name.value
      ensures stopwatchesFile == old(stopwatchesFile) && separator == old(separator) && appendFile == old(appendFile)
      ensures countersWriter == old(countersWriter) && stopwatchesWriter == old(stopwatchesWriter)
    {
      if name.None? || name.value == "" {
        return Threw(IllegalArgument);
      }
      countersFile := name.value;
      r := Returned(());
    }

    /** stopwatchesFile(name): null or empty is refused and the old name kept. */
    method SetStopwatchesFile(name: Option<string>) returns (r: Outcome<()>)
      modifies this
      ensures name.None? || name.value == "" ==> r == Threw(IllegalArgument) && stopwatchesFile == old(stopwatchesFile)
      ensures name.Some? && name.value != "" ==> r == Returned(()) && stopwatchesFile == name.value
      ensures countersFile == old(countersFile) && separator == old(separator) && appendFile == old(appendFile)
      ensures countersWriter == old(countersWriter) && stopwatchesWriter == old(stopwatchesWriter)
    {
      if name.None? || name.value == "" {
        return Threw(IllegalArgument);
      }
      stopwatchesFile := name.value;
      r := Returned(());
    }

    /** separator(c) */
    method SetSeparator(c: char)
      modifies this
      ensures separator == c
      ensures countersFile == old(countersFile) && stopwatchesFile == old(stopwatchesFile) && appendFile == old(appendFile)
      ensures countersWriter == old(countersWriter) && stopwatchesWriter == old(stopwatchesWriter)
    {
      separator := c;
    }

    /** append() and setAppendFile(b) */
    method SetAppendFile(b: bool)
      modifies this
      ensures appendFile == b
      ensures countersFile == old(countersFile) && stopwatchesFile == old(stopwatchesFile) && separator == old(separator)
      ensures countersWriter == old(countersWriter) && stopwatchesWriter == old(stopwatchesWriter)
    {
      appendFile := b;
    }

    /**
     * writeHeaders: the names joined by the separator, not quoted, then a line separator.
     */
    method WriteHeaders(w: PrintWriter, headers: seq<string>) returns (after: PrintWriter)
      requires |headers| >= 1
      ensures after == Write(w, Join(headers, [separator]) + LineSeparator)
    {
      after := w;
      var i := 0;
      while i < |headers|
        invariant 0 <= i <= |headers|
        invariant i == 0 ==> after == w
        invariant i > 0 ==> after == Write(w, Join(headers[..i], [separator]) + (if i < |headers| then [separator] else []))
      {
        var piece := headers[i] + (if i != |headers| - 1 then [separator] else []);
        WriteTwice(w, if i == 0 then "" else Join(headers[..i], [separator]) + [separator], piece);
        after := Write(after, piece);
        if i == 0 {
          assert headers[..1] == [headers[0]];
          assert Write(w, "") == w;
        } else {
          assert headers[..i + 1][..i] == headers[..i];
        }
        i := i + 1;
      }
      WriteTwice(w, Join(headers[..i], [separator]), LineSeparator);
      after := Write(after, LineSeparator);
      assert headers[..i] == headers;
    }

    /** writeFields on one of the writer fields' values. */
    method WriteFields(w: Option<PrintWriter>, fields: seq<Field>) returns (after: Option<PrintWriter>, r: Outcome<()>)
      ensures (after, r) == WriteRow(w, fields, separator)
    {
      after := w;
      if w.Some? {
        assert w.value.text + "" == w.value.text;
      }
      var i := 0;
      while i < |fields|
        invariant 0 <= i <= |fields|
        invariant forall j :: 0 <= j < i ==> Format(fields[j]).Returned?
        invariant w.Some? ==> after == Some(Write(w.value, Emitted(fields, separator, i)))
        invariant w.None? ==> i == 0 && after == w
      {
        var formatted := Format(fields[i]);
        if formatted.Threw? {
          assert FirstUnformattable(fields) == Some(i) by { FirstUnformattableIs(fields, i); }
          return after, Threw(NullPointer);
        }
        if after.None? {
          return after, Threw(NullPointer);
        }
        var piece := formatted.value + (if i != |fields| - 1 then [separator] else []);
        WriteTwice(w.value, Emitted(fields, separator, i), piece);
        after := Some(Write(after.value, piece));
        assert Emitted(fields, separator, i + 1) == Emitted(fields, separator, i) + piece;
        i := i + 1;
      }
      if after.None? {
        return after, Threw(NullPointer);
      }
      WriteTwice(w.value, Emitted(fields, separator, i), LineSeparator);
      after := Some(Write(after.value, LineSeparator));
      r := Returned(());
    }

    /**
     * onStart: both files are checked for existence first, then both writers opened (appending
     * or truncating); each gets its header unless appending to a file that existed. An
     * IOException while opening surfaces as a SimonException.
     */
    method OnStart(countersExist: bool, stopwatchesExist: bool, failure: OpenFailure) returns (r: Outcome<()>)
      modifies this
      ensures failure == CountersFileFails ==>
        r == Threw(SimonIOException) && countersWriter == old(countersWriter) && stopwatchesWriter == old(stopwatchesWriter)
      ensures failure == StopwatchesFileFails ==>
        r == Threw(SimonIOException) && countersWriter == Some(PrintWriter("", true))
        && stopwatchesWriter == old(stopwatchesWriter)
      ensures failure == NoOpenFailure ==>
        r == Returned(())
        && countersWriter == Some(PrintWriter(InitialText(CountersHeader, separator, appendFile, countersExist), true))
        && stopwatchesWriter == Some(PrintWriter(InitialText(StopwatchesHeader, separator, appendFile, stopwatchesExist), true))
      ensures (countersWriter, stopwatchesWriter, r)
        == OnStartEffect(old(countersWriter), old(stopwatchesWriter), separator, appendFile, countersExist, stopwatchesExist, failure)
      ensures countersFile == old(countersFile) && stopwatchesFile == old(stopwatchesFile)
      ensures separator == old(separator) && appendFile == old(appendFile)
    {
      if failure == CountersFileFails {
        return Threw(SimonIOException);
      }
      countersWriter := Some(PrintWriter("", true));
      if failure == StopwatchesFileFails {
        return Threw(SimonIOException);
      }
      stopwatchesWriter := Some(PrintWriter("", true));
      if !appendFile || !countersExist {
        var w := WriteHeaders(countersWriter.value, CountersHeader);
        var t := Join(CountersHeader, [separator]) + LineSeparator;
        assert "" + t == t;
        assert InitialText(CountersHeader, separator, appendFile, countersExist) == t;
        countersWriter := Some(w);
      }
      if !appendFile || !stopwatchesExist {
        var w := WriteHeaders(stopwatchesWriter.value, StopwatchesHeader);
        var t := Join(StopwatchesHeader, [separator]) + LineSeparator;
        assert "" + t == t;
        assert InitialText(StopwatchesHeader, separator, appendFile, stopwatchesExist) == t;
        stopwatchesWriter := Some(w);
      }
      r := Returned(());
    }

    /** onStop: flush and close the counters writer, then the stopwatches writer; null throws. */
    method OnStop() returns (r: Outcome<()>)
      modifies this
      ensures countersWriter.None? <==> old(countersWriter).None?
      ensures old(countersWriter).None? ==> r == Threw(NullPointer) && stopwatchesWriter == old(stopwatchesWriter)
      ensures old(countersWriter).Some? ==>
        countersWriter == Some(old(countersWriter).value.(open := false))
        && (old(stopwatchesWriter).None? ==> r == Threw(NullPointer) && stopwatchesWriter.None?)
        && (old(stopwatchesWriter).Some? ==>
              r == Returned(()) && stopwatchesWriter == Some(old(stopwatchesWriter).value.(open := false)))
      ensures (countersWriter, stopwatchesWriter, r) == OnStopEffect(old(countersWriter), old(stopwatchesWriter))
      ensures countersFile == old(countersFile) && stopwatchesFile == old(stopwatchesFile)
      ensures separator == old(separator) && appendFile == old(appendFile)
    {
      if countersWriter.None? {
        return Threw(NullPointer);
      }
      countersWriter := Some(countersWriter.value.(open := false));
      if stopwatchesWriter.None? {
        return Threw(NullPointer);
      }
      stopwatchesWriter := Some(stopwatchesWriter.value.(open := false));
      r := Returned(());
    }

    /** The rows of one kind written in turn through one writer, stopping at the first that throws. */
    method WriteAll(w: Option<PrintWriter>, rows: seq<seq<Field>>) returns (after: Option<PrintWriter>, r: Outcome<()>)
      ensures (after, r) == WriteRows(w, rows, separator)
    {
      after := w;
      var i := 0;
      while i < |rows|
        invariant 0 <= i <= |rows|
        invariant (after, Returned(())) == WriteRows(w, rows[..i], separator)
      {
        assert rows[..i + 1][..i] == rows[..i];
        var outcome;
        after, outcome := WriteFields(after, rows[i]);
        if outcome.Threw? {
          WriteRowsStop(w, rows, i, separator);
          return after, outcome;
        }
        i := i + 1;
      }
      assert rows[..i] == rows;
      r := Returned(());
    }

    /** report: every row stamped with one time, counter rows first. */
    method Report(currentTime: int, stopwatchSamples: seq<StopwatchSample>, counterSamples: seq<CounterSample>)
      returns (r: Outcome<()>)
      modifies this
      ensures (countersWriter, stopwatchesWriter, r)
        == ReportStep(old(countersWriter), old(stopwatchesWriter), separator, currentTime, stopwatchSamples, counterSamples)
      ensures countersFile == old(countersFile) && stopwatchesFile == old(stopwatchesFile)
      ensures separator == old(separator) && appendFile == old(appendFile)
    {
      var outcome;
      countersWriter, outcome := WriteAll(countersWriter, CounterRows(currentTime, counterSamples));
      if outcome.Threw? {
        return outcome;
      }
      stopwatchesWriter, r := WriteAll(stopwatchesWriter, StopwatchRows(currentTime, stopwatchSamples));
    }

    /** start: onStart runs only when the reporter is not running, and before the scheduling. */
    method Start(countersExist: bool, stopwatchesExist: bool, failure: OpenFailure) returns (r: Outcome<()>)
      modifies this, base
      ensures IsRunning(old(base.CurrentLifecycle())) ==>
        r == Threw(IllegalState) && base.CurrentLifecycle() == old(base.CurrentLifecycle())
        && countersWriter == old(countersWriter) && stopwatchesWriter == old(stopwatchesWriter)
      ensures !IsRunning(old(base.CurrentLifecycle())) ==>
        (base.CurrentLifecycle(), r)
        == StartStep(old(base.CurrentLifecycle()), base.duration, base.timeUnit,
                     if failure == NoOpenFailure then Returned(()) else Threw(SimonIOException))
      ensures !IsRunning(old(base.CurrentLifecycle())) ==>
        var e := OnStartEffect(old(countersWriter), old(stopwatchesWriter), separator, appendFile,
                               countersExist, stopwatchesExist, failure);
        countersWriter == e.0 && stopwatchesWriter == e.1
        && (base.CurrentLifecycle(), r) == StartStep(old(base.CurrentLifecycle()), base.duration, base.timeUnit, e.2)
      ensures base.CurrentSettings() == old(base.CurrentSettings())
      ensures countersFile == old(countersFile) && stopwatchesFile == old(stopwatchesFile)
      ensures separator == old(separator) && appendFile == old(appendFile)
    {
      if base.scheduledFuture.Some? && !base.scheduledFuture.value.cancelled {
        r := base.Start(Returned(()));
        return;
      }
      var hook := OnStart(countersExist, stopwatchesExist, failure);
      r := base.Start(hook);
    }

    /** stop: when running, the task is cancelled and then onStop runs. */
    method Stop() returns (r: Outcome<()>)
      modifies this, base
      ensures !IsRunning(old(base.CurrentLifecycle())) ==>
        r == Threw(IllegalState) && base.CurrentLifecycle() == old(base.CurrentLifecycle())
        && countersWriter == old(countersWriter) && stopwatchesWriter == old(stopwatchesWriter)
      ensures IsRunning(old(base.CurrentLifecycle())) ==>
        base.CurrentLifecycle() == StopStep(old(base.CurrentLifecycle()), Returned(())).0
        && (r == Returned(()) <==> old(countersWriter).Some? && old(stopwatchesWriter).Some?)
      ensures IsRunning(old(base.CurrentLifecycle())) ==>
        var e := OnStopEffect(old(countersWriter), old(stopwatchesWriter));
        countersWriter == e.0 && stopwatchesWriter == e.1
        && (base.CurrentLifecycle(), r) == StopStep(old(base.CurrentLifecycle()), e.2)
      ensures base.CurrentSettings() == old(base.CurrentSettings())
      ensures countersFile == old(countersFile) && stopwatchesFile == old(stopwatchesFile)
      ensures separator == old(separator) && appendFile == old(appendFile)
    {
      if base.scheduledFuture.None? || base.scheduledFuture.value.cancelled {
        r := base.Stop(Returned(()));
        return;
      }
      var hook := OnStop();
      r := base.Stop(hook);
    }
  }

  /** The index found by FirstUnformattable is the first field that does not format. */
  lemma FirstUnformattableIs(fields: seq<Field>, i: nat)
    requires i < |fields| && Format(fields[i]).Threw?
    requires forall j :: 0 <= j < i ==> Format(fields[j]).Returned?
    ensures FirstUnformattable(fields) == Some(i)
  {
  }

  /** Once a row throws, the rows after it are not written. */
  lemma {:induction false} WriteRowsStop(w: Option<PrintWriter>, rows: seq<seq<Field>>, i: nat, sep: char)
    requires i < |rows|
    requires WriteRows(w, rows[..i + 1], sep).1.Threw?
    ensures WriteRows(w, rows, sep) == WriteRows(w, rows[..i + 1], sep)
    decreases |rows|
  {
    if i + 1 < |rows| {
      var n := |rows| - 1;
      assert rows[..n][..i + 1] == rows[..i + 1];
      WriteRowsStop(w, rows[..n], i, sep);
    } else {
      assert rows[..i + 1] == rows;
    }
  }
}
