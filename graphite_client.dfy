/**
 * GraphitePlaintextClient: a connection to a Graphite server and the plaintext protocol, one
 * line `<path> <value> <seconds>\n` per metric. The socket and its writer are handles whose
 * state is tracked; what reaches the server is the sequence of lines written.
 */
module Graphite {
  import opened Wrappers
  import opened JavaLang
  import opened JavaText
  import opened Samples
  import opened SampleToPath

  const MillisInSecond: int := 1000
  const MinLong: int := -0x8000_0000_0000_0000
  const MaxLong: int := 0x7FFF_FFFF_FFFF_FFFF

  const IllegalState: Throwable := Exception("IllegalStateException", None)
  const NullPointer: Throwable := Exception("NullPointerException", None)
  /** An IOException wrapped in a SimonException. */
  const SimonIOException: Throwable := Exception("SimonException", Some(Exception("IOException", None)))

  // ---------------------------------------------------------------- the line format

  /** One plaintext line: path, value and time in seconds, separated by spaces. */
  function Line(path: string, value: string, seconds: int): string {
    path + " " + value + " " + DecimalString(seconds) + "\n"
  }

  /** path(simonPath, metric) */
  function MetricPath(simonPath: string, metric: string): string {
    simonPath + "." + metric
  }

  const CounterMetrics: seq<string> := ["count", "min", "max", "incrementSum", "decrementSum"]
  const StopwatchMetrics: seq<string> :=
    ["total", "min", "max", "active", "maxActive", "mean", "stdDev", "variance", "varianceN"]

  /** The counter values in the order of CounterMetrics; longs in decimal. */
  function CounterValues(c: CounterSample): (r: seq<string>)
    ensures |r| == |CounterMetrics|
  {
    [DecimalString(c.counter), DecimalString(c.min), DecimalString(c.max),
     DecimalString(c.incrementSum), DecimalString(c.decrementSum)]
  }

  /** The stopwatch values in the order of StopwatchMetrics; doubles with at most two decimals. */
  function StopwatchValues(s: StopwatchSample): (r: seq<string>)
    ensures |r| == |StopwatchMetrics|
  {
    [DecimalString(s.total), DecimalString(s.min), DecimalString(s.max),
     DecimalString(s.active), DecimalString(s.maxActive),
     s.mean.asTwoDecimals, s.standardDeviation.asTwoDecimals, s.variance.asTwoDecimals, s.varianceN.asTwoDecimals]
  }

  /** One line per metric, in the metrics' order. */
  function MetricLines(simonPath: string, metrics: seq<string>, values: seq<string>, seconds: int): seq<string>
    requires |metrics| == |values|
  {
    seq(|metrics|, i requires 0 <= i < |metrics| => Line(MetricPath(simonPath, metrics[i]), values[i], seconds))
  }

  /** The path of a sample; the Java concatenation turns a null path into "null". */
  function SimonPath(toPath: SampleToPathImpl, name: Option<string>): string {
    StringValueOf(GetPath(toPath, name))
  }

  /** sendSample(timestamp, counterSample): five lines. */
  function CounterLines(toPath: SampleToPathImpl, seconds: int, c: CounterSample): (r: seq<string>)
    ensures |r| == 5
  {
    MetricLines(SimonPath(toPath, c.name), CounterMetrics, CounterValues(c), seconds)
  }

  /** sendSample(timestamp, stopwatchSample): nine lines. */
  function StopwatchLines(toPath: SampleToPathImpl, seconds: int, s: StopwatchSample): (r: seq<string>)
    ensures |r| == 9
  {
    MetricLines(SimonPath(toPath, s.name), StopwatchMetrics, StopwatchValues(s), seconds)
  }

  /** The lines of each element in turn. */
  function Expand<T>(xs: seq<T>, f: T -> seq<string>): seq<string>
    decreases |xs|
  {
    if |xs| == 0 then [] else Expand(xs[..|xs| - 1], f) + f(xs[|xs| - 1])
  }

  /** Where the lines of the i-th element are when every element has w lines. */
  lemma ExpandAt<T>(xs: seq<T>, f: T -> seq<string>, w: nat, i: nat)
    requires forall x :: |f(x)| == w
    requires i < |xs|
    ensures |Expand(xs, f)| == w * |xs|
    ensures w * i + w <= |Expand(xs, f)|
    ensures Expand(xs, f)[w * i..w * i + w] == f(xs[i])
  {
    var upTo := Expand(xs[..i + 1], f);
    assert xs[..i + 1][..i] == xs[..i];
    assert upTo == Expand(xs[..i], f) + f(xs[i]);
    ExpandLength(xs[..i], f, w);
    ExpandLength(xs, f, w);
    ExpandPrefix(xs, f, i + 1);
    assert |upTo| == w * i + w;
    assert w * i + w <= w * |xs| by { MulMono(w, i + 1, |xs|); }
    assert Expand(xs, f)[w * i..w * i + w] == upTo[w * i..];
  }

  lemma MulMono(w: nat, a: nat, b: nat)
    requires a <= b
    ensures w * a <= w * b
  {
  }

  /** The lines of a prefix of the elements are a prefix of the lines. */
  lemma {:induction false} ExpandPrefix<T>(xs: seq<T>, f: T -> seq<string>, m: nat)
    requires m <= |xs|
    ensures |Expand(xs[..m], f)| <= |Expand(xs, f)|
    ensures Expand(xs, f)[..|Expand(xs[..m], f)|] == Expand(xs[..m], f)
    decreases |xs|
  {
    if m < |xs| {
      var n := |xs| - 1;
      assert xs[..n][..m] == xs[..m];
      ExpandPrefix(xs[..n], f, m);
    } else {
      assert xs[..m] == xs;
    }
  }

  lemma {:induction false} ExpandLength<T>(xs: seq<T>, f: T -> seq<string>, w: nat)
    requires forall x :: |f(x)| == w
    ensures |Expand(xs, f)| == w * |xs|
    decreases |xs|
  {
    if |xs| > 0 {
      ExpandLength(xs[..|xs| - 1], f, w);
    }
  }

  /**
   * send(timestamp, stopwatches, counters): the timestamp in whole seconds, then the lines of
   * every stopwatch sample, then those of every counter sample.
   */
  function SendLines(toPath: SampleToPathImpl, timestamp: int, stopwatches: seq<StopwatchSample>, counters: seq<CounterSample>)
    : seq<string>
  {
    var seconds := JavaDiv(timestamp, MillisInSecond);
    Expand(stopwatches, StopwatchSender(toPath, seconds)) + Expand(counters, CounterSender(toPath, seconds))
  }

  /** The lines of each stopwatch sample at a given time. */
  function StopwatchSender(toPath: SampleToPathImpl, seconds: int): (f: StopwatchSample -> seq<string>)
    ensures forall s :: |f(s)| == 9
  {
    s => StopwatchLines(toPath, seconds, s)
  }

  /** The lines of each counter sample at a given time. */
  function CounterSender(toPath: SampleToPathImpl, seconds: int): (f: CounterSample -> seq<string>)
    ensures forall c :: |f(c)| == 5
  {
    c => CounterLines(toPath, seconds, c)
  }

  /** The nine lines of the i-th stopwatch sample of a send are lines 9i to 9i + 8. */
  lemma StopwatchBlockOfSend(toPath: SampleToPathImpl, timestamp: int, stopwatches: seq<StopwatchSample>,
                             counters: seq<CounterSample>, i: nat)
    requires i < |stopwatches|
    ensures 9 * i + 9 <= |SendLines(toPath, timestamp, stopwatches, counters)|
    ensures SendLines(toPath, timestamp, stopwatches, counters)[9 * i..9 * i + 9]
      == StopwatchLines(toPath, JavaDiv(timestamp, MillisInSecond), stopwatches[i])
  {
    var seconds := JavaDiv(timestamp, MillisInSecond);
    var fs := StopwatchSender(toPath, seconds);
    var a := Expand(stopwatches, fs);
    var b := Expand(counters, CounterSender(toPath, seconds));
    assert SendLines(toPath, timestamp, stopwatches, counters) == a + b;
    assert 9 * i + 9 <= |a| && a[9 * i..9 * i + 9] == StopwatchLines(toPath, seconds, stopwatches[i]) by {
      ExpandAt(stopwatches, fs, 9, i);
    }
    assert (a + b)[9 * i..9 * i + 9] == a[9 * i..9 * i + 9];
  }

  /**
   * The five lines of the j-th counter sample of a send come after all stopwatch lines, at
   * 9 * (number of stopwatch samples) + 5j.
   */
  lemma CounterBlockOfSend(toPath: SampleToPathImpl, timestamp: int, stopwatches: seq<StopwatchSample>,
                           counters: seq<CounterSample>, j: nat)
    requires j < |counters|
    ensures |SendLines(toPath, timestamp, stopwatches, counters)| == 9 * |stopwatches| + 5 * |counters|
    ensures SendLines(toPath, timestamp, stopwatches, counters)[9 * |stopwatches| + 5 * j..9 * |stopwatches| + 5 * j + 5]
      == CounterLines(toPath, JavaDiv(timestamp, MillisInSecond), counters[j])
  {
    var seconds := JavaDiv(timestamp, MillisInSecond);
    var fs := StopwatchSender(toPath, seconds);
    var fc := CounterSender(toPath, seconds);
    var a := Expand(stopwatches, fs);
    var b := Expand(counters, fc);
    assert SendLines(toPath, timestamp, stopwatches, counters) == a + b;
    assert |a| == 9 * |stopwatches| by { ExpandLength(stopwatches, fs, 9); }
    assert |b| == 5 * |counters| && b[5 * j..5 * j + 5] == CounterLines(toPath, seconds, counters[j]) by {
      ExpandAt(counters, fc, 5, j);
    }
    SliceOfConcat(a, b, 5 * j, 5);
  }

  /** Reading a line back, as a plaintext-protocol server does: path, value and seconds. */
  function ParseLine(line: string): Option<(string, string, int)>
  {
    if |line| == 0 || line[|line| - 1] != '\n' then None
    else
      var body := line[..|line| - 1];
      match IndexOf(body, ' ')
      case None => None
      case Some(i) =>
        var rest := body[i + 1..];
        match IndexOf(rest, ' ')
        case None => None
        case Some(j) =>
          match ParseDecimal(rest[j + 1..], MinLong, MaxLong)
          case None => None
          case Some(t) => Some((body[..i], rest[..j], t))
  }

  /** The first space of `a b` is the one after a, when a has none. */
  lemma SplitAtSpace(a: string, b: string)
    requires ' ' !in a
    ensures IndexOf(a + " " + b, ' ') == Some(|a|)
    ensures (a + " " + b)[..|a|] == a && (a + " " + b)[|a| + 1..] == b
  {
    var s := a + " " + b;
    assert s[..|a|] == a;
    assert s[|a|] == ' ';
  }

  /** A line with a path and a value free of spaces reads back as that path, value and time. */
  lemma LineRoundTrip(path: string, value: string, seconds: int)
    requires ' ' !in path && ' ' !in value
    requires MinLong <= seconds <= MaxLong
    ensures ParseLine(Line(path, value, seconds)) == Some((path, value, seconds))
  {
    var line := Line(path, value, seconds);
    var ts := DecimalString(seconds);
    var rest := value + " " + ts;
    var body := path + " " + rest;
    assert line == body + "\n";
    assert line[..|line| - 1] == body;
    SplitAtSpace(path, rest);
    assert IndexOf(body, ' ') == Some(|path|) && body[..|path|] == path && body[|path| + 1..] == rest;
    SplitAtSpace(value, ts);
    assert IndexOf(rest, ' ') == Some(|value|) && rest[..|value|] == value && rest[|value| + 1..] == ts;
    DecimalRoundTrip(seconds, MinLong, MaxLong);
    assert ParseDecimal(ts, MinLong, MaxLong) == Some(seconds);
  }

  /** The time of a send: the millisecond timestamp divided by 1000, truncated (12345 gives 12). */
  lemma SecondsOfTimestamp(timestamp: int)
    requires timestamp >= 0
    ensures JavaDiv(timestamp, MillisInSecond) == timestamp / 1000
    ensures JavaDiv(timestamp, MillisInSecond) * 1000 <= timestamp < JavaDiv(timestamp, MillisInSecond) * 1000 + 1000
  {
  }

  /** No metric name holds a space. */
  lemma MetricNamesHaveNoSpaces()
    ensures forall k :: 0 <= k < |StopwatchMetrics| ==> ' ' !in StopwatchMetrics[k]
    ensures forall k :: 0 <= k < |CounterMetrics| ==> ' ' !in CounterMetrics[k]
  {
  }

  /**
   * Every line of a stopwatch sample reads back as its path with the metric name, the metric's
   * value and the send's time, in the order total, min, max, active, maxActive, mean, stdDev,
   * variance, varianceN.
   */
  lemma StopwatchLinesReadBack(toPath: SampleToPathImpl, seconds: int, s: StopwatchSample, k: nat)
    requires MinLong <= seconds <= MaxLong && k < 9
    requires ' ' !in SimonPath(toPath, s.name)
    requires forall i :: 0 <= i < 9 ==> ' ' !in StopwatchValues(s)[i]
    ensures ParseLine(StopwatchLines(toPath, seconds, s)[k])
      == Some((MetricPath(SimonPath(toPath, s.name), StopwatchMetrics[k]), StopwatchValues(s)[k], seconds))
  {
    MetricNamesHaveNoSpaces();
    var path := MetricPath(SimonPath(toPath, s.name), StopwatchMetrics[k]);
    assert StopwatchLines(toPath, seconds, s)[k] == Line(path, StopwatchValues(s)[k], seconds);
    LineRoundTrip(path, StopwatchValues(s)[k], seconds);
  }

  /**
   * Every line of a counter sample reads back as its path with the metric name, the value and
   * the send's time, in the order count, min, max, incrementSum, decrementSum.
   */
  lemma CounterLinesReadBack(toPath: SampleToPathImpl, seconds: int, c: CounterSample, k: nat)
    requires MinLong <= seconds <= MaxLong && k < 5
    requires ' ' !in SimonPath(toPath, c.name)
    ensures ParseLine(CounterLines(toPath, seconds, c)[k])
      == Some((MetricPath(SimonPath(toPath, c.name), CounterMetrics[k]), CounterValues(c)[k], seconds))
  {
    MetricNamesHaveNoSpaces();
    var path := MetricPath(SimonPath(toPath, c.name), CounterMetrics[k]);
    assert CounterLines(toPath, seconds, c)[k] == Line(path, CounterValues(c)[k], seconds);
    assert ' ' !in CounterValues(c)[k];
    LineRoundTrip(path, CounterValues(c)[k], seconds);
  }

  // ---------------------------------------------------------------- the connection

  /** A field holding a socket or a writer: null, an open one, or one that has been closed. */
  datatype Handle = Absent | Open | Closed

  datatype Connection = Connection(socket: Handle, writer: Handle)

  /** Where connect can fail with an IOException: creating the socket, or getting its stream. */
  datatype ConnectFailure = NoConnectFailure | CreateSocketFails | OutputStreamFails

  /** Which call of close throws an IOException, if any. */
  datatype CloseFailure = NoCloseFailure | FlushFails | WriterCloseFails | SocketCloseFails

  /** The calls close makes, in order. */
  datatype IoCall = FlushWriter | CloseWriter | CloseSocket

  const Disconnected: Connection := Connection(Absent, Absent)

  /**
   * connect: refused while a socket is held; an IOException while creating the socket changes
   * nothing, one while getting its stream leaves the socket held without a writer.
   */
  function ConnectStep(c: Connection, failure: ConnectFailure): (Connection, Outcome<()>)
  {
    if c.socket != Absent then (c, Threw(IllegalState))
    else
      match failure
      case CreateSocketFails => (c, Threw(SimonIOException))
      case OutputStreamFails => (c.(socket := Open), Threw(SimonIOException))
      case NoConnectFailure => (Connection(Open, Open), Returned(()))
  }

  /**
   * close: refused without a socket; without a writer the flush throws NullPointerException.
   * Otherwise flush, close the writer, close the socket, and only when all three succeed
   * forget both; a flush of a closed writer fails like any IOException.
   */
  function CloseStep(c: Connection, failure: CloseFailure): (Connection, seq<IoCall>, Outcome<()>)
  {
    if c.socket == Absent then (c, [], Threw(IllegalState))
    else if c.writer == Absent then (c, [], Threw(NullPointer))
    else if c.writer == Closed || failure == FlushFails then (c, [FlushWriter], Threw(SimonIOException))
    else if failure == WriterCloseFails then (c.(writer := Closed), [FlushWriter, CloseWriter], Threw(SimonIOException))
    else if failure == SocketCloseFails then
      (Connection(Closed, Closed), [FlushWriter, CloseWriter, CloseSocket], Threw(SimonIOException))
    else (Disconnected, [FlushWriter, CloseWriter, CloseSocket], Returned(()))
  }

  /** How many lines of a send reach the server: none without an open writer, else up to the failing one. */
  function Delivered(writer: Handle, count: nat, failAt: Option<nat>): (k: nat)
    ensures k <= count
  {
    if count == 0 || writer != Open then 0
    else if failAt.Some? && failAt.value < count then failAt.value
    else count
  }

  /** How many lines of a block starting at index `from` of a send are delivered. */
  function BlockDelivered(writer: Handle, from: nat, count: nat, failAt: Option<nat>): (k: nat)
    ensures k <= count
  {
    if count == 0 then 0
    else if writer != Open then 0
    else if failAt.Some? && from <= failAt.value < from + count then failAt.value - from
    else count
  }

  /**
   * A block that fails after `written` lines went through decides how many lines of the whole
   * send are delivered.
   */
  lemma BlockStopsSend(writer: Handle, from: nat, written: nat, count: nat, total: nat, failAt: Option<nat>)
    requires written + count <= total
    requires writer == Open && failAt.Some? ==> !(from <= failAt.value < from + written)
    requires writer != Open ==> written == 0
    requires BlockDelivered(writer, from + written, count, failAt) < count
    ensures BlockDelivered(writer, from, total, failAt) == written + BlockDelivered(writer, from + written, count, failAt)
  {
  }

  /** Lines up to part of a block that follows a prefix of the lines. */
  lemma PrefixOfBlock(lines: seq<string>, done: seq<string>, block: seq<string>, k: nat)
    requires |done| + |block| <= |lines| && lines[..|done| + |block|] == done + block
    requires k <= |block|
    ensures lines[..|done| + k] == done + block[..k]
  {
    assert lines[..|done| + k] == (done + block)[..|done| + k];
  }

  /** A send of a + b lines delivers the first part's lines, and the second's only after all of those. */
  lemma DeliveredInTwoParts(writer: Handle, a: nat, b: nat, failAt: Option<nat>)
    ensures BlockDelivered(writer, 0, a, failAt) < a ==>
      Delivered(writer, a + b, failAt) == BlockDelivered(writer, 0, a, failAt)
      && SendOutcome(writer, a + b, failAt)
         == (if writer == Absent then Threw(NullPointer) else Threw(SimonIOException))
    ensures BlockDelivered(writer, 0, a, failAt) == a ==>
      Delivered(writer, a + b, failAt) == a + BlockDelivered(writer, a, b, failAt)
      && SendOutcome(writer, a + b, failAt)
         == (if BlockDelivered(writer, a, b, failAt) == b then Returned(())
             else if writer == Absent then Threw(NullPointer) else Threw(SimonIOException))
  {
  }

  /** A slice of the second part of a concatenation. */
  lemma SliceOfConcat(a: seq<string>, b: seq<string>, lo: nat, len: nat)
    requires lo + len <= |b|
    ensures (a + b)[|a| + lo..|a| + lo + len] == b[lo..lo + len]
  {
  }

  /** A send that fails within its first part delivers a prefix of that part only. */
  lemma SendStopsInFirstPart(before: seq<string>, after: seq<string>, first: seq<string>, second: seq<string>,
                             writer: Handle, failAt: Option<nat>)
    requires after == before + first[..BlockDelivered(writer, 0, |first|, failAt)]
    requires BlockDelivered(writer, 0, |first|, failAt) < |first|
    ensures after == before + (first + second)[..Delivered(writer, |first + second|, failAt)]
    ensures SendOutcome(writer, |first + second|, failAt)
      == (if writer == Absent then Threw(NullPointer) else Threw(SimonIOException))
  {
    DeliveredInTwoParts(writer, |first|, |second|, failAt);
    var k := BlockDelivered(writer, 0, |first|, failAt);
    assert (first + second)[..k] == first[..k];
  }

  /** A send whose first part goes through delivers all of it, then a prefix of the second part. */
  lemma SendGoesThroughFirstPart(before: seq<string>, middle: seq<string>, after: seq<string>,
                                 first: seq<string>, second: seq<string>, writer: Handle, failAt: Option<nat>)
    requires middle == before + first[..BlockDelivered(writer, 0, |first|, failAt)]
    requires BlockDelivered(writer, 0, |first|, failAt) == |first|
    requires after == middle + second[..BlockDelivered(writer, |first|, |second|, failAt)]
    ensures after == before + (first + second)[..Delivered(writer, |first + second|, failAt)]
    ensures SendOutcome(writer, |first + second|, failAt)
      == (if BlockDelivered(writer, |first|, |second|, failAt) == |second| then Returned(())
          else if writer == Absent then Threw(NullPointer) else Threw(SimonIOException))
  {
    DeliveredInTwoParts(writer, |first|, |second|, failAt);
    var k := BlockDelivered(writer, |first|, |second|, failAt);
    assert first[..|first|] == first;
    assert (first + second)[..|first| + k] == first + second[..k];
  }

  /** What send ends with, given how many of its lines were delivered. */
  function SendOutcome(writer: Handle, count: nat, failAt: Option<nat>): Outcome<()>
  {
    if Delivered(writer, count, failAt) == count then Returned(())
    else if writer == Absent then Threw(NullPointer)
    else Threw(SimonIOException)
  }

  /** A second connect is refused, and close without connect is refused. */
  lemma ConnectTwiceCloseUnconnected(failure: ConnectFailure, closeFailure: CloseFailure)
    ensures var (connected, r) := ConnectStep(Disconnected, NoConnectFailure);
      r == Returned(()) && ConnectStep(connected, failure) == (connected, Threw(IllegalState))
    ensures CloseStep(Disconnected, closeFailure) == (Disconnected, [], Threw(IllegalState))
  {
  }

  /** connect then close: flush, close the writer, close the socket, and end disconnected. */
  lemma ConnectThenClose()
    ensures var (connected, r1) := ConnectStep(Disconnected, NoConnectFailure);
      CloseStep(connected, NoCloseFailure) == (Disconnected, [FlushWriter, CloseWriter, CloseSocket], Returned(()))
  {
  }

  /** Every IOException of connect or close surfaces as a SimonException wrapping it. */
  lemma IoFailuresBecomeSimonExceptions(c: Connection, cf: ConnectFailure, kf: CloseFailure)
    ensures c.socket == Absent && cf != NoConnectFailure ==> ConnectStep(c, cf).1 == Threw(SimonIOException)
    ensures c.socket != Absent && c.writer == Open && kf != NoCloseFailure ==> CloseStep(c, kf).2 == Threw(SimonIOException)
  {
  }

  /** No state lets a writer be held without a socket. */
  predicate WriterNeedsSocket(c: Connection) {
    c.writer != Absent ==> c.socket != Absent
  }

  lemma StepsKeepWriterNeedsSocket(c: Connection, cf: ConnectFailure, kf: CloseFailure)
    requires WriterNeedsSocket(c)
    ensures WriterNeedsSocket(ConnectStep(c, cf).0)
    ensures WriterNeedsSocket(CloseStep(c, kf).0)
  {
  }

  // ---------------------------------------------------------------- the client

  datatype ServerAddress = ServerAddress(host: string, port: int)

  class GraphitePlaintextClient {
    const serverAddress: ServerAddress
    const sampleToPath: SampleToPathImpl
    var socket: Handle
    var writer: Handle
    /** The lines that reached the server, in order. */
    var sent: seq<string>
    /** The flush and close calls made on the writer and the socket, in order. */
    var calls: seq<IoCall>

    function CurrentConnection(): Connection
      reads this
    {
      Connection(socket, writer)
    }

    predicate Valid()
      reads this
    {
      WriterNeedsSocket(CurrentConnection())
    }

    /** The constructors: without a SampleToPath, paths get the empty prefix. */
    constructor(serverAddress: ServerAddress, sampleToPath: Option<SampleToPathImpl>)
      ensures Valid() && CurrentConnection() == Disconnected && sent == [] && calls == []
      ensures this.sampleToPath == if sampleToPath.None? then New(Some("")) else sampleToPath.value
      ensures this.serverAddress == serverAddress
    {
      this.serverAddress := serverAddress;
      this.sampleToPath := if sampleToPath.None? then New(Some("")) else sampleToPath.value;
      socket := Absent;
      writer := Absent;
      sent := [];
      calls := [];
    }

    method Connect(failure: ConnectFailure) returns (r: Outcome<()>)
      requires Valid()
      modifies this
      ensures Valid()
      ensures (CurrentConnection(), r) == ConnectStep(old(CurrentConnection()), failure)
      ensures sent == old(sent) && calls == old(calls)
    {
      if socket != Absent {
        return Threw(IllegalState);
      }
      if failure == CreateSocketFails {
        return Threw(SimonIOException);
      }
      socket := Open;
      if failure == OutputStreamFails {
        return Threw(SimonIOException);
      }
      writer := Open;
      r := Returned(());
    }

    /**
     * send: the lines of the samples, each written and flushed in turn, stopwatch samples first;
     * `failAt` is the index of the line whose write throws an IOException, if any.
     */
    method Send(timestamp: int, stopwatches: seq<StopwatchSample>, counters: seq<CounterSample>, failAt: Option<nat>)
      returns (r: Outcome<()>)
      modifies this
      ensures var lines := SendLines(sampleToPath, timestamp, stopwatches, counters);
        sent == old(sent) + lines[..Delivered(writer, |lines|, failAt)]
        && r == SendOutcome(writer, |lines|, failAt)
      ensures CurrentConnection() == old(CurrentConnection()) && calls == old(calls)
    {
      var seconds := JavaDiv(timestamp, MillisInSecond);
      var toPath := sampleToPath;
      var fs := StopwatchSender(toPath, seconds);
      var fc := CounterSender(toPath, seconds);
      ghost var first := Expand(stopwatches, fs);
      ghost var second := Expand(counters, fc);
      assert SendLines(sampleToPath, timestamp, stopwatches, counters) == first + second;
      ghost var before := sent;
      r := SendSamples(stopwatches, fs, 0, failAt);
      if r.Threw? {
        SendStopsInFirstPart(before, sent, first, second, writer, failAt);
        return;
      }
      ghost var middle := sent;
      ExpandLength(stopwatches, fs, 9);
      r := SendSamples(counters, fc, 9 * |stopwatches|, failAt);
      SendGoesThroughFirstPart(before, middle, sent, first, second, writer, failAt);
    }

    /**
     * The loop of send over one list of samples, `f` giving each sample's lines; the first of
     * them is line `from` of the whole send.
     */
    method SendSamples<T>(samples: seq<T>, f: T -> seq<string>, from: nat, failAt: Option<nat>) returns (r: Outcome<()>)
      modifies this
      ensures sent == old(sent) + Expand(samples, f)[..BlockDelivered(writer, from, |Expand(samples, f)|, failAt)]
      ensures r == if BlockDelivered(writer, from, |Expand(samples, f)|, failAt) == |Expand(samples, f)| then Returned(())
                   else if writer == Absent then Threw(NullPointer) else Threw(SimonIOException)
      ensures CurrentConnection() == old(CurrentConnection()) && calls == old(calls)
    {
      var written: nat := 0;
      var i := 0;
      while i < |samples|
        invariant 0 <= i <= |samples|
        invariant written == |Expand(samples[..i], f)|
        invariant writer != Open ==> written == 0
        invariant writer == Open && failAt.Some? ==> !(from <= failAt.value < from + written)
        invariant sent == old(sent) + Expand(samples[..i], f)
        invariant socket == old(socket) && writer == old(writer) && calls == old(calls)
      {
        var block := f(samples[i]);
        assert samples[..i + 1][..i] == samples[..i];
        assert Expand(samples[..i + 1], f) == Expand(samples[..i], f) + block;
        ExpandPrefix(samples, f, i + 1);
        r := WriteLines(block, from + written, failAt);
        if r.Threw? {
          ghost var k := BlockDelivered(writer, from + written, |block|, failAt);
          BlockStopsSend(writer, from, written, |block|, |Expand(samples, f)|, failAt);
          PrefixOfBlock(Expand(samples, f), Expand(samples[..i], f), block, k);
          return;
        }
        written := written + |block|;
        i := i + 1;
      }
      assert samples[..i] == samples;
      r := Returned(());
    }

    /** Writes and flushes the lines of one sample, the first being line `from` of the send. */
    method WriteLines(block: seq<string>, from: nat, failAt: Option<nat>) returns (r: Outcome<()>)
      modifies this
      ensures sent == old(sent) + block[..BlockDelivered(writer, from, |block|, failAt)]
      ensures r == if BlockDelivered(writer, from, |block|, failAt) == |block| then Returned(())
                   else if writer == Absent then Threw(NullPointer) else Threw(SimonIOException)
      ensures CurrentConnection() == old(CurrentConnection()) && calls == old(calls)
    {
      var k := 0;
      while k < |block|
        invariant 0 <= k <= |block|
        invariant writer == Open ==> !(failAt.Some? && from <= failAt.value < from + k)
        invariant sent == old(sent) + block[..k]
        invariant k > 0 ==> writer == Open
        invariant socket == old(socket) && writer == old(writer) && calls == old(calls)
      {
        if writer == Absent {
          assert k == 0;
          return Threw(NullPointer);
        }
        if writer == Closed || failAt == Some(from + k) {
          assert block[..k] == block[..BlockDelivered(writer, from, |block|, failAt)];
          return Threw(SimonIOException);
        }
        sent := sent + [block[k]];
        assert block[..k + 1] == block[..k] + [block[k]];
        k := k + 1;
      }
      assert block[..k] == block;
      r := Returned(());
    }

    method Close(failure: CloseFailure) returns (r: Outcome<()>)
      requires Valid()
      modifies this
      ensures Valid()
      ensures (CurrentConnection(), calls, r)
        == (CloseStep(old(CurrentConnection()), failure).0,
            old(calls) + CloseStep(old(CurrentConnection()), failure).1,
            CloseStep(old(CurrentConnection()), failure).2)
      ensures sent == old(sent)
    {
      if socket == Absent {
        assert calls == old(calls) + [];
        return Threw(IllegalState);
      }
      if writer == Absent {
        assert calls == old(calls) + [];
        return Threw(NullPointer);
      }
      calls := calls + [FlushWriter];
      if writer == Closed || failure == FlushFails {
        return Threw(SimonIOException);
      }
      calls := calls + [CloseWriter];
      writer := Closed;
      if failure == WriterCloseFails {
        assert calls == old(calls) + [FlushWriter, CloseWriter];
        return Threw(SimonIOException);
      }
      calls := calls + [CloseSocket];
      socket := Closed;
      assert calls == old(calls) + [FlushWriter, CloseWriter, CloseSocket];
      if failure == SocketCloseFails {
        return Threw(SimonIOException);
      }
      socket := Absent;
      writer := Absent;
      r := Returned(());
    }
  }
}
