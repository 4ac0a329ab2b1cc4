/**
 * ScheduledReporter: the base of the periodic reporters. Its settings are set fluently and
 * checked; `start` and `stop` move a scheduled task between not scheduled, running and
 * cancelled; each run gathers the increment samples of the Simons the manager returns.
 *
 * The subclass hooks (onStart, onStop, report) are not known here: `start` and `stop` take the
 * outcome of their hook as a parameter, and a run returns the two lists it hands to `report`.
 */
module ScheduledReporting {
  import opened Wrappers
  import opened JavaLang
  import opened Samples

  const DefaultDuration: int := 1
  const DefaultIncrementKey: string := "scheduledReporter"

  datatype TimeUnit = NANOSECONDS | MICROSECONDS | MILLISECONDS | SECONDS | MINUTES | HOURS | DAYS

  const DefaultTimeUnit: TimeUnit := MINUTES

  datatype Locale = Locale(tag: string)

  /** A SimonFilter; the reporter starts with the pattern `*`. */
  datatype SimonFilter = SimonPattern(pattern: string)

  const DefaultFilter: SimonFilter := SimonPattern("*")

  datatype SimonKind = CounterSimon | StopwatchSimon | OtherSimon

  datatype Simon = Simon(name: string, kind: SimonKind)

  /** The Manager, as far as a run uses it: the Simons a filter (possibly null) selects, in order. */
  datatype Manager = Manager(getSimons: Option<SimonFilter> -> seq<Simon>)

  /** The executor the task is scheduled on; only its identity matters here. */
  datatype ExecutorService = ExecutorService(id: nat)

  /** Counter.sampleIncrement(key) and Stopwatch.sampleIncrement(key) of each Simon. */
  datatype Sampler = Sampler(
    counter: (Simon, Option<string>) -> CounterSample,
    stopwatch: (Simon, Option<string>) -> StopwatchSample)

  /** A task scheduled with a fixed delay, and whether it has been cancelled. */
  datatype ScheduledFuture = ScheduledFuture(initialDelay: int, delay: int, unit: TimeUnit, cancelled: bool)

  /** What start and stop do, in order: the hooks, the scheduling and the cancelling. */
  datatype Event =
    | OnStartCalled
    | Scheduled(initialDelay: int, delay: int, unit: TimeUnit)
    | Cancelled(mayInterruptIfRunning: bool)
    | OnStopCalled

  const IllegalArgument: Throwable := Exception("IllegalArgumentException", None)
  const IllegalState: Throwable := Exception("IllegalStateException", None)

  /** The settings a reporter holds. */
  datatype Settings = Settings(
    manager: Manager,
    executorService: ExecutorService,
    duration: int,
    timeUnit: TimeUnit,
    locale: Locale,
    filter: Option<SimonFilter>,
    name: Option<string>)

  /** The scheduled task and what start and stop have done so far. */
  datatype Lifecycle = Lifecycle(future: Option<ScheduledFuture>, events: seq<Event>)

  // ---------------------------------------------------------------- start and stop

  /** Running: a task was scheduled and has not been cancelled. */
  predicate IsRunning(l: Lifecycle) {
    l.future.Some? && !l.future.value.cancelled
  }

  /**
   * start: when not running, call onStart and, if it returns, schedule the task with no initial
   * delay and the configured period; when running, throw IllegalStateException.
   */
  function StartStep(l: Lifecycle, duration: int, unit: TimeUnit, onStart: Outcome<()>): (Lifecycle, Outcome<()>)
  {
    if IsRunning(l) then (l, Threw(IllegalState))
    else if onStart.Threw? then (Lifecycle(l.future, l.events + [OnStartCalled]), onStart)
    else
      (Lifecycle(Some(ScheduledFuture(0, duration, unit, false)), l.events + [OnStartCalled, Scheduled(0, duration, unit)]),
       Returned(()))
  }

  /**
   * stop: when running, cancel the task without interrupting it, then call onStop; otherwise
   * throw IllegalStateException.
   */
  function StopStep(l: Lifecycle, onStop: Outcome<()>): (Lifecycle, Outcome<()>)
  {
    if IsRunning(l) then
      (Lifecycle(Some(l.future.value.(cancelled := true)), l.events + [Cancelled(false), OnStopCalled]), onStop)
    else (l, Threw(IllegalState))
  }

  /** A reporter that was never started. */
  const NotStarted: Lifecycle := Lifecycle(None, [])

  /** start is refused exactly while running, and then changes nothing. */
  lemma StartRefusedIffRunning(l: Lifecycle, duration: int, unit: TimeUnit, onStart: Outcome<()>)
    requires onStart.Returned?
    ensures StartStep(l, duration, unit, onStart).1.Threw? <==> IsRunning(l)
    ensures IsRunning(l) ==> StartStep(l, duration, unit, onStart) == (l, Threw(IllegalState))
    ensures !IsRunning(l) ==> IsRunning(StartStep(l, duration, unit, onStart).0)
  {
  }

  /** stop is refused exactly while not running, and then changes nothing; after it, nothing runs. */
  lemma StopRefusedIffNotRunning(l: Lifecycle, onStop: Outcome<()>)
    requires onStop.Returned?
    ensures StopStep(l, onStop).1.Threw? <==> !IsRunning(l)
    ensures !IsRunning(l) ==> StopStep(l, onStop) == (l, Threw(IllegalState))
    ensures !IsRunning(StopStep(l, onStop).0)
  {
  }

  /**
   * Start then stop: onStart, scheduling with delay 0 and the period, cancel(false), onStop,
   * in that order; a second stop throws.
   */
  lemma StartThenStop(duration: int, unit: TimeUnit)
    ensures var (started, r1) := StartStep(NotStarted, duration, unit, Returned(()));
      var (stopped, r2) := StopStep(started, Returned(()));
      r1 == Returned(()) && r2 == Returned(())
      && stopped.events == [OnStartCalled, Scheduled(0, duration, unit), Cancelled(false), OnStopCalled]
      && StopStep(stopped, Returned(())) == (stopped, Threw(IllegalState))
  {
  }

  /** stop before any start throws. */
  lemma StopBeforeStart(onStop: Outcome<()>)
    ensures StopStep(NotStarted, onStop) == (NotStarted, Threw(IllegalState))
  {
  }

  /** A cancelled task counts as not running, so a stopped reporter can be started again. */
  lemma RestartAfterStop(l: Lifecycle, duration: int, unit: TimeUnit)
    requires IsRunning(l)
    ensures var stopped := StopStep(l, Returned(())).0;
      StartStep(stopped, duration, unit, Returned(())).1 == Returned(())
      && IsRunning(StartStep(stopped, duration, unit, Returned(())).0)
  {
  }

  // ---------------------------------------------------------------- one run

  /** One Simon's contribution: its increment sample, kept only if unnamed, and then named after it. */
  function SelectSample(acc: (seq<StopwatchSample>, seq<CounterSample>), simon: Simon, key: Option<string>, sampler: Sampler)
    : (seq<StopwatchSample>, seq<CounterSample>)
  {
    match simon.kind
    case CounterSimon =>
      var c := sampler.counter(simon, key);
      if c.name.None? then (acc.0, acc.1 + [c.(name := Some(simon.name))]) else acc
    case StopwatchSimon =>
      var s := sampler.stopwatch(simon, key);
      if s.name.None? then (acc.0 + [s.(name := Some(simon.name))], acc.1) else acc
    case OtherSimon => acc
  }

  /** The stopwatch and counter samples a run reports for the given Simons, in their order. */
  function IncrementSamples(simons: seq<Simon>, key: Option<string>, sampler: Sampler): (seq<StopwatchSample>, seq<CounterSample>)
    decreases |simons|
  {
    if |simons| == 0 then ([], [])
    else SelectSample(IncrementSamples(simons[..|simons| - 1], key, sampler), simons[|simons| - 1], key, sampler)
  }

  /** The samples of a concatenation are the concatenated samples: the manager's order is kept. */
  lemma {:induction false} IncrementSamplesAppend(a: seq<Simon>, b: seq<Simon>, key: Option<string>, sampler: Sampler)
    ensures IncrementSamples(a + b, key, sampler).0 == IncrementSamples(a, key, sampler).0 + IncrementSamples(b, key, sampler).0
    ensures IncrementSamples(a + b, key, sampler).1 == IncrementSamples(a, key, sampler).1 + IncrementSamples(b, key, sampler).1
    decreases |b|
  {
    if |b| > 0 {
      var b' := b[..|b| - 1];
      assert (a + b)[..|a + b| - 1] == a + b';
      IncrementSamplesAppend(a, b', key, sampler);
    } else {
      assert a + b == a;
    }
  }

  /** A Simon that is neither a Counter nor a Stopwatch adds nothing, wherever it is. */
  lemma OtherSimonIgnored(simons: seq<Simon>, i: nat, key: Option<string>, sampler: Sampler)
    requires i < |simons| && simons[i].kind == OtherSimon
    ensures IncrementSamples(simons[..i] + simons[i + 1..], key, sampler) == IncrementSamples(simons, key, sampler)
  {
    var a, x, b := simons[..i], [simons[i]], simons[i + 1..];
    assert simons == a + (x + b);
    assert x[..0] == [];
    assert IncrementSamples(x[..0], key, sampler) == ([], []);
    var single := IncrementSamples(x, key, sampler);
    assert single == ([], []);
    IncrementSamplesAppend(a, x + b, key, sampler);
    IncrementSamplesAppend(x, b, key, sampler);
    IncrementSamplesAppend(a, b, key, sampler);
    assert IncrementSamples(x + b, key, sampler).0 == IncrementSamples(b, key, sampler).0;
    assert IncrementSamples(x + b, key, sampler).1 == IncrementSamples(b, key, sampler).1;
  }

  /** The counter sample of a Simon, named after it, when its increment sample was unnamed. */
  predicate CounterOf(simon: Simon, key: Option<string>, sampler: Sampler, c: CounterSample) {
    simon.kind == CounterSimon && sampler.counter(simon, key).name.None?
    && c == sampler.counter(simon, key).(name := Some(simon.name))
  }

  /** The stopwatch sample of a Simon, named after it, when its increment sample was unnamed. */
  predicate StopwatchOf(simon: Simon, key: Option<string>, sampler: Sampler, s: StopwatchSample) {
    simon.kind == StopwatchSimon && sampler.stopwatch(simon, key).name.None?
    && s == sampler.stopwatch(simon, key).(name := Some(simon.name))
  }

  /** Every reported sample is the unnamed increment sample of one of the Simons, named after it. */
  lemma {:induction false} ReportedSamplesComeFromSimons(simons: seq<Simon>, key: Option<string>, sampler: Sampler)
    ensures forall i :: 0 <= i < |IncrementSamples(simons, key, sampler).0| ==>
      exists j :: 0 <= j < |simons| && StopwatchOf(simons[j], key, sampler, IncrementSamples(simons, key, sampler).0[i])
    ensures forall i :: 0 <= i < |IncrementSamples(simons, key, sampler).1| ==>
      exists j :: 0 <= j < |simons| && CounterOf(simons[j], key, sampler, IncrementSamples(simons, key, sampler).1[i])
    decreases |simons|
  {
    if |simons| > 0 {
      var n := |simons| - 1;
      var prefix := simons[..n];
      ReportedSamplesComeFromSimons(prefix, key, sampler);
      var before := IncrementSamples(prefix, key, sampler);
      var after := IncrementSamples(simons, key, sampler);
      assert after == SelectSample(before, simons[n], key, sampler);
      forall i | 0 <= i < |IncrementSamples(simons, key, sampler).0|
        ensures exists j :: 0 <= j < |simons| && StopwatchOf(simons[j], key, sampler, IncrementSamples(simons, key, sampler).0[i])
      {
        if i < |before.0| {
          assert after.0[i] == before.0[i];
          var j :| 0 <= j < |prefix| && StopwatchOf(prefix[j], key, sampler, before.0[i]);
          assert simons[j] == prefix[j];
        } else {
          assert StopwatchOf(simons[n], key, sampler, after.0[i]);
        }
      }
      forall i | 0 <= i < |IncrementSamples(simons, key, sampler).1|
        ensures exists j :: 0 <= j < |simons| && CounterOf(simons[j], key, sampler, IncrementSamples(simons, key, sampler).1[i])
      {
        if i < |before.1| {
          assert after.1[i] == before.1[i];
          var j :| 0 <= j < |prefix| && CounterOf(prefix[j], key, sampler, before.1[i]);
          assert simons[j] == prefix[j];
        } else {
          assert CounterOf(simons[n], key, sampler, after.1[i]);
        }
      }
    } else {
      assert IncrementSamples(simons, key, sampler) == ([], []);
    }
  }

  /**
   * Every Counter or Stopwatch whose increment sample is unnamed is reported, at the position
   * given by the samples of the Simons before it.
   */
  lemma EveryIncrementSampleReported(simons: seq<Simon>, j: nat, key: Option<string>, sampler: Sampler)
    requires j < |simons|
    ensures var (sw, cs) := IncrementSamples(simons, key, sampler);
      var (sw0, cs0) := IncrementSamples(simons[..j], key, sampler);
      (simons[j].kind == StopwatchSimon && sampler.stopwatch(simons[j], key).name.None? ==>
        |sw0| < |sw| && StopwatchOf(simons[j], key, sampler, sw[|sw0|]))
      && (simons[j].kind == CounterSimon && sampler.counter(simons[j], key).name.None? ==>
        |cs0| < |cs| && CounterOf(simons[j], key, sampler, cs[|cs0|]))
  {
    assert simons == simons[..j] + ([simons[j]] + simons[j + 1..]);
    IncrementSamplesAppend(simons[..j], [simons[j]] + simons[j + 1..], key, sampler);
    IncrementSamplesAppend([simons[j]], simons[j + 1..], key, sampler);
    assert [simons[j]][..0] == [];
  }

  // ---------------------------------------------------------------- the reporter

  class ScheduledReporter {
    var manager: Manager
    var executorService: ExecutorService
    var duration: int
    var timeUnit: TimeUnit
    var locale: Locale
    var filter: Option<SimonFilter>
    var name: Option<string>
    var scheduledFuture: Option<ScheduledFuture>
    /** The hooks called and the scheduler calls made, in order. */
    var events: seq<Event>

    function CurrentSettings(): Settings
      reads this
    {
      Settings(manager, executorService, duration, timeUnit, locale, filter, name)
    }

    function CurrentLifecycle(): Lifecycle
      reads this
    {
      Lifecycle(scheduledFuture, events)
    }

    /** The period is always positive. */
    predicate Valid()
      reads this
    {
      duration > 0
    }

    /**
     * The constructor with a non-null manager: every minute, increment key "scheduledReporter",
     * the default locale, the filter `*`, and an executor of its own, given here.
     */
    constructor(manager: Manager, defaultLocale: Locale, executorService: ExecutorService)
      ensures Valid()
      ensures CurrentSettings()
        == Settings(manager, executorService, DefaultDuration, DefaultTimeUnit, defaultLocale,
                    Some(DefaultFilter), Some(DefaultIncrementKey))
      ensures CurrentLifecycle() == NotStarted
    {
      this.manager := manager;
      this.executorService := executorService;
      duration := DefaultDuration;
      timeUnit := DefaultTimeUnit;
      locale := defaultLocale;
      filter := Some(DefaultFilter);
      name := Some(DefaultIncrementKey);
      scheduledFuture := None;
      events := [];
    }

    /** The constructor as a whole: a null manager is refused with IllegalArgumentException. */
    static method Create(manager: Option<Manager>, defaultLocale: Locale, executorService: ExecutorService)
      returns (r: Outcome<ScheduledReporter>)
      ensures r.Threw? <==> manager.None?
      ensures r.Threw? ==> r.thrown == IllegalArgument
      ensures r.Returned? ==> fresh(r.value) && r.value.Valid() && r.value.CurrentLifecycle() == NotStarted
      ensures r.Returned? ==>
        r.value.CurrentSettings()
        == Settings(manager.value, executorService, DefaultDuration, DefaultTimeUnit, defaultLocale,
                    Some(DefaultFilter), Some(DefaultIncrementKey))
    {
      if manager.None? {
        return Threw(IllegalArgument);
      }
      var reporter := new ScheduledReporter(manager.value, defaultLocale, executorService);
      r := Returned(reporter);
    }

    /**
     * every(duration, unit): a duration that is not positive is refused first; a null unit is
     * refused after the duration has been set.
     */
    method Every(d: int, unit: Option<TimeUnit>) returns (r: Outcome<()>)
      requires Valid()
      modifies this
      ensures Valid()
      ensures d <= 0 ==> r == Threw(IllegalArgument) && CurrentSettings() == old(CurrentSettings())
      ensures d > 0 && unit.None? ==>
        r == Threw(IllegalArgument) && CurrentSettings() == old(CurrentSettings()).(duration := d)
      ensures d > 0 && unit.Some? ==>
        r == Returned(()) && CurrentSettings() == old(CurrentSettings()).(duration := d, timeUnit := unit.value)
      ensures CurrentLifecycle() == old(CurrentLifecycle())
    {
      if d <= 0 {
        return Threw(IllegalArgument);
      }
      duration := d;
      if unit.None? {
        return Threw(IllegalArgument);
      }
      timeUnit := unit.value;
      r := Returned(());
    }

    /** locale(l): null is refused. */
    method SetLocale(l: Option<Locale>) returns (r: Outcome<()>)
      modifies this
      ensures l.None? ==> r == Threw(IllegalArgument) && CurrentSettings() == old(CurrentSettings())
      ensures l.Some? ==> r == Returned(()) && CurrentSettings() == old(CurrentSettings()).(locale := l.value)
      ensures CurrentLifecycle() == old(CurrentLifecycle())
    {
      if l.None? {
        return Threw(IllegalArgument);
      }
      locale := l.value;
      r := Returned(());
    }

    /** filter(f): any filter, null included. */
    method SetFilter(f: Option<SimonFilter>)
      modifies this
      ensures CurrentSettings() == old(CurrentSettings()).(filter := f)
      ensures CurrentLifecycle() == old(CurrentLifecycle())
    {
      filter := f;
    }

    /** setManager(m): null is refused. */
    method SetManager(m: Option<Manager>) returns (r: Outcome<()>)
      modifies this
      ensures m.None? ==> r == Threw(IllegalArgument) && CurrentSettings() == old(CurrentSettings())
      ensures m.Some? ==> r == Returned(()) && CurrentSettings() == old(CurrentSettings()).(manager := m.value)
      ensures CurrentLifecycle() == old(CurrentLifecycle())
    {
      if m.None? {
        return Threw(IllegalArgument);
      }
      manager := m.value;
      r := Returned(());
    }

    /** setExecutorService(e): null is refused. */
    method SetExecutorService(e: Option<ExecutorService>) returns (r: Outcome<()>)
      modifies this
      ensures e.None? ==> r == Threw(IllegalArgument) && CurrentSettings() == old(CurrentSettings())
      ensures e.Some? ==> r == Returned(()) && CurrentSettings() == old(CurrentSettings()).(executorService := e.value)
      ensures CurrentLifecycle() == old(CurrentLifecycle())
    {
      if e.None? {
        return Threw(IllegalArgument);
      }
      executorService := e.value;
      r := Returned(());
    }

    /** name(key): the increment key, null included. */
    method SetName(key: Option<string>)
      modifies this
      ensures CurrentSettings() == old(CurrentSettings()).(name := key)
      ensures CurrentLifecycle() == old(CurrentLifecycle())
    {
      name := key;
    }

    /** start, with the outcome of the subclass's onStart. */
    method Start(onStart: Outcome<()>) returns (r: Outcome<()>)
      modifies this
      ensures (CurrentLifecycle(), r) == StartStep(old(CurrentLifecycle()), duration, timeUnit, onStart)
      ensures CurrentSettings() == old(CurrentSettings())
    {
      if scheduledFuture.None? || scheduledFuture.value.cancelled {
        events := events + [OnStartCalled];
        if onStart.Threw? {
          return onStart;
        }
        scheduledFuture := Some(ScheduledFuture(0, duration, timeUnit, false));
        events := events + [Scheduled(0, duration, timeUnit)];
        assert events == old(events) + [OnStartCalled, Scheduled(0, duration, timeUnit)];
        r := Returned(());
      } else {
        r := Threw(IllegalState);
      }
    }

    /** stop, with the outcome of the subclass's onStop. */
    method Stop(onStop: Outcome<()>) returns (r: Outcome<()>)
      modifies this
      ensures (CurrentLifecycle(), r) == StopStep(old(CurrentLifecycle()), onStop)
      ensures CurrentSettings() == old(CurrentSettings())
    {
      if scheduledFuture.Some? && !scheduledFuture.value.cancelled {
        scheduledFuture := Some(scheduledFuture.value.(cancelled := true));
        events := events + [Cancelled(false)];
        events := events + [OnStopCalled];
        assert events == old(events) + [Cancelled(false), OnStopCalled];
        r := onStop;
      } else {
        r := Threw(IllegalState);
      }
    }

    /**
     * ReporterRunnable.run: the stopwatch and counter samples it passes to `report`, gathered
     * from the Simons the manager selects with the filter.
     */
    method Run(sampler: Sampler) returns (stopwatchSamples: seq<StopwatchSample>, counterSamples: seq<CounterSample>)
      ensures (stopwatchSamples, counterSamples) == IncrementSamples(manager.getSimons(filter), name, sampler)
    {
      var simons := manager.getSimons(filter);
      stopwatchSamples := [];
      counterSamples := [];
      var i := 0;
      while i < |simons|
        invariant 0 <= i <= |simons|
        invariant (stopwatchSamples, counterSamples) == IncrementSamples(simons[..i], name, sampler)
      {
        var simon := simons[i];
        match simon.kind {
          case CounterSimon =>
            var sample := sampler.counter(simon, name);
            if sample.name.None? {
              sample := sample.(name := Some(simon.name));
              counterSamples := counterSamples + [sample];
            }
          case StopwatchSimon =>
            var sample := sampler.stopwatch(simon, name);
            if sample.name.None? {
              sample := sample.(name := Some(simon.name));
              stopwatchSamples := stopwatchSamples + [sample];
            }
          case OtherSimon =>
        }
        assert simons[..i + 1][..i] == simons[..i];
        i := i + 1;
      }
      assert simons[..|simons|] == simons;
    }
  }
}
