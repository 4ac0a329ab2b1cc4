/**
 * The part of the Simon manager the JDBC proxies use, as an abstract registry: stopwatches
 * looked up (and created on first use) by name, each with an active count, a counter of stopped
 * splits and a note; splits started on a stopwatch and stopped at most once. Timings are not
 * modelled.
 */
module JdbcMetrics {
  import opened Wrappers

  /** What the JDBC layer reads of a stopwatch. */
  datatype Stopwatch = Stopwatch(active: int, counter: nat, note: Option<string>)

  /** A stopwatch nobody has used yet. */
  const Unused: Stopwatch := Stopwatch(0, 0, None)

  /** A split: which start it came from, and on which stopwatch. */
  datatype Split = Split(id: nat, name: string)

  /** The stopwatches by name, the splits still running (with their stopwatch) and the next split id. */
  datatype Registry = Registry(stopwatches: map<string, Stopwatch>, running: map<nat, string>, nextSplit: nat)

  const EmptyRegistry: Registry := Registry(map[], map[], 0)

  /** The stopwatch under a name; Manager.getStopwatch creates an unused one for a new name. */
  function Lookup(stopwatches: map<string, Stopwatch>, name: string): Stopwatch
  {
    if name in stopwatches then stopwatches[name] else Unused
  }

  /** Every running split was handed out by a start. */
  predicate Consistent(reg: Registry)
  {
    forall id :: id in reg.running ==> id < reg.nextSplit
  }

  /** Stopwatch.setNote: the named stopwatch gets the note, nothing else changes. */
  function WithNote(reg: Registry, name: string, note: string): (r: Registry)
    ensures Lookup(r.stopwatches, name) == Lookup(reg.stopwatches, name).(note := Some(note))
    ensures forall n :: n != name ==> Lookup(r.stopwatches, n) == Lookup(reg.stopwatches, n)
    ensures r.running == reg.running && r.nextSplit == reg.nextSplit
  {
    reg.(stopwatches := reg.stopwatches[name := Lookup(reg.stopwatches, name).(note := Some(note))])
  }

  /**
   * Stopwatch.start: a new split, running on the named stopwatch, which has one more active split;
   * no other stopwatch changes.
   */
  function StartSplit(reg: Registry, name: string): (r: (Registry, Split))
    ensures r.1.name == name && r.0.running == reg.running[r.1.id := name]
    ensures Consistent(reg) ==> Consistent(r.0) && r.1.id !in reg.running
    ensures Lookup(r.0.stopwatches, name) == Lookup(reg.stopwatches, name).(active := Lookup(reg.stopwatches, name).active + 1)
    ensures forall n :: n != name ==> Lookup(r.0.stopwatches, n) == Lookup(reg.stopwatches, n)
  {
    var watch := Lookup(reg.stopwatches, name);
    (Registry(reg.stopwatches[name := watch.(active := watch.active + 1)], reg.running[reg.nextSplit := name], reg.nextSplit + 1),
     Split(reg.nextSplit, name))
  }

  /**
   * StopwatchTemplate.stop: nothing for a null split or one already stopped; otherwise its
   * stopwatch has one split fewer active and one more counted, and the split no longer runs.
   */
  function StopSplit(reg: Registry, split: Option<Split>): (r: Registry)
    ensures Consistent(reg) ==> Consistent(r)
    ensures split.None? || split.value.id !in reg.running ==> r == reg
    ensures split.Some? && split.value.id in reg.running ==>
      var name := reg.running[split.value.id];
      && Lookup(r.stopwatches, name) == Lookup(reg.stopwatches, name).(active := Lookup(reg.stopwatches, name).active - 1,
                                                                      counter := Lookup(reg.stopwatches, name).counter + 1)
      && (forall n :: n != name ==> Lookup(r.stopwatches, n) == Lookup(reg.stopwatches, n))
      && r.running == reg.running - {split.value.id} && r.nextSplit == reg.nextSplit
  {
    if split.Some? && split.value.id in reg.running then
      var name := reg.running[split.value.id];
      var watch := Lookup(reg.stopwatches, name);
      reg.(stopwatches := reg.stopwatches[name := watch.(active := watch.active - 1, counter := watch.counter + 1)],
           running := reg.running - {split.value.id})
    else
      reg
  }

  /** A split is stopped at most once: stopping it again changes nothing. */
  lemma StopTwiceIsStopOnce(reg: Registry, split: Option<Split>)
    ensures StopSplit(StopSplit(reg, split), split) == StopSplit(reg, split)
  {
  }

  /**
   * A start followed by the stop of that split leaves the stopwatch with the same active count
   * and one more in its counter, and leaves the same splits running.
   */
  lemma StartThenStop(reg: Registry, name: string)
    requires Consistent(reg)
    ensures var (started, split) := StartSplit(reg, name);
      && Lookup(StopSplit(started, Some(split)).stopwatches, name) == Lookup(reg.stopwatches, name).(counter := Lookup(reg.stopwatches, name).counter + 1)
      && (forall n :: n != name ==> Lookup(StopSplit(started, Some(split)).stopwatches, n) == Lookup(reg.stopwatches, n))
      && StopSplit(started, Some(split)).running == reg.running
  {
    var (started, split) := StartSplit(reg, name);
    assert started.running[split.id] == name;
    assert started.running - {split.id} == reg.running;
  }

  /** The metrics manager; it is shared by every handler and factory of one configuration. */
  class Manager {
    var state: Registry

    constructor()
      ensures state == EmptyRegistry
    {
      state := EmptyRegistry;
    }

    /** getStopwatch(name).getNote() */
    function Note(name: string): Option<string>
      reads this
    {
      Lookup(state.stopwatches, name).note
    }

    /** getStopwatch(name).setNote(note) */
    method SetNote(name: string, note: string)
      modifies this
      ensures state == WithNote(old(state), name, note)
    {
      state := WithNote(state, name, note);
    }

    /** getStopwatch(name).start() */
    method Start(name: string) returns (split: Split)
      modifies this
      ensures (state, split) == StartSplit(old(state), name)
    {
      var watch := Lookup(state.stopwatches, name);
      split := Split(state.nextSplit, name);
      state := Registry(state.stopwatches[name := watch.(active := watch.active + 1)], state.running[state.nextSplit := name], state.nextSplit + 1);
    }

    /** StopwatchTemplate.stop(split) */
    method Stop(split: Option<Split>)
      modifies this
      ensures state == StopSplit(old(state), split)
    {
      if split.Some? && split.value.id in state.running {
        var name := state.running[split.value.id];
        var watch := Lookup(state.stopwatches, name);
        state := state.(stopwatches := state.stopwatches[name := watch.(active := watch.active - 1, counter := watch.counter + 1)],
                        running := state.running - {split.value.id});
      }
    }
  }
}
