/** The transaction tracker base class of old/vcd/tracker.py. A tracker counts the time steps it
    is told about and keeps the last changed sensitive values (`activity`) and watched values
    (`values`) it was given; reading a name on it resolves the name through its watcher and
    gives the signal's value. The watcher is represented by the two things the lookup uses,
    its default hierarchy and its table from qualified name to id. */
module OldTracker {
  import opened Wrappers
  import opened Signals

  /** `__getattribute__` of a tracker holding `values`, whose watcher has the lookup `table`: `watcher` is always the tracker's own attribute; any
      other name the watcher resolves to a (non-empty) id reads that id in the values; a name
      it does not resolve is the tracker's own attribute. */
  function Lookup(values: Option<map<string, Value>>, name: string, table: WatcherTable): (r: Result<Member, Fault>)
    ensures name == "watcher" ==> r == Success(OwnAttribute(name))
    ensures name != "watcher" && !IsSignalId(ResolveName(None, table.hierarchy, table.watchingIds, name)) ==>
              r == Success(OwnAttribute(name))
    ensures r.Success? && r.value.SignalValue? ==>
              name != "watcher" && values.Some? &&
              exists id :: id in values.value && id in table.watchingIds.Values && r.value.value == values.value[id]
    ensures r.Failure? ==> r.error in {NoSnapshot, MissingValue}
    ensures var id := ResolveName(None, table.hierarchy, table.watchingIds, name);
              name != "watcher" && IsSignalId(id) ==>
                (r.Success? <==> values.Some? && id.value in values.value) &&
                (r.Success? ==> r.value == SignalValue(values.value[id.value])) &&
                (values.None? ==> r == Failure(NoSnapshot)) &&
                (values.Some? && id.value !in values.value ==> r == Failure(MissingValue))
  {
    if name == "watcher" then Success(OwnAttribute(name))
    else
      var id := ResolveName(None, table.hierarchy, table.watchingIds, name);
      if IsSignalId(id) then
        match Delivered(values, id.value)
        case Success(v) => Success(SignalValue(v))
        case Failure(e) => Failure(e)
      else Success(OwnAttribute(name))
  }

  class VcdTracker {
    var finished: bool
    var triggerCount: nat
    var activity: Option<map<string, Value>>
    var values: Option<map<string, Value>>

    /** A new tracker has not finished, has not been triggered and holds no values; the base
        `start` does nothing. */
    constructor ()
      ensures !finished && triggerCount == 0 && activity == None && values == None
    {
      finished, triggerCount, activity, values := false, 0, None, None;
    }

    /** `notify`: one more trigger, and the given values are kept; the base `update` does
        nothing, so nothing else changes. */
    method Notify(a: Option<map<string, Value>>, v: Option<map<string, Value>>)
      modifies this`triggerCount, this`activity, this`values
      ensures triggerCount == old(triggerCount) + 1
      ensures activity == a && values == v
      ensures finished == old(finished)
    {
      triggerCount := triggerCount + 1;
      activity := a;
      values := v;
    }
  }
}
