/** The abstract tracker class of vcd/tracker.py, used by vcdparse.py. As in the older tracker,
    a tracker counts the time steps it is told about and keeps the changed sensitive values
    (`activity`) and the watched values (`values`) it was last given; reading a name on it gives
    the signal's value when its watcher knows the name. Unlike the older class, `start` and
    `update` are abstract: the base versions raise, so a subclass must override both.

    The watcher of this package is represented by its table from full signal name to id: its
    `get_id` is a plain lookup of the full name in that table. */
module NewTracker {
  import opened Wrappers
  import opened Signals

  /** The attributes that never go through the watcher. */
  const Reserved: set<string> := {"parser", "watcher", "finished"}

  /** The watcher's `get_id` on a full name. */
  function IdOf(ids: map<string, string>, name: string): (r: Option<string>)
    ensures r.Some? <==> name in ids
    ensures r.Some? ==> r.value == ids[name]
  {
    if name in ids then Some(ids[name]) else None
  }

  /** `__getattribute__` of a tracker holding `values`, whose watcher has the id table `ids`:
      `parser`, `watcher` and `finished` are always the tracker's own attributes; any other name
      the watcher maps to a (non-empty) id reads that id in the values; any other name is the
      tracker's own attribute. */
  function Lookup(values: Option<map<string, Value>>, name: string, ids: map<string, string>): (r: Result<Member, Fault>)
    ensures name in Reserved ==> r == Success(OwnAttribute(name))
    ensures name !in Reserved && !IsSignalId(IdOf(ids, name)) ==> r == Success(OwnAttribute(name))
    ensures name !in Reserved && IsSignalId(IdOf(ids, name)) ==>
              (r.Success? <==> values.Some? && ids[name] in values.value) &&
              (r.Success? ==> r.value == SignalValue(values.value[ids[name]])) &&
              (values.None? ==> r == Failure(NoSnapshot)) &&
              (values.Some? && ids[name] !in values.value ==> r == Failure(MissingValue))
  {
    if name in Reserved then Success(OwnAttribute(name))
    else
      var id := IdOf(ids, name);
      if IsSignalId(id) then
        match Delivered(values, id.value)
        case Success(v) => Success(SignalValue(v))
        case Failure(e) => Failure(e)
      else Success(OwnAttribute(name))
  }

  class VcdTracker {
    var finished: bool
    var triggerCount: nat
    var activity: Option<map<string, Value>>
    var values: Option<map<string, Value>>

    /** The state `__init__` sets before it calls `start`: not finished, not triggered, no
        values held. */
    constructor ()
      ensures !finished && triggerCount == 0 && activity == None && values == None
    {
      finished, triggerCount, activity, values := false, 0, None, None;
    }

    /** The base `start` raises. */
    method Start() returns (r: Result<(), Fault>)
      ensures r == Failure(NotOverridden)
    {
      r := Failure(NotOverridden);
    }

    /** The base `update` raises. */
    method Update() returns (r: Result<(), Fault>)
      ensures r == Failure(NotOverridden)
    {
      r := Failure(NotOverridden);
    }

    /** `notify`: one more trigger and the given values are kept before `update` runs, so the
        base `update`'s fault comes after the new state is in place. */
    method Notify(a: Option<map<string, Value>>, v: Option<map<string, Value>>) returns (r: Result<(), Fault>)
      modifies this`triggerCount, this`activity, this`values
      ensures triggerCount == old(triggerCount) + 1
      ensures activity == a && values == v
      ensures r == Failure(NotOverridden)
    {
      triggerCount := triggerCount + 1;
      activity := a;
      values := v;
      r := Update();
    }
  }

  /** `VCDTracker(parser, watcher)`: the fields are set, then `start` runs and raises, so a
      base tracker cannot be constructed. */
  method Create() returns (r: Result<VcdTracker, Fault>)
    ensures r == Failure(NotOverridden)
  {
    var t := new VcdTracker();
    var started := t.Start();
    if started.Failure? {
      return Failure(started.error);
    }
    r := Success(t);
  }
}
