/** The watcher base class of old/vcd/watcher.py. A watcher names the signals it is sensitive to
    and the signals it watches (qualified by a hierarchy), learns their ids from the parser once
    the definitions are read, and on each notification keeps the delivered values and drives
    its trackers. Its lists are per instance here (the class-level lists of the source are
    shared between instances; see README). */
module Watcher {
  import opened Wrappers
  import opened Signals
  import opened Lists
  import Parser
  import OldTracker

  /** Each tracker with its `finished` flag. */
  function Tagged(ts: seq<OldTracker.VcdTracker>): (r: seq<(OldTracker.VcdTracker, bool)>)
    reads set t | t in ts
    ensures |r| == |ts| && forall i :: 0 <= i < |ts| ==> r[i] == (ts[i], ts[i].finished)
  {
    if ts == [] then [] else [(ts[0], ts[0].finished)] + Tagged(ts[1..])
  }

  class VcdWatcher {
    var sensitive: seq<string>
    var watching: seq<string>
    var trackers: seq<OldTracker.VcdTracker>
    var defaultHierarchy: Option<string>
    var sensitiveIds: map<string, string>
    var watchingIds: map<string, string>
    var values: Option<map<string, Value>>
    var activity: Option<map<string, Value>>

    constructor ()
      ensures sensitive == [] && watching == [] && trackers == [] && defaultHierarchy == None
      ensures sensitiveIds == map[] && watchingIds == map[] && values == None && activity == None
    {
      sensitive, watching, trackers, defaultHierarchy := [], [], [], None;
      sensitiveIds, watchingIds, values, activity := map[], map[], None, None;
    }

    /** `set_hierarchy`. */
    method SetHierarchy(hierarchy: Option<string>)
      modifies this`defaultHierarchy
      ensures defaultHierarchy == hierarchy
    {
      defaultHierarchy := hierarchy;
    }

    /** The hierarchy `add_sensitive`/`add_watching` use: the explicit one unless it is None or
        empty, else the default one. */
    function Prefix(hierarchy: Option<string>): (h: Option<string>)
      reads this`defaultHierarchy
      ensures hierarchy.Some? && hierarchy.value != "" ==> h == hierarchy
      ensures hierarchy.None? || hierarchy.value == "" ==> h == defaultHierarchy
    {
      if hierarchy.Some? && hierarchy.value != "" then hierarchy else defaultHierarchy
    }

    /** `add_sensitive`: the qualified name joins both the sensitive and the watched list;
        with no hierarchy at all the source fails on `None + '.'`. */
    method AddSensitive(signal: string, hierarchy: Option<string>) returns (r: Result<(), Fault>)
      modifies this`sensitive, this`watching
      ensures Prefix(hierarchy).None? ==>
                r == Failure(NoHierarchy) && sensitive == old(sensitive) && watching == old(watching)
      ensures Prefix(hierarchy).Some? ==>
                r.Success? &&
                sensitive == old(sensitive) + [Qualify(Prefix(hierarchy).value, signal)] &&
                watching == old(watching) + [Qualify(Prefix(hierarchy).value, signal)]
    {
      var h := Prefix(hierarchy);
      if h.None? {
        return Failure(NoHierarchy);
      }
      sensitive := sensitive + [Qualify(h.value, signal)];
      watching := watching + [Qualify(h.value, signal)];
      r := Success(());
    }

    /** `add_watching`: the qualified name joins the watched list only. */
    method AddWatching(signal: string, hierarchy: Option<string>) returns (r: Result<(), Fault>)
      modifies this`watching
      ensures Prefix(hierarchy).None? ==> r == Failure(NoHierarchy) && watching == old(watching)
      ensures Prefix(hierarchy).Some? ==>
                r.Success? && watching == old(watching) + [Qualify(Prefix(hierarchy).value, signal)]
    {
      var h := Prefix(hierarchy);
      if h.None? {
        return Failure(NoHierarchy);
      }
      watching := watching + [Qualify(h.value, signal)];
      r := Success(());
    }

    /** `update_ids`: every sensitive and every watched name is mapped to the parser's `get_id`
        of it; a failing lookup leaves that table as it was, and the watched table is not built
        when the sensitive one failed. */
    method UpdateIds(parser: Parser.VcdParser) returns (r: Result<(), Parser.ParseError>)
      requires Parser.Declared(parser.idOrder, parser.references)
      modifies this`sensitiveIds, this`watchingIds
      ensures var s := parser.ResolveAll(sensitive);
        s.Failure? ==> r == Failure(s.error) && sensitiveIds == old(sensitiveIds) && watchingIds == old(watchingIds)
      ensures var s := parser.ResolveAll(sensitive);
        s.Success? ==> sensitiveIds == s.value
      ensures var s, w := parser.ResolveAll(sensitive), parser.ResolveAll(watching);
        s.Success? && w.Failure? ==> r == Failure(w.error) && watchingIds == old(watchingIds)
      ensures var s, w := parser.ResolveAll(sensitive), parser.ResolveAll(watching);
        s.Success? && w.Success? ==> r == Success(()) && watchingIds == w.value
    {
      var s := parser.ResolveAll(sensitive);
      if s.Failure? {
        return Failure(s.error);
      }
      sensitiveIds := s.value;
      var w := parser.ResolveAll(watching);
      if w.Failure? {
        return Failure(w.error);
      }
      watchingIds := w.value;
      r := Success(());
    }

    /** `get_id`. */
    function GetId(signal: string, hierarchy: Option<string>): Option<string>
      reads this`defaultHierarchy, this`watchingIds
    {
      ResolveName(hierarchy, defaultHierarchy, watchingIds, signal)
    }

    /** `get2val`: the 0/1 level of `signal` in the watched values last delivered; none when the
        name has no id or no delivered value, a fault on x/X/z/Z or a vector, and a fault when
        nothing has been delivered yet (the source tests membership in None). */
    function Get2Val(signal: string): (r: Result<Option<nat>, Fault>)
      reads this`defaultHierarchy, this`watchingIds, this`values
      ensures values.None? ==> r == Failure(NoSnapshot)
      ensures values.Some? ==> r == TwoVal(values.value, GetId(signal, None))
      ensures r.Success? && r.value.Some? ==>
                values.Some? && GetId(signal, None).Some? && GetId(signal, None).value in values.value &&
                values.value[GetId(signal, None).value] == Scalar(if r.value.value == 1 then '1' else '0')
    {
      if values.None? then Failure(NoSnapshot) else TwoVal(values.value, GetId(signal, None))
    }

    /** `get_active_2val`: as `get2val`, on the changed sensitive values of the step. */
    function GetActive2Val(signal: string): (r: Result<Option<nat>, Fault>)
      reads this`defaultHierarchy, this`watchingIds, this`activity
      ensures activity.None? ==> r == Failure(NoSnapshot)
      ensures activity.Some? ==> r == TwoVal(activity.value, GetId(signal, None))
      ensures r.Success? && r.value.Some? ==>
                activity.Some? && GetId(signal, None).Some? && GetId(signal, None).value in activity.value &&
                activity.value[GetId(signal, None).value] == Scalar(if r.value.value == 1 then '1' else '0')
    {
      if activity.None? then Failure(NoSnapshot) else TwoVal(activity.value, GetId(signal, None))
    }

    /** `notify`: the delivered values are kept first, then `update`, which in the base class
        is `manage_trackers`. */
    method Notify(a: map<string, Value>, v: map<string, Value>)
      modifies this`values, this`activity, this`trackers, set t | t in trackers
      ensures values == Some(v) && activity == Some(a)
      ensures forall t :: t in old(trackers) ==>
                t.triggerCount == old(t.triggerCount) + multiset(old(trackers))[t] &&
                t.activity == Some(a) && t.values == Some(v) && t.finished == old(t.finished)
      ensures trackers == Firsts(Sweep(Tagged(old(trackers)), 0))
    {
      values := Some(v);
      activity := Some(a);
      ManageTrackers();
    }

    /** `manage_trackers`: the base `start_tracker` is false, so no tracker is added; every
        tracker in the list is notified with the same values (twice if it is listed twice);
        then the finished ones are removed while the list is being walked. */
    method ManageTrackers()
      modifies this`trackers, set t | t in trackers
      ensures forall t :: t in old(trackers) ==>
                t.triggerCount == old(t.triggerCount) + multiset(old(trackers))[t] &&
                t.activity == activity && t.values == values && t.finished == old(t.finished)
      ensures trackers == Firsts(Sweep(Tagged(old(trackers)), 0))
      ensures forall t :: t in trackers ==> t in old(trackers)
      ensures forall t :: t in old(trackers) && !t.finished ==> t in trackers
    {
      NotifyTrackers();
      RemoveFinished();
    }

    /** The notifying loop of `manage_trackers`: each tracker in turn gets the values. */
    method NotifyTrackers()
      modifies set t | t in trackers
      ensures forall t :: t in trackers ==>
                t.triggerCount == old(t.triggerCount) + multiset(trackers)[t] &&
                t.activity == activity && t.values == values && t.finished == old(t.finished)
    {
      var ts := trackers;
      var i := 0;
      while i < |ts|
        invariant 0 <= i <= |ts|
        invariant forall t :: t in ts ==>
                    t.triggerCount == old(t.triggerCount) + multiset(ts[..i])[t] &&
                    t.finished == old(t.finished)
        invariant forall t :: t in ts[..i] ==> t.activity == activity && t.values == values
      {
        assert ts[..i + 1] == ts[..i] + [ts[i]];
        ts[i].Notify(activity, values);
        i := i + 1;
      }
      assert ts[..i] == ts;
    }

    /** The removing loop of `manage_trackers`: `list.remove` on each finished tracker met while
        the list is walked. */
    method RemoveFinished()
      modifies this`trackers
      ensures trackers == Firsts(Sweep(Tagged(old(trackers)), 0))
      ensures forall t :: t in trackers ==> t in old(trackers)
      ensures forall t :: t in old(trackers) && !t.finished ==> t in trackers
    {
      var tagged := Tagged(trackers);
      ghost var all := tagged;
      var j := 0;
      while j < |tagged|
        invariant Sweep(tagged, j) == Sweep(all, 0)
        decreases |tagged| - j
      {
        if tagged[j].1 {
          tagged := RemoveFirst(tagged, tagged[j]);
        }
        j := j + 1;
      }
      trackers := Firsts(tagged);
      SweepMembers(all);
      forall t | t in old(trackers) && !t.finished
        ensures (t, false) in all
      {
        var k :| 0 <= k < |old(trackers)| && old(trackers)[k] == t;
        assert all[k] == (t, false);
      }
      forall t | t in trackers
        ensures t in old(trackers)
      {
        var k :| 0 <= k < |Firsts(all)| && Firsts(all)[k] == t;
      }
    }
  }
}
