/** The node watcher and the AND-reduction tracker of old/vcd.py.

    The node watcher is the per-instance watcher base class of that file (its fields are those
    of `BaseWatcher`, which re-implements the watcher of old/vcd/watcher.py) with a reset/clock
    filter in front of its trackers: it starts out of reset, any change of reset to 0 puts it in
    reset, a change to 1 takes it out, and its trackers are driven only when the clock changed
    to 1 while it is out of reset.

    The tracker (the tracker base class of old/vcd/tracker.py with `configure` and `update`)
    ANDs its control signals in order and, when all are 1, emits the line
    `@<now> <interface>: <name>=0x<hex> ...` over its payload signals; the line is returned
    instead of printed. */
module OldNode {
  import opened Wrappers
  import opened Signals
  import opened Lists
  import Parser
  import OldTracker

  /** `eval(value) == 1` on a control value: '1' is asserted and '0' is not; x, X, z and Z
      name no Python variable, and a vector value is a tuple, which `eval` refuses. */
  function Asserted(v: Value): (r: Result<bool, Fault>)
    ensures r == Success(true) <==> v == Scalar('1')
    ensures r == Success(false) <==> v == Scalar('0')
    ensures r == Failure(NotScalar) <==> v.Vector?
    ensures r == Failure(UndefinedName) <==> v.Scalar? && IsUnknownSymbol(v.symbol)
  {
    match v
    case Scalar(c) => if IsUnknownSymbol(c) then Failure(UndefinedName) else Success(c == '1')
    case Vector(_, _) => Failure(NotScalar)
  }

  /** `getattr(tracker, name)` where a signal value is expected: a name that does not resolve to
      a signal reads the tracker's own attribute, which holds no signal value. */
  function SignalOf(values: Option<map<string, Value>>, name: string, table: WatcherTable): Result<Value, Fault> {
    match OldTracker.Lookup(values, name, table)
    case Failure(e) => Failure(e)
    case Success(SignalValue(v)) => Success(v)
    case Success(OwnAttribute(n)) => Failure(NotASignal(n))
  }

  /** The control `name` reads as 1. */
  predicate IsAsserted(values: Option<map<string, Value>>, name: string, table: WatcherTable) {
    SignalOf(values, name, table).Success? && Asserted(SignalOf(values, name, table).value) == Success(true)
  }

  /** The control `name` reads as 0. */
  predicate IsDeasserted(values: Option<map<string, Value>>, name: string, table: WatcherTable) {
    SignalOf(values, name, table).Success? && Asserted(SignalOf(values, name, table).value) == Success(false)
  }

  /** The AND of the controls, read in order: false at the first control that is not 1, a fault
      at a control that cannot be read or decoded before that. */
  function AndReduce(values: Option<map<string, Value>>, controls: seq<string>, table: WatcherTable): Result<bool, Fault>
    decreases |controls|
  {
    if controls == [] then Success(true)
    else match SignalOf(values, controls[0], table)
      case Failure(e) => Failure(e)
      case Success(v) =>
        match Asserted(v)
        case Failure(e) => Failure(e)
        case Success(false) => Success(false)
        case Success(true) => AndReduce(values, controls[1..], table)
  }

  /** The AND is true exactly when every control reads as 1. */
  lemma {:induction false} AndReduceTrue(values: Option<map<string, Value>>, controls: seq<string>, table: WatcherTable)
    ensures AndReduce(values, controls, table) == Success(true) <==>
              forall i :: 0 <= i < |controls| ==> IsAsserted(values, controls[i], table)
    decreases |controls|
  {
    if controls != [] {
      AndReduceTrue(values, controls[1..], table);
      assert forall i :: 1 <= i < |controls| ==> controls[i] == controls[1..][i - 1];
    }
  }

  /** Control `k` is the first that is not 1, and it reads 0. */
  predicate FirstZeroAt(values: Option<map<string, Value>>, controls: seq<string>, table: WatcherTable, k: int) {
    0 <= k < |controls| && IsDeasserted(values, controls[k], table) &&
    forall j :: 0 <= j < k ==> IsAsserted(values, controls[j], table)
  }

  /** The AND is false exactly when some control reads 0 and every control before it reads
      1: it stops at the first control that is not 1. */
  lemma AndReduceFalse(values: Option<map<string, Value>>, controls: seq<string>, table: WatcherTable)
    ensures AndReduce(values, controls, table) == Success(false) <==> exists k :: FirstZeroAt(values, controls, table, k)
  {
    if AndReduce(values, controls, table) == Success(false) {
      AndReduceFalseStops(values, controls, table);
    }
    if exists k :: FirstZeroAt(values, controls, table, k) {
      var k :| FirstZeroAt(values, controls, table, k);
      FirstZeroFalse(values, controls, table, k);
    }
  }

  /** A false AND has stopped at a control that reads 0. */
  lemma {:induction false} AndReduceFalseStops(values: Option<map<string, Value>>, controls: seq<string>, table: WatcherTable)
    requires AndReduce(values, controls, table) == Success(false)
    ensures exists k :: FirstZeroAt(values, controls, table, k)
    decreases |controls|
  {
    var tail := controls[1..];
    if IsDeasserted(values, controls[0], table) {
      assert FirstZeroAt(values, controls, table, 0);
    } else {
      AndReduceFalseStops(values, tail, table);
      var k :| FirstZeroAt(values, tail, table, k);
      assert FirstZeroAt(values, controls, table, k + 1) by {
        forall j | 0 <= j < k + 1
          ensures IsAsserted(values, controls[j], table)
        {
          if j > 0 {
            assert controls[j] == tail[j - 1];
          }
        }
      }
    }
  }

  /** A control that reads 0 after controls that read 1 makes the AND false. */
  lemma {:induction false} FirstZeroFalse(values: Option<map<string, Value>>, controls: seq<string>, table: WatcherTable, k: int)
    requires FirstZeroAt(values, controls, table, k)
    ensures AndReduce(values, controls, table) == Success(false)
    decreases k
  {
    if k > 0 {
      var tail := controls[1..];
      assert FirstZeroAt(values, tail, table, k - 1) by {
        forall j | 0 <= j < k - 1
          ensures IsAsserted(values, tail[j], table)
        {
          assert tail[j] == controls[j + 1];
        }
      }
      FirstZeroFalse(values, tail, table, k - 1);
    }
  }

  /** The payload part of an emitted line: `name=0x<hex> ` per payload signal, in order; a
      signal that cannot be read or decoded stops it. */
  function Payload(values: Option<map<string, Value>>, payload: seq<string>, table: WatcherTable): Result<string, Fault>
    decreases |payload|
  {
    if payload == [] then Success("")
    else match Payload(values, payload[..|payload| - 1], table)
      case Failure(e) => Failure(e)
      case Success(fields) =>
        var name := payload[|payload| - 1];
        match SignalOf(values, name, table)
        case Failure(e) => Failure(e)
        case Success(v) =>
          match V2D(v)
          case None => Failure(Undecodable)
          case Some(n) => Success(fields + Field(name, n))
  }

  /** One more payload signal after a prefix that was rendered. */
  lemma PayloadStep(values: Option<map<string, Value>>, payload: seq<string>, j: nat, table: WatcherTable)
    requires j < |payload| && Payload(values, payload[..j], table).Success?
    ensures var name, fields := payload[j], Payload(values, payload[..j], table).value;
      Payload(values, payload[..j + 1], table) ==
        match SignalOf(values, name, table)
        case Failure(e) => Failure(e)
        case Success(v) => if V2D(v).None? then Failure(Undecodable) else Success(fields + Field(name, V2D(v).value))
  {
    assert payload[..j + 1][..j] == payload[..j];
  }

  /** A payload signal that fails stops the line: every longer payload fails the same way. */
  lemma {:induction false} PayloadFailureStays(values: Option<map<string, Value>>, payload: seq<string>, k: nat,
                                              table: WatcherTable)
    requires k <= |payload| && Payload(values, payload[..k], table).Failure?
    ensures Payload(values, payload, table) == Payload(values, payload[..k], table)
    decreases |payload| - k
  {
    if k < |payload| {
      assert payload[..k + 1][..k] == payload[..k];
      PayloadFailureStays(values, payload, k + 1, table);
    } else {
      assert payload[..k] == payload;
    }
  }

  /** The payload part is built exactly when every payload signal reads a value the decoder
      accepts. */
  lemma {:induction false} PayloadSucceeds(values: Option<map<string, Value>>, payload: seq<string>, table: WatcherTable)
    ensures Payload(values, payload, table).Success? <==>
              forall i :: 0 <= i < |payload| ==>
                SignalOf(values, payload[i], table).Success? && V2D(SignalOf(values, payload[i], table).value).Some?
    decreases |payload|
  {
    if payload != [] {
      var init := payload[..|payload| - 1];
      PayloadSucceeds(values, init, table);
      assert forall i :: 0 <= i < |init| ==> init[i] == payload[i];
    }
  }

  /** What `configure` sets on a tracker: the interface name, the control signals ANDed
      together and the payload signals printed, in order. */
  datatype Config = Config(intf: string, control: seq<string>, payload: seq<string>)

  /** What `update` gives with configuration `config` on the delivered values `v`: nothing
      with no controls or when a control reads 0 before any fault, otherwise the line over the
      payload. An unconfigured tracker has no `control` attribute. */
  function Outcome(config: Option<Config>, v: Option<map<string, Value>>, now: string, table: WatcherTable)
    : Result<Option<string>, Fault>
  {
    match config
    case None => Failure(NotASignal("control"))
    case Some(c) =>
      if c.control == [] then Success(None)
      else match AndReduce(v, c.control, table)
        case Failure(e) => Failure(e)
        case Success(false) => Success(None)
        case Success(true) =>
          match Payload(v, c.payload, table)
          case Failure(e) => Failure(e)
          case Success(fields) => Success(Some(Line(now, c.intf, fields)))
  }

  /** A line is emitted exactly when the tracker is configured with at least one control,
      every control reads 1 and every payload signal decodes; the line carries the time, the
      interface name and the fields of the payload signals in order. */
  lemma OutcomeEmits(config: Option<Config>, v: Option<map<string, Value>>, now: string, table: WatcherTable)
    ensures var r := Outcome(config, v, now, table);
      r.Success? && r.value.Some? <==>
        config.Some? && config.value.control != [] &&
        (forall i :: 0 <= i < |config.value.control| ==> IsAsserted(v, config.value.control[i], table)) &&
        (forall i :: 0 <= i < |config.value.payload| ==>
           SignalOf(v, config.value.payload[i], table).Success? &&
           V2D(SignalOf(v, config.value.payload[i], table).value).Some?)
    ensures var r := Outcome(config, v, now, table);
      r.Success? && r.value.Some? ==>
        r.value.value == Line(now, config.value.intf, Payload(v, config.value.payload, table).value)
  {
    if config.Some? {
      AndReduceTrue(v, config.value.control, table);
      PayloadSucceeds(v, config.value.payload, table);
    }
  }

  /** Nothing is emitted, and nothing fails, when some control reads 0 and all before it
      read 1, whatever the payload signals hold. */
  lemma OutcomeSilent(c: Config, v: Option<map<string, Value>>, now: string, table: WatcherTable, k: nat)
    requires FirstZeroAt(v, c.control, table, k)
    ensures Outcome(Some(c), v, now, table) == Success(None)
  {
    AndReduceFalse(v, c.control, table);
  }

  class NodeTracker {
    var finished: bool
    var triggerCount: nat
    var activity: Option<map<string, Value>>
    var values: Option<map<string, Value>>
    /** None until `configure` has run. */
    var config: Option<Config>

    constructor ()
      ensures !finished && triggerCount == 0 && activity == None && values == None && config == None
    {
      finished, triggerCount, activity, values, config := false, 0, None, None, None;
    }

    /** `configure`: the interface name, then fresh control and payload lists extended with
        the given names. */
    method Configure(name: string, controls: seq<string>, payloads: seq<string>)
      modifies this`config
      ensures config == Some(Config(name, controls, payloads))
    {
      config := Some(Config(name, [], []));
      assert [] + controls == controls && [] + payloads == payloads;
      var _ := AddControl(controls);
      var _ := AddPayload(payloads);
    }

    /** `add_control`: the names are appended, in order; before `configure` there is no list to
        extend. */
    method AddControl(signals: seq<string>) returns (r: Result<(), Fault>)
      modifies this`config
      ensures old(config).None? ==> r == Failure(NotASignal("control")) && config == None
      ensures old(config).Some? ==>
                r.Success? && config == Some(old(config).value.(control := old(config).value.control + signals))
    {
      if config.None? {
        return Failure(NotASignal("control"));
      }
      config := Some(config.value.(control := config.value.control + signals));
      r := Success(());
    }

    /** `add_payload`: the names are appended, in order; before `configure` there is no list to
        extend. */
    method AddPayload(signals: seq<string>) returns (r: Result<(), Fault>)
      modifies this`config
      ensures old(config).None? ==> r == Failure(NotASignal("payload")) && config == None
      ensures old(config).Some? ==>
                r.Success? && config == Some(old(config).value.(payload := old(config).value.payload + signals))
    {
      if config.None? {
        return Failure(NotASignal("payload"));
      }
      config := Some(config.value.(payload := config.value.payload + signals));
      r := Success(());
    }

    /** The line of `update` for configuration `c`: the time and interface, then one field per
        payload signal read from the values held. */
    method Dump(c: Config, now: string, table: WatcherTable) returns (r: Result<string, Fault>)
      ensures r.Success? <==> Payload(values, c.payload, table).Success?
      ensures r.Success? ==> r.value == Line(now, c.intf, Payload(values, c.payload, table).value)
      ensures r.Failure? ==> r.error == Payload(values, c.payload, table).error
    {
      var payload := c.payload;
      var fields := "";
      var j := 0;
      while j < |payload|
        invariant 0 <= j <= |payload|
        invariant Payload(values, payload[..j], table) == Success(fields)
      {
        var name := payload[j];
        PayloadStep(values, payload, j, table);
        var pv := SignalOf(values, name, table);
        if pv.Failure? {
          PayloadFailureStays(values, payload, j + 1, table);
          return Failure(pv.error);
        }
        var n := V2D(pv.value);
        if n.None? {
          PayloadFailureStays(values, payload, j + 1, table);
          return Failure(Undecodable);
        }
        fields := fields + Field(name, n.value);
        j := j + 1;
      }
      assert payload[..j] == payload;
      r := Success(Line(now, c.intf, fields));
    }

    /** `update`: counts the controls that read 1, returning at the first that does not; when
        the count reaches the number of controls the line is built. */
    method Update(now: string, table: WatcherTable) returns (r: Result<Option<string>, Fault>)
      ensures r == Outcome(config, values, now, table)
    {
      if config.None? {
        return Failure(NotASignal("control"));
      }
      var c := config.value;
      var count := 0;
      for i := 0 to |c.control|
        invariant count == i
        invariant i == |c.control| ==> c.control == []
        invariant AndReduce(values, c.control, table) == AndReduce(values, c.control[i..], table)
      {
        assert c.control[i..][0] == c.control[i] && c.control[i..][1..] == c.control[i + 1..];
        var v := SignalOf(values, c.control[i], table);
        if v.Failure? {
          return Failure(v.error);
        }
        var level := Asserted(v.value);
        if level.Failure? {
          return Failure(level.error);
        }
        if level.value {
          count := count + 1;
        } else {
          return Success(None);
        }
        if count == |c.control| {
          assert c.control[i + 1..] == [];
          var dump := Dump(c, now, table);
          if dump.Failure? {
            return Failure(dump.error);
          }
          return Success(Some(dump.value));
        }
      }
      return Success(None);
    }

    /** `notify`: one more trigger, the given values are kept, then `update` runs on them. */
    method Notify(a: Option<map<string, Value>>, v: Option<map<string, Value>>, now: string, table: WatcherTable)
      returns (r: Result<Option<string>, Fault>)
      modifies this`triggerCount, this`activity, this`values
      ensures triggerCount == old(triggerCount) + 1
      ensures activity == a && values == v
      ensures r == Outcome(config, v, now, table)
    {
      triggerCount := triggerCount + 1;
      activity := a;
      values := v;
      r := Update(now, table);
    }
  }

  /** Each tracker with its `finished` flag. */
  function Tagged(ts: seq<NodeTracker>): (r: seq<(NodeTracker, bool)>)
    reads ts`finished
    ensures |r| == |ts| && forall i :: 0 <= i < |ts| ==> r[i] == (ts[i], ts[i].finished)
  {
    if ts == [] then [] else [(ts[0], ts[0].finished)] + Tagged(ts[1..])
  }

  /** The configuration of each tracker. */
  function Configs(ts: seq<NodeTracker>): (r: seq<Option<Config>>)
    reads ts`config
    ensures |r| == |ts| && forall i :: 0 <= i < |ts| ==> r[i] == ts[i].config
  {
    if ts == [] then [] else [ts[0].config] + Configs(ts[1..])
  }

  /** The trigger count of each tracker. */
  function Counts(ts: seq<NodeTracker>): (r: map<NodeTracker, nat>)
    reads ts`triggerCount
    ensures r.Keys == set t | t in ts
    ensures forall t :: t in ts ==> r[t] == t.triggerCount
  {
    map t | t in ts :: t.triggerCount
  }

  /** The trackers `ts[..i]` have been notified with `act` and `vs`: each tracker's count has
      gone up from `base` by the number of times it is listed there. */
  ghost predicate Fed(ts: seq<NodeTracker>, i: nat, base: map<NodeTracker, nat>, act: Option<map<string, Value>>,
                      vs: Option<map<string, Value>>)
    requires i <= |ts|
    reads ts`triggerCount, ts`activity, ts`values
  {
    forall t :: t in ts ==>
      t in base && t.triggerCount == base[t] + multiset(ts[..i])[t] &&
      (t in ts[..i] ==> t.activity == act && t.values == vs)
  }

  /** Once the whole list has been notified, each tracker has been triggered once per listing,
      and every tracker holds the delivered values. */
  lemma FedAll(ts: seq<NodeTracker>, base: map<NodeTracker, nat>, act: Option<map<string, Value>>,
               vs: Option<map<string, Value>>)
    requires Fed(ts, |ts|, base, act, vs)
    ensures forall t :: t in ts ==>
              t in base && t.triggerCount == base[t] + multiset(ts)[t] && t.activity == act && t.values == vs
  {
    assert ts[..|ts|] == ts;
  }

  /** One turn of the notifying loop of `manage_trackers`: `ts[i]` gets the values, and its
      result joins the results of the trackers before it. */
  method NotifyAt(t: NodeTracker, ts: seq<NodeTracker>, i: nat, ghost base: map<NodeTracker, nat>,
                  act: Option<map<string, Value>>, vs: Option<map<string, Value>>, now: string,
                  table: WatcherTable, ghost outs: seq<Result<Option<string>, Fault>>, lines: seq<string>)
    returns (r: Result<seq<string>, Fault>)
    requires i < |ts| && ts[i] == t && i < |outs| && outs[i] == Outcome(t.config, vs, now, table)
    requires Fed(ts, i, base, act, vs) && Collect(outs[..i]) == Success(lines)
    modifies t`triggerCount, t`activity, t`values
    ensures Fed(ts, i + 1, base, act, vs)
    ensures r.Success? ==> r == Collect(outs[..i + 1])
    ensures r.Failure? ==> outs[i].Failure? && r == Failure(outs[i].error)
  {
    var emitted := FeedAt(t, ts, i, base, act, vs, now, table);
    if emitted.Failure? {
      return Failure(emitted.error);
    }
    CollectExtend(outs, i, lines);
    r := Success(if emitted.value.Some? then lines + [emitted.value.value] else lines);
  }

  /** `ts[i]` is notified: it is counted, it keeps the values, and its `update` result is
      returned. */
  method FeedAt(t: NodeTracker, ts: seq<NodeTracker>, i: nat, ghost base: map<NodeTracker, nat>,
                act: Option<map<string, Value>>, vs: Option<map<string, Value>>, now: string, table: WatcherTable)
    returns (emitted: Result<Option<string>, Fault>)
    requires i < |ts| && ts[i] == t && Fed(ts, i, base, act, vs)
    modifies t`triggerCount, t`activity, t`values
    ensures Fed(ts, i + 1, base, act, vs)
    ensures emitted == Outcome(t.config, vs, now, table)
  {
    emitted := t.Notify(act, vs, now, table);
    assert ts[..i + 1] == ts[..i] + [t];
  }

  /** What each tracker's `update` gives on the delivered values `v`. */
  function Outcomes(cs: seq<Option<Config>>, v: Option<map<string, Value>>, now: string, table: WatcherTable)
    : seq<Result<Option<string>, Fault>>
  {
    seq(|cs|, i requires 0 <= i < |cs| => Outcome(cs[i], v, now, table))
  }

  /** The lines of successive `update` results, in order; the first fault stops them. */
  function Collect(outs: seq<Result<Option<string>, Fault>>): Result<seq<string>, Fault>
    decreases |outs|
  {
    if outs == [] then Success([])
    else match Collect(outs[..|outs| - 1])
      case Failure(e) => Failure(e)
      case Success(lines) =>
        match outs[|outs| - 1]
        case Failure(e) => Failure(e)
        case Success(None) => Success(lines)
        case Success(Some(line)) => Success(lines + [line])
  }

  /** The lines trackers with configurations `cs` emit when each is updated, in list order,
      with the delivered values `v`. */
  function Lines(cs: seq<Option<Config>>, v: Option<map<string, Value>>, now: string, table: WatcherTable)
    : Result<seq<string>, Fault>
  {
    Collect(Outcomes(cs, v, now, table))
  }

  /** One more result that is not a fault adds its line, if any, to those before it. */
  lemma CollectExtend(outs: seq<Result<Option<string>, Fault>>, i: nat, lines: seq<string>)
    requires i < |outs| && Collect(outs[..i]) == Success(lines) && outs[i].Success?
    ensures Collect(outs[..i + 1]) == Success(if outs[i].value.Some? then lines + [outs[i].value.value] else lines)
  {
    assert outs[..i + 1][..i] == outs[..i];
  }

  /** A fault stops the collection: every longer list fails the same way. */
  lemma {:induction false} CollectFailureStays(outs: seq<Result<Option<string>, Fault>>, k: nat)
    requires k <= |outs| && Collect(outs[..k]).Failure?
    ensures Collect(outs) == Collect(outs[..k])
    decreases |outs| - k
  {
    if k < |outs| {
      assert outs[..k + 1][..k] == outs[..k];
      CollectFailureStays(outs, k + 1);
    } else {
      assert outs[..k] == outs;
    }
  }

  /** The first fault is the fault of the whole collection. */
  lemma CollectStop(outs: seq<Result<Option<string>, Fault>>, i: nat)
    requires i < |outs| && Collect(outs[..i]).Success? && outs[i].Failure?
    ensures Collect(outs) == Failure(outs[i].error)
  {
    assert outs[..i + 1][..i] == outs[..i];
    CollectFailureStays(outs, i + 1);
  }

  /** The collection succeeds exactly when no result is a fault. */
  lemma {:induction false} CollectSucceeds(outs: seq<Result<Option<string>, Fault>>)
    ensures Collect(outs).Success? <==> forall i :: 0 <= i < |outs| ==> outs[i].Success?
    decreases |outs|
  {
    if outs != [] {
      var init := outs[..|outs| - 1];
      CollectSucceeds(init);
      assert forall i :: 0 <= i < |init| ==> init[i] == outs[i];
    }
  }

  /** A successful collection has at most one line per result. */
  lemma {:induction false} CollectAtMostOneEach(outs: seq<Result<Option<string>, Fault>>)
    requires Collect(outs).Success?
    ensures |Collect(outs).value| <= |outs|
    decreases |outs|
  {
    if outs != [] {
      CollectAtMostOneEach(outs[..|outs| - 1]);
    }
  }

  /** Each collected line is the line of one of the results. */
  lemma {:induction false} CollectFromResults(outs: seq<Result<Option<string>, Fault>>)
    requires Collect(outs).Success?
    ensures forall l :: l in Collect(outs).value ==> exists i :: 0 <= i < |outs| && outs[i] == Success(Some(l))
    decreases |outs|
  {
    if outs != [] {
      var init := outs[..|outs| - 1];
      CollectFromResults(init);
      forall l | l in Collect(outs).value
        ensures exists i :: 0 <= i < |outs| && outs[i] == Success(Some(l))
      {
        if l in Collect(init).value {
          var i :| 0 <= i < |init| && init[i] == Success(Some(l));
          assert outs[i] == init[i];
        } else {
          assert outs[|outs| - 1] == Success(Some(l));
        }
      }
    }
  }

  /** In a successful collection the line of every result that has one is collected. */
  lemma {:induction false} ResultsInCollect(outs: seq<Result<Option<string>, Fault>>)
    requires Collect(outs).Success?
    ensures forall i :: 0 <= i < |outs| && outs[i].Success? && outs[i].value.Some? ==>
              outs[i].value.value in Collect(outs).value
    decreases |outs|
  {
    if outs != [] {
      var init := outs[..|outs| - 1];
      ResultsInCollect(init);
      assert forall i :: 0 <= i < |init| ==> init[i] == outs[i];
    }
  }

  /** `NodeWatcher.update`'s filter over the decoded reset and clock changes (none when that
      signal did not change): a change of reset to 0 enters reset and stops; a change to 1
      leaves reset; the trackers are driven when the clock changed to 1 and the watcher is out
      of reset, after the reset change of the same step has been applied. */
  function OldGate(inReset: bool, reset: Result<Option<nat>, Fault>, clock: Result<Option<nat>, Fault>): (g: Gating)
    ensures reset.Failure? ==> g == Gating(inReset, Failure(reset.error))
    ensures reset.Success? && reset.value.Some? && !Truthy(reset.value) ==> g == Gating(true, Success(false))
    ensures reset.Success? && Truthy(reset.value) ==> !g.inReset
    ensures reset == Success(None) ==> g.inReset == inReset
    ensures g.drive == Success(true) <==>
              reset.Success? && (reset.value.None? || Truthy(reset.value)) && clock.Success? && Truthy(clock.value) &&
              !g.inReset
    ensures g.drive.Failure? && reset.Success? ==> clock.Failure? && g.drive.error == clock.error
    ensures reset.Success? && (reset.value.None? || Truthy(reset.value)) && clock.Failure? ==>
              g.drive == Failure(clock.error)
  {
    match reset
    case Failure(e) => Gating(inReset, Failure(e))
    case Success(level) =>
      if level.Some? && !Truthy(level) then Gating(true, Success(false))
      else
        var stillInReset := if Truthy(level) && inReset then false else inReset;
        match clock
        case Failure(e) => Gating(stillInReset, Failure(e))
        case Success(c) => Gating(stillInReset, Success(Truthy(c) && !stillInReset))
  }

  /** Out of reset, the step that raises reset and the clock together drives the trackers. */
  lemma ReleaseAndClockDrive(inReset: bool)
    ensures OldGate(inReset, Success(Some(1)), Success(Some(1))) == Gating(false, Success(true))
  {
  }

  class NodeWatcher {
    var sensitive: seq<string>
    var watching: seq<string>
    var trackers: seq<NodeTracker>
    var defaultHierarchy: Option<string>
    var sensitiveIds: map<string, string>
    var watchingIds: map<string, string>
    var values: Option<map<string, Value>>
    var activity: Option<map<string, Value>>
    var inReset: bool

    /** A new node watcher has empty lists, the given default hierarchy, and is out of reset. */
    constructor (hierarchy: Option<string>)
      ensures sensitive == [] && watching == [] && trackers == [] && defaultHierarchy == hierarchy
      ensures sensitiveIds == map[] && watchingIds == map[] && values == None && activity == None
      ensures !inReset
    {
      sensitive, watching, trackers, defaultHierarchy := [], [], [], hierarchy;
      sensitiveIds, watchingIds, values, activity := map[], map[], None, None;
      inReset := false;
    }

    /** What the trackers' name lookups use. */
    function Table(): WatcherTable
      reads this`defaultHierarchy, this`watchingIds
    {
      WatcherTable(defaultHierarchy, watchingIds)
    }

    /** The hierarchy `add_sensitive`/`add_watching` use: the explicit one unless it is None or
        empty, else the default one. */
    function Prefix(hierarchy: Option<string>): (h: Option<string>)
      reads this`defaultHierarchy
      ensures hierarchy.Some? && hierarchy.value != "" ==> h == hierarchy
      ensures hierarchy.None? || hierarchy.value == "" ==> h == defaultHierarchy
    {
      if hierarchy.Some? && hierarchy.value != "" then hierarchy else defaultHierarchy
    }

    /** `add_sensitive`: the qualified name joins both lists. */
    method AddSensitive(signal: string, hierarchy: Option<string>) returns (r: Result<(), Fault>)
      modifies this`sensitive, this`watching
      ensures Prefix(hierarchy).None? ==>
                r == Failure(NoHierarchy) && sensitive == old(sensitive) && watching == old(watching)
      ensures Prefix(hierarchy).Some? ==>
                r.Success? &&
                sensitive == old(sensitive) + [Qualify(Prefix(hierarchy).value, signal)] &&
                watching == old(watching) + [Qualify(Prefix(hierarchy).value, signal)]
    {
      var h := Prefix(hierarchy);
      if h.None? {
        return Failure(NoHierarchy);
      }
      sensitive := sensitive + [Qualify(h.value, signal)];
      watching := watching + [Qualify(h.value, signal)];
      r := Success(());
    }

    /** `add_watching`: the qualified name joins the watched list only. */
    method AddWatching(signal: string, hierarchy: Option<string>) returns (r: Result<(), Fault>)
      modifies this`watching
      ensures Prefix(hierarchy).None? ==> r == Failure(NoHierarchy) && watching == old(watching)
      ensures Prefix(hierarchy).Some? ==>
                r.Success? && watching == old(watching) + [Qualify(Prefix(hierarchy).value, signal)]
    {
      var h := Prefix(hierarchy);
      if h.None? {
        return Failure(NoHierarchy);
      }
      watching := watching + [Qualify(h.value, signal)];
      r := Success(());
    }

    /** `add_signals`: clock and reset become sensitive (and watched), then every given signal
        is watched, in order, all under the default hierarchy. */
    method AddSignals(signals: seq<string>) returns (r: Result<(), Fault>)
      modifies this`sensitive, this`watching
      ensures defaultHierarchy.None? ==>
                r == Failure(NoHierarchy) && sensitive == old(sensitive) && watching == old(watching)
      ensures defaultHierarchy.Some? ==>
                var h := defaultHierarchy.value;
                r.Success? &&
                sensitive == old(sensitive) + [Qualify(h, "i_clk"), Qualify(h, "i_reset_n")] &&
                watching == old(watching) + [Qualify(h, "i_clk"), Qualify(h, "i_reset_n")] + QualifyAll(h, signals)
    {
      r := AddSensitive("i_clk", None);
      if r.Failure? {
        return;
      }
      r := AddSensitive("i_reset_n", None);
      r := WatchAll(signals);
    }

    /** The loop of `add_signals`: every given signal is watched, in order. */
    method WatchAll(signals: seq<string>) returns (r: Result<(), Fault>)
      requires defaultHierarchy.Some?
      modifies this`watching
      ensures r.Success? && watching == old(watching) + QualifyAll(defaultHierarchy.value, signals)
    {
      r := Success(());
      var h := defaultHierarchy.value;
      for i := 0 to |signals|
        invariant r.Success? && watching == old(watching) + QualifyAll(h, signals[..i])
      {
        assert QualifyAll(h, signals[..i + 1]) == QualifyAll(h, signals[..i]) + [Qualify(h, signals[i])];
        r := AddWatching(signals[i], None);
      }
      assert signals[..|signals|] == signals;
    }

    /** `register_tracker`: the tracker joins the end of the list. */
    method RegisterTracker(t: NodeTracker)
      modifies this`trackers
      ensures trackers == old(trackers) + [t]
    {
      trackers := trackers + [t];
    }

    /** `update_ids`, as for the watcher base class. */
    method UpdateIds(parser: Parser.VcdParser) returns (r: Result<(), Parser.ParseError>)
      requires Parser.Declared(parser.idOrder, parser.references)
      modifies this`sensitiveIds, this`watchingIds
      ensures var s := parser.ResolveAll(sensitive);
        s.Failure? ==> r == Failure(s.error) && sensitiveIds == old(sensitiveIds) && watchingIds == old(watchingIds)
      ensures var s := parser.ResolveAll(sensitive);
        s.Success? ==> sensitiveIds == s.value
      ensures var s, w := parser.ResolveAll(sensitive), parser.ResolveAll(watching);
        s.Success? && w.Failure? ==> r == Failure(w.error) && watchingIds == old(watchingIds)
      ensures var s, w := parser.ResolveAll(sensitive), parser.ResolveAll(watching);
        s.Success? && w.Success? ==> r == Success(()) && watchingIds == w.value
    {
      var s := parser.ResolveAll(sensitive);
      if s.Failure? {
        return Failure(s.error);
      }
      sensitiveIds := s.value;
      var w := parser.ResolveAll(watching);
      if w.Failure? {
        return Failure(w.error);
      }
      watchingIds := w.value;
      r := Success(());
    }

    /** `get_id`. */
    function GetId(signal: string, hierarchy: Option<string>): Option<string>
      reads this`defaultHierarchy, this`watchingIds
    {
      ResolveName(hierarchy, defaultHierarchy, watchingIds, signal)
    }

    /** `get2val`: the 0/1 level of `signal` in the watched values last delivered. */
    function Get2Val(signal: string): (r: Result<Option<nat>, Fault>)
      reads this`defaultHierarchy, this`watchingIds, this`values
      ensures values.None? ==> r == Failure(NoSnapshot)
      ensures values.Some? ==> r == TwoVal(values.value, GetId(signal, None))
    {
      if values.None? then Failure(NoSnapshot) else TwoVal(values.value, GetId(signal, None))
    }

    /** `get_active_2val`: the 0/1 level of `signal` among the changed sensitive values. */
    function GetActive2Val(signal: string): (r: Result<Option<nat>, Fault>)
      reads this`defaultHierarchy, this`watchingIds, this`activity
      ensures activity.None? ==> r == Failure(NoSnapshot)
      ensures activity.Some? ==> r == TwoVal(activity.value, GetId(signal, None))
    {
      if activity.None? then Failure(NoSnapshot) else TwoVal(activity.value, GetId(signal, None))
    }

    /** `notify`: the delivered values are kept, then the node watcher's `update` runs. */
    method Notify(a: map<string, Value>, v: map<string, Value>, now: string) returns (r: Result<seq<string>, Fault>)
      modifies this`values, this`activity, this`inReset, this`trackers
      modifies trackers`triggerCount, trackers`activity, trackers`values
      ensures values == Some(v) && activity == Some(a)
      ensures var g := OldGate(old(inReset), GetActive2Val("i_reset_n"), GetActive2Val("i_clk"));
        inReset == g.inReset &&
        (g.drive.Failure? ==> r == Failure(g.drive.error) && trackers == old(trackers)) &&
        (g.drive == Success(false) ==> r == Success([]) && trackers == old(trackers)) &&
        (g.drive == Success(true) ==> r == Lines(old(Configs(trackers)), values, now, Table()))
      // undriven, no tracker is notified
      ensures var g := OldGate(old(inReset), GetActive2Val("i_reset_n"), GetActive2Val("i_clk"));
        g.drive != Success(true) ==>
          forall t :: t in old(trackers) ==>
            t.triggerCount == old(t.triggerCount) && t.activity == old(t.activity) && t.values == old(t.values)
      ensures var g := OldGate(old(inReset), GetActive2Val("i_reset_n"), GetActive2Val("i_clk"));
        g.drive == Success(true) ==>
          (r.Success? ==> Fed(old(trackers), |old(trackers)|, old(Counts(trackers)), activity, values) &&
                          trackers == Firsts(Sweep(Tagged(old(trackers)), 0))) &&
          (r.Failure? ==> trackers == old(trackers))
    {
      Deliver(a, v);
      r := Update(now);
    }

    /** The first half of `notify`: the delivered values are kept; the trackers are not touched. */
    method Deliver(a: map<string, Value>, v: map<string, Value>)
      modifies this`values, this`activity
      ensures values == Some(v) && activity == Some(a)
      ensures Counts(trackers) == old(Counts(trackers)) && Tagged(trackers) == old(Tagged(trackers)) &&
              Configs(trackers) == old(Configs(trackers))
    {
      values, activity := Some(v), Some(a);
    }

    /** `update`: the reset/clock filter of `OldGate` in front of `manage_trackers`. */
    method Update(now: string) returns (r: Result<seq<string>, Fault>)
      modifies this`inReset, this`trackers, trackers`triggerCount, trackers`activity, trackers`values
      ensures var g := OldGate(old(inReset), old(GetActive2Val("i_reset_n")), old(GetActive2Val("i_clk")));
        inReset == g.inReset &&
        (g.drive.Failure? ==> r == Failure(g.drive.error) && trackers == old(trackers)) &&
        (g.drive == Success(false) ==> r == Success([]) && trackers == old(trackers)) &&
        (g.drive == Success(true) ==> r == Lines(old(Configs(trackers)), values, now, Table()))
      // undriven, no tracker is notified
      ensures var g := OldGate(old(inReset), old(GetActive2Val("i_reset_n")), old(GetActive2Val("i_clk")));
        g.drive != Success(true) ==>
          forall t :: t in old(trackers) ==>
            t.triggerCount == old(t.triggerCount) && t.activity == old(t.activity) && t.values == old(t.values)
      ensures var g := OldGate(old(inReset), old(GetActive2Val("i_reset_n")), old(GetActive2Val("i_clk")));
        g.drive == Success(true) ==>
          (r.Success? ==> Fed(old(trackers), |old(trackers)|, old(Counts(trackers)), activity, values) &&
                          trackers == Firsts(Sweep(Tagged(old(trackers)), 0))) &&
          (r.Failure? ==> trackers == old(trackers))
    {
      var drive := Gate();
      r := Drive(drive, now);
    }

    /** What `update` does once the filter has decided: a fault or an undriven step ends it
        with the trackers untouched; a driven step runs `manage_trackers`. */
    method Drive(drive: Result<bool, Fault>, now: string) returns (r: Result<seq<string>, Fault>)
      modifies this`trackers, trackers`triggerCount, trackers`activity, trackers`values
      ensures drive.Failure? ==> r == Failure(drive.error) && trackers == old(trackers)
      ensures drive == Success(false) ==> r == Success([]) && trackers == old(trackers)
      ensures drive != Success(true) ==>
                forall t :: t in old(trackers) ==>
                  t.triggerCount == old(t.triggerCount) && t.activity == old(t.activity) && t.values == old(t.values)
      ensures drive == Success(true) ==>
                r == Lines(old(Configs(trackers)), values, now, Table()) &&
                (r.Success? ==> Fed(old(trackers), |old(trackers)|, old(Counts(trackers)), activity, values) &&
                                trackers == Firsts(Sweep(Tagged(old(trackers)), 0))) &&
                (r.Failure? ==> trackers == old(trackers))
    {
      if drive.Failure? {
        return Failure(drive.error);
      }
      if !drive.value {
        return Success([]);
      }
      r := ManageTrackers(now);
    }

    /** The reset/clock filter of `update`: it applies the reset change of the step and says
        whether the trackers are to be driven. */
    method Gate() returns (drive: Result<bool, Fault>)
      modifies this`inReset
      ensures Gating(inReset, drive) == OldGate(old(inReset), GetActive2Val("i_reset_n"), GetActive2Val("i_clk"))
      ensures Counts(trackers) == old(Counts(trackers)) && Tagged(trackers) == old(Tagged(trackers)) &&
              Configs(trackers) == old(Configs(trackers))
    {
      var reset := GetActive2Val("i_reset_n");
      var resetId := GetId("i_reset_n", None);
      if activity.None? {
        return Failure(NoSnapshot);
      }
      if resetId.Some? && resetId.value in activity.value {
        if reset.Failure? {
          return Failure(reset.error);
        }
        if !Truthy(reset.value) {
          inReset := true;
          return Success(false);
        }
      }
      if resetId.Some? && resetId.value in activity.value && Truthy(reset.value) && inReset {
        inReset := false;
      }
      var clockId := GetId("i_clk", None);
      if clockId.Some? && clockId.value in activity.value {
        var clock := GetActive2Val("i_clk");
        if clock.Failure? {
          return Failure(clock.error);
        }
        return Success(Truthy(clock.value) && !inReset);
      }
      return Success(false);
    }

    /** `manage_trackers`: no tracker is started (the base `start_tracker` is false); every
        tracker is notified in list order with the same values, and the lines they emit are
        collected; then the finished ones are removed while the list is walked. A fault in a
        tracker's `update` ends the step before the removal. */
    method ManageTrackers(now: string) returns (r: Result<seq<string>, Fault>)
      modifies this`trackers, trackers`triggerCount, trackers`activity, trackers`values
      ensures r == Lines(old(Configs(trackers)), values, now, Table())
      ensures r.Success? ==> Fed(old(trackers), |old(trackers)|, old(Counts(trackers)), activity, values)
      ensures r.Success? ==> trackers == Firsts(Sweep(Tagged(old(trackers)), 0))
      ensures r.Failure? ==> trackers == old(trackers)
    {
      r := NotifyTrackers(now);
      if r.Success? {
        RemoveFinished();
      }
    }

    /** The notifying loop of `manage_trackers`: each tracker in turn gets the values, and its
        line, if any, is collected. */
    method NotifyTrackers(now: string) returns (r: Result<seq<string>, Fault>)
      modifies trackers`triggerCount, trackers`activity, trackers`values
      ensures r == Lines(old(Configs(trackers)), values, now, Table())
      ensures r.Success? ==> Fed(trackers, |trackers|, old(Counts(trackers)), activity, values)
    {
      var ts, table, act, vs := trackers, Table(), activity, values;
      ghost var cs := Configs(ts);
      ghost var outs := Outcomes(cs, vs, now, table);
      ghost var base := Counts(ts);
      var lines: seq<string> := [];
      var i := 0;
      while i < |ts|
        invariant 0 <= i <= |ts|
        invariant Fed(ts, i, base, act, vs)
        invariant Collect(outs[..i]) == Success(lines)
      {
        var step := NotifyAt(ts[i], ts, i, base, act, vs, now, table, outs, lines);
        if step.Failure? {
          CollectStop(outs, i);
          return step;
        }
        lines := step.value;
        i := i + 1;
      }
      assert outs[..i] == outs;
      r := Success(lines);
    }

    /** The removing loop of `manage_trackers`: `list.remove` on each finished tracker met while
        the list is walked. */
    method RemoveFinished()
      modifies this`trackers
      ensures trackers == Firsts(Sweep(Tagged(old(trackers)), 0))
    {
      var tagged := Tagged(trackers);
      ghost var all := tagged;
      var j := 0;
      while j < |tagged|
        invariant Sweep(tagged, j) == Sweep(all, 0)
        decreases |tagged| - j
      {
        if tagged[j].1 {
          tagged := RemoveFirst(tagged, tagged[j]);
        }
        j := j + 1;
      }
      trackers := Firsts(tagged);
    }
  }
}
