/** The node watcher, the AND-reduction tracker and the per-interface set-up of vcdparse.py,
    built on the tracker class of vcd/tracker.py.

    The node watcher starts in reset. A change of reset to 1 takes it out of reset; a change to 0
    keeps it in reset only when it already was, and then drops the step; an x/X/z/Z reset is
    ignored together with the rest of the step. Its trackers are due only when the clock changed
    to 1 while it is out of reset. All names are full names `hier.signal`, and the watcher's
    `get_id` looks a full name up in its id table.

    The tracker ANDs its control signals in order and, when all are 1, emits
    `@<now> <interface>: <name>=0x<hex> ...` over its payload signals, where each name is the
    payload signal with its hierarchy prefix stripped again; the line is returned instead of
    printed. */
module Vcdparse {
  import opened Wrappers
  import opened Signals
  import NewTracker
  import OldNode

  // ----- the reset/clock filter of `should_notify` -----

  /** `should_notify`'s filter over the decoded reset and clock changes (none when that signal
      did not change): an x/X/z/Z reset ends the step quietly; a reset of 1 leaves reset; a
      reset of 0 while in reset ends the step and stays in reset, while out of reset it changes
      nothing; the step is due when the clock changed to 1 and the watcher is out of reset after
      the reset change of the same step. Any other fault ends the step with that fault. */
  function NewGate(inReset: bool, reset: Result<Option<nat>, Fault>, clock: Result<Option<nat>, Fault>): (g: Gating)
    ensures reset == Failure(Indeterminate) ==> g == Gating(inReset, Success(false))
    ensures reset.Failure? && reset.error != Indeterminate ==> g == Gating(inReset, Failure(reset.error))
    ensures reset.Success? && Truthy(reset.value) ==> !g.inReset
    ensures reset.Success? && !Truthy(reset.value) ==> g.inReset == inReset
    ensures reset.Success? && reset.value.Some? && !Truthy(reset.value) && inReset ==> g.drive == Success(false)
    ensures g.drive == Success(true) <==>
              reset.Success? && !(reset.value.Some? && !Truthy(reset.value) && inReset) &&
              clock.Success? && Truthy(clock.value) && !g.inReset
    ensures g.drive.Failure? ==>
              (reset.Failure? && g.drive.error == reset.error) ||
              (reset.Success? && clock.Failure? && g.drive.error == clock.error)
    ensures reset.Success? && !(reset.value.Some? && !Truthy(reset.value) && inReset) && clock.Failure? ==>
              g.drive == Failure(clock.error)
  {
    match reset
    case Failure(e) => if e == Indeterminate then Gating(inReset, Success(false)) else Gating(inReset, Failure(e))
    case Success(level) =>
      if level.Some? && !Truthy(level) && inReset then Gating(true, Success(false))
      else
        var stillInReset := if Truthy(level) then false else inReset;
        match clock
        case Failure(e) => Gating(stillInReset, Failure(e))
        case Success(c) => Gating(stillInReset, Success(Truthy(c) && !stillInReset))
  }

  /** The two versions of the filter differ: out of reset, a reset of 0 with a rising clock
      enters reset and drops the step in the older one but drives the trackers in the current
      one; an x reset is a fault in the older one and a quiet stop in the current one. */
  lemma GateVersionsDiffer(inReset: bool)
    ensures OldNode.OldGate(false, Success(Some(0)), Success(Some(1))) == Gating(true, Success(false))
    ensures NewGate(false, Success(Some(0)), Success(Some(1))) == Gating(false, Success(true))
    ensures OldNode.OldGate(inReset, Failure(Indeterminate), Success(Some(1))) == Gating(inReset, Failure(Indeterminate))
    ensures NewGate(inReset, Failure(Indeterminate), Success(Some(1))) == Gating(inReset, Success(false))
  {
  }

  class NodeWatcher {
    var hier: string
    var clk: string
    var rstN: string
    var sensitive: seq<string>
    var watching: seq<string>
    var trackers: seq<NodeTracker>
    /** The watcher's table from full signal name to id. */
    var ids: map<string, string>
    /** The changed sensitive values of the step being notified; none before the first. */
    var activity: Option<map<string, Value>>
    var inReset: bool

    /** A new node watcher is in reset, and every sensitive and every watched name is stored
        qualified by the hierarchy, in the order given. */
    constructor (hier: string, clk: string, rstN: string, sensitive: seq<string>, watch: seq<string>,
                 trackers: seq<NodeTracker>)
      ensures this.hier == hier && this.clk == clk && this.rstN == rstN && this.trackers == trackers
      ensures this.sensitive == QualifyAll(hier, sensitive) && this.watching == QualifyAll(hier, watch)
      ensures inReset && ids == map[] && activity == None
    {
      this.inReset := true;
      this.hier, this.clk, this.rstN := hier, clk, rstN;
      this.sensitive := QualifyAll(hier, sensitive);
      this.watching := QualifyAll(hier, watch);
      this.trackers := trackers;
      this.ids, this.activity := map[], None;
    }

    /** `get_id` on a full name. */
    function GetId(name: string): Option<string>
      reads this`ids
    {
      NewTracker.IdOf(ids, name)
    }

    /** `get_active_2val` on a full name: the 0/1 level of its change in this step, none when it
        did not change, a fault on x/X/z/Z or a vector. */
    function GetActive2Val(name: string): (r: Result<Option<nat>, Fault>)
      reads this`ids, this`activity
      ensures activity.None? ==> r == Failure(NoSnapshot)
      ensures activity.Some? ==> r == TwoVal(activity.value, GetId(name))
    {
      if activity.None? then Failure(NoSnapshot) else TwoVal(activity.value, GetId(name))
    }

    /** `should_notify`: the filter of `NewGate` over this step's reset and clock changes; the
        new `in_reset` is kept. */
    method ShouldNotify() returns (r: Result<bool, Fault>)
      modifies this`inReset
      ensures var g := NewGate(old(inReset), GetActive2Val(Qualify(hier, rstN)), GetActive2Val(Qualify(hier, clk)));
        inReset == g.inReset && r == g.drive
    {
      var clock := Qualify(hier, clk);
      var reset := Qualify(hier, rstN);
      if activity.None? {
        return Failure(NoSnapshot);
      }
      var resetId := GetId(reset);
      if resetId.Some? && resetId.value in activity.value {
        var level := GetActive2Val(reset);
        if level.Failure? {
          if level.error == Indeterminate {
            return Success(false);
          }
          return Failure(level.error);
        }
        if Truthy(level.value) {
          inReset := false;
        } else if inReset {
          inReset := true;
          return Success(false);
        }
      }
      var clockId := GetId(clock);
      if clockId.Some? && clockId.value in activity.value {
        var level := GetActive2Val(clock);
        if level.Failure? {
          return Failure(level.error);
        }
        if Truthy(level.value) && !inReset {
          return Success(true);
        }
      }
      return Success(false);
    }
  }

  // ----- the AND-reduction tracker -----

  /** `sig_name`: a name that starts with the hierarchy loses the hierarchy and the character
      after it; any other name is kept. */
  function SigName(hier: string, sig: string): string {
    if hier <= sig then sig[if |hier| + 1 <= |sig| then |hier| + 1 else |sig|..] else sig
  }

  /** Stripping the hierarchy undoes qualifying a name with it. */
  lemma SigNameRoundTrip(hier: string, s: string)
    ensures SigName(hier, Qualify(hier, s)) == s
  {
    assert hier <= Qualify(hier, s);
  }

  /** A name outside the hierarchy is kept as it is. */
  lemma SigNameKeepsForeign(hier: string, sig: string)
    requires !(hier <= sig)
    ensures SigName(hier, sig) == sig
  {
  }

  /** The prefix test is on characters, not on name components: a sibling whose name extends
      the hierarchy's last component loses characters of its own. */
  lemma SigNameCutsSibling()
    ensures SigName("top.u", "top.u1.data") == ".data"
  {
    assert "top.u" <= "top.u1.data";
    assert "top.u1.data"[6..] == ".data";
  }

  /** `self[name]` where a signal value is expected: a name that does not resolve to a signal
      reads the tracker's own attribute, which holds no signal value. */
  function Read(values: Option<map<string, Value>>, name: string, ids: map<string, string>): Result<Value, Fault> {
    match NewTracker.Lookup(values, name, ids)
    case Failure(e) => Failure(e)
    case Success(SignalValue(v)) => Success(v)
    case Success(OwnAttribute(n)) => Failure(NotASignal(n))
  }

  /** The number a control value stands for: a vector (a tuple in the source) goes through the
      vector decoder; a scalar goes through `eval`, where 0 and 1 are numbers and x, X, z and Z
      name no variable. */
  function Level(v: Value): (r: Result<nat, Fault>)
    ensures v.Scalar? ==> (r == Success(1) <==> v.symbol == '1') && (r == Success(0) <==> v.symbol == '0')
    ensures v.Scalar? ==> (r.Failure? <==> IsUnknownSymbol(v.symbol)) && (r.Failure? ==> r.error == UndefinedName)
    ensures v.Vector? ==> (r.Success? <==> V2D(v).Some?) && (r.Success? ==> r.value == V2D(v).value)
    ensures v.Vector? && r.Failure? ==> r.error == Undecodable
  {
    match v
    case Scalar(c) => if IsUnknownSymbol(c) then Failure(UndefinedName) else if c == '1' then Success(1) else Success(0)
    case Vector(_, _) => if V2D(v).None? then Failure(Undecodable) else Success(V2D(v).value)
  }

  /** The control `name` reads as 1. */
  predicate IsOne(values: Option<map<string, Value>>, name: string, ids: map<string, string>) {
    Read(values, name, ids).Success? && Level(Read(values, name, ids).value) == Success(1)
  }

  /** The control `name` reads as a number other than 1. */
  predicate IsNotOne(values: Option<map<string, Value>>, name: string, ids: map<string, string>) {
    Read(values, name, ids).Success? && Level(Read(values, name, ids).value).Success? &&
    Level(Read(values, name, ids).value).value != 1
  }

  /** The AND of the controls, read in order: false at the first control that is not 1, a fault
      at a control that cannot be read or decoded before that. */
  function AndReduce(values: Option<map<string, Value>>, controls: seq<string>, ids: map<string, string>): Result<bool, Fault>
    decreases |controls|
  {
    if controls == [] then Success(true)
    else match Read(values, controls[0], ids)
      case Failure(e) => Failure(e)
      case Success(v) =>
        match Level(v)
        case Failure(e) => Failure(e)
        case Success(n) => if n == 1 then AndReduce(values, controls[1..], ids) else Success(false)
  }

  /** The AND is true exactly when every control reads as 1. */
  lemma {:induction false} AndReduceTrue(values: Option<map<string, Value>>, controls: seq<string>, ids: map<string, string>)
    ensures AndReduce(values, controls, ids) == Success(true) <==>
              forall i :: 0 <= i < |controls| ==> IsOne(values, controls[i], ids)
    decreases |controls|
  {
    if controls != [] {
      AndReduceTrue(values, controls[1..], ids);
      assert forall i :: 1 <= i < |controls| ==> controls[i] == controls[1..][i - 1];
    }
  }

  /** Control `k` is the first that is not 1: it reads some other number. */
  predicate FirstNotOneAt(values: Option<map<string, Value>>, controls: seq<string>, ids: map<string, string>, k: int) {
    0 <= k < |controls| && IsNotOne(values, controls[k], ids) &&
    forall j :: 0 <= j < k ==> IsOne(values, controls[j], ids)
  }

  /** The AND is false exactly when some control reads a number other than 1 and every control
      before it reads 1: it stops at the first control that is not 1. */
  lemma {:induction false} AndReduceFalse(values: Option<map<string, Value>>, controls: seq<string>, ids: map<string, string>)
    ensures AndReduce(values, controls, ids) == Success(false) <==> exists k :: FirstNotOneAt(values, controls, ids, k)
    decreases |controls|
  {
    if controls != [] {
      var tail := controls[1..];
      AndReduceFalse(values, tail, ids);
      if AndReduce(values, controls, ids) == Success(false) {
        if !IsNotOne(values, controls[0], ids) {
          var k :| FirstNotOneAt(values, tail, ids, k);
          assert FirstNotOneAt(values, controls, ids, k + 1) by {
            forall j | 0 <= j < k + 1
              ensures IsOne(values, controls[j], ids)
            {
              if j > 0 {
                assert controls[j] == tail[j - 1];
              }
            }
          }
        } else {
          assert FirstNotOneAt(values, controls, ids, 0);
        }
      }
      if exists k :: FirstNotOneAt(values, controls, ids, k) {
        var k :| FirstNotOneAt(values, controls, ids, k);
        if k > 0 {
          assert FirstNotOneAt(values, tail, ids, k - 1) by {
            forall j | 0 <= j < k - 1
              ensures IsOne(values, tail[j], ids)
            {
              assert tail[j] == controls[j + 1];
            }
          }
        }
      }
    }
  }

  /** The payload part of an emitted line: `name=0x<hex> ` per payload signal, in order, where
      the name is the signal's name without the hierarchy; a signal that cannot be read or
      decoded stops it. */
  function Fields(values: Option<map<string, Value>>, hier: string, payload: seq<string>, ids: map<string, string>)
    : Result<string, Fault>
    decreases |payload|
  {
    if payload == [] then Success("")
    else match Fields(values, hier, payload[..|payload| - 1], ids)
      case Failure(e) => Failure(e)
      case Success(fields) =>
        var pd := payload[|payload| - 1];
        match Read(values, pd, ids)
        case Failure(e) => Failure(e)
        case Success(v) =>
          match V2D(v)
          case None => Failure(Undecodable)
          case Some(n) => Success(fields + Field(SigName(hier, pd), n))
  }

  /** One more payload signal after a prefix that was rendered. */
  lemma FieldsStep(values: Option<map<string, Value>>, hier: string, payload: seq<string>, j: nat, ids: map<string, string>)
    requires j < |payload| && Fields(values, hier, payload[..j], ids).Success?
    ensures var pd, fields := payload[j], Fields(values, hier, payload[..j], ids).value;
      Fields(values, hier, payload[..j + 1], ids) ==
        match Read(values, pd, ids)
        case Failure(e) => Failure(e)
        case Success(v) => if V2D(v).None? then Failure(Undecodable) else Success(fields + Field(SigName(hier, pd), V2D(v).value))
  {
    assert payload[..j + 1][..j] == payload[..j];
  }

  /** A payload signal that fails stops the line: every longer payload fails the same way. */
  lemma {:induction false} FieldsFailureStays(values: Option<map<string, Value>>, hier: string, payload: seq<string>,
                                             k: nat, ids: map<string, string>)
    requires k <= |payload| && Fields(values, hier, payload[..k], ids).Failure?
    ensures Fields(values, hier, payload, ids) == Fields(values, hier, payload[..k], ids)
    decreases |payload| - k
  {
    if k < |payload| {
      assert payload[..k + 1][..k] == payload[..k];
      FieldsFailureStays(values, hier, payload, k + 1, ids);
    } else {
      assert payload[..k] == payload;
    }
  }

  /** The payload part is built exactly when every payload signal reads a value the decoder
      accepts. */
  lemma {:induction false} FieldsSucceed(values: Option<map<string, Value>>, hier: string, payload: seq<string>,
                                        ids: map<string, string>)
    ensures Fields(values, hier, payload, ids).Success? <==>
              forall i :: 0 <= i < |payload| ==>
                Read(values, payload[i], ids).Success? && V2D(Read(values, payload[i], ids).value).Some?
    decreases |payload|
  {
    if payload != [] {
      var init := payload[..|payload| - 1];
      FieldsSucceed(values, hier, init, ids);
      assert forall i :: 0 <= i < |init| ==> init[i] == payload[i];
    }
  }

  /** The payload part over the names given to `configure`, read under the hierarchy and printed
      as given. */
  function NamedFields(values: Option<map<string, Value>>, hier: string, names: seq<string>, ids: map<string, string>)
    : Result<string, Fault>
    decreases |names|
  {
    if names == [] then Success("")
    else match NamedFields(values, hier, names[..|names| - 1], ids)
      case Failure(e) => Failure(e)
      case Success(fields) =>
        var name := names[|names| - 1];
        match Read(values, Qualify(hier, name), ids)
        case Failure(e) => Failure(e)
        case Success(v) =>
          match V2D(v)
          case None => Failure(Undecodable)
          case Some(n) => Success(fields + Field(name, n))
  }

  /** Over a payload built by `configure`, the printed names are exactly the names it was given:
      `sig_name` strips what `add_payload` added. */
  lemma {:induction false} FieldsShowGivenNames(values: Option<map<string, Value>>, hier: string, names: seq<string>,
                                               ids: map<string, string>)
    ensures Fields(values, hier, QualifyAll(hier, names), ids) == NamedFields(values, hier, names, ids)
    decreases |names|
  {
    if names != [] {
      var init := names[..|names| - 1];
      var last := names[|names| - 1];
      FieldsShowGivenNames(values, hier, init, ids);
      var q := QualifyAll(hier, names);
      assert q[..|q| - 1] == QualifyAll(hier, init);
      assert q[|q| - 1] == Qualify(hier, last);
      SigNameRoundTrip(hier, last);
    }
  }

  /** What `configure` sets: the interface name, the hierarchy, and the full names of the
      control and payload signals. */
  datatype Setup = Setup(intf: string, hier: string, control: seq<string>, payload: seq<string>)

  /** What `update` gives on the values `v`: nothing with no controls or when a control reads
      something other than 1 before any fault, otherwise the line over the payload. An
      unconfigured tracker has no `control` attribute. */
  function Outcome(setup: Option<Setup>, v: Option<map<string, Value>>, now: string, ids: map<string, string>)
    : Result<Option<string>, Fault>
  {
    match setup
    case None => Failure(NotASignal("control"))
    case Some(s) =>
      if s.control == [] then Success(None)
      else match AndReduce(v, s.control, ids)
        case Failure(e) => Failure(e)
        case Success(false) => Success(None)
        case Success(true) =>
          match Fields(v, s.hier, s.payload, ids)
          case Failure(e) => Failure(e)
          case Success(fields) => Success(Some(Line(now, s.intf, fields)))
  }

  /** A line is emitted exactly when the tracker is configured with at least one control, every
      control reads 1 and every payload signal decodes; the line carries the time, the
      interface name and the fields of the payload signals in order. */
  lemma OutcomeEmits(setup: Option<Setup>, v: Option<map<string, Value>>, now: string, ids: map<string, string>)
    ensures var r := Outcome(setup, v, now, ids);
      r.Success? && r.value.Some? <==>
        setup.Some? && setup.value.control != [] &&
        (forall i :: 0 <= i < |setup.value.control| ==> IsOne(v, setup.value.control[i], ids)) &&
        (forall i :: 0 <= i < |setup.value.payload| ==>
           Read(v, setup.value.payload[i], ids).Success? && V2D(Read(v, setup.value.payload[i], ids).value).Some?)
    ensures var r := Outcome(setup, v, now, ids);
      r.Success? && r.value.Some? ==>
        r.value.value == Line(now, setup.value.intf, Fields(v, setup.value.hier, setup.value.payload, ids).value)
  {
    if setup.Some? {
      AndReduceTrue(v, setup.value.control, ids);
      FieldsSucceed(v, setup.value.hier, setup.value.payload, ids);
    }
  }

  /** Nothing is emitted, and nothing fails, when some control reads a number other than 1 and
      all before it read 1, whatever the later controls and the payload signals hold. */
  lemma OutcomeSilent(s: Setup, v: Option<map<string, Value>>, now: string, ids: map<string, string>, k: nat)
    requires FirstNotOneAt(v, s.control, ids, k)
    ensures Outcome(Some(s), v, now, ids) == Success(None)
  {
    AndReduceFalse(v, s.control, ids);
  }

  /** For a tracker set up by `configure` from the names of an interface, an emitted line names
      the payload signals as they were given. */
  lemma OutcomeNamesPayload(intf: string, hier: string, controls: seq<string>, names: seq<string>,
                            v: Option<map<string, Value>>, now: string, ids: map<string, string>)
    requires Outcome(Some(Setup(intf, hier, QualifyAll(hier, controls), QualifyAll(hier, names))), v, now, ids).Success?
    requires Outcome(Some(Setup(intf, hier, QualifyAll(hier, controls), QualifyAll(hier, names))), v, now, ids).value.Some?
    ensures NamedFields(v, hier, names, ids).Success?
    ensures Outcome(Some(Setup(intf, hier, QualifyAll(hier, controls), QualifyAll(hier, names))), v, now, ids).value.value ==
              Line(now, intf, NamedFields(v, hier, names, ids).value)
  {
    FieldsShowGivenNames(v, hier, names, ids);
  }

  class NodeTracker {
    var finished: bool
    var triggerCount: nat
    var activity: Option<map<string, Value>>
    var values: Option<map<string, Value>>
    /** Whether `configure` has run; before it the fields below do not exist. */
    var configured: bool
    var intf: string
    var hier: string
    var control: seq<string>
    var payload: seq<string>

    /** A new tracker has not finished, has not been triggered, holds no values and is not
        configured; its `start` does nothing. */
    constructor ()
      ensures !finished && triggerCount == 0 && activity == None && values == None && !configured
    {
      finished, triggerCount, activity, values := false, 0, None, None;
      configured, intf, hier, control, payload := false, "", "", [], [];
    }

    /** What `configure` has set, if it has run. */
    function Settings(): (s: Option<Setup>)
      reads this
      ensures s.Some? <==> configured
      ensures s.Some? ==> s.value == Setup(intf, hier, control, payload)
    {
      if configured then Some(Setup(intf, hier, control, payload)) else None
    }

    /** `configure`: the interface name and hierarchy, then fresh control and payload lists
        extended with the given names, each qualified by the hierarchy. */
    method Configure(name: string, hier: string, controls: seq<string>, payloads: seq<string>)
      modifies this`configured, this`intf, this`hier, this`control, this`payload
      ensures Settings() == Some(Setup(name, hier, QualifyAll(hier, controls), QualifyAll(hier, payloads)))
    {
      intf, this.hier, configured := name, hier, true;
      control, payload := [], [];
      assert [] + QualifyAll(hier, controls) == QualifyAll(hier, controls);
      assert [] + QualifyAll(hier, payloads) == QualifyAll(hier, payloads);
      var _ := AddControl(controls);
      var _ := AddPayload(payloads);
    }

    /** `add_control`: each name, qualified by the hierarchy, is appended in order; before
        `configure` there is no list to extend, which only matters when there is a name. */
    method AddControl(signals: seq<string>) returns (r: Result<(), Fault>)
      modifies this`control
      ensures !configured && signals != [] ==> r == Failure(NotASignal("control")) && control == old(control)
      ensures configured || signals == [] ==> r.Success? && control == old(control) + QualifyAll(hier, signals)
    {
      if !configured && signals != [] {
        return Failure(NotASignal("control"));
      }
      for i := 0 to |signals|
        invariant control == old(control) + QualifyAll(hier, signals[..i])
      {
        assert QualifyAll(hier, signals[..i + 1]) == QualifyAll(hier, signals[..i]) + [Qualify(hier, signals[i])];
        control := control + [Qualify(hier, signals[i])];
      }
      assert signals[..|signals|] == signals;
      r := Success(());
    }

    /** `add_payload`: as `add_control`, on the payload list. */
    method AddPayload(signals: seq<string>) returns (r: Result<(), Fault>)
      modifies this`payload
      ensures !configured && signals != [] ==> r == Failure(NotASignal("payload")) && payload == old(payload)
      ensures configured || signals == [] ==> r.Success? && payload == old(payload) + QualifyAll(hier, signals)
    {
      if !configured && signals != [] {
        return Failure(NotASignal("payload"));
      }
      for i := 0 to |signals|
        invariant payload == old(payload) + QualifyAll(hier, signals[..i])
      {
        assert QualifyAll(hier, signals[..i + 1]) == QualifyAll(hier, signals[..i]) + [Qualify(hier, signals[i])];
        payload := payload + [Qualify(hier, signals[i])];
      }
      assert signals[..|signals|] == signals;
      r := Success(());
    }

    /** The line of `update`: the time and interface, then one field per payload signal read
        from the values held, named without the hierarchy. */
    method Dump(now: string, ids: map<string, string>) returns (r: Result<string, Fault>)
      ensures r.Success? <==> Fields(values, hier, payload, ids).Success?
      ensures r.Success? ==> r.value == Line(now, intf, Fields(values, hier, payload, ids).value)
      ensures r.Failure? ==> r.error == Fields(values, hier, payload, ids).error
    {
      var dump := "@" + now + " " + intf + ": ";
      ghost var fields := "";
      for j := 0 to |payload|
        invariant Fields(values, hier, payload[..j], ids) == Success(fields)
        invariant dump == Line(now, intf, fields)
      {
        var pd := payload[j];
        FieldsStep(values, hier, payload, j, ids);
        var v := Read(values, pd, ids);
        if v.Failure? {
          FieldsFailureStays(values, hier, payload, j + 1, ids);
          return Failure(v.error);
        }
        var n := V2D(v.value);
        if n.None? {
          FieldsFailureStays(values, hier, payload, j + 1, ids);
          return Failure(Undecodable);
        }
        dump := dump + Field(SigName(hier, pd), n.value);
        fields := fields + Field(SigName(hier, pd), n.value);
      }
      assert payload[..|payload|] == payload;
      r := Success(dump);
    }

    /** `update`: counts the controls that read 1, returning at the first that does not; when
        the count reaches the number of controls the line is built. */
    method Update(now: string, ids: map<string, string>) returns (r: Result<Option<string>, Fault>)
      ensures r == Outcome(Settings(), values, now, ids)
    {
      if !configured {
        return Failure(NotASignal("control"));
      }
      var andCount := 0;
      for i := 0 to |control|
        invariant andCount == i
        invariant i == |control| ==> control == []
        invariant AndReduce(values, control, ids) == AndReduce(values, control[i..], ids)
      {
        assert control[i..][0] == control[i] && control[i..][1..] == control[i + 1..];
        var v := Read(values, control[i], ids);
        if v.Failure? {
          return Failure(v.error);
        }
        var val := Level(v.value);
        if val.Failure? {
          return Failure(val.error);
        }
        if val.value == 1 {
          andCount := andCount + 1;
        } else {
          return Success(None);
        }
        if andCount == |control| {
          assert control[i + 1..] == [];
          var dump := Dump(now, ids);
          if dump.Failure? {
            return Failure(dump.error);
          }
          return Success(Some(dump.value));
        }
      }
      return Success(None);
    }

    /** `notify` of the tracker class: one more trigger, the given values are kept, then this
        tracker's `update` runs on them. */
    method Notify(a: Option<map<string, Value>>, v: Option<map<string, Value>>, now: string, ids: map<string, string>)
      returns (r: Result<Option<string>, Fault>)
      modifies this`triggerCount, this`activity, this`values
      ensures triggerCount == old(triggerCount) + 1
      ensures activity == a && values == v
      ensures r == Outcome(Settings(), v, now, ids)
    {
      triggerCount := triggerCount + 1;
      activity := a;
      values := v;
      r := Update(now, ids);
    }
  }

  // ----- the per-interface set-up of `main` -----

  /** One interface record of the configuration: its name, hierarchy, control (`protocol`) and
      payload signal names, and optional clock and reset names. */
  datatype Interface = Interface(name: string, hier: string, protocol: seq<string>, payload: seq<string>,
                                 clock: Option<string>, reset: Option<string>)

  const DefaultClock: string := "i_clk"
  const DefaultReset: string := "i_reset_n"

  /** The watcher and tracker built for `node` are as the record says: the clock and reset are
      the record's own or the defaults, the watcher is sensitive to exactly the clock and the
      reset, it watches the controls followed by the payload, and its one tracker is
      configured with the record's name, hierarchy, controls and payload. */
  predicate Built(w: NodeWatcher, node: Interface)
    reads w, w.trackers
  {
    var clock := if node.clock.Some? then node.clock.value else DefaultClock;
    var reset := if node.reset.Some? then node.reset.value else DefaultReset;
    w.hier == node.hier && w.clk == clock && w.rstN == reset && w.inReset &&
    w.sensitive == [Qualify(node.hier, clock), Qualify(node.hier, reset)] &&
    w.watching == QualifyAll(node.hier, node.protocol + node.payload) &&
    |w.trackers| == 1 &&
    w.trackers[0].Settings() ==
      Some(Setup(node.name, node.hier, QualifyAll(node.hier, node.protocol), QualifyAll(node.hier, node.payload))) &&
    w.trackers[0].triggerCount == 0 && !w.trackers[0].finished
  }

  /** The body of `main`'s loop for one record: the signal lists are copied, the clock and reset
      default to `i_clk` and `i_reset_n` unless the record names them, and a configured tracker
      is handed to a new node watcher. */
  method Build(node: Interface) returns (w: NodeWatcher)
    ensures fresh(w) && fresh(w.trackers) && Built(w, node)
  {
    var control: seq<string> := [];
    var payload: seq<string> := [];
    var sensitive: seq<string> := [];
    var clock := DefaultClock;
    var reset := DefaultReset;
    for i := 0 to |node.protocol|
      invariant control == node.protocol[..i]
    {
      assert node.protocol[..i + 1] == node.protocol[..i] + [node.protocol[i]];
      control := control + [node.protocol[i]];
    }
    for i := 0 to |node.payload|
      invariant payload == node.payload[..i]
    {
      assert node.payload[..i + 1] == node.payload[..i] + [node.payload[i]];
      payload := payload + [node.payload[i]];
    }
    assert control == node.protocol && payload == node.payload;
    if node.clock.Some? {
      clock := node.clock.value;
    }
    if node.reset.Some? {
      reset := node.reset.value;
    }
    sensitive := sensitive + [clock];
    sensitive := sensitive + [reset];
    var tracker := new NodeTracker();
    tracker.Configure(node.name, node.hier, control, payload);
    w := new NodeWatcher(node.hier, clock, reset, sensitive, control + payload, [tracker]);
  }

  /** `main`'s loop over the configuration: one watcher per record, in order. */
  method BuildAll(nodes: seq<Interface>) returns (ws: seq<NodeWatcher>)
    ensures |ws| == |nodes|
    ensures forall k :: 0 <= k < |nodes| ==> fresh(ws[k]) && Built(ws[k], nodes[k])
  {
    ws := [];
    for i := 0 to |nodes|
      invariant |ws| == i
      invariant forall k :: 0 <= k < i ==> fresh(ws[k]) && Built(ws[k], nodes[k])
    {
      var w := Build(nodes[i]);
      forall k | 0 <= k < i
        ensures Built(ws[k], nodes[k])
      {
      }
      ws := ws + [w];
    }
  }
}
