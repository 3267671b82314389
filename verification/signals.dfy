/** Signal values as the VCD parser records them, and the small decoders the watchers and
    trackers apply to them: the scalar 0/1 decoder (`get2val`, `get_active_2val`), the
    watcher's name-to-id rule (`get_id`), hierarchical name qualification and the
    lowercase hexadecimal rendering used in emitted transaction lines. */
module Signals {
  import opened Wrappers

  /** The characters a scalar value change may start with (old/vcd/parser.py:197). */
  type Symbol = c: char | c in "01xXzZ" witness '0'

  /** A recorded value: a scalar symbol, or a vector change with its lower-cased radix letter
      (`b` or `r`) and its digit string. */
  datatype Value = Scalar(symbol: Symbol) | Vector(format: char, digits: string)

  /** The value `$enddefinitions` gives every watched id before any change is seen. */
  const Unknown: Value := Scalar('x')

  /** Why a read or a decode failed; each stands for the Python exception named beside it. */
  datatype Fault =
    | Indeterminate     // ValueError: the scalar is x, X, z or Z
    | NotScalar         // TypeError: a vector value looked up in "xXzZ"
    | NoSnapshot        // no values have been delivered yet: the field is None (TypeError) or unset (AttributeError)
    | MissingValue      // KeyError: the id has no entry in the delivered values
    | NotASignal(name: string) // AttributeError: the name is neither a signal nor a field
    | Undecodable       // the vector decoder could not produce a number
    | NoHierarchy       // TypeError: None + '.' + signal
    | NotOverridden     // the abstract base method raises
    | UndefinedName     // NameError: `eval` of x, X, z or Z, which name no Python variable

  predicate IsUnknownSymbol(c: char) {
    c in "xXzZ"
  }

  /** The scalar decoder of `get2val`/`get_active_2val` applied to `m` at `id`:
      an absent id gives no level (Python returns None), x/X/z/Z fail, 0 and 1 decode. */
  function TwoVal(m: map<string, Value>, id: Option<string>): (r: Result<Option<nat>, Fault>)
    ensures r == Success(None) <==> id.None? || id.value !in m
    ensures r == Failure(Indeterminate) <==>
              id.Some? && id.value in m && m[id.value].Scalar? && IsUnknownSymbol(m[id.value].symbol)
    ensures r == Failure(NotScalar) <==> id.Some? && id.value in m && m[id.value].Vector?
    ensures r == Success(Some(1)) <==> id.Some? && id.value in m && m[id.value] == Scalar('1')
    ensures r == Success(Some(0)) <==> id.Some? && id.value in m && m[id.value] == Scalar('0')
  {
    if id.None? || id.value !in m then Success(None)
    else match m[id.value]
      case Vector(_, _) => Failure(NotScalar)
      case Scalar(c) =>
        if IsUnknownSymbol(c) then Failure(Indeterminate)
        else if c == '1' then Success(Some(1))
        else Success(Some(0))
  }

  /** Python truthiness of a decoded level: None and 0 are false. */
  predicate Truthy(level: Option<nat>) {
    level.Some? && level.value != 0
  }

  /** Python truthiness of an id returned by `get_id`: None and the empty string are false. */
  predicate IsSignalId(id: Option<string>) {
    id.Some? && id.value != ""
  }

  /** `hier + '.' + name`. */
  function Qualify(hier: string, name: string): (r: string)
    ensures |r| == |hier| + 1 + |name|
    ensures r[..|hier|] == hier && r[|hier|] == '.' && r[|hier| + 1..] == name
  {
    hier + "." + name
  }

  /** Qualifies every name of `names`, keeping their order. */
  function QualifyAll(hier: string, names: seq<string>): (r: seq<string>)
    ensures |r| == |names|
    ensures forall i :: 0 <= i < |names| ==> r[i] == Qualify(hier, names[i])
  {
    if names == [] then [] else [Qualify(hier, names[0])] + QualifyAll(hier, names[1..])
  }

  /** The watcher's `get_id` (old/vcd/watcher.py:126-138): an explicit hierarchy that is
      not empty wins over the default one; with neither there is no id; otherwise the
      qualified name is looked up among the watched names. */
  function ResolveName(explicit: Option<string>, default: Option<string>,
                       watchingIds: map<string, string>, signal: string): (r: Option<string>)
    ensures r.Some? ==> exists h :: (h == explicit || h == default) && h.Some? && h.value != "" &&
                                    Qualify(h.value, signal) in watchingIds &&
                                    r.value == watchingIds[Qualify(h.value, signal)]
    ensures (explicit.None? || explicit.value == "") && (default.None? || default.value == "") ==> r.None?
    ensures explicit.Some? && explicit.value != "" ==>
              (r.Some? <==> Qualify(explicit.value, signal) in watchingIds) &&
              (r.Some? ==> r.value == watchingIds[Qualify(explicit.value, signal)])
    ensures (explicit.None? || explicit.value == "") && default.Some? && default.value != "" ==>
              (r.Some? <==> Qualify(default.value, signal) in watchingIds) &&
              (r.Some? ==> r.value == watchingIds[Qualify(default.value, signal)])
  {
    var h := if explicit.Some? && explicit.value != "" then explicit else default;
    if h.None? || h.value == "" then None
    else if Qualify(h.value, signal) in watchingIds then Some(watchingIds[Qualify(h.value, signal)])
    else None
  }

  /** What a tracker's name lookups use from its watcher: the default hierarchy and the table
      from qualified name to id. */
  datatype WatcherTable = WatcherTable(hierarchy: Option<string>, watchingIds: map<string, string>)

  /** What reading a name on a tracker gives: the recorded value of the signal the name
      resolves to, or the tracker's own attribute of that name. */
  datatype Member = SignalValue(value: Value) | OwnAttribute(name: string)

  /** `values[id]` on the values a tracker was last given, which may be none yet. */
  function Delivered(values: Option<map<string, Value>>, id: string): (r: Result<Value, Fault>)
    ensures r.Success? <==> values.Some? && id in values.value
    ensures r.Success? ==> r.value == values.value[id]
    ensures values.None? ==> r == Failure(NoSnapshot)
    ensures values.Some? && id !in values.value ==> r == Failure(MissingValue)
  {
    if values.None? then Failure(NoSnapshot)
    else if id in values.value then Success(values.value[id])
    else Failure(MissingValue)
  }

  // ----- lowercase hexadecimal, as Python's "{0:x}" / "%x" renders a non-negative int -----

  predicate IsHexDigit(c: char) {
    ('0' <= c <= '9') || ('a' <= c <= 'f')
  }

  function HexDigit(d: nat): (c: char)
    requires d < 16
    ensures IsHexDigit(c)
    ensures (c == '0') == (d == 0)
  {
    if d < 10 then (48 + d) as char else (87 + d) as char
  }

  function HexDigitValue(c: char): (d: nat)
    requires IsHexDigit(c)
    ensures d < 16 && HexDigit(d) == c
  {
    if c <= '9' then (c as int) - 48 else (c as int) - 87
  }

  /** The hexadecimal digits of `n`, most significant first, with no leading zero. */
  function Hex(n: nat): (s: string)
    ensures |s| >= 1
    ensures forall i :: 0 <= i < |s| ==> IsHexDigit(s[i])
    ensures (s[0] == '0') == (n == 0)
    ensures n == 0 ==> s == "0"
    decreases n
  {
    if n < 16 then [HexDigit(n)] else Hex(n / 16) + [HexDigit(n % 16)]
  }

  /** Reads a string of hexadecimal digits back as a number. */
  function ParseHex(s: string): nat
    requires forall i :: 0 <= i < |s| ==> IsHexDigit(s[i])
  {
    if s == [] then 0 else ParseHex(s[..|s| - 1]) * 16 + HexDigitValue(s[|s| - 1])
  }

  /** The rendered number reads back as itself, so the emitted payload values are exact. */
  lemma {:induction false} HexRoundTrip(n: nat)
    ensures ParseHex(Hex(n)) == n
    decreases n
  {
    if n >= 16 {
      var s := Hex(n);
      assert s[..|s| - 1] == Hex(n / 16);
      HexRoundTrip(n / 16);
    }
  }

  /** One payload entry of an emitted line: `name=0x<hex> `. */
  function Field(name: string, n: nat): string {
    name + "=0x" + Hex(n) + " "
  }

  /** An emitted line: the time, the interface name, then the payload fields. */
  function Line(now: string, intf: string, fields: string): string {
    "@" + now + " " + intf + ": " + fields
  }

  /** The result of one reset/clock filtering step: the new `in_reset`, and whether the trackers
      are driven (or the fault that stopped the step). */
  datatype Gating = Gating(inReset: bool, drive: Result<bool, Fault>)

  // ----- stand-in for the vector decoder `v2d`, which is not part of this model -----

  /** Big-endian binary digits as a number; None when a digit is not 0 or 1. */
  function BinaryValue(digits: string): Option<nat> {
    if digits == [] then Some(0)
    else match BinaryValue(digits[..|digits| - 1])
      case None => None
      case Some(high) =>
        if digits[|digits| - 1] == '0' then Some(2 * high)
        else if digits[|digits| - 1] == '1' then Some(2 * high + 1)
        else None
  }

  /** Stand-in for `v2d`: scalar 0/1 and binary vectors decode, everything else does not. */
  function V2D(v: Value): Option<nat> {
    match v
    case Scalar(c) => if c == '0' then Some(0) else if c == '1' then Some(1) else None
    case Vector(format, digits) => if format == 'b' then BinaryValue(digits) else None
  }
}
