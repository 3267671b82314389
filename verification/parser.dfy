/** The VCD parser of old/vcd/parser.py: it reads the definitions section (a scope stack and a
    table from identifier code to declarations), then walks the value-change section, collecting
    the changes of one time step and, when the next `#time` arrives, telling every registered
    watcher whose sensitive ids changed what changed and what its watched signals held before
    the step.

    The parser's registered watchers are kept as `Subscription` values (the names they watch and,
    once the definitions are read, their ids), and a time step returns the notifications it
    makes, in order, instead of calling the watchers. */
module Parser {
  import opened Wrappers
  import opened Signals

  /** One element of a hierarchical reference: the tokens of a `$scope` up to its `$end`
      (normally a kind and a name), or the pair ["var", name] that `$var` appends. */
  type Component = seq<string>
  type Reference = seq<Component>

  /** One `$var` declaration of an identifier code. */
  datatype Declaration = Declaration(varType: string, size: string, reference: Reference)

  datatype ParseError =
    | UnknownKeyword(keyword: string)   // a definitions-section token with no handler
    | MissingEnd(keyword: string)       // a declaration that must reach `$end` ran out of tokens
    | EmptyScope                        // `$upscope` with nothing on the scope stack
    | MissingToken(after: string)       // a token that needs a following token is the last one
    | ShortVar                          // `$var` with fewer than four fields
    | NoMatch(xmr: string)              // `get_id` found no identifier for the name
    | MalformedReference(id: string)    // a reference too short, or with a component that is not a pair
    | UnknownId(id: string)             // `get_xmr` of an identifier never declared
    | BadToken(token: string, count: nat) // a value-change token the parser does not understand
    | Unresolved                        // a watcher whose ids were never looked up
    | NotRegistered(key: nat)           // removing a watcher that is not registered
    | StrayEnd                          // `$end` read as a definitions keyword

  /** The ids of a watcher's sensitive and watched names, as `update_ids` computes them. */
  datatype ResolvedIds = ResolvedIds(sensitiveIds: map<string, string>, watchingIds: map<string, string>)

  /** A registered watcher as the parser sees it: an identity, the qualified names it is
      sensitive to and watches, and their ids once `$enddefinitions` has looked them up. */
  datatype Subscription = Subscription(key: nat, sensitive: seq<string>, watching: seq<string>,
                                       resolved: Option<ResolvedIds>)

  /** One call of `watcher.notify`: the watcher's position in the registration list, the time
      the parser was at, the changed sensitive values and the watched values before the step. */
  datatype Notification = Notification(watcher: nat, time: string, activity: map<string, Value>,
                                       values: map<string, Value>)

  /** The notifications made, and the error that stopped the run, if one did. */
  datatype Delivery = Delivery(notes: seq<Notification>, failure: Option<ParseError>)

  // ----- '.'-separated names -----

  /** `".".join(parts)`. */
  function Join(parts: seq<string>): string {
    if |parts| == 0 then "" else if |parts| == 1 then parts[0] else parts[0] + "." + Join(parts[1..])
  }

  /** `s.split('.')`: the pieces between the dots, at least one, none holding a dot. */
  function Split(s: string): (parts: seq<string>)
    ensures |parts| >= 1
    ensures forall i :: 0 <= i < |parts| ==> '.' !in parts[i]
    ensures Join(parts) == s
    decreases |s|
  {
    if s == [] then [""]
    else
      var rest := Split(s[1..]);
      if s[0] == '.' then
        assert Join([""] + rest) == "" + "." + Join(rest);
        [""] + rest
      else
        var parts := [[s[0]] + rest[0]] + rest[1..];
        assert |rest| > 1 ==> Join(rest) == rest[0] + "." + Join(rest[1..]);
        assert |parts| > 1 ==> Join(parts) == parts[0] + "." + Join(rest[1..]);
        assert s == [s[0]] + s[1..];
        parts
  }

  lemma {:induction false} SplitPrefix(w: string, tail: string)
    requires '.' !in w
    ensures Split(w + tail) == [w + Split(tail)[0]] + Split(tail)[1..]
    decreases |w|
  {
    if w != [] {
      assert (w + tail)[1..] == w[1..] + tail;
      assert '.' !in w[1..] by { assert forall c :: c in w[1..] ==> c in w; }
      SplitPrefix(w[1..], tail);
      assert [w[0]] + (w[1..] + Split(tail)[0]) == w + Split(tail)[0];
    } else {
      assert w + tail == tail;
      assert w + Split(tail)[0] == Split(tail)[0];
      assert Split(tail) == [Split(tail)[0]] + Split(tail)[1..];
    }
  }

  /** Splitting a '.'-join of dot-free names gives the names back. */
  lemma {:induction false} SplitJoin(parts: seq<string>)
    requires |parts| >= 1
    requires forall i :: 0 <= i < |parts| ==> '.' !in parts[i]
    ensures Split(Join(parts)) == parts
    decreases |parts|
  {
    if |parts| == 1 {
      SplitPrefix(parts[0], "");
      assert parts[0] + "" == parts[0];
    } else {
      var tail := Join(parts[1..]);
      SplitJoin(parts[1..]);
      SplitPrefix(parts[0], "." + tail);
      assert ("." + tail)[1..] == tail;
      assert Split("." + tail) == [""] + Split(tail);
      assert parts[0] + "" == parts[0];
      assert parts == [parts[0]] + parts[1..];
    }
  }

  // ----- references -----

  /** Every component is a (kind, name) pair, so the reference can be read as names. */
  predicate WellFormed(reference: Reference) {
    forall k :: 0 <= k < |reference| ==> |reference[k]| == 2
  }

  function Names(reference: Reference): (names: seq<string>)
    requires WellFormed(reference)
    ensures |names| == |reference|
    ensures forall k :: 0 <= k < |names| ==> names[k] == reference[k][1]
  {
    if reference == [] then [] else [reference[0][1]] + Names(reference[1..])
  }

  /** The hierarchical name of a reference, as `get_xmr` builds it: the names '.'-joined;
      a component that is not a pair stops it. */
  function XmrOf(id: string, reference: Reference): (r: Result<string, ParseError>)
    ensures r.Success? <==> WellFormed(reference)
    ensures r.Success? ==> r.value == Join(Names(reference))
    ensures r.Failure? ==> r.error == MalformedReference(id)
  {
    if WellFormed(reference) then Success(Join(Names(reference))) else Failure(MalformedReference(id))
  }

  datatype Walk = Matched | Mismatch | Malformed

  /** `get_id`'s inner loop over the components of the searched name: it reads the reference
      position by position, stops at the first name that differs, and fails when the reference
      is shorter than the searched name or a component is not a pair. */
  function WalkReference(reference: Reference, path: seq<string>): Walk
    decreases |path|
  {
    if path == [] then Matched
    else if reference == [] || |reference[0]| != 2 then Malformed
    else if reference[0][1] == path[0] then WalkReference(reference[1..], path[1..])
    else Mismatch
  }

  /** A reference matches exactly when each searched component equals the name at the same
      depth; the reference may be longer than the searched name, which then matches as a prefix. */
  lemma {:induction false} WalkMatchedIff(reference: Reference, path: seq<string>)
    ensures WalkReference(reference, path) == Matched <==>
              |path| <= |reference| &&
              forall k :: 0 <= k < |path| ==> |reference[k]| == 2 && reference[k][1] == path[k]
    decreases |path|
  {
    if path != [] && reference != [] && |reference[0]| == 2 && reference[0][1] == path[0] {
      WalkMatchedIff(reference[1..], path[1..]);
      if |path| <= |reference| {
        assert forall k :: 1 <= k < |path| ==> reference[1..][k - 1] == reference[k] && path[1..][k - 1] == path[k];
      }
    }
  }

  /** The name `get_xmr` builds for a well-formed reference of dot-free names is found again
      by the search `get_id` makes over that reference. */
  lemma XmrMatchesItsReference(reference: Reference)
    requires |reference| >= 1 && WellFormed(reference)
    requires forall k :: 0 <= k < |reference| ==> '.' !in reference[k][1]
    ensures WalkReference(reference, Split(Join(Names(reference)))) == Matched
  {
    SplitJoin(Names(reference));
    WalkMatchedIff(reference, Names(reference));
  }

  /** The declarations of every id in `ids` are present and non-empty. */
  predicate Declared(ids: seq<string>, references: map<string, seq<Declaration>>) {
    forall i :: 0 <= i < |ids| ==> ids[i] in references && |references[ids[i]]| > 0
  }

  /** `get_id`: the first id, in declaration order, whose first reference matches `path`. */
  function FindId(ids: seq<string>, references: map<string, seq<Declaration>>, xmr: string,
                  path: seq<string>): Result<string, ParseError>
    requires Declared(ids, references)
  {
    if ids == [] then Failure(NoMatch(xmr))
    else match WalkReference(references[ids[0]][0].reference, path)
      case Matched => Success(ids[0])
      case Malformed => Failure(MalformedReference(ids[0]))
      case Mismatch => FindId(ids[1..], references, xmr, path)
  }

  /** A found id is the first whose first reference matches; every id before it mismatched. */
  lemma {:induction false} FindIdFound(ids: seq<string>, references: map<string, seq<Declaration>>,
                                      xmr: string, path: seq<string>)
    requires Declared(ids, references)
    requires FindId(ids, references, xmr, path).Success?
    ensures exists i :: 0 <= i < |ids| && ids[i] == FindId(ids, references, xmr, path).value &&
              WalkReference(references[ids[i]][0].reference, path) == Matched &&
              forall j :: 0 <= j < i ==> WalkReference(references[ids[j]][0].reference, path) == Mismatch
    decreases |ids|
  {
    if WalkReference(references[ids[0]][0].reference, path) == Mismatch {
      FindIdFound(ids[1..], references, xmr, path);
      var i :| 0 <= i < |ids[1..]| && ids[1..][i] == FindId(ids[1..], references, xmr, path).value &&
               WalkReference(references[ids[1..][i]][0].reference, path) == Matched &&
               forall j :: 0 <= j < i ==> WalkReference(references[ids[1..][j]][0].reference, path) == Mismatch;
      assert forall j :: 1 <= j < i + 1 ==> ids[j] == ids[1..][j - 1];
      assert ids[i + 1] == ids[1..][i];
    } else {
      assert ids[0] == FindId(ids, references, xmr, path).value;
    }
  }

  /** `get_id` reports "no match" exactly when every declared id's first reference mismatches. */
  lemma {:induction false} FindIdNoMatch(ids: seq<string>, references: map<string, seq<Declaration>>,
                                        xmr: string, path: seq<string>)
    requires Declared(ids, references)
    ensures FindId(ids, references, xmr, path) == Failure(NoMatch(xmr)) <==>
              forall i :: 0 <= i < |ids| ==> WalkReference(references[ids[i]][0].reference, path) == Mismatch
    decreases |ids|
  {
    if ids != [] {
      FindIdNoMatch(ids[1..], references, xmr, path);
      assert forall i :: 1 <= i < |ids| ==> ids[i] == ids[1..][i - 1];
    }
  }

  // ----- the value-change section -----

  /** What one token of the value-change section is, decided by its first character. */
  datatype Change =
    | Skip
    | Time(time: string)
    | ScalarChange(value: Symbol, id: string)
    | VectorChange(format: char, digits: string)
    | Unrecognised

  function Lower(c: char): char {
    if 'A' <= c <= 'Z' then (c as int + 32) as char else c
  }

  /** The dispatch of old/vcd/parser.py:191-202 on the first character of a token. */
  function Classify(token: string): (c: Change)
    ensures token == [] ==> c == Unrecognised
    ensures token != [] && token[0] == '$' ==> c == Skip
    ensures token != [] && token[0] == '#' ==> c == Time(token[1..])
    ensures token != [] && token[0] in "01xXzZ" ==> c == ScalarChange(token[0], token[1..])
    ensures token != [] && token[0] in "bB" ==> c == VectorChange('b', token[1..])
    ensures token != [] && token[0] in "rR" ==> c == VectorChange('r', token[1..])
    ensures c == Unrecognised <==> token == [] || token[0] !in "$#01xXzZbBrR"
  {
    if token == [] then Unrecognised
    else if token[0] == '$' then Skip
    else if token[0] == '#' then Time(token[1..])
    else if token[0] in "01xXzZ" then ScalarChange(token[0], token[1..])
    else if token[0] in "bBrR" then VectorChange(Lower(token[0]), token[1..])
    else Unrecognised
  }

  /** The changed sensitive values of one watcher (`activity` in `update_time`). */
  function Activity(ids: ResolvedIds, changes: map<string, Value>): (a: map<string, Value>)
    ensures a.Keys == ids.sensitiveIds.Values * changes.Keys
    ensures forall id :: id in a ==> a[id] == changes[id]
  {
    map id | id in ids.sensitiveIds.Values && id in changes :: changes[id]
  }

  /** `update_needed` in `update_time`: one of the watcher's sensitive ids changed in the step. */
  predicate Changed(ids: ResolvedIds, changes: map<string, Value>) {
    ids.sensitiveIds.Values * changes.Keys != {}
  }

  /** Every watched id of a resolved watcher has a stored value. */
  predicate Covered(s: Subscription, watched: map<string, Value>) {
    s.resolved.Some? ==> s.resolved.value.watchingIds.Values <= watched.Keys
  }

  /** The stored values of one watcher's watched ids (`collected_changes` in `update_time`). */
  function Snapshot(ids: ResolvedIds, watched: map<string, Value>): (v: map<string, Value>)
    requires ids.watchingIds.Values <= watched.Keys
    ensures v.Keys == ids.watchingIds.Values
    ensures forall id :: id in v ==> v[id] == watched[id]
  {
    map id | id in ids.watchingIds.Values :: watched[id]
  }

  /** The notifications one time step makes, watcher by watcher from position `first` on:
      a watcher is told when one of its sensitive ids changed; an unresolved watcher stops the
      step after the notifications before it. */
  function Deliveries(ws: seq<Subscription>, first: nat, changes: map<string, Value>,
                      watched: map<string, Value>, time: string): Delivery
    requires forall k :: 0 <= k < |ws| ==> Covered(ws[k], watched)
  {
    if ws == [] then Delivery([], None)
    else if ws[0].resolved.None? then Delivery([], Some(Unresolved))
    else
      var ids := ws[0].resolved.value;
      assert Covered(ws[0], watched);
      var rest := Deliveries(ws[1..], first + 1, changes, watched, time);
      if !Changed(ids, changes) then rest
      else Delivery([Notification(first, time, Activity(ids, changes), Snapshot(ids, watched))] + rest.notes, rest.failure)
  }

  /** Every notification of a step goes to a resolved watcher at or after its own position in
      the list, one of whose sensitive ids changed, and carries the step's time. */
  lemma {:induction false} DeliveredTo(ws: seq<Subscription>, first: nat, changes: map<string, Value>,
                                      watched: map<string, Value>, time: string, i: nat)
    requires forall k :: 0 <= k < |ws| ==> Covered(ws[k], watched)
    requires i < |Deliveries(ws, first, changes, watched, time).notes|
    ensures var n := Deliveries(ws, first, changes, watched, time).notes[i];
      first + i <= n.watcher < first + |ws| && ws[n.watcher - first].resolved.Some? &&
      Changed(ws[n.watcher - first].resolved.value, changes) && n.time == time
    decreases |ws|
  {
    var d := Deliveries(ws, first, changes, watched, time);
    var rest := Deliveries(ws[1..], first + 1, changes, watched, time);
    var changed := Changed(ws[0].resolved.value, changes);
    if !changed || i > 0 {
      var j := if changed then i - 1 else i;
      assert d.notes[i] == rest.notes[j];
      DeliveredTo(ws[1..], first + 1, changes, watched, time, j);
      assert ws[1..][d.notes[i].watcher - (first + 1)] == ws[d.notes[i].watcher - first];
    }
  }

  /** Besides going to a resolved watcher at or after its position, one of whose sensitive ids
      changed, with the step's time, every notification carries exactly the changed values of
      that watcher's sensitive ids and the watcher's stored values from before the step. */
  lemma {:induction false} DeliveredNote(ws: seq<Subscription>, first: nat, changes: map<string, Value>,
                                        watched: map<string, Value>, time: string, i: nat)
    requires forall k :: 0 <= k < |ws| ==> Covered(ws[k], watched)
    requires i < |Deliveries(ws, first, changes, watched, time).notes|
    ensures var n := Deliveries(ws, first, changes, watched, time).notes[i];
      first + i <= n.watcher < first + |ws| &&
      ws[n.watcher - first].resolved.Some? &&
      n.time == time &&
      Changed(ws[n.watcher - first].resolved.value, changes) &&
      n.activity == Activity(ws[n.watcher - first].resolved.value, changes) &&
      n.values == Snapshot(ws[n.watcher - first].resolved.value, watched)
    decreases |ws|
  {
    DeliveredTo(ws, first, changes, watched, time, i);
    var d := Deliveries(ws, first, changes, watched, time);
    var rest := Deliveries(ws[1..], first + 1, changes, watched, time);
    var n := d.notes[i];
    var changed := Changed(ws[0].resolved.value, changes);
    if !changed || i > 0 {
      var j := if changed then i - 1 else i;
      assert n == rest.notes[j];
      DeliveredNote(ws[1..], first + 1, changes, watched, time, j);
      var s := ws[n.watcher - first];
      assert ws[1..][n.watcher - (first + 1)] == s;
      assert n.values == Snapshot(s.resolved.value, watched);
    } else {
      assert n == Notification(first, time, Activity(ws[0].resolved.value, changes), Snapshot(ws[0].resolved.value, watched));
    }
  }

  /** Strictly increasing watcher positions: registration order, each watcher at most once. */
  predicate InOrder(notes: seq<Notification>) {
    forall i, j :: 0 <= i < j < |notes| ==> notes[i].watcher < notes[j].watcher
  }

  /** The notifications of a step are in registration order, each watcher told at most once. */
  lemma {:induction false} DeliveriesOrdered(ws: seq<Subscription>, first: nat, changes: map<string, Value>,
                                            watched: map<string, Value>, time: string)
    requires forall k :: 0 <= k < |ws| ==> Covered(ws[k], watched)
    ensures InOrder(Deliveries(ws, first, changes, watched, time).notes)
    decreases |ws|
  {
    if ws != [] && ws[0].resolved.Some? {
      var d := Deliveries(ws, first, changes, watched, time);
      var rest := Deliveries(ws[1..], first + 1, changes, watched, time);
      DeliveriesOrdered(ws[1..], first + 1, changes, watched, time);
      if Changed(ws[0].resolved.value, changes) {
        forall i, j | 0 <= i < j < |d.notes|
          ensures d.notes[i].watcher < d.notes[j].watcher
        {
          assert d.notes[j] == rest.notes[j - 1];
          if i == 0 {
            assert d.notes[0].watcher == first;
            DeliveredTo(ws[1..], first + 1, changes, watched, time, j - 1);
            assert rest.notes[j - 1].watcher >= first + 1;
          } else {
            assert d.notes[i] == rest.notes[i - 1];
            assert rest.notes[i - 1].watcher < rest.notes[j - 1].watcher;
          }
        }
      }
    }
  }

  /** A step whose watchers are all resolved does not fail. */
  lemma {:induction false} DeliveriesSucceed(ws: seq<Subscription>, first: nat, changes: map<string, Value>,
                                            watched: map<string, Value>, time: string)
    requires forall k :: 0 <= k < |ws| ==> Covered(ws[k], watched) && ws[k].resolved.Some?
    ensures Deliveries(ws, first, changes, watched, time).failure.None?
    decreases |ws|
  {
    if ws != [] {
      DeliveriesSucceed(ws[1..], first + 1, changes, watched, time);
    }
  }

  /** With every watcher resolved, the watcher at position `k` is notified exactly when one of its
      sensitive ids changed in the step. */
  lemma {:induction false} DeliveriesComplete(ws: seq<Subscription>, first: nat, changes: map<string, Value>,
                                             watched: map<string, Value>, time: string, k: nat)
    requires forall j :: 0 <= j < |ws| ==> Covered(ws[j], watched) && ws[j].resolved.Some?
    requires k < |ws|
    ensures (exists i :: 0 <= i < |Deliveries(ws, first, changes, watched, time).notes| &&
                         Deliveries(ws, first, changes, watched, time).notes[i].watcher == first + k) <==>
            Changed(ws[k].resolved.value, changes)
    decreases |ws|
  {
    var d := Deliveries(ws, first, changes, watched, time);
    if exists i :: 0 <= i < |d.notes| && d.notes[i].watcher == first + k {
      var i :| 0 <= i < |d.notes| && d.notes[i].watcher == first + k;
      DeliveredTo(ws, first, changes, watched, time, i);
    }
    if Changed(ws[k].resolved.value, changes) {
      var rest := Deliveries(ws[1..], first + 1, changes, watched, time);
      if k == 0 {
        assert d.notes[0].watcher == first + k;
      } else {
        assert ws[1..][k - 1] == ws[k];
        DeliveriesComplete(ws[1..], first + 1, changes, watched, time, k - 1);
        var i :| 0 <= i < |rest.notes| && rest.notes[i].watcher == first + 1 + (k - 1);
        var i' := if Changed(ws[0].resolved.value, changes) then i + 1 else i;
        assert d.notes[i'] == rest.notes[i];
      }
    }
  }

  /** `update_watched_changes`: ids already stored take their new value if they changed; no id
      is ever added. */
  function Refresh(watched: map<string, Value>, changes: map<string, Value>): (r: map<string, Value>)
    ensures r.Keys == watched.Keys
    ensures forall id :: id in r && id !in changes ==> r[id] == watched[id]
    ensures forall id :: id in r && id in changes ==> r[id] == changes[id]
  {
    map id | id in watched :: if id in changes then changes[id] else watched[id]
  }

  /** The ids of every resolved watcher's watched names. */
  function WatchedIds(ws: seq<Subscription>): set<string> {
    if ws == [] then {}
    else
      WatchedIds(ws[..|ws| - 1]) +
      (if ws[|ws| - 1].resolved.Some? then ws[|ws| - 1].resolved.value.watchingIds.Values else {})
  }

  /** Every watched id of a resolved watcher in `ws` is among `WatchedIds(ws)`. */
  lemma {:induction false} WatchedIdsCover(ws: seq<Subscription>, k: nat)
    requires k < |ws| && ws[k].resolved.Some?
    ensures ws[k].resolved.value.watchingIds.Values <= WatchedIds(ws)
    decreases |ws|
  {
    if k < |ws| - 1 {
      WatchedIdsCover(ws[..|ws| - 1], k);
    }
  }

  /** `m` with every id of `ids` set to 'x', as `$enddefinitions` stores them. */
  function MarkUnknown(m: map<string, Value>, ids: set<string>): (r: map<string, Value>)
    ensures r.Keys == m.Keys + ids
    ensures forall id :: id in r ==> r[id] == if id in ids then Unknown else m[id]
  {
    m + map id | id in ids :: Unknown
  }

  lemma MarkUnknownTwice(m: map<string, Value>, a: set<string>, b: set<string>)
    ensures MarkUnknown(MarkUnknown(m, a), b) == MarkUnknown(m, a + b)
  {
  }

  /** After the ids of `done` are stored as unknown, the resolved watchers of `done` and the
      watchers of `rest` that were covered before are all covered. */
  lemma CoveredAfter(done: seq<Subscription>, rest: seq<Subscription>, watched: map<string, Value>)
    requires forall j :: 0 <= j < |rest| ==> Covered(rest[j], watched)
    ensures forall j :: 0 <= j < |done + rest| ==> Covered((done + rest)[j], MarkUnknown(watched, WatchedIds(done)))
  {
    forall j | 0 <= j < |done + rest|
      ensures Covered((done + rest)[j], MarkUnknown(watched, WatchedIds(done)))
    {
      if j < |done| {
        if done[j].resolved.Some? { WatchedIdsCover(done, j); }
      } else {
        assert (done + rest)[j] == rest[j - |done|];
      }
    }
  }

  /** `takewhile(lambda x: x != "$end", ...)` from `pos`: the tokens before the next `$end` and
      the position after that `$end`, which is consumed too; without one, all that is left. */
  function TakeUntilEnd(tokens: seq<string>, pos: nat): (r: (seq<string>, nat))
    requires pos <= |tokens|
    ensures pos + |r.0| <= |tokens| && r.0 == tokens[pos..pos + |r.0|]
    ensures forall i :: 0 <= i < |r.0| ==> r.0[i] != "$end"
    ensures pos + |r.0| == |tokens| ==> r.1 == |tokens|
    ensures pos + |r.0| < |tokens| ==> tokens[pos + |r.0|] == "$end" && r.1 == pos + |r.0| + 1
    decreases |tokens| - pos
  {
    if pos == |tokens| then ([], pos)
    else if tokens[pos] == "$end" then ([], pos + 1)
    else
      var rest := TakeUntilEnd(tokens, pos + 1);
      ([tokens[pos]] + rest.0, rest.1)
  }

  /** The declaration `$var` records from its first four fields (type, size, code, name): the
      name is appended to the current scope as a ("var", name) component. */
  function VarDeclaration(scope: seq<Component>, data: seq<string>): (d: Declaration)
    requires |data| >= 4
    ensures |d.reference| == |scope| + 1 && d.reference[..|scope|] == scope
    ensures d.reference[|scope|] == ["var", data[3]]
    ensures d.varType == data[0] && d.size == data[1]
  {
    Declaration(data[0], data[1], scope + [["var", data[3]]])
  }

  /** `" ".join(words)`. */
  function Unwords(words: seq<string>): string {
    if |words| == 0 then "" else if |words| == 1 then words[0] else words[0] + " " + Unwords(words[1..])
  }

  /** `s.lstrip('$')`: the string without its leading '$' characters. */
  function StripDollars(s: string): (r: string)
    ensures |r| <= |s| && r == s[|s| - |r|..]
    ensures r == [] || r[0] != '$'
    ensures forall i :: 0 <= i < |s| - |r| ==> s[i] == '$'
  {
    if s != [] && s[0] == '$' then StripDollars(s[1..]) else s
  }

  /** The keywords of the parser's dispatch table (old/vcd/parser.py:44-60). */
  datatype Keyword =
    | CommentKw | DateKw | EndDefinitionsKw | ScopeKw | TimescaleKw | UpscopeKw | VarKw | VersionKw
    | DumpAllKw | DumpOffKw | DumpOnKw | DumpVarsKw | EndKw

  /** The dispatch table: the entry for `token`, or None for a token it does not list. */
  function KeywordOf(token: string): (k: Option<Keyword>)
    ensures k == Some(EndKw) <==> token == "$end"
    ensures k == Some(EndDefinitionsKw) <==> token == "$enddefinitions"
    ensures k == Some(VarKw) <==> token == "$var"
    ensures k == Some(ScopeKw) <==> token == "$scope"
    ensures k == Some(UpscopeKw) <==> token == "$upscope"
    ensures k == Some(CommentKw) <==> token == "$comment"
    ensures k in {Some(DateKw), Some(TimescaleKw), Some(VersionKw)} <==> token in {"$date", "$timescale", "$version"}
    ensures k in {Some(DumpAllKw), Some(DumpOffKw), Some(DumpOnKw), Some(DumpVarsKw)} <==>
              token in {"$dumpall", "$dumpoff", "$dumpon", "$dumpvars"}
    ensures k.None? ==> token !in {"$comment", "$date", "$enddefinitions", "$scope", "$timescale",
                                   "$upscope", "$var", "$version", "$dumpall", "$dumpoff", "$dumpon",
                                   "$dumpvars", "$end"}
  {
    if token == "$comment" then Some(CommentKw)
    else if token == "$date" then Some(DateKw)
    else if token == "$enddefinitions" then Some(EndDefinitionsKw)
    else if token == "$scope" then Some(ScopeKw)
    else if token == "$timescale" then Some(TimescaleKw)
    else if token == "$upscope" then Some(UpscopeKw)
    else if token == "$var" then Some(VarKw)
    else if token == "$version" then Some(VersionKw)
    else if token == "$dumpall" then Some(DumpAllKw)
    else if token == "$dumpoff" then Some(DumpOffKw)
    else if token == "$dumpon" then Some(DumpOnKw)
    else if token == "$dumpvars" then Some(DumpVarsKw)
    else if token == "$end" then Some(EndKw)
    else None
  }

  /** Position of the first watcher registered under `key`. */
  function IndexOfKey(ws: seq<Subscription>, key: nat): (r: Option<nat>)
    ensures r.Some? ==> r.value < |ws| && ws[r.value].key == key &&
                        forall j :: 0 <= j < r.value ==> ws[j].key != key
    ensures r.None? ==> forall j :: 0 <= j < |ws| ==> ws[j].key != key
  {
    if ws == [] then None
    else if ws[0].key == key then Some(0)
    else match IndexOfKey(ws[1..], key)
      case None => None
      case Some(i) => Some(i + 1)
  }

  class VcdParser {
    var scope: seq<Component>
    var now: string
    var previous: string  // the source's `then`
    /** The identifier codes in the order of their first `$var`; the source's dictionary
        iteration order is taken to be this order. */
    var idOrder: seq<string>
    var references: map<string, seq<Declaration>>
    var xmrCache: map<string, string>
    var endOfDefinitions: bool
    var changes: map<string, Value>
    var watchers: seq<Subscription>
    var watchedChanges: map<string, Value>
    /** The text of `$date`, `$timescale` and `$version`, under the keyword without its '$'
        (the source keeps them as attributes of the parser). */
    var saved: map<string, string>

    /** The declaration tables agree: every id is listed once, has a first declaration, and
        every cached name is the one its first reference gives. */
    ghost predicate Declarations()
      reads this`idOrder, this`references, this`xmrCache
    {
      && (forall id :: id in references <==> id in idOrder)
      && (forall i, j :: 0 <= i < j < |idOrder| ==> idOrder[i] != idOrder[j])
      && (forall id :: id in references ==> |references[id]| > 0)
      && Declared(idOrder, references)
      && (forall id :: id in xmrCache ==>
            id in references && XmrOf(id, references[id][0].reference) == Success(xmrCache[id]))
    }

    /** Every resolved watcher's watched ids have a stored value. */
    ghost predicate Subscribed()
      reads this`watchers, this`watchedChanges
    {
      forall k :: 0 <= k < |watchers| ==> Covered(watchers[k], watchedChanges)
    }

    ghost predicate Valid()
      reads this`idOrder, this`references, this`xmrCache, this`watchers, this`watchedChanges
    {
      Declarations() && Subscribed()
    }

    constructor ()
      ensures Valid()
      ensures scope == [] && now == "0" && previous == "0" && idOrder == [] && references == map[]
      ensures xmrCache == map[] && !endOfDefinitions && changes == map[] && watchers == []
      ensures watchedChanges == map[] && saved == map[]
    {
      scope, now, previous := [], "0", "0";
      idOrder, references, xmrCache := [], map[], map[];
      endOfDefinitions, changes, watchers, watchedChanges := false, map[], [], map[];
      saved := map[];
    }

    /** `get_id` over the current declarations. */
    function Lookup(xmr: string): Result<string, ParseError>
      reads this`idOrder, this`references
      requires Declared(idOrder, references)
    {
      FindId(idOrder, references, xmr, Split(xmr))
    }

    /** `get_id`: searches the ids in order for the first whose first reference matches every
        '.'-component of `xmr`, failing on a reference it cannot read. */
    method GetId(xmr: string) returns (r: Result<string, ParseError>)
      requires Valid()
      ensures r == Lookup(xmr)
      ensures r.Success? ==>
                (r.value in references && WalkReference(references[r.value][0].reference, Split(xmr)) == Matched)
    {
      var path := Split(xmr);
      var i := 0;
      while i < |idOrder|
        invariant 0 <= i <= |idOrder|
        invariant Declared(idOrder[i..], references)
        invariant FindId(idOrder, references, xmr, path) == FindId(idOrder[i..], references, xmr, path)
      {
        var id := idOrder[i];
        assert idOrder[i..][0] == id && idOrder[i..][1..] == idOrder[i + 1..];
        var walk := MatchReference(references[id][0].reference, path);
        if walk == Malformed {
          return Failure(MalformedReference(id));
        } else if walk == Matched {
          return Success(id);
        }
        i := i + 1;
      }
      return Failure(NoMatch(xmr));
    }

    /** The inner loop of `get_id`: compares `path` with `reference` depth by depth, clearing
        the match flag at the first name that differs. */
    static method MatchReference(reference: Reference, path: seq<string>) returns (w: Walk)
      ensures w == WalkReference(reference, path)
    {
      var matched := true;
      var depth := 0;
      while depth < |path|
        invariant 0 <= depth <= |path| && depth <= |reference|
        invariant WalkReference(reference, path) == WalkReference(reference[depth..], path[depth..])
      {
        if depth >= |reference| || |reference[depth]| != 2 {
          return Malformed;
        }
        if path[depth] == reference[depth][1] {
          assert reference[depth..][1..] == reference[depth + 1..];
          assert path[depth..][1..] == path[depth + 1..];
          depth := depth + 1;
        } else {
          matched := false;
          break;
        }
      }
      w := if matched then Matched else Mismatch;
    }

    /** `get_xmr`: the '.'-joined names of the id's first reference, remembered in the cache
        so that later calls give the same string. */
    method GetXmr(id: string) returns (r: Result<string, ParseError>)
      requires Valid()
      modifies this`xmrCache
      ensures Valid()
      ensures id in references ==> r == XmrOf(id, references[id][0].reference)
      ensures id !in references ==> r == Failure(UnknownId(id))
      ensures r.Success? ==> xmrCache == old(xmrCache)[id := r.value]
      ensures r.Failure? ==> xmrCache == old(xmrCache)
    {
      if id in xmrCache {
        return Success(xmrCache[id]);
      }
      if id !in references {
        return Failure(UnknownId(id));
      }
      r := XmrOf(id, references[id][0].reference);
      if r.Success? {
        xmrCache := xmrCache[id := r.value];
      }
    }

    /** The ids of `names` as `update_ids` builds them: every name maps to its `get_id`;
        the first name that cannot be resolved stops it. */
    function ResolveAll(names: seq<string>): Result<map<string, string>, ParseError>
      reads this`idOrder, this`references
      requires Declared(idOrder, references)
    {
      if names == [] then Success(map[])
      else match Lookup(names[0])
        case Failure(e) => Failure(e)
        case Success(id) =>
          match ResolveAll(names[1..])
          case Failure(e) => Failure(e)
          case Success(m) => Success(m[names[0] := id])
    }

    /** `update_ids` succeeds exactly when every name has an id; its table then has one entry
        per name, holding that name's `get_id`; otherwise its error is that of the first name
        without one. */
    lemma {:induction false} ResolveAllSound(names: seq<string>)
      requires Declared(idOrder, references)
      ensures ResolveAll(names).Success? <==> forall i :: 0 <= i < |names| ==> Lookup(names[i]).Success?
      ensures ResolveAll(names).Success? ==>
                ResolveAll(names).value.Keys == (set n | n in names) &&
                forall n :: n in names ==> Lookup(n) == Success(ResolveAll(names).value[n])
      ensures ResolveAll(names).Failure? ==>
                exists i :: 0 <= i < |names| && Lookup(names[i]) == Failure(ResolveAll(names).error) &&
                            forall j :: 0 <= j < i ==> Lookup(names[j]).Success?
      decreases |names|
    {
      if names != [] {
        ResolveAllSound(names[1..]);
        assert names == [names[0]] + names[1..];
        assert forall i :: 1 <= i < |names| ==> names[i] == names[1..][i - 1];
        if Lookup(names[0]).Success? && ResolveAll(names[1..]).Failure? {
          var i :| 0 <= i < |names[1..]| && Lookup(names[1..][i]) == Failure(ResolveAll(names[1..]).error) &&
                   forall j :: 0 <= j < i ==> Lookup(names[1..][j]).Success?;
          assert Lookup(names[i + 1]) == Failure(ResolveAll(names).error);
        }
      }
    }

    /** The subscription carries the ids `update_ids` computes for its names now. */
    ghost predicate Resolved(s: Subscription)
      reads this`idOrder, this`references
      requires Declared(idOrder, references)
    {
      s.resolved.Some? &&
      ResolveAll(s.sensitive) == Success(s.resolved.value.sensitiveIds) &&
      ResolveAll(s.watching) == Success(s.resolved.value.watchingIds)
    }

    /** `register_watcher`: the watcher joins the end of the list. */
    method RegisterWatcher(key: nat, sensitive: seq<string>, watching: seq<string>)
      requires Valid()
      modifies this`watchers
      ensures Valid()
      ensures watchers == old(watchers) + [Subscription(key, sensitive, watching, None)]
    {
      watchers := watchers + [Subscription(key, sensitive, watching, None)];
    }

    /** `deregister_watcher`: removes the first registration of the watcher; removing one that
        is not registered is an error. */
    method DeregisterWatcher(key: nat) returns (r: Result<(), ParseError>)
      requires Valid()
      modifies this`watchers
      ensures Valid()
      ensures IndexOfKey(old(watchers), key).None? ==> r == Failure(NotRegistered(key)) && watchers == old(watchers)
      ensures IndexOfKey(old(watchers), key).Some? ==>
                (var k := IndexOfKey(old(watchers), key).value;
                 r.Success? && watchers == old(watchers)[..k] + old(watchers)[k + 1..])
    {
      var k := IndexOfKey(watchers, key);
      if k.None? {
        return Failure(NotRegistered(key));
      }
      watchers := watchers[..k.value] + watchers[k.value + 1..];
      r := Success(());
    }

    /** `scaler_value_change`: records the new scalar value of `id` for this step. */
    method ScalarValueChange(value: Symbol, id: string)
      requires Valid()
      modifies this`changes
      ensures Valid()
      ensures changes == old(changes)[id := Scalar(value)]
    {
      changes := changes[id := Scalar(value)];
    }

    /** `vector_value_change`: records the new vector value of `id` for this step. */
    method VectorValueChange(format: char, number: string, id: string)
      requires Valid()
      modifies this`changes
      ensures Valid()
      ensures changes == old(changes)[id := Vector(format, number)]
    {
      changes := changes[id := Vector(format, number)];
    }

    /** `update_watched_changes`. */
    method UpdateWatchedChanges()
      requires Valid()
      modifies this`watchedChanges
      ensures Valid()
      ensures watchedChanges == Refresh(old(watchedChanges), changes)
    {
      watchedChanges := Refresh(watchedChanges, changes);
    }

    /** `update_time`: notifies, in registration order, every watcher one of whose sensitive ids
        changed in this step, with the watched values as they stood before the step; only then are
        the stored watched values refreshed, the step's changes dropped and the clock advanced. */
    method UpdateTime(nextTime: string) returns (d: Delivery)
      requires Valid()
      modifies this`watchedChanges, this`changes, this`previous, this`now
      ensures Valid()
      ensures d == Deliveries(old(watchers), 0, old(changes), old(watchedChanges), old(now))
      ensures d.failure.None? ==>
                watchedChanges == Refresh(old(watchedChanges), old(changes)) &&
                changes == map[] && previous == old(now) && now == nextTime
      ensures d.failure.Some? ==>
                watchedChanges == old(watchedChanges) && changes == old(changes) &&
                previous == old(previous) && now == old(now)
    {
      var notes: seq<Notification> := [];
      var k := 0;
      while k < |watchers|
        invariant 0 <= k <= |watchers|
        invariant Deliveries(watchers, 0, changes, watchedChanges, now) ==
                  var rest := Deliveries(watchers[k..], k, changes, watchedChanges, now);
                  Delivery(notes + rest.notes, rest.failure)
      {
        var s := watchers[k];
        assert watchers[k..][0] == s && watchers[k..][1..] == watchers[k + 1..];
        if s.resolved.None? {
          return Delivery(notes, Some(Unresolved));
        }
        var activity := Activity(s.resolved.value, changes);
        if Changed(s.resolved.value, changes) {
          var collected := Snapshot(s.resolved.value, watchedChanges);
          notes := notes + [Notification(k, now, activity, collected)];
        }
        k := k + 1;
      }
      assert watchers[k..] == [];
      UpdateWatchedChanges();
      changes := map[];
      previous := now;
      now := nextTime;
      return Delivery(notes, None);
    }

    /** `$scope`: pushes the tokens up to `$end`. */
    method Scope(tokens: seq<string>, pos: nat) returns (next: nat)
      requires Valid() && pos <= |tokens|
      modifies this`scope
      ensures Valid()
      ensures scope == old(scope) + [TakeUntilEnd(tokens, pos).0]
      ensures next == TakeUntilEnd(tokens, pos).1
    {
      var taken := TakeUntilEnd(tokens, pos);
      scope := scope + [taken.0];
      next := taken.1;
    }

    /** `$upscope`: pops exactly one scope and consumes exactly one token. */
    method Upscope(tokens: seq<string>, pos: nat) returns (r: Result<nat, ParseError>)
      requires Valid() && pos <= |tokens|
      modifies this`scope
      ensures Valid()
      ensures old(scope) == [] ==> r == Failure(EmptyScope) && scope == old(scope)
      ensures old(scope) != [] ==> scope == old(scope)[..|old(scope)| - 1]
      ensures old(scope) != [] && pos == |tokens| ==> r == Failure(MissingToken("$upscope"))
      ensures old(scope) != [] && pos < |tokens| ==> r == Success(pos + 1)
    {
      if scope == [] {
        return Failure(EmptyScope);
      }
      scope := scope[..|scope| - 1];
      if pos == |tokens| {
        return Failure(MissingToken("$upscope"));
      }
      return Success(pos + 1);
    }

    /** `$var`: appends (type, size, scope + [("var", name)]) to the declarations of its id
        code; earlier declarations of that code are kept. */
    method Var(tokens: seq<string>, pos: nat) returns (r: Result<nat, ParseError>)
      requires Valid() && pos <= |tokens|
      modifies this`references, this`idOrder
      ensures Valid()
      ensures var data := TakeUntilEnd(tokens, pos).0;
        |data| < 4 ==> r == Failure(ShortVar) && references == old(references) && idOrder == old(idOrder)
      ensures var data := TakeUntilEnd(tokens, pos).0;
        |data| >= 4 ==> r == Success(TakeUntilEnd(tokens, pos).1)
      ensures var data := TakeUntilEnd(tokens, pos).0;
        |data| >= 4 && data[2] in old(references) ==>
          idOrder == old(idOrder) &&
          references == old(references)[data[2] := old(references)[data[2]] + [VarDeclaration(scope, data)]]
      ensures var data := TakeUntilEnd(tokens, pos).0;
        |data| >= 4 && data[2] !in old(references) ==>
          idOrder == old(idOrder) + [data[2]] &&
          references == old(references)[data[2] := [VarDeclaration(scope, data)]]
    {
      var taken := TakeUntilEnd(tokens, pos);
      var data := taken.0;
      if |data| < 4 {
        return Failure(ShortVar);
      }
      var code := data[2];
      var declaration := VarDeclaration(scope, data);
      if code in references {
        assert (references[code] + [declaration])[0] == references[code][0];
        references := references[code := references[code] + [declaration]];
      } else {
        references := references[code := [declaration]];
        idOrder := idOrder + [code];
      }
      return Success(taken.1);
    }

    /** `save_declaration`: keeps the space-joined tokens up to `$end` under the keyword's name. */
    method SaveDeclaration(keyword: string, tokens: seq<string>, pos: nat) returns (next: nat)
      requires Valid() && pos <= |tokens|
      modifies this`saved
      ensures Valid()
      ensures saved == old(saved)[StripDollars(keyword) := Unwords(TakeUntilEnd(tokens, pos).0)]
      ensures next == TakeUntilEnd(tokens, pos).1
    {
      var taken := TakeUntilEnd(tokens, pos);
      saved := saved[StripDollars(keyword) := Unwords(taken.0)];
      next := taken.1;
    }

    /** `drop_declaration`: skips past the next `$end`, which must exist. */
    static method DropDeclaration(keyword: string, tokens: seq<string>, pos: nat) returns (r: Result<nat, ParseError>)
      requires pos <= |tokens|
      ensures var taken := TakeUntilEnd(tokens, pos);
        if pos + |taken.0| < |tokens| then r == Success(taken.1) else r == Failure(MissingEnd(keyword))
    {
      var taken := TakeUntilEnd(tokens, pos);
      if pos + |taken.0| < |tokens| {
        return Success(taken.1);
      }
      return Failure(MissingEnd(keyword));
    }

    /** `$enddefinitions`: the value-change section begins; after skipping to `$end`, every
        watcher's ids are looked up in registration order and every watched id is given the
        value 'x'. A name that cannot be looked up stops it, with the watchers before it done. */
    method EndDefinitions(tokens: seq<string>, pos: nat) returns (r: Result<nat, ParseError>)
      requires Valid() && pos <= |tokens|
      modifies this`endOfDefinitions, this`watchers, this`watchedChanges
      ensures Valid()
      ensures endOfDefinitions
      ensures |watchers| == |old(watchers)|
      ensures forall k :: 0 <= k < |watchers| ==>
                watchers[k].(resolved := None) == old(watchers)[k].(resolved := None)
      ensures var taken := TakeUntilEnd(tokens, pos);
        pos + |taken.0| == |tokens| ==>
          r == Failure(MissingEnd("$enddefinitions")) && watchers == old(watchers) &&
          watchedChanges == old(watchedChanges)
      // with `$end` present: the watchers got through take their ids, the others stay, their
      // watched ids are marked 'x', and the step fails exactly with the first failed lookup
      ensures var taken := TakeUntilEnd(tokens, pos); var res := Resolution(old(watchers));
        pos + |taken.0| < |tokens| ==>
          watchers == res.0 + old(watchers)[|res.0|..] &&
          watchedChanges == MarkUnknown(old(watchedChanges), WatchedIds(res.0)) &&
          r == (if res.1.None? then Success(taken.1) else Failure(res.1.value))
      ensures r.Success? ==>
                r.value == TakeUntilEnd(tokens, pos).1 &&
                (forall k :: 0 <= k < |watchers| ==> Resolved(watchers[k])) &&
                watchedChanges == MarkUnknown(old(watchedChanges), WatchedIds(watchers))
    {
      endOfDefinitions := true;
      r := DropDeclaration("$enddefinitions", tokens, pos);
      if r.Failure? {
        return;
      }
      ghost var before := watchers;
      var failure := Install();
      SplicedResolution(before);
      if failure.Some? {
        r := Failure(failure.value);
      }
    }

    /** The end of `$enddefinitions`: the `update_ids` calls, in registration order, then the
        watchers they got through take their ids, the others stay as they were, and every id
        the resolved ones watch is given the value 'x'. */
    method Install() returns (failure: Option<ParseError>)
      requires Valid()
      modifies this`watchers, this`watchedChanges
      ensures Valid()
      ensures var res := Resolution(old(watchers));
        watchers == res.0 + old(watchers)[|res.0|..] &&
        watchedChanges == MarkUnknown(old(watchedChanges), WatchedIds(res.0)) &&
        failure == res.1
    {
      var done;
      done, failure := ResolveWatchers(watchers);
      var rest := watchers[|done|..];
      CoveredAfter(done, rest, watchedChanges);
      watchers, watchedChanges := done + rest, MarkUnknown(watchedChanges, WatchedIds(done));
    }

    /** The watcher list `$enddefinitions` leaves holds the same watchers, and all of them
        resolved when no lookup failed. */
    lemma SplicedResolution(original: seq<Subscription>)
      requires Declared(idOrder, references)
      ensures var res := Resolution(original); var next := res.0 + original[|res.0|..];
        |next| == |original| &&
        (forall k :: 0 <= k < |next| ==> next[k].(resolved := None) == original[k].(resolved := None)) &&
        (res.1.None? ==> next == res.0 && forall k :: 0 <= k < |next| ==> Resolved(next[k]))
    {
      ResolutionSound(original);
      Spliced(original, Resolution(original).0);
    }


    /** The watcher list `$enddefinitions` leaves: the watchers it got through, with their
        ids, then the others as they were. */
    lemma Spliced(original: seq<Subscription>, done: seq<Subscription>)
      requires Declared(idOrder, references)
      requires |done| <= |original|
      requires forall j :: 0 <= j < |done| ==>
                 done[j].(resolved := None) == original[j].(resolved := None) && Resolved(done[j])
      ensures var next := done + original[|done|..];
        |next| == |original| &&
        (forall k :: 0 <= k < |next| ==> next[k].(resolved := None) == original[k].(resolved := None)) &&
        (|done| == |original| ==> next == done && forall k :: 0 <= k < |next| ==> Resolved(next[k]))
    {
      var next := done + original[|done|..];
      forall k | 0 <= k < |next|
        ensures next[k].(resolved := None) == original[k].(resolved := None)
      {
        if k >= |done| {
          assert next[k] == original[k];
        }
      }
      if |done| == |original| {
        assert next == done;
      }
    }

    /** What the `update_ids` calls of `$enddefinitions` give, in registration order: the
        watchers they got through, with their ids, and the error of the first lookup that
        failed, if one did (a watcher's sensitive names are looked up before its watched ones). */
    function Resolution(ws: seq<Subscription>): (res: (seq<Subscription>, Option<ParseError>))
      reads this`idOrder, this`references
      requires Declared(idOrder, references)
      ensures |res.0| <= |ws|
      decreases |ws|
    {
      if ws == [] then ([], None)
      else
        var s := ws[0];
        var sensitiveIds := ResolveAll(s.sensitive);
        if sensitiveIds.Failure? then ([], Some(sensitiveIds.error))
        else
          var watchingIds := ResolveAll(s.watching);
          if watchingIds.Failure? then ([], Some(watchingIds.error))
          else
            var rest := Resolution(ws[1..]);
            ([s.(resolved := Some(ResolvedIds(sensitiveIds.value, watchingIds.value)))] + rest.0, rest.1)
    }

    /** `$enddefinitions` resolves a prefix of the watchers, each taking the ids its names have
        now, and stops only at a watcher with a name that has no id, with that lookup's error. */
    lemma {:induction false} ResolutionSound(ws: seq<Subscription>)
      requires Declared(idOrder, references)
      ensures var res := Resolution(ws);
        |res.0| <= |ws| && (res.1.None? <==> |res.0| == |ws|)
      ensures var res := Resolution(ws);
        forall j :: 0 <= j < |res.0| ==>
          res.0[j].(resolved := None) == ws[j].(resolved := None) && Resolved(res.0[j])
      ensures var res := Resolution(ws);
        res.1.Some? ==>
          var s := ws[|res.0|];
          (ResolveAll(s.sensitive).Failure? && res.1.value == ResolveAll(s.sensitive).error) ||
          (ResolveAll(s.sensitive).Success? && ResolveAll(s.watching).Failure? &&
           res.1.value == ResolveAll(s.watching).error)
      decreases |ws|
    {
      if ws != [] {
        var s := ws[0];
        if ResolveAll(s.sensitive).Success? && ResolveAll(s.watching).Success? {
          ResolutionSound(ws[1..]);
          var rest := Resolution(ws[1..]);
          var res := Resolution(ws);
          assert res.0 == [res.0[0]] + rest.0;
          forall j | 1 <= j < |res.0|
            ensures res.0[j].(resolved := None) == ws[j].(resolved := None) && Resolved(res.0[j])
          {
            assert res.0[j] == rest.0[j - 1] && ws[j] == ws[1..][j - 1];
          }
          if res.1.Some? {
            assert ws[|res.0|] == ws[1..][|rest.0|];
          }
        }
      }
    }

    /** `$enddefinitions` gets through every watcher exactly when every watcher's sensitive and
        watched names all have ids. */
    lemma {:induction false} ResolutionSucceeds(ws: seq<Subscription>)
      requires Declared(idOrder, references)
      ensures Resolution(ws).1.None? <==>
                forall k :: 0 <= k < |ws| ==>
                  ResolveAll(ws[k].sensitive).Success? && ResolveAll(ws[k].watching).Success?
    {
      ResolutionSound(ws);
      var res := Resolution(ws);
      if res.1.None? {
        forall k | 0 <= k < |ws|
          ensures ResolveAll(ws[k].sensitive).Success? && ResolveAll(ws[k].watching).Success?
        {
          assert Resolved(res.0[k]);
          assert res.0[k].sensitive == ws[k].sensitive && res.0[k].watching == ws[k].watching;
        }
      }
    }

    /** One step of `Resolution`, taken at the `k`-th watcher. */
    lemma ResolutionAt(ws: seq<Subscription>, k: nat)
      requires Declared(idOrder, references) && k < |ws|
      ensures var s := ws[k]; var rest := Resolution(ws[k + 1..]);
        Resolution(ws[k..]) ==
          if ResolveAll(s.sensitive).Failure? then ([], Some(ResolveAll(s.sensitive).error))
          else if ResolveAll(s.watching).Failure? then ([], Some(ResolveAll(s.watching).error))
          else ([s.(resolved := Some(ResolvedIds(ResolveAll(s.sensitive).value, ResolveAll(s.watching).value)))] + rest.0,
                rest.1)
    {
      assert ws[k..][0] == ws[k] && ws[k..][1..] == ws[k + 1..];
    }

    /** The `update_ids` calls of `$enddefinitions`, in registration order: the watchers it got
        through, with their ids, and the error that stopped it, if one did. */
    method ResolveWatchers(original: seq<Subscription>) returns (done: seq<Subscription>, failure: Option<ParseError>)
      requires Declared(idOrder, references)
      ensures done == Resolution(original).0 && failure == Resolution(original).1
    {
      done := [];
      var k := 0;
      assert original[k..] == original;
      while k < |original|
        invariant 0 <= k <= |original| && |done| == k
        invariant Resolution(original).0 == done + Resolution(original[k..]).0
        invariant Resolution(original).1 == Resolution(original[k..]).1
      {
        ResolutionAt(original, k);
        var s := original[k];
        var sensitiveIds := ResolveAll(s.sensitive);
        if sensitiveIds.Failure? {
          assert done + [] == done;
          return done, Some(sensitiveIds.error);
        }
        var watchingIds := ResolveAll(s.watching);
        if watchingIds.Failure? {
          assert done + [] == done;
          return done, Some(watchingIds.error);
        }
        var next := s.(resolved := Some(ResolvedIds(sensitiveIds.value, watchingIds.value)));
        assert done + [next] + Resolution(original[k + 1..]).0 == done + ([next] + Resolution(original[k + 1..]).0);
        done := done + [next];
        k := k + 1;
      }
      assert original[k..] == [];
      assert done + [] == done;
      return done, None;
    }

    /** The handlers of the keywords that build the scope stack and the declaration tables:
        `$scope` and `$upscope` push and pop, `$var` appends a declaration under its code. */
    method ScopeDefinition(keyword: string, tokens: seq<string>, pos: nat) returns (r: Result<nat, ParseError>)
      requires Valid() && pos <= |tokens|
      requires keyword in {"$scope", "$upscope", "$var"}
      modifies this`scope, this`references, this`idOrder
      ensures Valid()
      ensures r.Success? ==> pos <= r.value <= |tokens|
      ensures keyword == "$scope" ==>
                scope == old(scope) + [TakeUntilEnd(tokens, pos).0] && r == Success(TakeUntilEnd(tokens, pos).1)
      ensures keyword == "$upscope" && old(scope) == [] ==> r == Failure(EmptyScope) && scope == old(scope)
      ensures keyword == "$upscope" && old(scope) != [] ==>
                scope == old(scope)[..|old(scope)| - 1] &&
                r == (if pos < |tokens| then Success(pos + 1) else Failure(MissingToken("$upscope")))
      ensures keyword == "$var" ==> scope == old(scope)
      ensures var data := TakeUntilEnd(tokens, pos).0;
        keyword == "$var" && |data| < 4 ==> r == Failure(ShortVar)
      ensures var data := TakeUntilEnd(tokens, pos).0;
        keyword == "$var" && |data| >= 4 ==>
          r == Success(TakeUntilEnd(tokens, pos).1) &&
          references == old(references)[data[2] := (if data[2] in old(references) then old(references)[data[2]] else [])
                                                    + [VarDeclaration(old(scope), data)]] &&
          idOrder == (if data[2] in old(references) then old(idOrder) else old(idOrder) + [data[2]])
      ensures keyword != "$var" || |TakeUntilEnd(tokens, pos).0| < 4 ==>
                references == old(references) && idOrder == old(idOrder)
    {
      if keyword == "$scope" {
        var next := Scope(tokens, pos);
        r := Success(next);
      } else if keyword == "$upscope" {
        r := Upscope(tokens, pos);
      } else {
        r := Var(tokens, pos);
        var data := TakeUntilEnd(tokens, pos).0;
        if |data| >= 4 && data[2] !in old(references) {
          assert [] + [VarDeclaration(old(scope), data)] == [VarDeclaration(old(scope), data)];
        }
      }
    }

    /** The handlers of the keywords that only read text: `$date`, `$timescale` and `$version`
        keep it, `$comment` skips it, the `$dump` keywords do nothing, `$end` out of place and
        an unknown keyword are errors. */
    method TextDefinition(keyword: string, tokens: seq<string>, pos: nat) returns (r: Result<nat, ParseError>)
      requires Valid() && pos <= |tokens|
      requires keyword !in {"$scope", "$upscope", "$var", "$enddefinitions"}
      modifies this`saved
      ensures Valid()
      ensures r.Success? ==> pos <= r.value <= |tokens|
      ensures keyword == "$end" ==> r == Failure(StrayEnd)
      ensures KeywordOf(keyword).None? ==> r == Failure(UnknownKeyword(keyword))
      ensures keyword in {"$date", "$timescale", "$version"} ==>
                saved == old(saved)[StripDollars(keyword) := Unwords(TakeUntilEnd(tokens, pos).0)] &&
                r == Success(TakeUntilEnd(tokens, pos).1)
      ensures keyword !in {"$date", "$timescale", "$version"} ==> saved == old(saved)
      ensures keyword == "$comment" ==>
                r == if pos + |TakeUntilEnd(tokens, pos).0| < |tokens| then Success(TakeUntilEnd(tokens, pos).1)
                     else Failure(MissingEnd(keyword))
      ensures keyword in {"$dumpall", "$dumpoff", "$dumpon", "$dumpvars"} ==> r == Success(pos)
    {
      match KeywordOf(keyword)
      case Some(CommentKw) =>
        r := DropDeclaration(keyword, tokens, pos);
      case Some(DateKw) =>
        var next := SaveDeclaration(keyword, tokens, pos);
        r := Success(next);
      case Some(TimescaleKw) =>
        var next := SaveDeclaration(keyword, tokens, pos);
        r := Success(next);
      case Some(VersionKw) =>
        var next := SaveDeclaration(keyword, tokens, pos);
        r := Success(next);
      case Some(EndKw) =>
        r := Failure(StrayEnd);
      case Some(DumpAllKw) =>
        r := Success(pos);
      case Some(DumpOffKw) =>
        r := Success(pos);
      case Some(DumpOnKw) =>
        r := Success(pos);
      case Some(DumpVarsKw) =>
        r := Success(pos);
      case Some(_) =>
        // `$scope`, `$upscope`, `$var` and `$enddefinitions` are excluded
        assert false;
      case None =>
        r := Failure(UnknownKeyword(keyword));
    }

    /** The handler of one definitions-section keyword (the keyword table of
        old/vcd/parser.py:44-60); it returns the position after what it consumed. */
    method Definition(keyword: string, tokens: seq<string>, pos: nat) returns (r: Result<nat, ParseError>)
      requires Valid() && pos <= |tokens|
      modifies this`scope, this`references, this`idOrder, this`saved, this`endOfDefinitions,
               this`watchers, this`watchedChanges
      ensures Valid()
      ensures |watchers| == |old(watchers)|
      ensures r.Success? ==> pos <= r.value <= |tokens|
      ensures endOfDefinitions == (old(endOfDefinitions) || keyword == "$enddefinitions")
      ensures keyword == "$end" ==> r == Failure(StrayEnd)
      ensures KeywordOf(keyword).None? ==> r == Failure(UnknownKeyword(keyword))
      // `$scope` and `$upscope` push and pop; nothing else touches the scope stack
      ensures keyword == "$scope" ==>
                scope == old(scope) + [TakeUntilEnd(tokens, pos).0] && r == Success(TakeUntilEnd(tokens, pos).1)
      ensures keyword == "$upscope" && old(scope) == [] ==> r == Failure(EmptyScope) && scope == old(scope)
      ensures keyword == "$upscope" && old(scope) != [] ==>
                scope == old(scope)[..|old(scope)| - 1] &&
                r == (if pos < |tokens| then Success(pos + 1) else Failure(MissingToken("$upscope")))
      ensures keyword != "$scope" && keyword != "$upscope" ==> scope == old(scope)
      // `$var` appends a declaration under its code; nothing else touches the tables
      ensures var data := TakeUntilEnd(tokens, pos).0;
        keyword == "$var" && |data| < 4 ==> r == Failure(ShortVar)
      ensures var data := TakeUntilEnd(tokens, pos).0;
        keyword == "$var" && |data| >= 4 ==>
          r == Success(TakeUntilEnd(tokens, pos).1) &&
          references == old(references)[data[2] := (if data[2] in old(references) then old(references)[data[2]] else [])
                                                    + [VarDeclaration(old(scope), data)]] &&
          idOrder == (if data[2] in old(references) then old(idOrder) else old(idOrder) + [data[2]])
      ensures keyword != "$var" || |TakeUntilEnd(tokens, pos).0| < 4 ==>
                references == old(references) && idOrder == old(idOrder)
      // `$date`, `$timescale` and `$version` keep their text; `$comment` is skipped
      ensures keyword in {"$date", "$timescale", "$version"} ==>
                saved == old(saved)[StripDollars(keyword) := Unwords(TakeUntilEnd(tokens, pos).0)] &&
                r == Success(TakeUntilEnd(tokens, pos).1)
      ensures keyword !in {"$date", "$timescale", "$version"} ==> saved == old(saved)
      ensures keyword == "$comment" ==>
                r == if pos + |TakeUntilEnd(tokens, pos).0| < |tokens| then Success(TakeUntilEnd(tokens, pos).1)
                     else Failure(MissingEnd(keyword))
      ensures keyword in {"$dumpall", "$dumpoff", "$dumpon", "$dumpvars"} ==> r == Success(pos)
      // `$enddefinitions` resolves the watchers and marks their watched ids unknown
      ensures keyword == "$enddefinitions" && pos + |TakeUntilEnd(tokens, pos).0| == |tokens| ==>
                r == Failure(MissingEnd("$enddefinitions")) && watchers == old(watchers) &&
                watchedChanges == old(watchedChanges)
      ensures var taken := TakeUntilEnd(tokens, pos); var res := Resolution(old(watchers));
        keyword == "$enddefinitions" && pos + |taken.0| < |tokens| ==>
          watchers == res.0 + old(watchers)[|res.0|..] &&
          watchedChanges == MarkUnknown(old(watchedChanges), WatchedIds(res.0)) &&
          r == (if res.1.None? then Success(taken.1) else Failure(res.1.value))
      ensures keyword == "$enddefinitions" && r.Success? ==>
                r.value == TakeUntilEnd(tokens, pos).1 &&
                (forall k :: 0 <= k < |watchers| ==> Resolved(watchers[k])) &&
                watchedChanges == MarkUnknown(old(watchedChanges), WatchedIds(watchers))
      ensures keyword != "$enddefinitions" ==> watchers == old(watchers) && watchedChanges == old(watchedChanges)
    {
      if keyword in {"$scope", "$upscope", "$var"} {
        r := ScopeDefinition(keyword, tokens, pos);
      } else if keyword == "$enddefinitions" {
        r := EndDefinitions(tokens, pos);
      } else {
        r := TextDefinition(keyword, tokens, pos);
      }
    }

    /** `extract` over a token sequence: definitions keywords are dispatched to their handlers
        until `$enddefinitions`, then value-change tokens by their first character. It returns
        the notifications made, in order, and the error that stopped it, if any. */
    method Extract(tokens: seq<string>) returns (d: Delivery)
      requires Valid()
      modifies this
      ensures Valid()
      ensures |watchers| == |old(watchers)|
      ensures forall i :: 0 <= i < |d.notes| ==> d.notes[i].watcher < |watchers|
    {
      var notes: seq<Notification> := [];
      var pos := 0;
      var count := 0;
      ghost var registered := |watchers|;
      while pos < |tokens|
        invariant Valid() && pos <= |tokens| && |watchers| == registered
        invariant forall i :: 0 <= i < |notes| ==> notes[i].watcher < registered
        decreases |tokens| - pos
      {
        var token := tokens[pos];
        pos := pos + 1;
        if !endOfDefinitions {
          var r := Definition(token, tokens, pos);
          if r.Failure? {
            return Delivery(notes, Some(r.error));
          }
          pos := r.value;
        } else {
          match Classify(token)
          case Skip =>
          case Time(t) =>
            ghost var before := (changes, watchedChanges, now);
            var step := UpdateTime(t);
            forall i | 0 <= i < |step.notes|
              ensures step.notes[i].watcher < registered
            {
              DeliveredTo(watchers, 0, before.0, before.1, before.2, i);
            }
            notes := notes + step.notes;
            if step.failure.Some? {
              return Delivery(notes, step.failure);
            }
          case ScalarChange(c, id) =>
            ScalarValueChange(c, id);
          case VectorChange(format, digits) =>
            if pos == |tokens| {
              return Delivery(notes, Some(MissingToken(token)));
            }
            VectorValueChange(format, digits, tokens[pos]);
            pos := pos + 1;
          case Unrecognised =>
            return Delivery(notes, Some(BadToken(token, count)));
        }
        count := count + 1;
      }
      return Delivery(notes, None);
    }
  }
}
