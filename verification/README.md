# vcdparse in Dafny

vcdparse extracts bus transactions from a Value Change Dump (VCD) waveform, the format in
section 21.7 of IEEE 1800-2009. It is a one-way pipeline:

- A **parser** reads the definitions section: a scope stack, and a table from identifier code to
  hierarchical references. It then walks the value-change section. It collects the changes of
  one time step and, when the next `#time` arrives, notifies every registered **watcher** whose
  sensitive ids changed. The notification carries the changed sensitive values (the
  *activity*) and the watched values as they stood before the step.
- A **watcher** names the signals it is sensitive to and the signals it watches. It learns their
  ids once the definitions are read. It filters steps through a reset/clock state machine
  (`in_reset`), then drives its **trackers**.
- A **tracker** ANDs its control signals. When all are 1, it emits the line
  `@<time> <interface>: <name>=0x<hex> ...` over its payload signals.

The repository has two generations of this code. The older one is old/vcd/parser.py,
old/vcd/watcher.py, old/vcd/tracker.py and old/vcd.py. The current one is vcdparse.py on top of
vcd/tracker.py. The model keeps them apart, one module per file:

| module | file | form |
|---|---|---|
| `Wrappers` | — | `Option`, `Result` |
| `Signals` | shared | value datatype, 0/1 decoder, name qualification, `get_id` rule, hex rendering |
| `Lists` | shared | `list.remove` during iteration, as `manage_trackers` does it |
| `Parser` | old/vcd/parser.py | class `VcdParser` with maps, a scope stack and time fields; methods with loops |
| `OldTracker` | old/vcd/tracker.py | class `VcdTracker`; the name lookup as a function |
| `Watcher` | old/vcd/watcher.py | class `VcdWatcher`; the lookups as functions |
| `OldNode` | old/vcd.py | classes `NodeWatcher` and `NodeTracker`; reset gate `OldGate` |
| `NewTracker` | vcd/tracker.py | class `VcdTracker`; the name lookup as a function |
| `Vcdparse` | vcdparse.py | classes `NodeWatcher` and `NodeTracker`; reset gate `NewGate`; set-up of `main` |

Representation choices:

- Signal values are `Scalar(c)` for `c` in `01xXzZ`, or `Vector(format, digits)`.
- Python exceptions are `Failure(fault)` values of a `Result`.
- `eval` on a scalar is a total decoder. `0` and `1` decode. `x`/`X`/`z`/`Z` give
  `UndefinedName` (a NameError). A vector gives `NotScalar` where the source tests it against
  `"xXzZ"`.
- Reflective attribute reads (`__getattribute__`, `getattr(self, ctl)`, `self[ctl]`) are an
  explicit name → id → value lookup. A name that is not a signal reads the object's own
  attribute.
- Lines the trackers print are returned as strings.
- The parser keeps its watchers as `Subscription` values: a key, the names, and the resolved ids.
  `update_time` returns the notifications it makes, in order, rather than calling the
  watchers.
- A tracker's back-reference to its watcher is replaced by the watcher's lookup table, passed
  in.
- Python subclasses are flattened: each tracker or watcher class carries its base class's
  fields.

## Model

| member | source | states |
|---|---|---|
| Signals.TwoVal | old/vcd/watcher.py:153-170 | The scalar decoder, case by case and in both directions: no level when the id is absent, `Indeterminate` on x/X/z/Z, `NotScalar` on a vector, 1 on '1', 0 on '0'. |
| Signals.Qualify | old/vcd/watcher.py:101-102 | `hier + '.' + name`: the hierarchy, one dot, then the name, at known positions. |
| Signals.QualifyAll | vcdparse.py:40-41 | Every name is qualified, keeping the length and the order. |
| Signals.ResolveName | old/vcd/watcher.py:126-138 | A non-empty explicit hierarchy wins over the default one. With neither there is no id. With a non-empty explicit hierarchy, there is an id iff that qualified name is in the table, and it is the table's entry. Otherwise the same holds for a non-empty default hierarchy. |
| Signals.Delivered | old/vcd/tracker.py:57-59 | `values[id]` succeeds exactly when values were delivered and hold `id`. Otherwise it fails with `NoSnapshot` (nothing delivered) or `MissingValue` (KeyError). |
| Signals.Hex | vcdparse.py:121 | Lowercase hex digits. At least one digit, no leading zero, and "0" for zero. |
| Signals.HexRoundTrip | vcdparse.py:121 | The rendered hex reads back as the same number, so emitted payload values are exact. |
| Lists.RemoveFirst | old/vcd/watcher.py:73 | `list.remove` drops the first occurrence and keeps the rest in order: the result is the list before it, then the list after it. The length drops by one. |
| Lists.IndexOf | old/vcd/watcher.py:73 | The position `list.remove` finds: it holds the element, and no earlier position does. |
| Lists.RemoveFirstCount | old/vcd/watcher.py:73 | `list.remove` takes away exactly one copy of the element and nothing else (multisets). |
| Lists.SweepKeepsUnfinished | old/vcd/watcher.py:71-73 | Removing finished trackers while iterating only removes elements. Every unfinished tracker keeps all its occurrences. |
| Lists.SweepSkipsNeighbour | old/vcd/watcher.py:71-73 | Of two adjacent finished trackers, the second is skipped and stays in the list. |
| Lists.SweepMembers | old/vcd/watcher.py:71-73 | After the sweep, every tracker left was in the list before, and every unfinished tracker is still there. |
| Parser.Split | old/vcd/parser.py:79 | `xmr.split('.')`: at least one part, no part contains a dot, and joining the parts with '.' gives back the input. |
| Parser.SplitJoin | old/vcd/parser.py:79 | Splitting a '.'-join of dot-free parts gives back the parts. |
| Parser.XmrOf | old/vcd/parser.py:109-110 | The name of a reference is the '.'-join of its component names. It fails exactly when the reference is malformed. |
| Parser.WalkMatchedIff | old/vcd/parser.py:84-91 | The component walk of `get_id` matches iff the path is no longer than the reference and every path component equals the name at its depth. |
| Parser.XmrMatchesItsReference | old/vcd/parser.py:77-112 | The name `get_xmr` gives for a reference is matched by that reference in `get_id`'s walk. |
| Parser.FindIdFound | old/vcd/parser.py:81-93 | The id found is the first declared id whose first reference matches; every earlier id mismatches. |
| Parser.FindIdNoMatch | old/vcd/parser.py:81-95 | `get_id` fails with no match iff no declared id's first reference matches. |
| Parser.Classify | old/vcd/parser.py:191-202 | Dispatch on the first character of a value-change token: `$` skips, `#` is a time, `01xXzZ` a scalar change, `bB`/`rR` a vector change with a lowercase format. Anything else, or an empty token, is unrecognised (both directions). |
| Parser.Activity | old/vcd/parser.py:148-153 | The activity holds exactly the watcher's sensitive ids that changed, with their new values. |
| Parser.Snapshot | old/vcd/parser.py:156-158 | The values given to a watcher are exactly its watched ids with their stored values. |
| Parser.DeliveredTo | old/vcd/parser.py:147-160 | Each notification of a step goes to a resolved watcher at or after its position, one of whose sensitive ids changed (`update_needed`), and carries the step's time. |
| Parser.DeliveredNote | old/vcd/parser.py:147-160 | Each notification of a step goes to a resolved watcher at or after its position, one of whose sensitive ids changed. It carries the step's time, exactly that watcher's activity, and its watched values from before the step. |
| Parser.DeliveriesOrdered | old/vcd/parser.py:147-160 | Notifications are made in registration order, at most one per watcher. |
| Parser.DeliveriesSucceed | old/vcd/parser.py:147-160 | When every watcher is resolved, a step never fails. |
| Parser.DeliveriesComplete | old/vcd/parser.py:147-160 | With every watcher resolved, a watcher is notified iff one of its sensitive ids is among the changes. |
| Parser.Refresh | old/vcd/parser.py:168-173 | `update_watched_changes` adds no key, overwrites the ids that changed and keeps the others. |
| Parser.WatchedIdsCover | old/vcd/parser.py:222-225 | Every resolved watcher's watched ids are among the ids `$enddefinitions` marks. |
| Parser.MarkUnknown | old/vcd/parser.py:222-225 | The marked ids hold 'x' and the other entries are kept. |
| Parser.MarkUnknownTwice | old/vcd/parser.py:222-225 | Marking watcher by watcher equals marking the union at once. |
| Parser.CoveredAfter | old/vcd/parser.py:222-225 | After marking, every watcher's watched ids have a stored value. |
| Parser.TakeUntilEnd | old/vcd/parser.py:228-229 | `takewhile(x != "$end")`: a contiguous run of tokens, none of them `$end`. It consumes the `$end` when one follows. |
| Parser.VarDeclaration | old/vcd/parser.py:238-241 | A declaration keeps the type and the size from the `$var` data. Its reference is the current scope followed by `["var", name]`. |
| Parser.StripDollars | old/vcd/parser.py:214 | `lstrip('$')`: a suffix of the keyword, not starting with '$', and everything removed is '$'. |
| Parser.KeywordOf | old/vcd/parser.py:44-62 | The keyword table, entry by entry and in both directions: `$end`, `$enddefinitions`, `$var`, `$scope`, `$upscope` and `$comment` each map to their own handler; `$date`/`$timescale`/`$version` to the saving handler; the four `$dump` keywords to the empty one. No listed keyword is unknown. |
| Parser.IndexOfKey | old/vcd/parser.py:133 | The position of the first watcher with the key, or none when no watcher has it. |
| Parser.VcdParser.constructor | old/vcd/parser.py:42-74 | Empty scope, tables and changes; time "0"; no watchers; definitions not ended. |
| Parser.VcdParser.GetId | old/vcd/parser.py:77-95 | The loop over ids computes the first-match search, and the id found matches the split name. |
| Parser.VcdParser.MatchReference | old/vcd/parser.py:84-91 | The component loop with its `match` flag computes the walk. |
| Parser.VcdParser.GetXmr | old/vcd/parser.py:104-112 | Cached or not, the result is the '.'-join of the first reference, so repeated calls agree. A new name is stored in the cache; an unknown id fails and caches nothing. |
| Parser.VcdParser.ResolveAllSound | old/vcd/watcher.py:88-89 | `{xmr: get_id(xmr)}` succeeds iff every name resolves. It then maps exactly the given names to their ids; otherwise it fails with the first failing name's error. |
| Parser.VcdParser.RegisterWatcher | old/vcd/parser.py:125-128 | The watcher is appended to the list. |
| Parser.VcdParser.DeregisterWatcher | old/vcd/parser.py:131-133 | The first watcher with the key is removed and the rest is kept; an absent one fails and changes nothing. |
| Parser.VcdParser.ScalarValueChange | old/vcd/parser.py:115-117 | `changes[id]` becomes the scalar. |
| Parser.VcdParser.VectorValueChange | old/vcd/parser.py:120-122 | `changes[id]` becomes the (format, digits) pair. |
| Parser.VcdParser.UpdateWatchedChanges | old/vcd/parser.py:168-173 | The stored watched values are refreshed from the changes (see `Refresh`). |
| Parser.VcdParser.UpdateTime | old/vcd/parser.py:136-165 | The step makes the notifications of `Deliveries`, computed on the values from before the step. Then the watched values are refreshed, the changes are cleared, `then` becomes the old `now` and `now` the new time. |
| Parser.VcdParser.Scope | old/vcd/parser.py:228-229 | Pushes the tokens up to `$end` and continues after it. |
| Parser.VcdParser.Upscope | old/vcd/parser.py:232-234 | Pops exactly one entry and consumes one token. An empty stack or a missing token fails. |
| Parser.VcdParser.Var | old/vcd/parser.py:237-241 | Appends the declaration under its id code and keeps earlier ones. A new code joins the id order. Fewer than four fields fails and changes nothing. |
| Parser.VcdParser.SaveDeclaration | old/vcd/parser.py:213-215 | Stores the space-joined text up to `$end` under the keyword without its '$'. |
| Parser.VcdParser.DropDeclaration | old/vcd/parser.py:209-210 | Skips to just after `$end`; fails when there is none. |
| Parser.VcdParser.EndDefinitions | old/vcd/parser.py:218-225 | Ends the definitions. A missing `$end` fails with nothing resolved. With `$end` present, the watchers `Resolution` gets through take their ids, the others stay as they were, and every id the resolved ones watch is marked 'x'. It succeeds exactly when no lookup failed, and otherwise fails with the first failed lookup's error. On success every watcher is resolved. |
| Parser.VcdParser.Install | old/vcd/parser.py:222-225 | The `update_ids` calls and the marking: the watchers `Resolution` gets through take their ids, the others stay as they were, every id the resolved ones watch is marked 'x', and the error is `Resolution`'s. The parser's invariants still hold. |
| Parser.VcdParser.ResolveWatchers | old/vcd/parser.py:222-224 | The loop over the watchers is proved equal to `Resolution`: the same resolved watchers and the same error. |
| Parser.VcdParser.ResolutionSound | old/vcd/parser.py:222-224 | `update_ids` in registration order: a prefix of the watchers is resolved, each with the ids its names have now. It stops exactly at the first watcher with a name that has no id, with that watcher's sensitive lookup error, else its watched one. |
| Parser.VcdParser.ResolutionSucceeds | old/vcd/parser.py:222-224 | Every watcher is resolved exactly when every watcher's sensitive and watched names all have ids. |
| Parser.VcdParser.SplicedResolution | old/vcd/parser.py:222-225 | The watcher list after `$enddefinitions` holds the same watchers in the same order, and all of them are resolved when no lookup failed. |
| Parser.VcdParser.Definition | old/vcd/parser.py:44-62 | Dispatches a definitions keyword and states its effect per keyword. `$scope` pushes, `$upscope` pops or fails on an empty stack, `$var` appends its declaration. `$date`/`$timescale`/`$version` keep their text, `$comment` skips to `$end`, the `$dump` keywords consume nothing. `$enddefinitions` with its `$end` resolves the watchers as `Resolution` does, marks their watched ids 'x', and fails exactly with the first failed lookup. A stray `$end` and an unknown keyword fail. Each table is changed only by its own keyword. |
| Parser.VcdParser.ScopeDefinition | old/vcd/parser.py:228-241 | `$scope` pushes the tokens up to `$end`. `$upscope` pops one scope and consumes one token, or fails on an empty stack. `$var` appends its declaration under its code, keeping earlier ones, and fails on short data. The other tables are unchanged. |
| Parser.VcdParser.TextDefinition | old/vcd/parser.py:205-215 | `$date`/`$timescale`/`$version` keep their space-joined text under the name without `$`. `$comment` skips to `$end` or fails without one. The `$dump` keywords consume nothing. `$end` here and an unknown keyword fail. Only the saving keywords touch the saved texts. |
| Parser.VcdParser.Extract | old/vcd/parser.py:180-202 | Runs the token loop, keeping the parser's invariants. Every notification goes to a registered watcher. |
| OldTracker.Lookup | old/vcd/tracker.py:52-61 | `watcher` bypasses the lookup, and a name with no id is the own attribute. For a name with an id, the read succeeds iff values were delivered and hold that id, and gives that value. Otherwise it fails with `NoSnapshot` (nothing delivered) or `MissingValue`. |
| OldTracker.VcdTracker.constructor | old/vcd/tracker.py:42-49 | Not finished, zero triggers, no values. |
| OldTracker.VcdTracker.Notify | old/vcd/tracker.py:64-72 | One more trigger and the values are stored. The base `update` does nothing, so `finished` is unchanged. |
| Watcher.VcdWatcher.constructor | old/vcd/watcher.py:38-50 | Empty lists and tables, no hierarchy, no values. |
| Watcher.VcdWatcher.SetHierarchy | old/vcd/watcher.py:92-94 | Sets the default hierarchy. |
| Watcher.VcdWatcher.Prefix | old/vcd/watcher.py:99-100 | A non-empty explicit hierarchy, else the default one. |
| Watcher.VcdWatcher.AddSensitive | old/vcd/watcher.py:97-102 | The qualified name is appended to both lists. With no hierarchy it fails and changes nothing. |
| Watcher.VcdWatcher.AddWatching | old/vcd/watcher.py:105-109 | The qualified name is appended to the watched list only. |
| Watcher.VcdWatcher.UpdateIds | old/vcd/watcher.py:86-89 | Each table maps its names to `get_id` of them. The first failing lookup stops and leaves the remaining table as it was. |
| Watcher.VcdWatcher.Get2Val | old/vcd/watcher.py:153-160 | The decoder on the delivered values at `get_id(signal)`. A level of 0/1 is only read from a stored `'0'`/`'1'`. |
| Watcher.VcdWatcher.GetActive2Val | old/vcd/watcher.py:163-170 | The same decoder on the activity. |
| Watcher.VcdWatcher.Notify | old/vcd/watcher.py:52-60 | Stores activity and values, then manages the trackers as below. |
| Watcher.VcdWatcher.ManageTrackers | old/vcd/watcher.py:63-78 | No tracker is added. Each listed tracker gets one trigger per listing and the same activity and values. The list is then swept as `Sweep` says: only listed trackers remain, and all unfinished ones stay. |
| Watcher.VcdWatcher.NotifyTrackers | old/vcd/watcher.py:68-69 | The notifying loop: trigger counts grow by the number of listings. |
| Watcher.VcdWatcher.RemoveFinished | old/vcd/watcher.py:71-73 | The removing loop computes `Sweep`. |
| OldNode.Asserted | old/vcd.py:223 | `eval(v) == 1`: true iff '1', false iff '0', NameError iff x/X/z/Z, failure iff a vector. |
| OldNode.AndReduceTrue | old/vcd.py:220-226 | The AND of the controls is true iff every control is asserted. |
| OldNode.AndReduceFalse | old/vcd.py:220-226 | The AND is false iff some control is deasserted and every control before it is asserted. |
| OldNode.AndReduceFalseStops | old/vcd.py:220-226 | A false AND has a first deasserted control. |
| OldNode.FirstZeroFalse | old/vcd.py:220-226 | A first deasserted control, after asserted ones, makes the AND false. |
| OldNode.PayloadStep | old/vcd.py:230-232 | One more payload field: the signal's `v2d` value in hex, or the fault that stops the line. |
| OldNode.PayloadFailureStays | old/vcd.py:230-232 | The first payload fault is the fault of the whole line. |
| OldNode.PayloadSucceeds | old/vcd.py:230-232 | The payload renders iff every payload signal reads and decodes. |
| OldNode.OutcomeEmits | old/vcd.py:216-234 | A line is emitted iff the tracker is configured with a non-empty control list, every control is asserted, and every payload signal decodes. The line is `@now intf: ` plus the fields in order. |
| OldNode.OutcomeSilent | old/vcd.py:220-226 | A deasserted control, after asserted ones, means no line. |
| OldNode.NodeTracker.constructor | old/vcd/tracker.py:42-49 | Not finished, zero triggers, no values, not configured. |
| OldNode.NodeTracker.Configure | old/vcd.py:203-208 | Sets the interface name and fresh control and payload lists holding the given names. |
| OldNode.NodeTracker.AddControl | old/vcd.py:210-211 | Extends the control list. Before `configure` there is no list, so it fails. |
| OldNode.NodeTracker.AddPayload | old/vcd.py:213-214 | Extends the payload list. Before `configure` it fails. |
| OldNode.NodeTracker.Dump | old/vcd.py:228-233 | The string-building loop gives `Line` over the payload fields, or the first payload fault. |
| OldNode.NodeTracker.Update | old/vcd.py:216-234 | The counting loop gives the outcome characterised by `OutcomeEmits`/`OutcomeSilent`. |
| OldNode.NodeTracker.Notify | old/vcd/tracker.py:64-68 | One more trigger and the values are stored. The result is this tracker's `update` on those values. |
| OldNode.FedAll | old/vcd.py:55-56 | After the notifying loop, each tracker got one trigger per listing and holds the step's activity and values. |
| OldNode.CollectSucceeds | old/vcd.py:55-56 | The trackers' lines are collected iff no tracker failed. |
| OldNode.CollectAtMostOneEach | old/vcd.py:55-56 | At most one line per tracker notification. |
| OldNode.CollectFromResults | old/vcd.py:55-56 | Every collected line is some tracker's emitted line. |
| OldNode.ResultsInCollect | old/vcd.py:55-56 | Every emitted line is collected. |
| OldNode.OldGate | old/vcd.py:183-195 | The old reset/clock filter. A reset decode fault propagates. Reset 0 enters reset and drops the step. Reset 1 leaves reset. Trackers are driven iff the clock changed to 1 and the watcher is out of reset after the same step's reset change. A clock decode fault propagates whenever the step was not dropped. |
| OldNode.ReleaseAndClockDrive | old/vcd.py:190-195 | Reset rising together with a rising clock drives the trackers in the same call. |
| OldNode.NodeWatcher.constructor | old/vcd.py:165-173 | Per-instance empty lists, the given hierarchy, and out of reset. |
| OldNode.NodeWatcher.Prefix | old/vcd.py:86-87 | A non-empty explicit hierarchy, else the default one. |
| OldNode.NodeWatcher.AddSensitive | old/vcd.py:84-89 | The qualified name is appended to both lists; with no hierarchy it fails. |
| OldNode.NodeWatcher.AddWatching | old/vcd.py:92-96 | The qualified name is appended to the watched list only. |
| OldNode.NodeWatcher.AddSignals | old/vcd.py:175-181 | `sensitive` gains `[h.i_clk, h.i_reset_n]`. `watching` gains those two, then each signal in order. With no hierarchy it fails and changes nothing. |
| OldNode.NodeWatcher.WatchAll | old/vcd.py:180-181 | The loop appends every signal, qualified, in order. |
| OldNode.NodeWatcher.RegisterTracker | old/vcd.py:197-198 | The tracker is appended. |
| OldNode.NodeWatcher.UpdateIds | old/vcd.py:73-76 | Each table maps its names to the parser's `get_id`, stopping at the first failure. |
| OldNode.NodeWatcher.Get2Val | old/vcd.py:140-147 | The decoder on the delivered values. |
| OldNode.NodeWatcher.GetActive2Val | old/vcd.py:150-157 | The decoder on the activity. |
| OldNode.NodeWatcher.Notify | old/vcd.py:39-43 | Stores activity and values, then filters the step through `OldGate` on the delivered reset and clock. A fault or an undriven step returns the fault or no lines, with the tracker list and every tracker untouched. A driven step returns the trackers' lines in order. When it succeeds, every tracker was fed and the finished ones were removed; when it fails, the list is unchanged. |
| OldNode.NodeWatcher.Update | old/vcd.py:183-195 | The new `in_reset` and the drive decision are those of `OldGate`. A fault or an undriven step leaves the tracker list and every tracker untouched. A driven step returns the trackers' lines in order. When it succeeds, every tracker was fed and the finished ones were removed; when it fails, the list is unchanged. |
| OldNode.NodeWatcher.Deliver | old/vcd.py:41-42 | The delivered activity and values are stored; the trackers are not touched. |
| OldNode.NodeWatcher.Gate | old/vcd.py:186-194 | The branches of `update` compute exactly `OldGate` on the stored activity: the new `in_reset` and whether to drive. The trackers are not touched. |
| OldNode.NodeWatcher.Drive | old/vcd.py:194-195 | After the filter: a fault or an undriven step leaves everything untouched; a driven step is `manage_trackers`, with its lines, feeding and removal. |
| OldNode.NodeWatcher.ManageTrackers | old/vcd.py:50-60 | Every tracker is notified: its lines are collected in order and each gets one trigger per listing. On success the list is swept; a fault leaves the list as it was. |
| OldNode.NodeWatcher.NotifyTrackers | old/vcd.py:55-56 | The notifying loop gives the trackers' lines in order, and every tracker is fed. |
| OldNode.NodeWatcher.RemoveFinished | old/vcd.py:58-60 | The removing loop computes `Sweep`. |
| NewTracker.IdOf | vcd/tracker.py:29 | The watcher's id for a full name, present iff the name is in its table. |
| NewTracker.Lookup | vcd/tracker.py:25-33 | `parser`, `watcher` and `finished` bypass the lookup. A name with no (non-empty) id is the own attribute. Otherwise it reads `values[id]` exactly when it is there, with `NoSnapshot`/`MissingValue` as the faults. |
| NewTracker.VcdTracker.constructor | vcd/tracker.py:18-22 | Not finished, zero triggers, no values. |
| NewTracker.VcdTracker.Start | vcd/tracker.py:35-36 | The base `start` raises. |
| NewTracker.VcdTracker.Update | vcd/tracker.py:44-45 | The base `update` raises. |
| NewTracker.VcdTracker.Notify | vcd/tracker.py:38-42 | One more trigger and the values are stored, before the base `update` raises. |
| NewTracker.Create | vcd/tracker.py:18-23 | Constructing a base tracker fails, because `start` raises. |
| Vcdparse.NewGate | vcdparse.py:45-68 | The current reset/clock filter. An x/X/z/Z reset ends the step with no drive and `in_reset` kept. Reset 1 leaves reset. Reset 0 while in reset drops the step; reset 0 out of reset changes nothing. Driven iff the clock changed to 1 and the watcher is out of reset after the reset change, and the step was not dropped. A clock decode fault propagates whenever the step was neither ended nor dropped. |
| Vcdparse.GateVersionsDiffer | vcdparse.py:52-62 | On reset 0 out of reset the old filter enters reset and the new one drives. On an x reset the old one faults and the new one does not drive. |
| Vcdparse.NodeWatcher.constructor | vcdparse.py:34-43 | Starts in reset. Sensitive and watched names are stored as `hier.name`, in the order given. |
| Vcdparse.NodeWatcher.GetActive2Val | old/vcd/watcher.py:163-170 | The decoder on the activity at the full name's id. |
| Vcdparse.NodeWatcher.ShouldNotify | vcdparse.py:45-68 | The branching body computes `NewGate` on this step's reset and clock, and keeps its `in_reset`. |
| Vcdparse.SigNameRoundTrip | vcdparse.py:89-94 | `sig_name(hier + '.' + s) == s`. |
| Vcdparse.SigNameKeepsForeign | vcdparse.py:89-94 | A name that does not start with the hierarchy is returned unchanged. |
| Vcdparse.SigNameCutsSibling | vcdparse.py:89-94 | The prefix test does not check for a dot: `sig_name("top.u1.data")` under `top.u` is `".data"`. |
| Vcdparse.Level | vcdparse.py:105-108 | A tuple goes through `v2d`. A scalar goes through `eval`: 1 iff '1', 0 iff '0', NameError iff x/X/z/Z. |
| Vcdparse.AndReduceTrue | vcdparse.py:104-115 | The AND is true iff every control reads 1. |
| Vcdparse.AndReduceFalse | vcdparse.py:104-113 | The AND is false iff some control reads a number other than 1 and every control before it reads 1. |
| Vcdparse.FieldsStep | vcdparse.py:117-121 | One more payload field, named by `sig_name`, or the fault that stops the line. |
| Vcdparse.FieldsFailureStays | vcdparse.py:117-121 | The first payload fault is the fault of the line. |
| Vcdparse.FieldsSucceed | vcdparse.py:117-121 | The payload renders iff every payload signal reads and decodes. |
| Vcdparse.FieldsShowGivenNames | vcdparse.py:85-121 | Payload qualified by `add_payload` and stripped by `sig_name` shows the names as configured. |
| Vcdparse.OutcomeEmits | vcdparse.py:99-123 | A line is emitted iff configured with a non-empty control list, every control reads 1, and every payload decodes. It is `@now intf: ` plus the fields in order. |
| Vcdparse.OutcomeSilent | vcdparse.py:110-113 | A control that is not 1, after ones that are, means no line. |
| Vcdparse.OutcomeNamesPayload | vcdparse.py:116-121 | The emitted line lists the payload under the names given to `configure`. |
| Vcdparse.NodeTracker.constructor | vcd/tracker.py:18-23 | Not finished, zero triggers, no values, not configured. |
| Vcdparse.NodeTracker.Configure | vcdparse.py:73-79 | Sets the interface and hierarchy. Control and payload become the given names qualified by the hierarchy, in order. |
| Vcdparse.NodeTracker.AddControl | vcdparse.py:81-83 | Appends each name, qualified, in order. Before `configure` a non-empty list fails. |
| Vcdparse.NodeTracker.AddPayload | vcdparse.py:85-87 | The same, on the payload list. |
| Vcdparse.NodeTracker.Dump | vcdparse.py:116-122 | The string-building loop gives `Line` over the payload fields, or the first fault. |
| Vcdparse.NodeTracker.Update | vcdparse.py:99-123 | The counting loop gives the outcome characterised by `OutcomeEmits`/`OutcomeSilent`. |
| Vcdparse.NodeTracker.Notify | vcd/tracker.py:38-42 | One more trigger and the values are stored. The result is this tracker's `update`. |
| Vcdparse.Build | vcdparse.py:134-174 | For one record: clock and reset default to `i_clk`/`i_reset_n` unless overridden, and the watcher is sensitive to exactly `[clock, reset]`. It watches controls then payload, starts in reset, and holds one fresh tracker configured from the record. |
| Vcdparse.BuildAll | vcdparse.py:133-175 | One such watcher per record, in order. |

## Left out

- Command-line options, YAML loading, file reading, tokenising lines and logging. The parser
  starts from a token sequence. Configuration records are `Interface` values with every key
  present; `clock` and `reset` are optional.
- Printing: `show_nets`, `display`, the banner lines, the RESET messages and `print(dump)`.
  Tracker lines are returned instead.
- `v2d` is not part of this model. `Signals.V2D` is a stand-in (scalar 0/1, binary vectors)
  and nothing is claimed about it.
- The `VCDWatcher` and `VCDParser` classes of the current `vcd` package are not part of this
  model. The current `NodeWatcher` keeps only `should_notify` and its own fields. Its `get_id`
  is taken as a lookup of the full name in an id table, with the `get_active_2val` of
  old/vcd/watcher.py. How that table is filled, and how `should_notify` drives the trackers,
  are not modelled.
- vcdparse.py calls `NodeTracker(parser)` with one argument and reads `self[ctl]`. The
  tracker class shown supports neither, so both are modelled as the name lookup of
  `__getattribute__`, with the watcher's id table passed in.
- `create_new_tracker` and a `start_tracker` that returns true are not modelled. The base
  `start_tracker` returns false, so `manage_trackers` never adds a tracker.
- The class-level lists of old/vcd/watcher.py are shared between all instances. The model gives
  each watcher its own lists, as `BaseWatcher` of old/vcd.py does.
- Python 2 dictionary iteration order: `get_id` searches ids in the order of their first `$var`.
  Notifications, `values()` lists and id tables are otherwise unordered maps.
- `get_xmr` on an unknown id inserts an empty list into the `defaultdict` before failing. The
  model fails without changing the table.
- Errors raised as strings (`raise "..."`), the `defaultdict(self.parse_error)` factory, and
  `vcd_end`'s call to an undefined name are each a `Failure` value. `save_declaration`'s
  `__setattr__` is a `saved` map.
- `$dumpall`, `$dumpoff`, `$dumpon` and `$dumpvars` do nothing. `$`-tokens after the definitions
  are skipped.
- Times are kept as the token text after `#`, as the source keeps them.
- `raise NotImplemented` in vcd/tracker.py raises a TypeError in Python 3. It is modelled as
  the fault `NotOverridden`.
- OldNode.NodeWatcher.ManageTrackers: when a tracker's `update` raises, the trackers after it
  are not notified. The lines of earlier trackers, printed in the source, are not returned.
  The result is only the fault.
- Lists.SweepSkipsNeighbour: removing from the list while iterating may leave finished
  trackers in place. No contract claims that all finished trackers are removed.
- Parser.VcdParser.Extract: its contract states only that the parser's invariants hold and
  that notifications go to registered watchers. It does not state the whole token walk as one
  function. The effect of each keyword is stated by `Definition`, and that of a time step by
  `UpdateTime`; the other value-change steps are stated by their own methods.
- Parser.VcdParser.UpdateTime: `watcher.notify` (old/vcd/parser.py:160) is called without a
  guard. In the source an exception raised there ends the remaining notifications,
  `update_watched_changes`, the time advance and the parse. The model hands notifications out
  as values and always completes the step; a watcher's own fault is not modelled.
- Parser.VcdParser.RegisterWatcher: the model records the names a watcher is sensitive to and
  watches at registration. The source reads the watcher's lists only at `$enddefinitions`
  (`update_ids`, old/vcd/parser.py:222-225), so names added to a watcher after it registers are
  lost in the model.
