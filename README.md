# UTC clock extension: lifecycle, enable/disable and clock label model

A Dafny model of the bookkeeping in a GNOME Shell extension that shows a UTC
clock next to the desktop's wall clock in the top bar's date menu button.
Three pieces are modelled:

- **Resource lifecycle** (`lifecycle.dfy`, module `Lifecycle`): `BindingTracker`
  and `Destroyer`, stacks of handles that are drained last-first on `destroy`,
  and `initializeSafely`, which rolls back a partial initialisation and rethrows.
  A `Destroyer` keeps going when one item's `destroy` throws; a
  `BindingTracker` stops at the first `unbind` that throws and propagates it.
- **Combined clock label** (`label.dfy`, module `ClockLabel`): a label with a
  nullable wall clock text and a clock format, whose text is always
  `(wallClock ?? "") + U+2003 + format(now, clockFormat)`. The class in
  src/lib/label.ts and the copy written out in src/extension.ts:33-97 are the
  same code, so it is modelled once; both extensions' text rules use its
  `Render`.
- **Enable/disable state machines** (`extension.dfy`, module `Extension`, for
  src/extension.ts; `legacy_extension.dfy`, module `LegacyExtension`, for the
  older extension.ts). The host is the date menu button (`shell.dfy`, module
  `Shell`, class `DateMenu`). It has a label actor, the width of the original
  clock display, the live property bindings, the connected signal handlers,
  and the live labels the extensions created. Enabling shows our label and
  disabling restores the host. Both are guarded, so repeating either changes
  nothing. Lemmas show that a disable after an enable leaves a pristine host
  as it was. The one exception is in src/extension.ts: the binding of the
  clock format setting to the label is never tracked, so it is still live
  after disable.

Foreign behaviour is passed in as parameters:

- the instant read from the UTC clock is `now`;
- the date formatting function is a `Formatter` value;
- whether an item's `destroy` or a binding's `unbind` throws is given by the set `failing`;
- an `initialize` callback is an `Initializer`: the items it registers, in order, and the error it throws, if any.

Each `destroy` returns the sequence of calls it made, in order.
Host operations (`bind_property`, `unbind`, `connect`, `disconnect`, label
creation and `destroy`) are methods of `DateMenu` that hand out fresh handles
and require a handle to be live before it is released, so the model also
shows that nothing is unbound or disconnected twice.

## Model

| member | source | states |
|---|---|---|
| `Lifecycle.Reversed` | src/lib/common/lifecycle.ts:40-45 | Draining a stack by repeated `pop` visits its items last-first: item `i` of the result is item `n-1-i` of the stack, and the length is the same |
| `Lifecycle.ReversedIsPermutation` | src/lib/common/lifecycle.ts:61-70 | Draining calls every registered item exactly once (same multiset) |
| `Lifecycle.LastRegisteredDrainedFirst` | src/lib/common/lifecycle.ts:56-70 | The item added last is the first one destroyed, followed by the earlier items in reverse order |
| `Lifecycle.Caught` | src/lib/common/lifecycle.ts:63-68 | The errors caught by `Destroyer.destroy` belong to destroyed items whose `destroy` threw, and every such item's error is caught; there are no more of them than destroyed items |
| `Lifecycle.CaughtOne` | src/lib/common/lifecycle.ts:64-68 | One destroyed object's error is caught exactly when its `destroy` throws |
| `Lifecycle.CaughtAppend` | src/lib/common/lifecycle.ts:63-69 | Errors are caught in destruction order, each once: the caught errors of a run of destructions are those of its first part followed by those of the rest |
| `Lifecycle.Drain` | src/lib/common/lifecycle.ts:40-45 | What `BindingTracker.destroy` does to a stack: each binding is either unbound or still tracked, and a propagated error is that of a binding whose `unbind` throws |
| `Lifecycle.DrainSplitsStack` | src/lib/common/lifecycle.ts:40-45 | `BindingTracker.destroy` splits the stack into a kept prefix and the unbound suffix in reverse order. Without an error, nothing stays tracked and no `unbind` threw. With one, the error comes from the last `unbind` called, every earlier `unbind` succeeded, and the earlier-registered bindings stay tracked |
| `Lifecycle.DrainErrorComesFromStack` | src/lib/common/lifecycle.ts:41-44 | An error that `BindingTracker.destroy` propagates is the error of the `unbind` call on a binding that was tracked |
| `Lifecycle.DrainWithoutFailure` | src/lib/common/lifecycle.ts:40-45 | When no `unbind` throws, every binding is unbound once, last first, nothing stays tracked and no error propagates |
| `Lifecycle.DrainAgainAfterSuccess` | src/lib/common/lifecycle.ts:40-45 | After a `destroy` that returned normally, a second `destroy` unbinds nothing |
| `Lifecycle.BindingTracker.constructor` | src/lib/common/lifecycle.ts:33 | A new tracker tracks nothing |
| `Lifecycle.BindingTracker.Add` | src/lib/common/lifecycle.ts:35-38 | Returns the binding it was given and pushes it at the end of the tracked list; nothing else changes |
| `Lifecycle.BindingTracker.Destroy` | src/lib/common/lifecycle.ts:40-45 | The calls made, the bindings left tracked and the propagated error are exactly those of `Drain` on the old stack |
| `Lifecycle.Destroyer.constructor` | src/lib/common/lifecycle.ts:54 | A new destroyer tracks nothing |
| `Lifecycle.Destroyer.Add` | src/lib/common/lifecycle.ts:56-59 | Returns the object it was given and pushes it at the end of the tracked list; nothing else changes |
| `Lifecycle.Destroyer.Destroy` | src/lib/common/lifecycle.ts:61-70 | Calls `destroy` on every tracked object in reverse registration order, whichever of them throw. Returns normally with nothing tracked, and reports the caught errors as `Caught` |
| `Lifecycle.InitializeSafely` | src/lib/common/lifecycle.ts:84-96 | On success it returns a fresh destroyer holding exactly what `initialize` registered, in order, and destroys nothing. On failure it destroys everything registered, last first, and throws the same error again, whichever `destroy` calls throw |
| `ClockLabel.Render` | src/lib/label.ts:88-89 | The text is the wall clock part (`""` for a null wall clock), then one U+2003 at the position right after it, then the formatted UTC time |
| `ClockLabel.Split` | src/lib/label.ts:85-90 | Reads a label text back: a text has parts exactly when it contains U+2003; the parts are the text before the first U+2003 and the text after it |
| `ClockLabel.SplitRender` | src/lib/label.ts:88-89 | The text has the separator right after the wall clock part (`""` for a null wall clock). Splitting gives back the wall clock text and the formatted UTC time when the wall clock text holds no U+2003 |
| `ClockLabel.SeparatorCount` | src/lib/label.ts:89 | The text holds exactly one U+2003 more than its two parts together, so exactly one when neither part holds one |
| `ClockLabel.MissingWallClockStartsWithSeparator` | src/lib/label.ts:88-89 | A null wall clock renders as an empty prefix: the text is U+2003 followed by the UTC part |
| `ClockLabel.CombinedUtcClockLabel.constructor` | src/lib/label.ts:48-56 | A new label has a null wall clock and the clock format `"%H:%M"`, and its text already shows them |
| `ClockLabel.CombinedUtcClockLabel.GetWallClock` | src/lib/label.ts:61-63 | Returns the stored wall clock, the value the last `SetWallClock` stored |
| `ClockLabel.CombinedUtcClockLabel.SetWallClock` | src/lib/label.ts:65-68 | Stores the wall clock, keeps the clock format, and the text shows the new wall clock with the UTC time of this call |
| `ClockLabel.CombinedUtcClockLabel.GetClockFormat` | src/lib/label.ts:73-75 | Returns the stored clock format, the value the last `SetClockFormat` stored |
| `ClockLabel.CombinedUtcClockLabel.SetClockFormat` | src/lib/label.ts:77-80 | Stores the clock format, keeps the wall clock, and the text shows the UTC time of this call in the new format |
| `ClockLabel.CombinedUtcClockLabel.UpdateClock` | src/lib/label.ts:85-90 | Re-establishes the label invariant: text = `(wallClock ?? "")` + U+2003 + `format(now, clockFormat)` |
| `Extension.Attached` | src/extension.ts:129-156 | After enabling, our label is the label actor and a live label, the original display has width 0, exactly two new bindings are live, and the handlers are unchanged |
| `Extension.Detached` | src/extension.ts:168-176 | After destroying the enabled state, the host is pristine again (original display as label actor, width -1) and our label is gone. Exactly the tracked bindings are released; every other binding stays live |
| `Extension.DetachUndoesAttach` | src/extension.ts:129-176 | Destroying an enabled state restores a pristine host: label actor, display width and live labels. The bindings are restored except the clock format binding, which is still live |
| `Extension.EnabledExtension.constructor` | src/extension.ts:129-156 | Creates a fresh label and two fresh live bindings: the clock format setting binding, which is not tracked, and the wall clock binding, the only entry of `bindings`. Sets the original display width to 0 and makes the label the `label_actor` |
| `Extension.EnabledExtension.Destroy` | src/extension.ts:168-176 | Unbinds every tracked binding once, last first, and leaves none tracked. Destroys the label, sets the display width to -1 and makes the original display the `label_actor` again. The clock format binding stays live |
| `Extension.UtcClockExtension.constructor` | src/extension.ts:186 | A new extension is disabled |
| `Extension.UtcClockExtension.Enable` | src/extension.ts:194-198 | Creates an enabled state only when there is none; enabling again changes nothing |
| `Extension.UtcClockExtension.Disable` | src/extension.ts:205-212 | When enabled, destroys the enabled state and forgets it, and the clock format binding stays live; when disabled, changes nothing |
| `LegacyExtension.Enabled` | extension.ts:62-86 | After enabling, the custom label is the label actor and a live label, the original display has width 0, exactly one new handler is connected, and the bindings are unchanged |
| `LegacyExtension.Disabled` | extension.ts:88-101 | After disabling, the host is pristine again (original display as label actor, width -1). The custom label is gone, its tick handler is disconnected, and all other handlers and bindings are unchanged |
| `LegacyExtension.DisableUndoesEnable` | extension.ts:62-101 | Disabling after enabling restores a pristine host exactly: label actor, display width, connected handlers and live labels |
| `LegacyExtension.UtcClockExtension.constructor` | extension.ts:39-43 | Starts with no custom label and no tick handler, and connects a fresh handler for clock format changes |
| `LegacyExtension.UtcClockExtension.UpdateLabel` | extension.ts:53-60 | With a custom label, sets its text to the wall clock, U+2003 and the formatted UTC time; without one (disabled) changes nothing |
| `LegacyExtension.UtcClockExtension.Enable` | extension.ts:62-86 | Only when there is no custom label: creates, fills in and shows one (width 0, `label_actor`) and connects one fresh tick handler. Otherwise it changes nothing, so there is never a second label or connection |
| `LegacyExtension.UtcClockExtension.Disable` | extension.ts:88-101 | Disconnects the stored tick handler and forgets its id. Restores width -1 and the original `label_actor`, then destroys the label and forgets it. Already disabled: changes nothing. The format handler stays connected |

## Left out

- Reading the UTC clock (`GLib.DateTime.new_now_utc`) and formatting (`DateTime.format`): the instant is a parameter and the formatter an uninterpreted function value.
- Property propagation by `Gio.Settings.bind` and `bind_property` (with `SYNC_CREATE`): the model creates both bindings as live host handles but does not carry values through them. In the model the enabled label keeps its initial wall clock and format. In the shell the bindings then set them through the setters, whose contracts cover that.
- Finalisation of objects: the host drops a `Gio.Settings.bind` binding only when its target object is finalised (garbage-collected), not when the label's `destroy()` is called. The model has no garbage collection, so after `disable` the clock format binding of src/extension.ts:132-137 stays live, and each enable/disable cycle leaves one more such binding.
- Signal dispatch: handlers are ids that are connected and disconnected. Nothing calls them; a tick or a format change corresponds to a call of `UpdateLabel`.
- Widget plumbing: label construction properties, `add_style_class_name`, `y_align`, and `insert_child_below` under the display's (optional) parent. Creating a label adds it to the host's live labels and `destroy` removes it.
- GObject class registration and the `ParamSpec` metadata of the label's properties.
- The message and arguments logged by `console.error` in `Destroyer.destroy`. Only which objects' errors were caught is reported.
- `getSettings()`: the clock format setting and the wall clock's `clock` property are fields of the host.
- Host internals (`Main.panel.statusArea.dateMenu`, `_clock`, `_clockDisplay`) are abstract fields of `DateMenu`. The host does not throw, and a binding's lifetime in the host beyond `unbind` is not modelled.
- `Lifecycle.InitializeSafely`: `initialize` only calls `add` on the destroyer it gets, and then returns or throws. A callback that does anything else with the destroyer is not modelled.
- `Lifecycle.BindingTracker.Destroy`, `Lifecycle.Destroyer.Destroy`: the `while ((x = pop()))` loops also stop at a falsy item. Tracked items are objects and never falsy, so the model stops only at the empty stack.
- `LegacyExtension.UtcClockExtension.Enable`, `LegacyExtension.UtcClockExtension.Disable`: `enable` guards the label and the tick handler separately. The model keeps both guards, but its contract covers only the states the class can reach, where both are set or both are unset.
- The preferences windows (`prefs.ts`, `src/prefs.ts`, `src/lib/prefs/clock_page.ts`): window assembly over the toolkit. Their only logic, showing an empty preview for an empty format, relies on the same foreign formatting.
