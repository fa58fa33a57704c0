/**
 * The parts of the desktop shell that the extensions touch: the date menu
 * button in the top bar, with its original clock display, its wall clock and
 * the extension's settings.  The shell is a fixed host whose internals are
 * not modelled; only what the extensions read and change is kept: which actor
 * is the button's `label_actor`, the width of the original clock display, the
 * live property bindings, the connected signal handlers, and the labels the
 * extensions created and have not destroyed yet.
 */
module Shell {

  /** The actor the date menu button announces as its label. */
  datatype Actor = ClockDisplay | Custom(widget: object)

  /** A snapshot of the host state the extensions change. */
  datatype Snapshot = Snapshot(
    labelActor: Actor,
    clockDisplayWidth: int,
    bindings: set<nat>,
    handlers: set<nat>,
    labels: set<object>)

  /** The host as the shell sets it up: its own clock display, at its natural width (-1), is the label. */
  predicate Pristine(s: Snapshot) {
    s.labelActor == ClockDisplay && s.clockDisplayWidth == -1
  }

  /** `widget` hides the original clock display (width 0) and becomes the label actor. */
  function ShowLabel(s: Snapshot, widget: object): Snapshot {
    s.(labelActor := Custom(widget), clockDisplayWidth := 0, labels := s.labels + {widget})
  }

  /** `widget` is destroyed, and the original clock display is shown (width -1) and made the label actor again. */
  function RestoreClockDisplay(s: Snapshot, widget: object): Snapshot {
    s.(labelActor := ClockDisplay, clockDisplayWidth := -1, labels := s.labels - {widget})
  }

  /** Restoring the clock display undoes showing a new label on a pristine host. */
  lemma RestoreUndoesShow(s: Snapshot, widget: object)
    requires Pristine(s) && widget !in s.labels
    ensures RestoreClockDisplay(ShowLabel(s, widget), widget) == s
  {
  }

  /** The set of the elements of `s`. */
  function Elements<T>(s: seq<T>): set<T> {
    set i | 0 <= i < |s| :: s[i]
  }

  class DateMenu {
    var labelActor: Actor
    var clockDisplayWidth: int
    var bindings: set<nat>
    var handlers: set<nat>
    var labels: set<object>
    /** The next handle the host gives out; handles are never reused. */
    var nextHandle: nat
    /** The `clock` property of the wall clock: the time text the shell shows. */
    var wallClock: string
    /** The extension's `clock-format` setting. */
    var clockFormatSetting: string

    ghost predicate Valid()
      reads this
    {
      && (forall b :: b in bindings ==> b < nextHandle)
      && (forall h :: h in handlers ==> h < nextHandle)
    }

    ghost function State(): Snapshot
      reads this
    {
      Snapshot(labelActor, clockDisplayWidth, bindings, handlers, labels)
    }

    constructor(wallClock: string, clockFormatSetting: string)
      ensures Valid() && Pristine(State())
      ensures bindings == {} && handlers == {} && labels == {}
      ensures this.wallClock == wallClock && this.clockFormatSetting == clockFormatSetting
    {
      labelActor, clockDisplayWidth := ClockDisplay, -1;
      bindings, handlers, labels := {}, {}, {};
      nextHandle := 0;
      this.wallClock, this.clockFormatSetting := wallClock, clockFormatSetting;
    }

    /** A label was created: it is alive until it is destroyed. */
    method AddLabel(widget: object)
      requires widget !in labels
      modifies this`labels
      ensures labels == old(labels) + {widget}
    {
      labels := labels + {widget};
    }

    /** `destroy()` on a label. */
    method DestroyLabel(widget: object)
      requires widget in labels
      modifies this`labels
      ensures labels == old(labels) - {widget}
    {
      labels := labels - {widget};
    }

    /**
     * `bind_property` or `Gio.Settings.bind`: a new live binding.  The host
     * drops a settings binding only when its target object is finalised.
     */
    method Bind() returns (binding: nat)
      requires Valid()
      modifies this`bindings, this`nextHandle
      ensures Valid()
      ensures binding !in old(bindings) && bindings == old(bindings) + {binding}
    {
      binding := nextHandle;
      bindings := bindings + {binding};
      nextHandle := nextHandle + 1;
    }

    /** `binding.unbind()`: a binding may be unbound once only. */
    method Unbind(binding: nat)
      requires binding in bindings
      modifies this`bindings
      ensures bindings == old(bindings) - {binding}
    {
      bindings := bindings - {binding};
    }

    /** `connect`: a new handler id. */
    method Connect() returns (id: nat)
      requires Valid()
      modifies this`handlers, this`nextHandle
      ensures Valid()
      ensures id !in old(handlers) && handlers == old(handlers) + {id}
    {
      id := nextHandle;
      handlers := handlers + {id};
      nextHandle := nextHandle + 1;
    }

    /** `disconnect(id)`: only a connected handler may be disconnected. */
    method Disconnect(id: nat)
      requires id in handlers
      modifies this`handlers
      ensures handlers == old(handlers) - {id}
    {
      handlers := handlers - {id};
    }
  }
}
