/**
 * The earlier extension of extension.ts: a plain label of its own, filled in
 * on every wall clock tick, replaces the date menu's clock display while the
 * extension is enabled.  The label and the tick handler id are kept in
 * nullable fields, and `enable` and `disable` each guard on them.
 */
module LegacyExtension {
  import opened Options
  import opened Shell
  import opened ClockLabel

  /** The host after enabling: `widget` is shown, and handler `id` listens to the wall clock. */
  function Enabled(s: Snapshot, widget: object, id: nat): (r: Snapshot)
    ensures r.labelActor == Custom(widget) && r.clockDisplayWidth == 0
    ensures r.labels == s.labels + {widget}
    ensures r.handlers == s.handlers + {id} && r.bindings == s.bindings
  {
    ShowLabel(s, widget).(handlers := s.handlers + {id})
  }

  /** The host after disabling: handler `id` is disconnected, `widget` is gone, and the display is back. */
  function Disabled(s: Snapshot, widget: object, id: nat): (r: Snapshot)
    ensures Pristine(r) && widget !in r.labels && id !in r.handlers
    ensures r.handlers == s.handlers - {id} && r.bindings == s.bindings
  {
    RestoreClockDisplay(s, widget).(handlers := s.handlers - {id})
  }

  /** Disabling after enabling leaves a pristine host as it was: nothing leaks. */
  lemma DisableUndoesEnable(s: Snapshot, widget: object, id: nat)
    requires Pristine(s) && widget !in s.labels && id !in s.handlers
    ensures Disabled(Enabled(s, widget, id), widget, id) == s
  {
    RestoreUndoesShow(s, widget);
    assert (s.handlers + {id}) - {id} == s.handlers;
  }

  /** A plain text label. */
  class PlainLabel {
    var text: string

    constructor()
      ensures text == ""
    {
      text := "";
    }
  }

  class UtcClockExtension {
    const host: DateMenu
    const format: Formatter
    var customLabel: PlainLabel?
    var clockNotifyId: Option<nat>
    /** The handler for changes of the clock format setting, connected once and never disconnected. */
    ghost var formatChangedId: nat

    ghost predicate Valid()
      reads this, host
    {
      && host.Valid()
      && formatChangedId in host.handlers
      && (customLabel == null <==> clockNotifyId.None?)
      && (customLabel != null ==>
            customLabel in host.labels && host.labelActor == Custom(customLabel) && host.clockDisplayWidth == 0)
      && (clockNotifyId.Some? ==> clockNotifyId.value in host.handlers && clockNotifyId.value != formatChangedId)
    }

    /** Creates the disabled extension and connects its handler for clock format changes. */
    constructor(host: DateMenu, format: Formatter)
      requires host.Valid()
      modifies host
      ensures Valid() && this.host == host && this.format == format
      ensures customLabel == null && clockNotifyId == None
      ensures formatChangedId !in old(host.handlers)
      ensures host.State() == old(host.State()).(handlers := old(host.handlers) + {formatChangedId})
      ensures host.wallClock == old(host.wallClock) && host.clockFormatSetting == old(host.clockFormatSetting)
    {
      this.host, this.format := host, format;
      customLabel, clockNotifyId := null, None;
      new;
      var id := host.Connect();
      formatChangedId := id;
    }

    /**
     * Shows the wall clock and the current UTC time in the custom label, if
     * there is one; without a label (the extension is disabled) it does
     * nothing.  It runs on every wall clock tick and on every change of the
     * clock format setting.
     */
    method UpdateLabel(now: Instant)
      modifies customLabel
      ensures customLabel != null ==>
                customLabel.text == Render(Some(host.wallClock), format(now, host.clockFormatSetting))
    {
      if customLabel != null {
        var utcNow := format(now, host.clockFormatSetting);
        var wallNow := host.wallClock;
        customLabel.text := wallNow + [EmSpace] + utcNow;
      }
    }

    /**
     * Creates, fills in and shows the custom label unless there is one, and
     * connects to wall clock ticks unless connected.
     */
    method Enable(now: Instant)
      requires Valid()
      modifies this, host
      ensures Valid()
      ensures old(customLabel) != null ==>
                && customLabel == old(customLabel) && clockNotifyId == old(clockNotifyId)
                && host.State() == old(host.State())
      ensures old(customLabel) == null ==>
                && customLabel != null && fresh(customLabel) && clockNotifyId.Some?
                && clockNotifyId.value !in old(host.handlers)
                && host.State() == Enabled(old(host.State()), customLabel, clockNotifyId.value)
                && customLabel.text == Render(Some(host.wallClock), format(now, host.clockFormatSetting))
      ensures host.wallClock == old(host.wallClock) && host.clockFormatSetting == old(host.clockFormatSetting)
      ensures formatChangedId == old(formatChangedId)
    {
      if customLabel == null {
        var widget := new PlainLabel();
        host.AddLabel(widget);
        customLabel := widget;
        UpdateLabel(now);
        host.clockDisplayWidth := 0;
        host.labelActor := Custom(widget);
      }
      if clockNotifyId == None {
        var id := host.Connect();
        clockNotifyId := Some(id);
      }
    }

    /**
     * Disconnects from wall clock ticks if connected, and restores the
     * original clock display and destroys the custom label if there is one.
     * The handler for clock format changes stays connected.
     */
    method Disable()
      requires Valid()
      modifies this, host
      ensures Valid() && customLabel == null && clockNotifyId == None
      ensures old(customLabel) == null ==> host.State() == old(host.State())
      ensures old(customLabel) != null ==>
                host.State() == Disabled(old(host.State()), old(customLabel), old(clockNotifyId).value)
      ensures host.wallClock == old(host.wallClock) && host.clockFormatSetting == old(host.clockFormatSetting)
      ensures formatChangedId == old(formatChangedId)
    {
      if clockNotifyId != None {
        host.Disconnect(clockNotifyId.value);
        clockNotifyId := None;
      }
      if customLabel != null {
        host.clockDisplayWidth := -1;
        host.labelActor := ClockDisplay;
        host.DestroyLabel(customLabel);
        customLabel := null;
      }
    }
  }
}
