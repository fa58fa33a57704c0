/**
 * The extension of src/extension.ts: while enabled, a combined clock label
 * replaces the date menu's own clock display; disabling restores the display.
 */
module Extension {
  import opened Options
  import opened Shell
  import opened ClockLabel
  import Lifecycle

  /**
   * The host after enabling: `widget` is shown, and two bindings are live,
   * `settingsBinding` (clock format setting to label) and `binding` (wall
   * clock to label).
   */
  function Attached(s: Snapshot, widget: object, settingsBinding: nat, binding: nat): (r: Snapshot)
    ensures r.labelActor == Custom(widget) && r.clockDisplayWidth == 0
    ensures r.labels == s.labels + {widget}
    ensures r.bindings == s.bindings + {settingsBinding, binding} && r.handlers == s.handlers
  {
    ShowLabel(s, widget).(bindings := s.bindings + {settingsBinding, binding})
  }

  /**
   * The host after destroying the enabled state: the display is back,
   * `widget` is gone, and `bindings` are unbound; every other binding stays.
   */
  function Detached(s: Snapshot, widget: object, bindings: seq<nat>): (r: Snapshot)
    ensures Pristine(r) && widget !in r.labels
    ensures r.bindings <= s.bindings && r.handlers == s.handlers
    ensures forall b :: b in s.bindings ==> (b in r.bindings <==> b !in bindings)
  {
    RestoreClockDisplay(s, widget).(bindings := s.bindings - Elements(bindings))
  }

  /**
   * Disabling after enabling leaves a pristine host as it was, except for the
   * clock format binding: it was never tracked, so it is still live.
   */
  lemma DetachUndoesAttach(s: Snapshot, widget: object, settingsBinding: nat, binding: nat)
    requires Pristine(s) && widget !in s.labels
    requires binding !in s.bindings && settingsBinding !in s.bindings && settingsBinding != binding
    ensures Detached(Attached(s, widget, settingsBinding, binding), widget, [binding])
         == s.(bindings := s.bindings + {settingsBinding})
    ensures settingsBinding in Detached(Attached(s, widget, settingsBinding, binding), widget, [binding]).bindings
  {
    assert [binding][0] == binding;
    assert Elements([binding]) == {binding};
    RestoreUndoesShow(s, widget);
    assert (s.bindings + {settingsBinding, binding}) - {binding} == s.bindings + {settingsBinding};
  }

  /** No element occurs twice in `s`. */
  ghost predicate Distinct<T>(s: seq<T>) {
    forall i, j :: 0 <= i < j < |s| ==> s[i] != s[j]
  }

  /** The state of the enabled extension. */
  class EnabledExtension {
    const host: DateMenu
    const clockLabel: CombinedUtcClockLabel
    /** Property bindings to unbind upon destruction. */
    var bindings: seq<nat>
    /** The binding of the clock format setting to the label; it is not in `bindings`. */
    ghost var settingsBinding: nat

    ghost predicate Valid()
      reads this, host
    {
      && host.Valid()
      && clockLabel in host.labels
      && host.labelActor == Custom(clockLabel)
      && host.clockDisplayWidth == 0
      && Distinct(bindings)
      && (forall i :: 0 <= i < |bindings| ==> bindings[i] in host.bindings)
      && settingsBinding in host.bindings
      && (forall i :: 0 <= i < |bindings| ==> bindings[i] != settingsBinding)
    }

    /**
     * Creates the label, binds the clock format setting and the wall clock's
     * text to it, hides the original clock display and makes the label the
     * label actor.  Only the wall clock binding is tracked in `bindings`.
     */
    constructor(host: DateMenu, format: Formatter, now: Instant)
      requires host.Valid()
      modifies host
      ensures this.host == host && Valid()
      ensures fresh(clockLabel) && clockLabel.Valid() && clockLabel.format == format
      ensures clockLabel.wallClock == None && clockLabel.clockFormat == DefaultClockFormat
      ensures |bindings| == 1 && bindings[0] !in old(host.bindings)
      ensures settingsBinding !in old(host.bindings) && settingsBinding != bindings[0]
      ensures host.State() == Attached(old(host.State()), clockLabel, settingsBinding, bindings[0])
      ensures host.wallClock == old(host.wallClock) && host.clockFormatSetting == old(host.clockFormatSetting)
    {
      this.host := host;
      var widget := new CombinedUtcClockLabel(format, now);
      clockLabel := widget;
      new;
      host.AddLabel(widget);
      settingsBinding := host.Bind();
      var binding := host.Bind();
      bindings := [binding];
      host.clockDisplayWidth := 0;
      host.labelActor := Custom(widget);
    }

    /**
     * Unbinds every binding, last first, destroys the label, and restores the
     * original clock display as the label actor.  `unbound` are the bindings
     * unbound, in order.
     */
    method Destroy() returns (unbound: seq<nat>)
      requires Valid()
      modifies this, host
      ensures bindings == [] && unbound == Lifecycle.Reversed(old(bindings))
      ensures host.State() == Detached(old(host.State()), clockLabel, old(bindings))
      ensures host.Valid() && settingsBinding in host.bindings
      ensures host.wallClock == old(host.wallClock) && host.clockFormatSetting == old(host.clockFormatSetting)
    {
      unbound := [];
      while 0 < |bindings|
        invariant |unbound| + |bindings| == |old(bindings)|
        invariant bindings == old(bindings)[..|bindings|]
        invariant unbound == Lifecycle.Reversed(old(bindings))[..|unbound|]
        invariant Distinct(bindings)
        invariant forall i :: 0 <= i < |bindings| ==> bindings[i] in host.bindings
        invariant forall i :: 0 <= i < |bindings| ==> bindings[i] != settingsBinding
        invariant settingsBinding in host.bindings
        invariant host.bindings == old(host.bindings) - Elements(old(bindings)[|bindings|..])
        invariant host.Valid() && host.nextHandle == old(host.nextHandle)
        invariant host.State() == old(host.State()).(bindings := host.bindings)
        invariant host.wallClock == old(host.wallClock) && host.clockFormatSetting == old(host.clockFormatSetting)
        decreases |bindings|
      {
        var binding := bindings[|bindings| - 1];
        bindings := bindings[..|bindings| - 1];
        host.Unbind(binding);
        assert (unbound + [binding])[..|unbound|] == unbound;
        unbound := unbound + [binding];
        assert old(bindings)[|bindings|..] == [binding] + old(bindings)[|bindings| + 1..];
      }
      assert old(bindings)[|bindings|..] == old(bindings);
      host.DestroyLabel(clockLabel);
      host.clockDisplayWidth := -1;
      host.labelActor := ClockDisplay;
    }
  }

  /** The extension: enabled exactly when it holds an `EnabledExtension`. */
  class UtcClockExtension {
    const host: DateMenu
    const format: Formatter
    var enabledExtension: EnabledExtension?

    ghost predicate Valid()
      reads this, host, enabledExtension
    {
      && host.Valid()
      && (enabledExtension != null ==> enabledExtension.host == host && enabledExtension.Valid())
    }

    constructor(host: DateMenu, format: Formatter)
      requires host.Valid()
      ensures Valid() && this.host == host && this.format == format && enabledExtension == null
    {
      this.host, this.format := host, format;
      enabledExtension := null;
    }

    /** Creates the enabled state unless the extension is enabled already. */
    method Enable(now: Instant)
      requires Valid()
      modifies this, host
      ensures Valid()
      ensures old(enabledExtension) != null ==>
                enabledExtension == old(enabledExtension) && host.State() == old(host.State())
      ensures old(enabledExtension) == null ==>
                && enabledExtension != null && fresh(enabledExtension) && fresh(enabledExtension.clockLabel)
                && |enabledExtension.bindings| == 1
                && enabledExtension.settingsBinding !in old(host.bindings)
                && enabledExtension.settingsBinding != enabledExtension.bindings[0]
                && host.State() == Attached(old(host.State()), enabledExtension.clockLabel,
                                            enabledExtension.settingsBinding, enabledExtension.bindings[0])
    {
      if enabledExtension == null {
        enabledExtension := new EnabledExtension(host, format, now);
      }
    }

    /** Destroys the enabled state, if there is one, and forgets it. */
    method Disable()
      requires Valid()
      modifies this, host, enabledExtension
      ensures Valid() && enabledExtension == null
      ensures old(enabledExtension) == null ==> host.State() == old(host.State())
      ensures old(enabledExtension) != null ==>
                && host.State() == Detached(old(host.State()), old(enabledExtension.clockLabel), old(enabledExtension.bindings))
                && old(enabledExtension.settingsBinding) in host.bindings
    {
      if enabledExtension != null {
        var unbound := enabledExtension.Destroy();
        enabledExtension := null;
      }
    }
  }
}
