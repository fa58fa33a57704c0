/**
 * Resource lifecycle bookkeeping of src/lib/common/lifecycle.ts.
 *
 * A `BindingTracker` and a `Destroyer` are stacks of handles: `add` pushes a
 * handle and `destroy` pops them one by one, last registered first, calling
 * `unbind` or `destroy` on each.  The handles themselves are foreign objects,
 * so they are values of an arbitrary type `T`; whether the call on a handle
 * throws is given by the set `failing` of handles whose call throws.  Each
 * `destroy` returns the sequence of calls it made, in order.
 */
module Lifecycle {
  import opened Options

  /** `s` in reverse order: the order in which a stack holding `s` is drained. */
  function Reversed<T>(s: seq<T>): (r: seq<T>)
    ensures |r| == |s|
    ensures forall i :: 0 <= i < |s| ==> r[i] == s[|s| - 1 - i]
  {
    if s == [] then [] else [s[|s| - 1]] + Reversed(s[..|s| - 1])
  }

  /** Draining a stack calls every item exactly once. */
  lemma {:induction false} ReversedIsPermutation<T>(s: seq<T>)
    ensures multiset(Reversed(s)) == multiset(s)
  {
    if s != [] {
      var init := s[..|s| - 1];
      ReversedIsPermutation(init);
      assert s == init + [s[|s| - 1]];
    }
  }

  /** The item registered last is the first one drained; the rest follow in reverse order. */
  lemma LastRegisteredDrainedFirst<T>(s: seq<T>, x: T)
    ensures Reversed(s + [x]) == [x] + Reversed(s)
  {
    assert (s + [x])[..|s|] == s;
  }

  /** Draining the reverse of a drained stack gives back the registration order. */
  lemma ReversedTwice<T>(s: seq<T>)
    ensures Reversed(Reversed(s)) == s
  {
  }

  /**
   * The items of `destroyed` whose `destroy` threw, in the order in which the
   * errors were caught.
   */
  function Caught<T>(destroyed: seq<T>, failing: set<T>): (r: seq<T>)
    ensures |r| <= |destroyed|
    ensures forall i :: 0 <= i < |r| ==> r[i] in destroyed && r[i] in failing
    ensures forall i :: 0 <= i < |destroyed| && destroyed[i] in failing ==> destroyed[i] in r
  {
    if destroyed == [] then []
    else
      var last := destroyed[|destroyed| - 1];
      Caught(destroyed[..|destroyed| - 1], failing) + (if last in failing then [last] else [])
  }

  /** A single destroyed object is caught exactly when its `destroy` throws. */
  lemma CaughtOne<T>(x: T, failing: set<T>)
    ensures Caught([x], failing) == if x in failing then [x] else []
  {
    assert [x][..0] == [];
  }

  /**
   * Errors are caught in destruction order, each once: the errors of a run
   * of destructions are those of its first part followed by those of the rest.
   */
  lemma {:induction false} CaughtAppend<T>(a: seq<T>, b: seq<T>, failing: set<T>)
    ensures Caught(a + b, failing) == Caught(a, failing) + Caught(b, failing)
    decreases |b|
  {
    if b == [] {
      assert a + b == a;
    } else {
      var init, last := b[..|b| - 1], b[|b| - 1];
      assert (a + b)[..|a + b| - 1] == a + init;
      assert (a + b)[|a + b| - 1] == last;
      CaughtAppend(a, init, failing);
    }
  }

  /**
   * What `BindingTracker.destroy` does to a stack of bindings: the bindings on
   * which it called `unbind`, in order, the bindings still tracked afterwards,
   * and the error it propagated, if any (the binding whose `unbind` threw).
   */
  datatype Drained<T> = Drained(unbound: seq<T>, remaining: seq<T>, error: Option<T>)

  /**
   * Pops bindings and unbinds them, last first, until the stack is empty or an
   * `unbind` throws.  There is no catch: the throwing binding has already been
   * popped, the error propagates, and the earlier bindings stay tracked.
   */
  function Drain<T(==)>(bindings: seq<T>, failing: set<T>): (d: Drained<T>)
    ensures |d.unbound| + |d.remaining| == |bindings|
    ensures d.error.Some? ==> d.error.value in failing
    decreases |bindings|
  {
    if bindings == [] then Drained([], [], None)
    else
      var b := bindings[|bindings| - 1];
      var init := bindings[..|bindings| - 1];
      if b in failing then Drained([b], init, Some(b))
      else AfterUnbinding([b], Drain(init, failing))
  }

  /** `rest` preceded by the calls already made: the result of a drain partly done. */
  function AfterUnbinding<T>(unbound: seq<T>, rest: Drained<T>): Drained<T> {
    Drained(unbound + rest.unbound, rest.remaining, rest.error)
  }

  /**
   * Draining splits the stack into the bindings still tracked (a prefix) and
   * the bindings unbound (the rest, each once, last first).  Without an error
   * nothing stays tracked and no `unbind` threw; with one, the error is that of
   * the last `unbind` called, and every `unbind` before it succeeded.
   */
  lemma {:induction false} DrainSplitsStack<T>(bindings: seq<T>, failing: set<T>)
    ensures var d := Drain(bindings, failing);
      && bindings == d.remaining + Reversed(d.unbound)
      && (d.error.None? ==> d.remaining == [] && forall i :: 0 <= i < |d.unbound| ==> d.unbound[i] !in failing)
      && (d.error.Some? ==>
            && d.unbound != []
            && d.error.value == d.unbound[|d.unbound| - 1]
            && d.error.value in failing
            && forall i :: 0 <= i < |d.unbound| - 1 ==> d.unbound[i] !in failing)
    decreases |bindings|
  {
    if bindings != [] {
      var b := bindings[|bindings| - 1];
      var init := bindings[..|bindings| - 1];
      assert bindings == init + [b];
      if b in failing {
        assert Reversed([b]) == [b];
      } else {
        var d := Drain(init, failing);
        DrainSplitsStack(init, failing);
        DrainStep(bindings, b, init, d.remaining, d.unbound);
      }
    }
  }

  /** One more popped binding keeps the split of the stack into kept prefix and popped suffix. */
  lemma DrainStep<T>(bindings: seq<T>, b: T, init: seq<T>, remaining: seq<T>, unbound: seq<T>)
    requires bindings == init + [b]
    requires init == remaining + Reversed(unbound)
    ensures bindings == remaining + Reversed([b] + unbound)
  {
    ReversedCons(b, unbound);
    assert bindings == remaining + (Reversed(unbound) + [b]);
  }

  lemma ReversedCons<T>(x: T, s: seq<T>)
    ensures Reversed([x] + s) == Reversed(s) + [x]
  {
  }

  /** A propagated error is that of a binding which was on the stack. */
  lemma {:induction false} DrainErrorComesFromStack<T>(bindings: seq<T>, failing: set<T>)
    ensures var d := Drain(bindings, failing); d.error.Some? ==> d.error.value in bindings
  {
    var d := Drain(bindings, failing);
    DrainSplitsStack(bindings, failing);
    if d.error.Some? {
      assert bindings[|d.remaining|] == Reversed(d.unbound)[0] == d.error.value;
    }
  }

  /** When no `unbind` throws, every binding is unbound once, last first, and none stays tracked. */
  lemma {:induction false} DrainWithoutFailure<T>(bindings: seq<T>, failing: set<T>)
    requires forall i :: 0 <= i < |bindings| ==> bindings[i] !in failing
    ensures Drain(bindings, failing) == Drained(Reversed(bindings), [], None)
  {
    var d := Drain(bindings, failing);
    DrainSplitsStack(bindings, failing);
    DrainErrorComesFromStack(bindings, failing);
    assert bindings == Reversed(d.unbound);
    ReversedTwice(d.unbound);
  }

  /** After a drain without error nothing is tracked, so draining again unbinds nothing. */
  lemma {:induction false} DrainAgainAfterSuccess<T>(bindings: seq<T>, failing: set<T>)
    requires Drain(bindings, failing).error.None?
    ensures Drain(Drain(bindings, failing).remaining, failing) == Drained([], [], None)
  {
    DrainSplitsStack(bindings, failing);
  }

  /** Tracks property bindings and unbinds them upon destruction. */
  class BindingTracker<T(==)> {
    var bindings: seq<T>

    constructor()
      ensures bindings == []
    {
      bindings := [];
    }

    /** Tracks `binding` on top of the stack and hands it back. */
    method Add(binding: T) returns (r: T)
      modifies this
      ensures r == binding
      ensures bindings == old(bindings) + [binding]
    {
      bindings := bindings + [binding];
      r := binding;
    }

    /**
     * Unbinds the tracked bindings, last first.  `unbound` are the bindings
     * `unbind` was called on, in order; `error` is the error the call
     * propagates, if an `unbind` threw.
     */
    method Destroy(failing: set<T>) returns (unbound: seq<T>, error: Option<T>)
      modifies this
      ensures Drain(old(bindings), failing) == Drained(unbound, bindings, error)
    {
      unbound, error := [], None;
      ghost var total := Drain(bindings, failing);
      while bindings != []
        invariant total == AfterUnbinding(unbound, Drain(bindings, failing))
        invariant error == None
        decreases |bindings|
      {
        var binding := bindings[|bindings| - 1];
        ghost var rest, before := Drain(bindings, failing), unbound;
        bindings := bindings[..|bindings| - 1];
        unbound := unbound + [binding];
        if binding in failing {
          error := Some(binding);
          return;
        }
        assert rest.unbound == [binding] + Drain(bindings, failing).unbound;
        assert unbound + Drain(bindings, failing).unbound == before + rest.unbound;
      }
    }
  }

  /**
   * A destroyer of things: tracks destructible objects and destroys them all,
   * last first, when it is destroyed itself.
   */
  class Destroyer<T(==)> {
    var destructibles: seq<T>

    constructor()
      ensures destructibles == []
    {
      destructibles := [];
    }

    /** Tracks `destructible` on top of the stack and hands it back. */
    method Add(destructible: T) returns (r: T)
      modifies this
      ensures r == destructible
      ensures destructibles == old(destructibles) + [destructible]
    {
      destructibles := destructibles + [destructible];
      r := destructible;
    }

    /**
     * Destroys every tracked object, last first.  An object whose `destroy`
     * throws does not stop the others: its error is caught and reported, and
     * this method returns normally.  `destroyed` are the objects `destroy` was
     * called on, in order; `caught` are those whose `destroy` threw.
     */
    method Destroy(failing: set<T>) returns (destroyed: seq<T>, caught: seq<T>)
      modifies this
      ensures destructibles == []
      ensures destroyed == Reversed(old(destructibles))
      ensures caught == Caught(destroyed, failing)
    {
      destroyed, caught := [], [];
      while destructibles != []
        invariant |destroyed| + |destructibles| == |old(destructibles)|
        invariant destructibles == old(destructibles)[..|destructibles|]
        invariant destroyed == Reversed(old(destructibles))[..|destroyed|]
        invariant caught == Caught(destroyed, failing)
        decreases |destructibles|
      {
        var destructible := destructibles[|destructibles| - 1];
        destructibles := destructibles[..|destructibles| - 1];
        assert (destroyed + [destructible])[..|destroyed|] == destroyed;
        destroyed := destroyed + [destructible];
        if destructible in failing {
          caught := caught + [destructible];
        }
      }
    }
  }

  /**
   * What an `initialize` callback does with the destroyer it is handed: it
   * registers `registers`, in this order, and then returns normally or throws
   * the error `throws`.
   */
  datatype Initializer<T, E> = Initializer(registers: seq<T>, throws: Option<E>)

  /** How a call ended: it returned a value, or it threw an error. */
  datatype Outcome<R, E> = Returned(value: R) | Threw(error: E)

  /** Runs the `initialize` callback on `destroyer`. */
  method RunInitializer<T(==), E>(initialize: Initializer<T, E>, destroyer: Destroyer<T>) returns (thrown: Option<E>)
    modifies destroyer
    ensures destroyer.destructibles == old(destroyer.destructibles) + initialize.registers
    ensures thrown == initialize.throws
  {
    var i := 0;
    while i < |initialize.registers|
      invariant 0 <= i <= |initialize.registers|
      invariant destroyer.destructibles == old(destroyer.destructibles) + initialize.registers[..i]
    {
      var _ := destroyer.Add(initialize.registers[i]);
      assert initialize.registers[..i + 1] == initialize.registers[..i] + [initialize.registers[i]];
      i := i + 1;
    }
    assert initialize.registers[..i] == initialize.registers;
    thrown := initialize.throws;
  }

  /**
   * Calls `initialize` with a fresh destroyer.  On success the destroyer,
   * holding exactly what `initialize` registered, is returned.  If `initialize`
   * throws, everything it registered is destroyed, last first, and the same
   * error is thrown again; `rolledBack` are the objects destroyed.
   */
  method InitializeSafely<T(==), E>(initialize: Initializer<T, E>, failing: set<T>)
    returns (r: Outcome<Destroyer<T>, E>, rolledBack: seq<T>)
    ensures initialize.throws.None? ==>
              && r.Returned?
              && fresh(r.value)
              && r.value.destructibles == initialize.registers
              && rolledBack == []
    ensures initialize.throws.Some? ==>
              && r == Threw(initialize.throws.value)
              && rolledBack == Reversed(initialize.registers)
  {
    var destroyer := new Destroyer();
    var thrown := RunInitializer(initialize, destroyer);
    match thrown
    case None =>
      r, rolledBack := Returned(destroyer), [];
    case Some(error) =>
      var caught;
      rolledBack, caught := destroyer.Destroy(failing);
      r := Threw(error);
  }
}
