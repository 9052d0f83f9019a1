/** bbbot/utils.py: named flags (`Events`), the teardown list every
    connection-owning object carries (`AsyncCloseable`, modelled as the
    class `Closeable` that owners hold as a component), and the
    condition/event list `Waiter`. Closers and conditions are callables in
    the source; here a closer is an opaque value of the owner's choosing
    whose failure is supplied by the caller of `Close`, and a condition is
    an opaque value evaluated by a caller-supplied predicate. */
module Utils {
  import opened Values

  // ---------------------------------------------------------------------
  // Events

  /** What a call of `Events.wait(name, timeout)` does, observed when it
      returns: it returns the flag, it is still suspended, or it raises. */
  datatype WaitResult = Returned(isSet: bool) | Suspended | WaitRaised(error: PyError)

  /** A fixed set of named `asyncio.Event` flags. */
  class Events {
    var events: map<string, bool>

    constructor (names: seq<string>)
      ensures events.Keys == set n | n in names
      ensures forall n :: n in events ==> !events[n]
    {
      events := map n | n in names :: false;
    }

    /** `set(name)`: raises KeyError for a name not given at construction. */
    method Set(name: string) returns (err: Option<PyError>)
      modifies this
      ensures events.Keys == old(events.Keys)
      ensures err.None? <==> name in old(events)
      ensures err.Some? ==> err.value == KeyError && events == old(events)
      ensures err.None? ==> events == old(events)[name := true]
    {
      if name in events {
        events := events[name := true];
        err := None;
      } else {
        err := Some(KeyError);
      }
    }

    /** `wait(name, timeout)`: the TimeoutError of an elapsed timeout is
        suppressed and the flag is returned; without a timeout the call
        stays suspended until the flag is set. An unset flag with a timeout
        is observed after the timer has run out. */
    method Wait(name: string, timeout: Option<nat>) returns (w: WaitResult)
      ensures w == WaitRaised(KeyError) <==> name !in events
      ensures name in events && events[name] ==> w == Returned(true)
      ensures name in events && !events[name] && timeout.Some? ==> w == Returned(false)
      ensures name in events && !events[name] && timeout.None? ==> w == Suspended
    {
      if name !in events {
        w := WaitRaised(KeyError);
      } else if events[name] {
        w := Returned(true);
      } else if timeout.Some? {
        w := Returned(false);
      } else {
        w := Suspended;
      }
    }
  }

  // ---------------------------------------------------------------------
  // AsyncCloseable

  /** One observable step of `close()`: a closer invoked, a closer's
      exception caught and logged, the closed event set. */
  datatype CloseStep<C> = Invoked(closer: C) | Logged(closer: C) | MarkedClosed

  /** The steps of invoking one closer inside `try ... except: log`. */
  function Attempt<C>(c: C, raises: C -> bool): (t: seq<CloseStep<C>>)
    ensures 1 <= |t| <= 2 && t[0] == Invoked(c)
    ensures |t| == 1 <==> !raises(c)
    ensures |t| == 2 ==> t[1] == Logged(c)
  {
    [Invoked(c)] + (if raises(c) then [Logged(c)] else [])
  }

  /** The steps of the loop over the teardown list, in list order. */
  function Attempts<C>(cs: seq<C>, raises: C -> bool): (t: seq<CloseStep<C>>)
    ensures |cs| <= |t| <= 2 * |cs|
  {
    if cs == [] then [] else Attempts(cs[..|cs| - 1], raises) + Attempt(cs[|cs| - 1], raises)
  }

  /** Everything one call of `close()` does. */
  function CloseRun<C>(cs: seq<C>, raises: C -> bool): (t: seq<CloseStep<C>>)
    ensures |t| > 0 && t[|t| - 1] == MarkedClosed
  {
    Attempts(cs, raises) + [MarkedClosed]
  }

  /** The closers a trace invoked, in order. */
  function InvokedClosers<C>(t: seq<CloseStep<C>>): seq<C>
  {
    if t == [] then []
    else InvokedClosers(t[..|t| - 1]) + (if t[|t| - 1].Invoked? then [t[|t| - 1].closer] else [])
  }

  lemma {:induction false} InvokedClosersAppend<C>(a: seq<CloseStep<C>>, b: seq<CloseStep<C>>)
    ensures InvokedClosers(a + b) == InvokedClosers(a) + InvokedClosers(b)
    decreases |b|
  {
    if b == [] {
      assert a + b == a;
    } else {
      assert (a + b)[..|a + b| - 1] == a + b[..|b| - 1];
      InvokedClosersAppend(a, b[..|b| - 1]);
    }
  }

  lemma AttemptInvokesOne<C>(c: C, raises: C -> bool)
    ensures InvokedClosers(Attempt(c, raises)) == [c]
  {
    var one := Attempt(c, raises);
    assert InvokedClosers([Invoked(c)]) == [c] by {
      assert [Invoked(c)][..0] == [];
    }
    if raises(c) {
      assert one[..1] == [Invoked(c)];
    } else {
      assert one == [Invoked(c)];
    }
  }

  /** `close()` invokes every registered closer exactly once, in
      registration order, whichever of them raise. */
  lemma {:induction false} EveryCloserInvokedOnce<C>(cs: seq<C>, raises: C -> bool)
    ensures InvokedClosers(Attempts(cs, raises)) == cs
    decreases |cs|
  {
    if cs != [] {
      var c := cs[|cs| - 1];
      EveryCloserInvokedOnce(cs[..|cs| - 1], raises);
      InvokedClosersAppend(Attempts(cs[..|cs| - 1], raises), Attempt(c, raises));
      AttemptInvokesOne(c, raises);
      assert cs[..|cs| - 1] + [c] == cs;
    }
  }

  /** A whole run of `close()`, closed event included, invokes the same
      closers. */
  lemma CloseRunInvokesEach<C>(cs: seq<C>, raises: C -> bool)
    ensures InvokedClosers(CloseRun(cs, raises)) == cs
  {
    EveryCloserInvokedOnce(cs, raises);
    InvokedClosersAppend(Attempts(cs, raises), [MarkedClosed]);
    var mark: seq<CloseStep<C>> := [MarkedClosed];
    assert InvokedClosers(mark) == [] by {
      assert mark[..0] == [];
    }
  }

  /** The closed event is set only after the last closer was attempted:
      no step before the end of a run marks the object closed, and every
      logged failure directly follows the invocation that raised it. */
  lemma {:induction false} ClosedOnlyAfterAllAttempts<C>(cs: seq<C>, raises: C -> bool)
    ensures forall i :: 0 <= i < |Attempts(cs, raises)| ==> !Attempts(cs, raises)[i].MarkedClosed?
    ensures forall i :: 0 <= i < |Attempts(cs, raises)| && Attempts(cs, raises)[i].Logged? ==>
      0 < i && Attempts(cs, raises)[i - 1] == Invoked(Attempts(cs, raises)[i].closer)
      && raises(Attempts(cs, raises)[i].closer)
    decreases |cs|
  {
    if cs != [] {
      ClosedOnlyAfterAllAttempts(cs[..|cs| - 1], raises);
    }
  }

  /** The teardown list of an `AsyncCloseable`. `trace` records what the
      closers did when invoked and what was logged, across every call of
      `close()`. */
  class Closeable<C> {
    var onClose: seq<C>
    var closed: bool
    var trace: seq<CloseStep<C>>

    constructor ()
      ensures onClose == [] && !closed && trace == []
    {
      onClose, closed, trace := [], false, [];
    }

    /** `on_close(func)` */
    method OnClose(c: C)
      modifies this
      ensures onClose == old(onClose) + [c]
      ensures closed == old(closed) && trace == old(trace)
    {
      onClose := onClose + [c];
    }

    /** `close()`: each closer in turn, failures caught and logged, then
        the closed event. There is no guard: a second call runs every
        closer again. */
    method Close(raises: C -> bool)
      modifies this
      ensures onClose == old(onClose) && closed
      ensures trace == old(trace) + CloseRun(onClose, raises)
    {
      var i := 0;
      while i < |onClose|
        invariant 0 <= i <= |onClose|
        invariant onClose == old(onClose) && closed == old(closed)
        invariant trace == old(trace) + Attempts(onClose[..i], raises)
      {
        assert onClose[..i + 1][..i] == onClose[..i];
        trace := trace + [Invoked(onClose[i])];
        if raises(onClose[i]) {
          trace := trace + [Logged(onClose[i])];
        }
        i := i + 1;
      }
      assert onClose[..i] == onClose;
      closed := true;
      trace := trace + [MarkedClosed];
    }

    /** `wait_closed()`: whether the call has returned, which it does once
        the closed event is set. */
    method WaitClosed() returns (returned: bool)
      ensures returned <==> closed
    {
      returned := closed;
    }
  }

  // ---------------------------------------------------------------------
  // Waiter

  /** One `(condition, event)` pair; the event is named by its index among
      the events the waiter has created. */
  datatype Waiting<Cond> = Waiting(condition: Cond, event: nat)

  /** Every pair names an existing event, and the events increase along the
      list (each `expect` creates a new one). */
  ghost predicate WellFormed<Cond>(ws: seq<Waiting<Cond>>, events: nat)
  {
    && (forall i :: 0 <= i < |ws| ==> ws[i].event < events)
    && (forall i, j :: 0 <= i < j < |ws| ==> ws[i].event < ws[j].event)
  }

  /** The flags after evaluating every condition in list order and setting
      the event of each one that holds. */
  function Fire<Cond>(ws: seq<Waiting<Cond>>, flags: seq<bool>, holds: Cond -> bool): (r: seq<bool>)
    requires forall i :: 0 <= i < |ws| ==> ws[i].event < |flags|
    ensures |r| == |flags|
  {
    if ws == [] then flags
    else
      var w := ws[|ws| - 1];
      var f := Fire(ws[..|ws| - 1], flags, holds);
      if holds(w.condition) then f[w.event := true] else f
  }

  /** `on_event` sets exactly the events whose condition holds, and leaves
      the others as they were. */
  lemma {:induction false} FireSetsExactly<Cond>(ws: seq<Waiting<Cond>>, flags: seq<bool>, holds: Cond -> bool, e: nat)
    requires forall i :: 0 <= i < |ws| ==> ws[i].event < |flags|
    requires e < |flags|
    ensures Fire(ws, flags, holds)[e] <==>
      flags[e] || exists i :: 0 <= i < |ws| && ws[i].event == e && holds(ws[i].condition)
  {
    if ws != [] {
      var n := |ws| - 1;
      FireSetsExactly(ws[..n], flags, holds, e);
      if exists i :: 0 <= i < |ws| && ws[i].event == e && holds(ws[i].condition) {
        var i :| 0 <= i < |ws| && ws[i].event == e && holds(ws[i].condition);
        if i < n {
          assert ws[..n][i] == ws[i];
        }
      }
    }
  }

  /** The waiters an `on_event` that called `event.is_set()` would keep:
      those whose event is still unset afterwards. */
  function Unfired<Cond>(ws: seq<Waiting<Cond>>, flags: seq<bool>, holds: Cond -> bool): (r: seq<Waiting<Cond>>)
    requires forall i :: 0 <= i < |ws| ==> ws[i].event < |flags|
    ensures |r| <= |ws|
    ensures forall k :: 0 <= k < |r| ==> r[k].event < |flags| && !flags[r[k].event] && !holds(r[k].condition)
    ensures forall k :: 0 <= k < |r| ==> r[k] in ws
  {
    if ws == [] then []
    else
      var w := ws[|ws| - 1];
      Unfired(ws[..|ws| - 1], flags, holds) + (if !flags[w.event] && !holds(w.condition) then [w] else [])
  }

  /** The kept waiters' events are among the bounds the list had. */
  lemma {:induction false} UnfiredBelow<Cond>(ws: seq<Waiting<Cond>>, flags: seq<bool>, holds: Cond -> bool, bound: nat)
    requires forall i :: 0 <= i < |ws| ==> ws[i].event < |flags| && ws[i].event < bound
    ensures forall k :: 0 <= k < |Unfired(ws, flags, holds)| ==> Unfired(ws, flags, holds)[k].event < bound
  {
    if ws != [] {
      UnfiredBelow(ws[..|ws| - 1], flags, holds, bound);
    }
  }

  /** Keeping some of the waiters keeps their events increasing. */
  lemma {:induction false} UnfiredWellFormed<Cond>(ws: seq<Waiting<Cond>>, flags: seq<bool>, holds: Cond -> bool)
    requires WellFormed(ws, |flags|)
    ensures WellFormed(Unfired(ws, flags, holds), |flags|)
  {
    if ws != [] {
      var n := |ws| - 1;
      var front := ws[..n];
      assert WellFormed(front, |flags|);
      UnfiredWellFormed(front, flags, holds);
      UnfiredBelow(front, flags, holds, ws[n].event);
      var u := Unfired(front, flags, holds);
      var w := ws[n];
      if !flags[w.event] && !holds(w.condition) {
        var r := u + [w];
        assert Unfired(ws, flags, holds) == r;
        forall i, j | 0 <= i < j < |r|
          ensures r[i].event < r[j].event
        {
          if j < |u| {
            assert r[i] == u[i] && r[j] == u[j];
          } else {
            assert r[i] == u[i] && r[j] == w;
          }
        }
      } else {
        assert Unfired(ws, flags, holds) == u;
      }
    }
  }

  /** A waiter whose condition does not hold and whose event is unset is
      one an `on_event` that kept unset waiters would keep. */
  lemma {:induction false} UnfiredKeeps<Cond>(ws: seq<Waiting<Cond>>, flags: seq<bool>, holds: Cond -> bool, i: nat)
    requires forall j :: 0 <= j < |ws| ==> ws[j].event < |flags|
    requires i < |ws| && !flags[ws[i].event] && !holds(ws[i].condition)
    ensures exists k :: 0 <= k < |Unfired(ws, flags, holds)| && Unfired(ws, flags, holds)[k] == ws[i]
  {
    var n := |ws| - 1;
    if i < n {
      assert ws[..n][i] == ws[i];
      UnfiredKeeps(ws[..n], flags, holds, i);
      var k :| 0 <= k < |Unfired(ws[..n], flags, holds)| && Unfired(ws[..n], flags, holds)[k] == ws[i];
      assert Unfired(ws, flags, holds)[k] == ws[i];
    } else {
      var r := Unfired(ws, flags, holds);
      assert r[|r| - 1] == ws[i];
    }
  }

  /** The discrepancy of `on_event` as written: a waiter whose condition
      does not hold on this event is dropped with its event unset, so
      nothing will set that event afterwards; keeping unset waiters, as
      the filter evidently intends, would keep it. */
  lemma DroppedWaiterNeverFires<Cond>(ws: seq<Waiting<Cond>>, flags: seq<bool>, holds: Cond -> bool, i: nat)
    requires WellFormed(ws, |flags|)
    requires i < |ws| && !flags[ws[i].event] && !holds(ws[i].condition)
    ensures !Fire(ws, flags, holds)[ws[i].event]
    ensures exists k :: 0 <= k < |Unfired(ws, flags, holds)| && Unfired(ws, flags, holds)[k] == ws[i]
  {
    FireSetsExactly(ws, flags, holds, ws[i].event);
    UnfiredKeeps(ws, flags, holds, i);
  }

  /** `Waiter`: pairs of a condition and the event set when it holds.
      `flags[e]` is whether the e-th event `expect` created is set. */
  class Waiter<Cond> {
    var waiting: seq<Waiting<Cond>>
    var flags: seq<bool>

    ghost predicate Valid()
      reads this
    {
      WellFormed(waiting, |flags|)
    }

    constructor ()
      ensures Valid() && waiting == [] && flags == []
    {
      waiting, flags := [], [];
    }

    /** `expect(condition)`: a fresh, unset event, paired with the
        condition at the end of the list. */
    method Expect(condition: Cond) returns (event: nat)
      requires Valid()
      modifies this
      ensures Valid()
      ensures event == |old(flags)| && flags == old(flags) + [false]
      ensures waiting == old(waiting) + [Waiting(condition, event)]
    {
      event := |flags|;
      flags := flags + [false];
      waiting := waiting + [Waiting(condition, event)];
    }

    /** `on_event(*a, **ka)` as written; `holds` is every condition applied
        to the event's arguments. Each event whose condition holds is set;
        the list filter then tests the bound method `event.is_set`, which is
        always truthy, instead of its result, so every waiter is dropped. */
    method OnEvent(holds: Cond -> bool)
      requires Valid()
      modifies this
      ensures Valid()
      ensures flags == Fire(old(waiting), old(flags), holds)
      ensures waiting == []
    {
      var ws := waiting;
      var i := 0;
      while i < |ws|
        invariant 0 <= i <= |ws| && |flags| == |old(flags)|
        invariant flags == Fire(ws[..i], old(flags), holds)
      {
        assert ws[..i + 1][..i] == ws[..i];
        if holds(ws[i].condition) {
          flags := flags[ws[i].event := true];
        }
        i := i + 1;
      }
      assert ws[..i] == ws;
      waiting := [];
    }

    /** `on_event` as its filter evidently intends (`event.is_set()`
        called): the same events are set, and the waiters whose event is
        still unset stay, in order. */
    method OnEventIntended(holds: Cond -> bool)
      requires Valid()
      modifies this
      ensures Valid()
      ensures flags == Fire(old(waiting), old(flags), holds)
      ensures waiting == Unfired(old(waiting), old(flags), holds)
    {
      var ws := waiting;
      var kept: seq<Waiting<Cond>> := [];
      var i := 0;
      while i < |ws|
        invariant 0 <= i <= |ws| && |flags| == |old(flags)|
        invariant flags == Fire(ws[..i], old(flags), holds)
        invariant kept == Unfired(ws[..i], old(flags), holds)
        invariant forall j :: i <= j < |ws| ==> flags[ws[j].event] == old(flags)[ws[j].event]
      {
        assert ws[..i + 1][..i] == ws[..i];
        if holds(ws[i].condition) {
          flags := flags[ws[i].event := true];
        }
        if !flags[ws[i].event] {
          kept := kept + [ws[i]];
        }
        i := i + 1;
      }
      assert ws[..i] == ws;
      UnfiredWellFormed(ws, old(flags), holds);
      waiting := kept;
    }
  }
}
