/**
 * The generic observable box `Observable<T>` (ObservablePattern/ViewController.swift:3-20).
 *
 * A listener is an arbitrary closure; it is modelled by an identifier, and calling it is
 * modelled by appending a `Call` record to the observable's log of deliveries. What the
 * closure does when called is not part of this model.
 */
module Observables {
  import opened Options

  /** The identity of a registered listener closure. */
  type ListenerId = nat

  /** One invocation of a listener: which listener was called, with which value. */
  datatype Call<T> = Call(listener: ListenerId, arg: Option<T>)

  /** The abstract state of an observable: its value, its listeners and every call made so far. */
  datatype ObservableState<T> = ObservableState(value: Option<T>, listeners: seq<ListenerId>, log: seq<Call<T>>)

  /** The two operations a client can perform on an observable. */
  datatype Op<T> = Bind(listener: ListenerId) | Assign(value: Option<T>)

  /** The state right after `init(_:)`: Swift does not run `didSet` from an initialiser. */
  function Init<T>(v: Option<T>): ObservableState<T> {
    ObservableState(v, [], [])
  }

  /** The calls that `listeners.forEach { $0(value) }` makes: each listener once, in order. */
  function Broadcast<T>(listeners: seq<ListenerId>, v: Option<T>): (calls: seq<Call<T>>)
    ensures |calls| == |listeners|
    ensures forall i :: 0 <= i < |listeners| ==> calls[i] == Call(listeners[i], v)
  {
    if listeners == [] then [] else [Call(listeners[0], v)] + Broadcast(listeners[1..], v)
  }

  /** One operation on the abstract state. */
  function Step<T>(s: ObservableState<T>, op: Op<T>): ObservableState<T> {
    match op
    case Bind(l) => ObservableState(s.value, s.listeners + [l], s.log + [Call(l, s.value)])
    case Assign(v) => ObservableState(v, s.listeners, s.log + Broadcast(s.listeners, v))
  }

  /** A sequence of operations, performed one after another. */
  function Run<T>(s: ObservableState<T>, ops: seq<Op<T>>): ObservableState<T>
    decreases |ops|
  {
    if ops == [] then s else Run(Step(s, ops[0]), ops[1..])
  }

  /** The listeners registered by the `Bind` operations of `ops`, in order. */
  function BoundIds<T>(ops: seq<Op<T>>): seq<ListenerId> {
    if ops == [] then []
    else (if ops[0].Bind? then [ops[0].listener] else []) + BoundIds(ops[1..])
  }

  /** The values stored by the `Assign` operations of `ops`, in order. */
  function AssignedValues<T>(ops: seq<Op<T>>): seq<Option<T>> {
    if ops == [] then []
    else (if ops[0].Assign? then [ops[0].value] else []) + AssignedValues(ops[1..])
  }

  /** The values listener `l` received, in the order it received them. */
  function CallsTo<T>(log: seq<Call<T>>, l: ListenerId): seq<Option<T>> {
    if log == [] then []
    else (if log[0].listener == l then [log[0].arg] else []) + CallsTo(log[1..], l)
  }

  /** Splitting a log splits each listener's calls. */
  lemma {:induction false} CallsToAppend<T>(a: seq<Call<T>>, b: seq<Call<T>>, l: ListenerId)
    ensures CallsTo(a + b, l) == CallsTo(a, l) + CallsTo(b, l)
  {
    if a != [] {
      assert (a + b)[1..] == a[1..] + b;
      CallsToAppend(a[1..], b, l);
    } else {
      assert a + b == b;
    }
  }

  /** A broadcast calls listener `m` once per registration of `m`, always with the new value. */
  lemma {:induction false} CallsToBroadcast<T>(listeners: seq<ListenerId>, v: Option<T>, m: ListenerId)
    ensures CallsTo(Broadcast(listeners, v), m) == seq(multiset(listeners)[m], _ => v)
  {
    if listeners != [] {
      var rest: seq<ListenerId> := listeners[1..];
      var calls := Broadcast(listeners, v);
      var n: nat := multiset(rest)[m];
      assert listeners == [listeners[0]] + rest;
      assert multiset(listeners)[m] == (if listeners[0] == m then 1 else 0) + n;
      assert calls[0] == Call(listeners[0], v) && calls[1..] == Broadcast(rest, v);
      CallsToBroadcast(rest, v, m);
      assert seq(n + 1, _ => v) == [v] + seq(n, _ => v);
    }
  }

  /** `bind` calls the new listener exactly once, with the current value, and no other listener. */
  lemma BindNotifiesOnlyNewListener<T>(s: ObservableState<T>, l: ListenerId, m: ListenerId)
    ensures Step(s, Bind(l)).value == s.value
    ensures CallsTo(Step(s, Bind(l)).log, m) == CallsTo(s.log, m) + (if m == l then [s.value] else [])
  {
    CallsToAppend(s.log, [Call(l, s.value)], m);
    assert CallsTo([Call(l, s.value)], m) == (if m == l then [s.value] else []) by {
      assert [Call(l, s.value)][1..] == [];
    }
  }

  /** Setting `value` calls every registration of every listener once, with the new value. */
  lemma AssignNotifiesEachRegistration<T>(s: ObservableState<T>, v: Option<T>, m: ListenerId)
    ensures Step(s, Assign(v)).value == v && Step(s, Assign(v)).listeners == s.listeners
    ensures CallsTo(Step(s, Assign(v)).log, m) == CallsTo(s.log, m) + seq(multiset(s.listeners)[m], _ => v)
  {
    CallsToAppend(s.log, Broadcast(s.listeners, v), m);
    CallsToBroadcast(s.listeners, v, m);
  }

  /** Running `a` then `b` is running `a + b`. */
  lemma {:induction false} RunAppend<T>(s: ObservableState<T>, a: seq<Op<T>>, b: seq<Op<T>>)
    ensures Run(s, a + b) == Run(Run(s, a), b)
    decreases |a|
  {
    if a == [] {
      assert a + b == b;
    } else {
      assert (a + b)[0] == a[0] && (a + b)[1..] == a[1..] + b;
      RunAppend(Step(s, a[0]), a[1..], b);
    }
  }

  /** One operation adds to the listener list exactly the listener it binds, if any. */
  lemma StepListeners<T>(s: ObservableState<T>, op: Op<T>)
    ensures Step(s, op).listeners == s.listeners + (if op.Bind? then [op.listener] else [])
  {
  }

  /** Listeners are never removed: after any run, the list is the old one followed by every newly bound listener. */
  lemma {:induction false} RunKeepsListeners<T>(s: ObservableState<T>, ops: seq<Op<T>>)
    ensures Run(s, ops).listeners == s.listeners + BoundIds(ops)
    ensures |Run(s, ops).listeners| >= |s.listeners|
    decreases |ops|
  {
    if ops != [] {
      var bound := if ops[0].Bind? then [ops[0].listener] else [];
      var s' := Step(s, ops[0]);
      StepListeners(s, ops[0]);
      assert BoundIds(ops) == bound + BoundIds(ops[1..]);
      RunKeepsListeners(s', ops[1..]);
      assert Run(s, ops) == Run(s', ops[1..]);
      assert s.listeners + bound + BoundIds(ops[1..]) == s.listeners + (bound + BoundIds(ops[1..]));
    }
  }

  /** The log of calls only grows: no call is ever taken back or reordered. */
  lemma {:induction false} RunExtendsLog<T>(s: ObservableState<T>, ops: seq<Op<T>>)
    ensures s.log <= Run(s, ops).log
    decreases |ops|
  {
    if ops != [] {
      RunExtendsLog(Step(s, ops[0]), ops[1..]);
    }
  }

  /** One step, seen by a listener registered once that the step does not bind again. */
  lemma StepSeenByListener<T>(s: ObservableState<T>, op: Op<T>, l: ListenerId)
    requires multiset(s.listeners)[l] == 1
    requires !(op.Bind? && op.listener == l)
    ensures multiset(Step(s, op).listeners)[l] == 1
    ensures CallsTo(Step(s, op).log, l) == CallsTo(s.log, l) + (if op.Assign? then [op.value] else [])
  {
    match op
    case Bind(m) =>
      BindNotifiesOnlyNewListener(s, m, l);
      assert multiset(Step(s, op).listeners) == multiset(s.listeners) + multiset{m};
    case Assign(v) =>
      AssignNotifiesEachRegistration(s, v, l);
      assert seq(1, _ => v) == [v];
  }

  /**
   * A listener bound once receives every later set, exactly once each, with the value set,
   * in the order of the sets, and nothing else.
   */
  lemma {:induction false} BoundListenerHearsEverySet<T>(s: ObservableState<T>, ops: seq<Op<T>>, l: ListenerId)
    requires multiset(s.listeners)[l] == 1
    requires l !in BoundIds(ops)
    ensures CallsTo(Run(s, ops).log, l) == CallsTo(s.log, l) + AssignedValues(ops)
    decreases |ops|
  {
    if ops != [] {
      var heard := if ops[0].Assign? then [ops[0].value] else [];
      var s' := Step(s, ops[0]);
      assert BoundIds(ops) == (if ops[0].Bind? then [ops[0].listener] else []) + BoundIds(ops[1..]);
      assert AssignedValues(ops) == heard + AssignedValues(ops[1..]);
      StepSeenByListener(s, ops[0], l);
      BoundListenerHearsEverySet(s', ops[1..], l);
      assert Run(s, ops) == Run(s', ops[1..]);
      assert CallsTo(s.log, l) + heard + AssignedValues(ops[1..])
          == CallsTo(s.log, l) + (heard + AssignedValues(ops[1..]));
    }
  }

  /** Binding operations leave the stored value alone. */
  lemma {:induction false} BindsKeepValue<T>(s: ObservableState<T>, ops: seq<Op<T>>)
    requires forall i :: 0 <= i < |ops| ==> ops[i].Bind?
    ensures Run(s, ops).value == s.value
    decreases |ops|
  {
    if ops != [] {
      BindsKeepValue(Step(s, ops[0]), ops[1..]);
    }
  }

  /** The last of `vs`, or `d` when `vs` is empty. */
  function LastOr<T>(d: Option<T>, vs: seq<Option<T>>): Option<T> {
    if vs == [] then d else vs[|vs| - 1]
  }

  /** After any run, the stored value is the last one assigned, or the old value if none was. */
  lemma {:induction false} RunValue<T>(s: ObservableState<T>, ops: seq<Op<T>>)
    ensures Run(s, ops).value == LastOr(s.value, AssignedValues(ops))
    decreases |ops|
  {
    if ops != [] {
      var s' := Step(s, ops[0]);
      var first := if ops[0].Assign? then [ops[0].value] else [];
      assert AssignedValues(ops) == first + AssignedValues(ops[1..]);
      RunValue(s', ops[1..]);
      assert Run(s, ops) == Run(s', ops[1..]);
    }
  }

  /**
   * A listener bound after any run is called at once, and only once, with the most recently
   * assigned value, or with the initial value if nothing was assigned.
   */
  lemma LateBinderSeesLatestValue<T>(s: ObservableState<T>, ops: seq<Op<T>>, l: ListenerId)
    ensures var t := Run(s, ops);
            CallsTo(Step(t, Bind(l)).log, l) == CallsTo(t.log, l) + [LastOr(s.value, AssignedValues(ops))]
  {
    RunValue(s, ops);
    BindNotifiesOnlyNewListener(Run(s, ops), l, l);
  }

  /**
   * Clients assign `value` only through `SetValue`, which does what Swift's `didSet` does, and
   * change `listeners` (private in Swift) only through `Bind`; `log` is written by those two
   * methods alone.
   */
  class Observable<T> {
    var value: Option<T>
    var listeners: seq<ListenerId>
    var log: seq<Call<T>>

    function State(): ObservableState<T>
      reads this
    {
      ObservableState(value, listeners, log)
    }

    /** `init(_ value:)`: stores the value, no listener, nobody notified. */
    constructor (value: Option<T>)
      ensures State() == Init(value)
      ensures this.value == value && listeners == [] && log == []
    {
      this.value := value;
      listeners := [];
      log := [];
    }

    /** Assigning `value`: stores it, then `didSet` calls every listener with it, in order. */
    method SetValue(v: Option<T>)
      modifies this
      ensures State() == Step(old(State()), Assign(v))
      ensures value == v && listeners == old(listeners)
      ensures log == old(log) + Broadcast(old(listeners), v)
    {
      value := v;
      var i := 0;
      while i < |listeners|
        invariant 0 <= i <= |listeners|
        invariant value == v && listeners == old(listeners)
        invariant log == old(log) + Broadcast(listeners[..i], v)
      {
        assert listeners[..i + 1] == listeners[..i] + [listeners[i]];
        assert Broadcast(listeners[..i + 1], v) == Broadcast(listeners[..i], v) + [Call(listeners[i], v)];
        log := log + [Call(listeners[i], value)];
        i := i + 1;
      }
      assert listeners[..i] == listeners;
    }

    /** `bind(_:)`: calls the new listener once with the current value, then appends it. */
    method Bind(l: ListenerId)
      modifies this
      ensures State() == Step(old(State()), Op.Bind(l))
      ensures value == old(value) && listeners == old(listeners) + [l]
      ensures log == old(log) + [Call(l, old(value))]
    {
      log := log + [Call(l, value)];
      listeners := listeners + [l];
    }
  }

  /**
   * Construct with 5; bind listener 1; set 7; bind listener 2; set nil. Listener 1 receives
   * 5, 7, nil and listener 2 receives 7, nil, interleaved in this order.
   */
  method ExampleSession() returns (calls: seq<Call<int>>)
    ensures calls == [Call(1, Some(5)), Call(1, Some(7)), Call(2, Some(7)), Call(1, None), Call(2, None)]
  {
    var o := new Observable<int>(Some(5));
    o.Bind(1);
    o.SetValue(Some(7));
    o.Bind(2);
    o.SetValue(None);
    calls := o.log;
  }
}
