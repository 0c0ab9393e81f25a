/** The observer registry of python-app/src/services/event_manager.py: a
    process-wide EventManager whose class-level dict maps each event name
    to the callbacks subscribed to it, in subscription order. Callbacks are
    foreign code: each is an opaque handle, a call is recorded in a log,
    and which callbacks raise is a parameter of emit. */
module Events {
  import opened PyValue

  /** A subscribed callable, known only by its identity. */
  datatype Callback = Callback(handle: nat)

  /** The data passed to emit(); None when it is omitted. */
  datatype Payload = NoData | Data(fields: Object)

  /** One invocation callback(data) made by emit(event, data). */
  datatype Call = Call(callback: Callback, event: string, data: Payload)

  type Registry = map<string, seq<Callback>>

  /** The callbacks of an event, [] when it has none. */
  function SubscribersOf(subs: Registry, event: string): seq<Callback> {
    if event in subs then subs[event] else []
  }

  /** subscribe(event, callback): the registry afterwards. */
  function Subscribed(subs: Registry, event: string, cb: Callback): (r: Registry)
    ensures event in r
  {
    subs[event := SubscribersOf(subs, event) + [cb]]
  }

  /** The calls emit(event, data) makes, one per subscriber, in order. */
  function Deliveries(cbs: seq<Callback>, event: string, data: Payload): (r: seq<Call>)
    ensures |r| == |cbs|
    ensures forall i :: 0 <= i < |cbs| ==> r[i] == Call(cbs[i], event, data)
  {
    if cbs == [] then [] else [Call(cbs[0], event, data)] + Deliveries(cbs[1..], event, data)
  }

  /** The calls that raise, as the logger records them. */
  function Failures(cbs: seq<Callback>, event: string, data: Payload, raising: set<Callback>): (r: seq<Call>)
    ensures |r| <= |cbs|
    ensures forall c :: c in r ==> c.callback in raising && c.callback in cbs && c.event == event
  {
    if cbs == [] then []
    else (if cbs[0] in raising then [Call(cbs[0], event, data)] else []) + Failures(cbs[1..], event, data, raising)
  }

  /** subscribe appends the callback to the event's list, creating the list
      if needed; duplicates are kept. */
  lemma SubscribeAppends(subs: Registry, event: string, cb: Callback)
    ensures SubscribersOf(Subscribed(subs, event, cb), event) == SubscribersOf(subs, event) + [cb]
    ensures |SubscribersOf(Subscribed(subs, event, cb), event)| == |SubscribersOf(subs, event)| + 1
  {
  }

  /** subscribe leaves every other event's list as it was. */
  lemma SubscribeLeavesOthers(subs: Registry, event: string, cb: Callback, other: string)
    requires other != event
    ensures SubscribersOf(Subscribed(subs, event, cb), other) == SubscribersOf(subs, other)
  {
  }

  /** Subscribing a list of callbacks one after the other leaves them in
      that order behind the ones already there. */
  function SubscribedAll(subs: Registry, event: string, cbs: seq<Callback>): Registry
    decreases |cbs|
  {
    if cbs == [] then subs else SubscribedAll(Subscribed(subs, event, cbs[0]), event, cbs[1..])
  }

  lemma {:induction false} SubscribeOrder(subs: Registry, event: string, cbs: seq<Callback>)
    ensures SubscribersOf(SubscribedAll(subs, event, cbs), event) == SubscribersOf(subs, event) + cbs
    decreases |cbs|
  {
    if cbs != [] {
      SubscribeOrder(Subscribed(subs, event, cbs[0]), event, cbs[1..]);
      assert SubscribersOf(subs, event) + [cbs[0]] + cbs[1..] == SubscribersOf(subs, event) + cbs;
    }
  }

  /** The errors logged are the raising callbacks' calls: every call is
      logged when all raise, none when none does. */
  lemma {:induction false} FailuresCount(cbs: seq<Callback>, event: string, data: Payload, raising: set<Callback>)
    ensures |Failures(cbs, event, data, raising)| == |cbs| <==> forall i :: 0 <= i < |cbs| ==> cbs[i] in raising
    ensures (forall i :: 0 <= i < |cbs| ==> cbs[i] !in raising) ==> Failures(cbs, event, data, raising) == []
  {
    if cbs != [] {
      FailuresCount(cbs[1..], event, data, raising);
      assert forall i :: 1 <= i < |cbs| ==> cbs[i] == cbs[1..][i - 1];
      if cbs[0] !in raising {
        assert |Failures(cbs[1..], event, data, raising)| <= |cbs| - 1;
      }
    }
  }

  /** One turn of emit's loop for the calls: the call to the i-th
      subscriber, then the rest. */
  lemma DeliveriesStep(cbs: seq<Callback>, i: nat, event: string, data: Payload, calls: seq<Call>)
    requires i < |cbs|
    ensures calls + Deliveries(cbs[i..], event, data) == (calls + [Call(cbs[i], event, data)]) + Deliveries(cbs[i + 1..], event, data)
  {
    assert cbs[i..][1..] == cbs[i + 1..];
  }

  /** One turn of emit's loop for the logged errors. */
  lemma FailuresStep(cbs: seq<Callback>, i: nat, event: string, data: Payload, raising: set<Callback>, errors: seq<Call>)
    requires i < |cbs|
    ensures errors + Failures(cbs[i..], event, data, raising) ==
            (errors + (if cbs[i] in raising then [Call(cbs[i], event, data)] else [])) + Failures(cbs[i + 1..], event, data, raising)
  {
    assert cbs[i..][1..] == cbs[i + 1..];
  }

  /** The EventManager class object: whether the singleton has been created,
      its subscriber dict, and what emit did (the calls made and the errors
      logged). */
  class EventManager {
    var instantiated: bool
    var subscribers: Registry
    var calls: seq<Call>
    var errors: seq<Call>

    /** The class as defined at import time: no instance yet. */
    constructor ()
      ensures !instantiated && subscribers == map[] && calls == [] && errors == []
    {
      instantiated := false;
      subscribers := map[];
      calls := [];
      errors := [];
    }

    /** EventManager(): the first construction creates the singleton and
        resets the registry, later ones return it unchanged. */
    method New()
      modifies this
      ensures instantiated
      ensures subscribers == if old(instantiated) then old(subscribers) else map[]
      ensures calls == old(calls) && errors == old(errors)
    {
      if !instantiated {
        instantiated := true;
        subscribers := map[];
      }
    }

    /** subscribe(event_name, callback). */
    method Subscribe(event: string, cb: Callback)
      modifies this
      ensures subscribers == Subscribed(old(subscribers), event, cb)
      ensures instantiated == old(instantiated) && calls == old(calls) && errors == old(errors)
    {
      if event !in subscribers {
        subscribers := subscribers[event := []];
      }
      subscribers := subscribers[event := subscribers[event] + [cb]];
    }

    /** emit(event_name, data): every subscriber is called once, in order;
        an exception is caught and logged and the loop goes on. */
    method Emit(event: string, data: Payload, raising: set<Callback>)
      modifies this
      ensures calls == old(calls) + Deliveries(SubscribersOf(old(subscribers), event), event, data)
      ensures errors == old(errors) + Failures(SubscribersOf(old(subscribers), event), event, data, raising)
      ensures subscribers == old(subscribers) && instantiated == old(instantiated)
    {
      if event in subscribers {
        var cbs := subscribers[event];
        var made, logged := calls, errors;
        var i := 0;
        while i < |cbs|
          invariant 0 <= i <= |cbs|
          invariant made + Deliveries(cbs[i..], event, data) == calls + Deliveries(cbs, event, data)
          invariant logged + Failures(cbs[i..], event, data, raising) == errors + Failures(cbs, event, data, raising)
          invariant unchanged(this)
        {
          var c := Call(cbs[i], event, data);
          var failed: seq<Call> := if cbs[i] in raising then [c] else [];
          DeliveriesStep(cbs, i, event, data, made);
          FailuresStep(cbs, i, event, data, raising, logged);
          made := made + [c];
          logged := logged + failed;
          i := i + 1;
        }
        assert cbs[i..] == [];
        calls, errors := made, logged;
      }
    }
  }
}
