/** bbbot/ddp.py: the Meteor DDP (version 1) client. `Client` is
    `DDPClient` after its websocket is open: the call-id counter and the
    table of pending method futures, the lazily filled collection table,
    and the dispatch of already-decoded frames. `Collection` is
    `DDPCollection`: a document map, a subscribed flag and the change
    callbacks, whose invocations are recorded in `changes`. */
module Ddp {
  import opened Values
  import opened Utils

  /** A document: field name to value. */
  type Doc = map<string, Json>

  /** A registered change callback, by handle. */
  type Callback = nat

  /** A decoded incoming frame; a field is None when the JSON object does
      not carry it. */
  datatype Message = Message(
    msg: Option<string>,
    session: Option<string>,
    id: Option<string>,
    collection: Option<string>,
    fields: Option<Doc>,
    cleared: Option<seq<string>>,
    result: Option<Json>,
    error: Option<Json>,
    before: Option<string>)

  /** One invocation `callback(id, old, new)`. */
  datatype Change = Change(callback: Callback, id: string, previous: Option<Doc>, current: Option<Doc>)

  /** What `DDPClient` registers for teardown: the socket's `close`. */
  datatype Closer = SocketClose

  // ---------------------------------------------------------------------
  // Collections, as values

  /** The state of one `DDPCollection`. A stored document is None when the
      `added` frame carried no `fields`. */
  datatype View = View(data: map<string, Option<Doc>>, subscribed: bool, callbacks: seq<Callback>, changes: seq<Change>)

  /** The state after a diff, and the exception it raised, if any. */
  datatype Step = Step(view: View, err: Option<PyError>)

  const EmptyView := View(map[], false, [], [])

  /** `_trigger_change(id, old, new)`: every callback once, in
      registration order, with the same arguments. */
  function Notify(cbs: seq<Callback>, id: string, previous: Option<Doc>, current: Option<Doc>): (r: seq<Change>)
    ensures |r| == |cbs|
    ensures forall i :: 0 <= i < |cbs| ==> r[i] == Change(cbs[i], id, previous, current)
  {
    if cbs == [] then []
    else Notify(cbs[..|cbs| - 1], id, previous, current) + [Change(cbs[|cbs| - 1], id, previous, current)]
  }

  /** Python truthiness of a stored document: None and `{}` are false. */
  predicate Truthy(doc: Option<Doc>) {
    doc.Some? && doc.value != map[]
  }

  /** `_added(id, fields, before)`; `before` is ignored. */
  function AddedView(v: View, id: string, fields: Option<Doc>): (r: View)
    ensures r.data.Keys == v.data.Keys + {id} && r.data[id] == fields
    ensures forall k :: k in v.data && k != id ==> r.data[k] == v.data[k]
    ensures r.subscribed && r.callbacks == v.callbacks
    ensures r.changes == v.changes + Notify(v.callbacks, id, None, fields)
  {
    View(v.data[id := fields], true, v.callbacks, v.changes + Notify(v.callbacks, id, None, fields))
  }

  /** The document after `for key in cleared: doc.pop(key)`, and whether a
      pop raised KeyError. The loop stops at the first key not present
      (a key listed twice is not present the second time); the pops before
      it stay done. */
  function ClearKeys(doc: Doc, keys: seq<string>): (r: (Doc, bool))
    ensures r.0.Keys <= doc.Keys
    ensures forall k :: k in r.0 ==> r.0[k] == doc[k]
  {
    if keys == [] then (doc, false)
    else if keys[0] !in doc then (doc, true)
    else ClearKeys(doc - {keys[0]}, keys[1..])
  }

  /** `_changed(id, fields, cleared)`: the stored document is updated with
      `fields`, then the `cleared` keys are popped one by one, in place.
      KeyError for a missing id, TypeError for a document stored as None,
      KeyError for a cleared key not present (the document keeps the
      update and the pops done so far, and no callback runs). */
  function ChangedView(v: View, id: string, fields: Option<Doc>, cleared: Option<seq<string>>): (r: Step)
    ensures r.view.subscribed && r.view.callbacks == v.callbacks
    ensures r.view.data.Keys == v.data.Keys
    ensures forall k :: k in v.data && k != id ==> r.view.data[k] == v.data[k]
    ensures r.err.Some? ==> r.view.changes == v.changes
    ensures r.err.None? ==> |r.view.changes| == |v.changes| + |v.callbacks| && r.view.changes[..|v.changes|] == v.changes
  {
    var marked := v.(subscribed := true);
    if id !in v.data then Step(marked, Some(KeyError))
    else if v.data[id].None? then Step(marked, Some(TypeError))
    else
      var r := ClearKeys(v.data[id].value + fields.GetOr(map[]), cleared.GetOr([]));
      var stored := marked.(data := v.data[id := Some(r.0)]);
      if r.1 then Step(stored, Some(KeyError))
      else Step(stored.(changes := v.changes + Notify(v.callbacks, id, v.data[id], Some(r.0))), None)
  }

  /** `_removed(id)`: KeyError for a missing id; callbacks run only when the
      removed document is truthy. */
  function RemovedView(v: View, id: string): (r: Step)
    ensures r.view.subscribed && r.view.callbacks == v.callbacks
    ensures r.err.Some? <==> id !in v.data
    ensures r.err.None? ==> r.view.data.Keys == v.data.Keys - {id}
    ensures r.err.Some? ==> r.view.data == v.data && r.view.changes == v.changes
    ensures r.err.None? ==>
      r.view.changes == v.changes + (if Truthy(v.data[id]) then Notify(v.callbacks, id, v.data[id], None) else [])
  {
    var marked := v.(subscribed := true);
    if id !in v.data then Step(marked, Some(KeyError))
    else
      var notes := if Truthy(v.data[id]) then Notify(v.callbacks, id, v.data[id], None) else [];
      Step(marked.(data := v.data - {id}, changes := v.changes + notes), None)
  }

  /** `_moved(id, before)`: ordering is not supported. */
  function MovedView(v: View): (r: View)
    ensures r.subscribed && r.data == v.data && r.callbacks == v.callbacks && r.changes == v.changes
  {
    v.(subscribed := true)
  }

  /** `_unsub(error)`: a bulk reset, without callbacks; the error is ignored. */
  function UnsubView(v: View): (r: View)
    ensures !r.subscribed && r.data == map[] && r.callbacks == v.callbacks && r.changes == v.changes
  {
    v.(subscribed := false, data := map[])
  }

  /** The five collection diff kinds `on_msg` routes to a collection. */
  predicate IsDiff(kind: string) {
    kind == "added" || kind == "changed" || kind == "removed" || kind == "addedBefore" || kind == "movedBefore"
  }

  /** A diff frame applied to its collection; `data["id"]` is read before
      the handler runs. */
  function Diff(v: View, kind: string, m: Message): (r: Step)
    requires IsDiff(kind)
    ensures r.view.callbacks == v.callbacks
    ensures m.id.None? ==> r == Step(v, Some(KeyError))
    ensures m.id.Some? ==> r.view.subscribed
    ensures r.err.Some? ==> r.err == Some(KeyError) || r.err == Some(TypeError)
    ensures r.err.Some? ==> r.view.changes == v.changes
    ensures |v.changes| <= |r.view.changes| && r.view.changes[..|v.changes|] == v.changes
  {
    if m.id.None? then Step(v, Some(KeyError))
    else if kind == "added" || kind == "addedBefore" then Step(AddedView(v, m.id.value, m.fields), None)
    else if kind == "changed" then ChangedView(v, m.id.value, m.fields, m.cleared)
    else if kind == "removed" then RemovedView(v, m.id.value)
    else Step(MovedView(v), None)
  }

  /** A diff frame as `on_msg` is written: the handler's arguments are
      evaluated (`data["id"]` raises KeyError when absent), but the
      handlers are `async` and called without `await`, so the coroutine
      each call returns is dropped and its body never runs. */
  function DiffAsWritten(v: View, m: Message): (r: Step)
    ensures r.view == v
    ensures r.err.Some? <==> m.id.None?
    ensures r.err.Some? ==> r.err == Some(KeyError)
  {
    if m.id.None? then Step(v, Some(KeyError)) else Step(v, None)
  }

  // ---------------------------------------------------------------------
  // Properties of the diffs

  ghost predicate Distinct(keys: seq<string>) {
    forall i, j :: 0 <= i < j < |keys| ==> keys[i] != keys[j]
  }

  /** The pops all succeed exactly when the keys are distinct and present,
      and then they remove exactly those keys. */
  lemma {:induction false} ClearKeysSucceeds(doc: Doc, keys: seq<string>)
    ensures !ClearKeys(doc, keys).1 <==> Distinct(keys) && forall i :: 0 <= i < |keys| ==> keys[i] in doc
    ensures !ClearKeys(doc, keys).1 ==> ClearKeys(doc, keys).0 == doc - (set k | k in keys)
  {
    if keys != [] && keys[0] in doc {
      var rest := keys[1..];
      ClearKeysSucceeds(doc - {keys[0]}, rest);
      if !ClearKeys(doc, keys).1 {
        assert forall i :: 0 <= i < |rest| ==> rest[i] != keys[0];
        assert (set k | k in keys) == {keys[0]} + (set k | k in rest);
        assert doc - (set k | k in keys) == (doc - {keys[0]}) - (set k | k in rest);
      }
      if Distinct(keys) && forall i :: 0 <= i < |keys| ==> keys[i] in doc {
        assert forall i :: 0 <= i < |rest| ==> rest[i] in doc - {keys[0]} by {
          forall i | 0 <= i < |rest|
            ensures rest[i] in doc - {keys[0]}
          {
            assert rest[i] == keys[i + 1] && keys[i + 1] != keys[0];
          }
        }
      }
    }
  }

  /** A key that `changed` both sets and clears ends up absent; the other
      set keys take their new values; cleared keys are gone; untouched
      keys keep their old values. */
  lemma ChangedSetThenCleared(v: View, id: string, fields: Doc, cleared: seq<string>, k: string)
    requires id in v.data && v.data[id].Some?
    requires ChangedView(v, id, Some(fields), Some(cleared)).err.None?
    ensures id in ChangedView(v, id, Some(fields), Some(cleared)).view.data
    ensures var doc := ChangedView(v, id, Some(fields), Some(cleared)).view.data[id];
      && doc.Some?
      && (k in cleared ==> k !in doc.value)
      && (k !in cleared && k in fields ==> k in doc.value && doc.value[k] == fields[k])
      && (k !in cleared && k !in fields && k in v.data[id].value ==> k in doc.value && doc.value[k] == v.data[id].value[k])
  {
    ClearKeysSucceeds(v.data[id].value + fields, cleared);
  }

  /** A successful `changed` invokes every callback with a pre-change copy
      as `old` and the new document as `new`; every other document stays. */
  lemma ChangedNotifies(v: View, id: string, fields: Option<Doc>, cleared: Option<seq<string>>)
    requires ChangedView(v, id, fields, cleared).err.None?
    ensures var r := ChangedView(v, id, fields, cleared).view;
      && id in v.data && id in r.data && r.subscribed
      && r.changes == v.changes + Notify(v.callbacks, id, v.data[id], r.data[id])
      && r.data.Keys == v.data.Keys
      && forall k :: k in v.data && k != id ==> r.data[k] == v.data[k]
  {
  }

  /** `changed` raises KeyError or TypeError exactly when the document is
      missing, stored as None, or a cleared key is repeated or absent from
      the updated document; no callback runs then. */
  lemma ChangedFailsExactly(v: View, id: string, fields: Option<Doc>, cleared: Option<seq<string>>)
    ensures var s := ChangedView(v, id, fields, cleared);
      && (s.err.Some? <==>
           || id !in v.data
           || v.data[id].None?
           || !Distinct(cleared.GetOr([]))
           || exists i :: 0 <= i < |cleared.GetOr([])| && cleared.GetOr([])[i] !in v.data[id].value + fields.GetOr(map[]))
      && (s.err.Some? ==> s.view.changes == v.changes)
  {
    if id in v.data && v.data[id].Some? {
      ClearKeysSucceeds(v.data[id].value + fields.GetOr(map[]), cleared.GetOr([]));
    }
  }

  /** Scenario: `added` of `{x: 1}`, then `changed` with fields `{y: 2}`
      and cleared `[x]`, leaves `{y: 2}`, and the callback sees the old and
      the new document. */
  lemma AddedThenChanged(v: View, id: string, cb: Callback)
    requires v.callbacks == [cb]
    ensures var added := AddedView(v, id, Some(map["x" := JInt(1)]));
      var s := ChangedView(added, id, Some(map["y" := JInt(2)]), Some(["x"]));
      && s.err.None?
      && s.view.data[id] == Some(map["y" := JInt(2)])
      && s.view.changes == v.changes + [Change(cb, id, None, Some(map["x" := JInt(1)])),
                                         Change(cb, id, Some(map["x" := JInt(1)]), Some(map["y" := JInt(2)]))]
  {
    var x1: Doc := map["x" := JInt(1)];
    var y2: Doc := map["y" := JInt(2)];
    var merged := x1 + y2;
    assert ["x"][1..] == [];
    assert ClearKeys(merged, ["x"]) == ClearKeys(merged - {"x"}, []);
    assert merged - {"x"} == y2;
  }

  /** `removed` after `added` takes the document out again, and notifies
      with the added fields as `old` when they are non-empty. */
  lemma AddedThenRemoved(v: View, id: string, fields: Option<Doc>)
    ensures var s := RemovedView(AddedView(v, id, fields), id);
      && s.err.None?
      && s.view.data == v.data - {id}
      && s.view.changes == v.changes + Notify(v.callbacks, id, None, fields)
           + (if Truthy(fields) then Notify(v.callbacks, id, fields, None) else [])
  {
    assert v.data[id := fields] - {id} == v.data - {id};
  }

  /** `removed` raises KeyError exactly for a missing id; otherwise only
      that id leaves the map (no tombstone is kept). */
  lemma RemovedDeletes(v: View, id: string)
    ensures var s := RemovedView(v, id);
      && (s.err.Some? <==> id !in v.data)
      && s.view.data.Keys == v.data.Keys - {id}
      && forall k :: k in s.view.data ==> s.view.data[k] == v.data[k]
  {
  }

  // ---------------------------------------------------------------------
  // DDPCollection

  class Collection {
    const name: string
    /** `str(id(self))`: the subscription id, distinct per collection. */
    const subId: string
    var data: map<string, Option<Doc>>
    var subscribed: bool
    var callbacks: seq<Callback>
    var changes: seq<Change>

    function State(): View
      reads this
    {
      View(data, subscribed, callbacks, changes)
    }

    constructor (name: string, subId: string)
      ensures this.name == name && this.subId == subId
      ensures State() == EmptyView
    {
      this.name, this.subId := name, subId;
      data, subscribed, callbacks, changes := map[], false, [], [];
    }

    /** `on_change(func)` */
    method OnChange(cb: Callback)
      modifies this
      ensures State() == old(State()).(callbacks := old(callbacks) + [cb])
    {
      callbacks := callbacks + [cb];
    }

    /** `_trigger_change(id, old, new)` */
    method TriggerChange(id: string, oldDoc: Option<Doc>, newDoc: Option<Doc>)
      modifies this
      ensures State() == old(State()).(changes := old(changes) + Notify(callbacks, id, oldDoc, newDoc))
    {
      var i := 0;
      while i < |callbacks|
        invariant 0 <= i <= |callbacks|
        invariant State() == old(State()).(changes := old(changes) + Notify(callbacks[..i], id, oldDoc, newDoc))
      {
        assert callbacks[..i + 1][..i] == callbacks[..i];
        changes := changes + [Change(callbacks[i], id, oldDoc, newDoc)];
        i := i + 1;
      }
      assert callbacks[..i] == callbacks;
    }

    /** `_added(id, fields, before=None)` and `addedBefore` */
    method Added(id: string, fields: Option<Doc>, before: Option<string>)
      modifies this
      ensures State() == AddedView(old(State()), id, fields)
    {
      subscribed := true;
      data := data[id := fields];
      TriggerChange(id, None, fields);
    }

    /** `_changed(id, fields, cleared)` */
    method Changed(id: string, fields: Option<Doc>, cleared: Option<seq<string>>) returns (err: Option<PyError>)
      modifies this
      ensures Step(State(), err) == ChangedView(old(State()), id, fields, cleared)
    {
      subscribed := true;
      if id !in data {
        return Some(KeyError);
      }
      if data[id].None? {
        return Some(TypeError);
      }
      var oldDoc := data[id];
      var doc := data[id].value + fields.GetOr(map[]);
      data := data[id := Some(doc)];
      var keys := cleared.GetOr([]);
      var i := 0;
      while i < |keys|
        invariant 0 <= i <= |keys|
        invariant ClearKeys(doc, keys[i..]) == ClearKeys(oldDoc.value + fields.GetOr(map[]), keys)
        invariant State() == old(State()).(subscribed := true, data := old(data)[id := Some(doc)])
      {
        if keys[i] !in doc {
          return Some(KeyError);
        }
        assert keys[i..][1..] == keys[i + 1..];
        doc := doc - {keys[i]};
        data := data[id := Some(doc)];
        i := i + 1;
      }
      TriggerChange(id, oldDoc, Some(doc));
      err := None;
    }

    /** `_removed(id)` */
    method Removed(id: string) returns (err: Option<PyError>)
      modifies this
      ensures Step(State(), err) == RemovedView(old(State()), id)
    {
      subscribed := true;
      if id !in data {
        return Some(KeyError);
      }
      var oldDoc := data[id];
      data := data - {id};
      if oldDoc.Some? && oldDoc.value != map[] {
        TriggerChange(id, oldDoc, None);
      }
      err := None;
    }

    /** `_moved(id, before)` */
    method Moved(id: string, before: Option<string>)
      modifies this
      ensures State() == MovedView(old(State()))
    {
      subscribed := true;
    }

    /** `_unsub(error)` */
    method Unsub(error: Option<Json>)
      modifies this
      ensures State() == UnsubView(old(State()))
    {
      subscribed := false;
      data := map[];
    }
  }

  /** As written, no diff frame changes its collection, while an awaited
      `added` stores its document and notifies every callback: on the
      frame `{msg: "added", collection: "c", id: "x", fields: {a: 1}}` a
      fresh collection stays empty. */
  lemma UnawaitedDiffIsLost(v: View, kind: string, m: Message)
    requires IsDiff(kind)
    ensures DiffAsWritten(v, m).view == v
    ensures DiffAsWritten(v, m).err == Diff(v, kind, m).err || kind == "changed" || kind == "removed"
    ensures m.id.Some? && (kind == "added" || kind == "addedBefore") ==>
      && Diff(v, kind, m).view.data == v.data[m.id.value := m.fields]
      && Diff(v, kind, m).view.subscribed
      && |Diff(v, kind, m).view.changes| == |v.changes| + |v.callbacks|
    ensures var x := Message(Some("added"), None, Some("x"), Some("c"), Some(map["a" := JInt(1)]), None, None, None, None);
      && DiffAsWritten(EmptyView, x).view.data == map[]
      && Diff(EmptyView, "added", x).view.data == map["x" := Some(map["a" := JInt(1)])]
  {
  }

  // ---------------------------------------------------------------------
  // DDPClient

  /** `send(msg, **args)` sends `args` with `msg` set. */
  function Framed(msg: string, args: Payload): (p: Payload)
    ensures p.Keys == args.Keys + {"msg"} && p["msg"] == JStr(msg)
    ensures forall k :: k in args && k != "msg" ==> k in p && p[k] == args[k]
  {
    args["msg" := JStr(msg)]
  }

  function MethodPayload(callId: string, methodName: string, params: seq<Json>): Payload {
    Framed("method", map["id" := JStr(callId), "method" := JStr(methodName), "params" := JArray(params)])
  }

  const ConnectPayload: Payload := Framed("connect", map["version" := JStr("1"), "support" := JArray([JStr("1")])])
  const PongPayload: Payload := Framed("pong", map[])

  /** The `msg` kinds `on_msg` acts on; every other kind is ignored. */
  predicate IsHandled(kind: string) {
    kind == "connected" || kind == "failed" || kind == "ping" || kind == "result" || kind == "nosub" || IsDiff(kind)
  }

  /** Every id in `ids` reads back as a number from 2 to `last`. */
  ghost predicate IssuedUpTo(ids: set<string>, last: nat) {
    forall k {:trigger Num(k)} :: k in ids ==> 2 <= Num(k) <= last
  }

  class Client {
    /** The call counter: the ids issued so far are "2" up to `str(id)`. */
    var id: nat
    /** `method_futures`: the pending calls. */
    var methodFutures: map<string, Future<Json>>
    /** The future each `call` returned to its caller, by call id. */
    var calls: map<string, Future<Json>>
    var collections: map<string, Collection>
    /** The names in `collections`, in insertion order (dict order). */
    var names: seq<string>
    /** Every payload passed to the socket, in order. */
    var sent: seq<Payload>
    var hasSock: bool
    var handshakeDone: bool
    var session: Option<string>
    const life: Closeable<Closer>
    ghost var Repr: set<object>

    /** The call ids issued so far are numbered 2 to `id`; every pending
        call is one the caller still waits on. */
    ghost predicate CallsValid()
      reads this`id, this`calls, this`methodFutures
    {
      && 1 <= id
      && IssuedUpTo(calls.Keys, id)
      && (forall k :: k in methodFutures ==> k in calls && calls[k] == Pending && methodFutures[k] == Pending)
    }

    /** `names` lists the collections in insertion order, each stored
        under its own name, the i-th subscribed as `str(i)`. */
    ghost predicate CollectionsValid()
      reads this`collections, this`names, this`Repr
    {
      && collections.Keys == (set n | n in names)
      && (forall i, j :: 0 <= i < j < |names| ==> names[i] != names[j])
      && (forall n :: n in collections ==> collections[n] in Repr && collections[n].name == n)
      && (forall i :: 0 <= i < |names| ==> collections[names[i]].subId == Str(i))
    }

    ghost predicate Valid()
      reads this
    {
      && this in Repr && life in Repr
      && CallsValid()
      && CollectionsValid()
    }

    constructor ()
      ensures Valid() && fresh(Repr)
      ensures id == 1 && methodFutures == map[] && calls == map[]
      ensures collections == map[] && names == [] && sent == []
      ensures !hasSock && !handshakeDone && session == None
      ensures life.onClose == [] && !life.closed
    {
      id := 1;
      methodFutures, calls := map[], map[];
      collections, names := map[], [];
      sent := [];
      hasSock, handshakeDone, session := false, false, None;
      life := new Closeable();
      new;
      Repr := {this, life};
    }

    /** `send(msg, **args)`: the payload is `args` with `msg` set; without
        a socket the attribute lookup raises. */
    method Send(msg: string, args: Payload) returns (err: Option<PyError>)
      modifies this`sent
      ensures hasSock ==> err.None? && sent == old(sent) + [Framed(msg, args)]
      ensures !hasSock ==> err == Some(AttributeError) && sent == old(sent)
    {
      if !hasSock {
        return Some(AttributeError);
      }
      sent := sent + [Framed(msg, args)];
      err := None;
    }

    /** The part of `connect()` after the websocket opens: its close is
        registered and the `connect` frame sent; the caller then waits for
        the handshake (`AwaitHandshake`). */
    method Connect()
      requires Valid()
      modifies this`hasSock, this`sent, life
      ensures Valid()
      ensures hasSock && sent == old(sent) + [ConnectPayload]
      ensures life.onClose == old(life.onClose) + [SocketClose]
      ensures life.closed == old(life.closed) && life.trace == old(life.trace)
    {
      hasSock := true;
      life.OnClose(SocketClose);
      var _ := Send("connect", map["version" := JStr("1"), "support" := JArray([JStr("1")])]);
    }

    /** Whether `connect()` has returned: it waits for the `connected` frame. */
    method AwaitHandshake() returns (returned: bool)
      ensures returned <==> handshakeDone
    {
      returned := handshakeDone;
    }

    /** `call(method, *params)`: the counter is bumped, the future stored
        under the new id, then the `method` frame sent. */
    method Call(methodName: string, params: seq<Json>) returns (callId: string, err: Option<PyError>)
      requires Valid()
      modifies this`id, this`methodFutures, this`calls, this`sent
      ensures Valid()
      ensures id == old(id) + 1 && callId == Str(id) && callId !in old(calls)
      ensures methodFutures == old(methodFutures)[callId := Pending]
      ensures calls == old(calls)[callId := Pending]
      ensures hasSock ==> err.None? && sent == old(sent) + [MethodPayload(callId, methodName, params)]
      ensures !hasSock ==> err == Some(AttributeError) && sent == old(sent)
    {
      callId := Register();
      err := Send("method", map["id" := JStr(callId), "method" := JStr(methodName), "params" := JArray(params)]);
    }

    /** The first half of `call`: `self.id += 1` and the pending future
        stored under `str(self.id)`. */
    method Register() returns (callId: string)
      requires Valid()
      modifies this`id, this`methodFutures, this`calls
      ensures Valid()
      ensures id == old(id) + 1 && callId == Str(id) && callId !in old(calls)
      ensures methodFutures == old(methodFutures)[callId := Pending]
      ensures calls == old(calls)[callId := Pending]
    {
      NextCallId(calls.Keys, id);
      id := id + 1;
      callId := Str(id);
      methodFutures := methodFutures[callId := Pending];
      calls := calls[callId := Pending];
      assert calls.Keys == old(calls).Keys + {callId};
    }

    /** The id after `last` is new, and the set stays numbered 2 to `last + 1`. */
    static lemma NextCallId(ids: set<string>, last: nat)
      requires 1 <= last && IssuedUpTo(ids, last)
      ensures Str(last + 1) !in ids
      ensures IssuedUpTo(ids + {Str(last + 1)}, last + 1)
    {
      NumStr(last + 1);
    }

    /** Each new call id reads back as a larger number than every id
        issued before it: ids are issued in increasing order. */
    static lemma CallIdsIncrease(ids: set<string>, last: nat)
      requires IssuedUpTo(ids, last)
      ensures forall k :: k in ids ==> Num(k) < Num(Str(last + 1)) == last + 1
    {
      NumStr(last + 1);
    }

    /** `collection(name)`: created on first reference, then the same object. */
    method GetCollection(name: string) returns (c: Collection)
      requires Valid()
      modifies this`collections, this`names, this`Repr
      ensures Valid() && fresh(Repr - old(Repr))
      ensures name in collections && c == collections[name]
      ensures name in old(collections) ==> collections == old(collections) && names == old(names) && Repr == old(Repr)
      ensures name !in old(collections) ==>
        && fresh(c) && c.State() == EmptyView && c.name == name && c.subId == Str(|old(names)|)
        && collections == old(collections)[name := c] && names == old(names) + [name]
    {
      if name !in collections {
        c := new Collection(name, Str(|names|));
        collections := collections[name := c];
        names := names + [name];
        Repr := Repr + {c};
      }
      c := collections[name];
    }

    /** The call table, the socket log and the handshake state are as before. */
    twostate predicate KeepsCalls()
      reads this
    {
      && id == old(id) && methodFutures == old(methodFutures) && calls == old(calls)
      && sent == old(sent) && hasSock == old(hasSock)
      && handshakeDone == old(handshakeDone) && session == old(session)
    }

    /** What a `result` frame does: pop exactly its id (KeyError when it is
        not pending) and resolve that future with `result`, None if absent. */
    twostate predicate ResultApplied(m: Message, new err: Option<PyError>)
      reads this
    {
      && id == old(id) && sent == old(sent) && collections == old(collections) && names == old(names)
      && hasSock == old(hasSock) && handshakeDone == old(handshakeDone) && session == old(session)
      && (m.id.None? || m.id.value !in old(methodFutures) ==>
           err == Some(KeyError) && methodFutures == old(methodFutures) && calls == old(calls))
      && (m.id.Some? && m.id.value in old(methodFutures) ==>
           && err.None?
           && methodFutures == old(methodFutures) - {m.id.value}
           && calls == old(calls)[m.id.value := Done(m.result.GetOr(JNull))])
    }

    /** What a `nosub` frame does: the collection whose subscription id
        matches is reset, the others stay. */
    twostate predicate NoSubApplied(m: Message, new err: Option<PyError>)
      reads this, collections.Values
    {
      && collections == old(collections) && names == old(names)
      && (names != [] && m.id.None? ==> err == Some(KeyError))
      && (names == [] || m.id.Some? ==> err.None?)
      && forall n :: n in collections ==>
           collections[n].State() ==
             if m.id.Some? && collections[n].subId == m.id.value then UnsubView(old(collections[n].State()))
             else old(collections[n].State())
    }

    /** What a diff frame does: KeyError without `collection`; otherwise
        the named collection (created if new) takes the diff, and every
        other collection stays. */
    twostate predicate DiffApplied(kind: string, m: Message, new err: Option<PyError>)
      requires IsDiff(kind)
      reads this, collections.Values
    {
      && (m.collection.None? ==> err == Some(KeyError) && collections == old(collections) && names == old(names))
      && (m.collection.Some? ==>
           var name := m.collection.value;
           && name in collections
           && (name in old(collections) ==> collections == old(collections) && names == old(names))
           && (name !in old(collections) ==> collections == old(collections)[name := collections[name]] && names == old(names) + [name])
           && Step(collections[name].State(), err)
                == Diff(if name in old(collections) then old(collections[name].State()) else EmptyView, kind, m))
      && forall n :: n in old(collections) && (m.collection.None? || n != m.collection.value) ==>
           n in collections && collections[n].State() == old(collections[n].State())
    }

    /** `result` */
    method HandleResult(m: Message) returns (err: Option<PyError>)
      requires Valid()
      modifies this`methodFutures, this`calls
      ensures Valid() && ResultApplied(m, err)
    {
      if m.id.None? || m.id.value !in methodFutures {
        return Some(KeyError);
      }
      var k := m.id.value;
      var future := methodFutures[k];
      methodFutures := methodFutures - {k};
      // A Future object is always truthy, so `if future:` always passes.
      var resolved := future.SetResult(m.result.GetOr(JNull));
      calls := calls[k := resolved.value];
      err := None;
    }

    /** `nosub`: the first collection whose subscription id matches is
        reset. With no collections the frame's id is never read. */
    method HandleNoSub(m: Message) returns (err: Option<PyError>)
      requires Valid()
      modifies set n | n in collections :: collections[n]
      ensures Valid() && NoSubApplied(m, err) && KeepsCalls() && unchanged(life)
    {
      var i := 0;
      while i < |names|
        invariant 0 <= i <= |names|
        invariant i > 0 ==> m.id.Some?
        invariant forall j :: 0 <= j < i ==> collections[names[j]].subId != m.id.value
        invariant forall n :: n in collections ==> collections[n].State() == old(collections[n].State())
      {
        if m.id.None? {
          return Some(KeyError);
        }
        var c := collections[names[i]];
        if c.subId == m.id.value {
          c.Unsub(m.error);
          forall n | n in collections && n != names[i]
            ensures collections[n].subId != m.id.value
          {
            var j :| 0 <= j < |names| && names[j] == n;
            if collections[n].subId == m.id.value {
              StrInjective(i, j);
            }
          }
          return None;
        }
        i := i + 1;
      }
      forall n | n in collections
        ensures !(m.id.Some? && collections[n].subId == m.id.value)
      {
        var j :| 0 <= j < |names| && names[j] == n;
      }
      err := None;
    }

    /** One diff applied to a collection object. */
    static method ApplyDiff(c: Collection, kind: string, m: Message) returns (err: Option<PyError>)
      requires IsDiff(kind)
      modifies c
      ensures Step(c.State(), err) == Diff(old(c.State()), kind, m)
    {
      if m.id.None? {
        return Some(KeyError);
      }
      var docId := m.id.value;
      if kind == "added" {
        c.Added(docId, m.fields, None);
        err := None;
      } else if kind == "changed" {
        err := c.Changed(docId, m.fields, m.cleared);
      } else if kind == "removed" {
        err := c.Removed(docId);
      } else if kind == "addedBefore" {
        c.Added(docId, m.fields, m.before);
        err := None;
      } else {
        c.Moved(docId, m.before);
        err := None;
      }
    }

    /** A diff frame: `data["collection"]` is read first (KeyError before
        any collection is made), the collection is fetched or created,
        then `data["id"]` is read and the diff applied. */
    method HandleDiff(kind: string, m: Message) returns (err: Option<PyError>)
      requires Valid() && IsDiff(kind)
      modifies this`collections, this`names, this`Repr, set n | n in collections :: collections[n]
      ensures Valid() && fresh(Repr - old(Repr))
      ensures DiffApplied(kind, m, err) && KeepsCalls() && unchanged(life)
    {
      if m.collection.None? {
        return Some(KeyError);
      }
      var name := m.collection.value;
      ghost var before := if name in collections then collections[name].State() else EmptyView;
      var c := GetCollection(name);
      assert c.State() == before;
      err := ApplyDiff(c, kind, m);
    }

    /** A diff frame as `on_msg` is written: the collection is still
        fetched or created and `data["id"]` still read, but the dropped
        coroutine changes no collection. */
    method HandleDiffAsWritten(kind: string, m: Message) returns (err: Option<PyError>)
      requires Valid() && IsDiff(kind)
      modifies this`collections, this`names, this`Repr
      ensures Valid() && fresh(Repr - old(Repr)) && KeepsCalls()
      ensures m.collection.None? ==> err == Some(KeyError) && collections == old(collections) && names == old(names)
      ensures m.collection.Some? ==>
        var name := m.collection.value;
        && name in collections
        && (name in old(collections) ==> collections == old(collections) && names == old(names))
        && (name !in old(collections) ==> collections == old(collections)[name := collections[name]] && names == old(names) + [name])
        && Step(collections[name].State(), err)
             == DiffAsWritten(if name in old(collections) then old(collections[name].State()) else EmptyView, m)
      ensures forall n :: n in old(collections) ==> n in collections && collections[n].State() == old(collections[n].State())
    {
      if m.collection.None? {
        return Some(KeyError);
      }
      var c := GetCollection(m.collection.value);
      err := if m.id.None? then Some(KeyError) else None;
    }

    /** `on_msg`: routes a decoded frame by its `msg` kind. It is called
        only from the read loop over the open socket. A `failed` frame
        closes the client; `closeFails` says which closers raise. Diff
        frames go through `HandleDiff`, which awaits the handler as the
        code evidently intends; as written the handler's body never runs,
        which is `HandleDiffAsWritten`. */
    method OnMsg(m: Message, closeFails: Closer -> bool) returns (err: Option<PyError>)
      requires Valid() && hasSock
      modifies Repr
      ensures Valid() && fresh(Repr - old(Repr)) && hasSock
      ensures m.msg.None? ==> err == Some(KeyError) && unchanged(old(Repr))
      ensures m.msg == Some("connected") && m.session.None? ==> err == Some(KeyError) && unchanged(old(Repr))
      ensures m.msg == Some("connected") && m.session.Some? ==>
        && err.None? && session == m.session && handshakeDone
        && names == old(names) && id == old(id) && methodFutures == old(methodFutures) && calls == old(calls) && sent == old(sent)
        && collections == old(collections) && unchanged(old(Repr) - {this})
      ensures m.msg == Some("failed") ==>
        && err.None? && KeepsCalls() && collections == old(collections) && unchanged(old(Repr) - {life})
        && life.closed && life.onClose == old(life.onClose)
        && life.trace == old(life.trace) + CloseRun(life.onClose, closeFails)
      ensures m.msg == Some("ping") ==>
        && err.None? && sent == old(sent) + [PongPayload]
        && names == old(names) && id == old(id) && methodFutures == old(methodFutures) && calls == old(calls)
        && handshakeDone == old(handshakeDone) && session == old(session)
        && collections == old(collections) && unchanged(old(Repr) - {this})
      ensures m.msg == Some("result") ==> ResultApplied(m, err) && unchanged(old(Repr) - {this})
      ensures m.msg == Some("nosub") ==> NoSubApplied(m, err) && KeepsCalls() && unchanged(life)
      ensures m.msg.Some? && IsDiff(m.msg.value) ==> DiffApplied(m.msg.value, m, err) && KeepsCalls() && unchanged(life)
      ensures m.msg.Some? && !IsHandled(m.msg.value) ==> err.None? && unchanged(old(Repr))
    {
      if m.msg.None? {
        return Some(KeyError);
      }
      var kind := m.msg.value;
      err := None;
      if kind == "connected" {
        if m.session.None? {
          return Some(KeyError);
        }
        session := m.session;
        handshakeDone := true;
      } else if kind == "failed" {
        life.Close(closeFails);
      } else if kind == "ping" {
        err := Send("pong", map[]);
      } else if kind == "result" {
        err := HandleResult(m);
      } else if kind == "updated" {
        // Some method calls have finished changing collections: nothing to do.
      } else if kind == "nosub" {
        err := HandleNoSub(m);
      } else if IsDiff(kind) {
        err := HandleDiff(kind, m);
      } else if kind == "ready" {
      }
    }
  }

  /** Scenario: `call("foo", 1, 2)` on a fresh client whose socket just
      opened sends the connect frame, then
      `{msg: "method", id: "2", method: "foo", params: [1, 2]}`, and leaves
      that call pending. */
  method FirstCallId() returns (c: Client, callId: string)
    ensures callId == "2"
    ensures c.sent == [ConnectPayload, MethodPayload("2", "foo", [JInt(1), JInt(2)])]
    ensures c.methodFutures == map["2" := Pending] && c.calls == map["2" := Pending]
  {
    c := new Client();
    c.Connect();
    var err;
    callId, err := c.Call("foo", [JInt(1), JInt(2)]);
  }
}
