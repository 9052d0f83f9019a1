# bbbot core in Dafny

A model of the protocol core of `bbbot`, a bot that joins BigBlueButton meetings. The model covers three pieces:

- **`Ddp` (`bbbot/ddp.py`)** is the Meteor DDP (version 1) client after its websocket opens. It holds:
  - the call-id counter and the table of pending method futures;
  - the collection table, filled lazily;
  - the dispatch of already-decoded frames (`on_msg`);
  - `DDPCollection`: a document map, a subscribed flag and the change callbacks it runs in registration order.
- **`Rtc` (`bbbot/rtc.py`)** is the SFU signalling client. It holds:
  - its ICE-server list;
  - its sessions, numbered 1, 2, 3, … in creation order;
  - the routing of `startResponse` frames to the latest session;
  - the per-session handshake. A session's `state` starts as `new`; `connect()` sets `starting`, an accepted start response sets `accepted`, and an `Exception` inside its handshake sets `failed`. Each handler assigns its value from any state, so nothing keeps the state from moving backwards (a later start response on a failed session makes it `accepted` again). Its one-shot "connected" future is resolved by the start response or by the peer's connection state.
- **`Utils` (`bbbot/utils.py`)** holds:
  - `Events`, a fixed set of named flags;
  - `AsyncCloseable`, an ordered teardown list with best-effort close and a closed flag;
  - `Waiter`, a list of condition/event pairs filtered on each event.
- **`Values`** holds what the three share:
  - decoded JSON values;
  - the Python exceptions the core raises;
  - asyncio futures as values;
  - `str(n)` and its inverse on non-negative integers.

How the source's constructs are represented:

- **Objects.** Each object whose fields the source updates in place is a class: `Client`, `Collection`, `SfuClient`, `Session`, `Events`, `Closeable`, `Waiter`.
- **Frames.** Incoming frames are records whose fields are `None` when the JSON key is absent. This keeps apart what `data["x"]` does (raises `KeyError`) from what `data.get("x")` does (returns `None`). Outgoing frames are appended to a `sent` log.
- **Exceptions.** An exception a method raises is returned as `err`.
- **Teardown.** The teardown list of each owner is a `Closeable` component (`life`). Closers are opaque values of the owner's choosing. Which closers raise is given by the caller of `Close`. Each close is recorded as a trace of `Invoked`, `Logged` and `MarkedClosed` steps.
- **Pure effects.** Each collection diff, the session's start response and the peer state change is also stated as a function on a value view of the state (`View`, `SessionView`). The methods are proved to compute exactly that function. The lemmas state what those functions promise.

Behaviour of the code worth knowing, which the model keeps:

- **Routing.** A `startResponse` is delivered to `sessions[-1]`, the most recently created session. It is not delivered first-in first-out (`bbbot/rtc.py:81-83`).
- **Close.** `close()` has no idempotence guard. A second call runs every closer again (`bbbot/utils.py:39-45`).
- **Unknown result id.** A `result` frame whose id is not pending raises `KeyError` from `pop`. It is not dropped (`bbbot/ddp.py:71`).
- **Result frames.** A `result` frame's `error` field is ignored. The future is resolved with `result`, or `None` when that is absent (`bbbot/ddp.py:73`).
- **Failed handshake.** A `failed` frame closes the client but never sets the handshake event, so a caller of `connect()` stays suspended (`bbbot/ddp.py:35, 63-65`).
- **Pending calls.** They are not failed when the connection closes.
- **Ping loop.** The ping loop is a task cancelled through the teardown list.

## Model

| member | source | states |
|---|---|---|
| Values.Future.SetResult | bbbot/rtc.py:152-153 | `set_result` succeeds exactly on a pending future and makes it done with that value; on a done future it raises InvalidStateError |
| Values.Future.SetException | bbbot/rtc.py:147-150 | `set_exception` succeeds exactly on a pending future and stores the error; on a done future it raises InvalidStateError |
| Values.Str | bbbot/ddp.py:49-50 | `str(n)` is non-empty and ends in the digit `n % 10` |
| Values.Num | bbbot/ddp.py:49-50 | the reference inverse of `str` on call ids, through which `NumStr`, `NextCallId` and `CallIdsIncrease` are stated; it is non-negative on a string of decimal digits |
| Values.NumStr | bbbot/ddp.py:49-50 | reading back the decimal string `str(n)` gives `n` again |
| Values.StrInjective | bbbot/ddp.py:49-50 | distinct counters give distinct id strings |
| Utils.Events.constructor | bbbot/utils.py:13-14 | the flag names are exactly the given names, all unset |
| Utils.Events.Set | bbbot/utils.py:16-17 | a known name's flag is set and nothing else changes; an unknown name raises KeyError and changes nothing; the name set never changes |
| Utils.Events.Wait | bbbot/utils.py:19-22 | KeyError exactly for an unknown name; a set flag returns True; an unset flag returns False once a timeout elapses (the timeout is suppressed) and stays suspended without one |
| Utils.Attempt | bbbot/utils.py:41-44 | one closer is invoked once, and one log entry follows exactly when it raises |
| Utils.Attempts | bbbot/utils.py:40-44 | the loop takes between one and two steps per closer |
| Utils.CloseRun | bbbot/utils.py:39-45 | a close ends by setting the closed flag |
| Utils.EveryCloserInvokedOnce | bbbot/utils.py:40-44 | the closers invoked by the loop are exactly the registered ones, once each, in registration order, whichever of them raise |
| Utils.CloseRunInvokesEach | bbbot/utils.py:39-45 | a whole close invokes exactly the registered closers in order, so a raising closer does not stop later ones |
| Utils.ClosedOnlyAfterAllAttempts | bbbot/utils.py:39-45 | the closed flag is not set during the loop, only after it; every log entry follows the invocation of a closer that raised |
| Utils.Closeable.constructor | bbbot/utils.py:26-28 | empty teardown list, not closed |
| Utils.Closeable.OnClose | bbbot/utils.py:30-31 | the closer is appended at the end; nothing else changes |
| Utils.Closeable.Close | bbbot/utils.py:39-45 | the trace grows by the full close run over the registered closers and the flag is set, even when already closed (no idempotence guard) |
| Utils.Closeable.WaitClosed | bbbot/utils.py:47-48 | `wait_closed` returns exactly when the closed flag is set |
| Utils.Fire | bbbot/utils.py:60-63 | evaluating the conditions keeps one flag per event |
| Utils.FireSetsExactly | bbbot/utils.py:60-63 | after `on_event` an event is set exactly when it was set before or some waiter's condition on it holds |
| Utils.Unfired | bbbot/utils.py:66 | the waiters kept by the intended filter come from the filtered list and have unset events and conditions that did not hold |
| Utils.UnfiredBelow | bbbot/utils.py:66 | the events of the kept waiters stay below every bound that all events of the filtered list are below |
| Utils.UnfiredWellFormed | bbbot/utils.py:66 | the intended filter keeps the waiters in creation order |
| Utils.UnfiredKeeps | bbbot/utils.py:66 | the intended filter keeps every waiter whose condition failed and whose event is unset |
| Utils.DroppedWaiterNeverFires | bbbot/utils.py:64-66 | a waiter whose condition fails is left with its event unset, yet the intended filter would keep it |
| Utils.Waiter.constructor | bbbot/utils.py:52-53 | no waiters, no events |
| Utils.Waiter.Expect | bbbot/utils.py:55-58 | returns a fresh unset event and appends the pair at the end, keeping events in creation order |
| Utils.Waiter.OnEvent | bbbot/utils.py:60-66 | as written: exactly the events whose condition holds are set, and the waiting list becomes empty |
| Utils.Waiter.OnEventIntended | bbbot/utils.py:60-66 | with `is_set()` called: the same events are set, and the waiters whose event is unset stay, in order |
| Ddp.Notify | bbbot/ddp.py:124-126 | one invocation per callback, in registration order, all with the same `(id, old, new)` |
| Ddp.AddedView | bbbot/ddp.py:128-131 | `_added` stores `fields` under `id`, keeps every other document, marks subscribed, and notifies every callback with `(id, None, fields)` |
| Ddp.ChangedView | bbbot/ddp.py:133-141 | `_changed` keeps the document ids and every other document and marks subscribed; it notifies once per callback on success and not at all on an error |
| Ddp.RemovedView | bbbot/ddp.py:143-147 | `_removed` raises exactly for a missing id, changing no data and notifying nobody then; otherwise exactly that id leaves, and every callback is notified with `(id, old, None)` exactly when the removed document is truthy |
| Ddp.MovedView | bbbot/ddp.py:149-151 | `_moved` only marks the collection subscribed |
| Ddp.UnsubView | bbbot/ddp.py:117-119 | `_unsub` empties the data and clears the flag, keeping callbacks and notifying nobody |
| Ddp.Diff | bbbot/ddp.py:84-93 | a diff frame raises KeyError without `id`, changing nothing; otherwise it marks subscribed, raises only KeyError or TypeError, only extends the change log, and never notifies on an error |
| Ddp.DiffAsWritten | bbbot/ddp.py:84-93 | as written a diff frame leaves the collection as it was, raising KeyError exactly when `id` is absent |
| Ddp.ClearKeys | bbbot/ddp.py:138-139 | popping keys only removes entries and never changes a value |
| Ddp.ClearKeysSucceeds | bbbot/ddp.py:138-139 | the pops raise no KeyError exactly when the cleared keys are distinct and all present, and then exactly those keys are removed |
| Ddp.ChangedSetThenCleared | bbbot/ddp.py:133-141 | after `changed`, a key both set and cleared is absent, set keys take their new values, and untouched keys keep their old values |
| Ddp.ChangedNotifies | bbbot/ddp.py:133-141 | a successful `changed` notifies with the pre-change document as `old` and the new one as `new`, marks the collection subscribed, and leaves other documents alone |
| Ddp.ChangedFailsExactly | bbbot/ddp.py:133-141 | `changed` raises exactly for a missing id, a document stored as None, or a repeated or absent cleared key; no callback runs then |
| Ddp.AddedThenChanged | bbbot/ddp.py:128-141 | adding `{x: 1}` then changing with `{y: 2}` and clearing `x` leaves `{y: 2}`, with both notifications in order |
| Ddp.AddedThenRemoved | bbbot/ddp.py:128-147 | `removed` undoes `added` on the data and notifies with the added fields only when they are truthy |
| Ddp.RemovedDeletes | bbbot/ddp.py:143-147 | `removed` raises KeyError exactly for a missing id; otherwise only that id leaves the map |
| Ddp.UnawaitedDiffIsLost | bbbot/ddp.py:84-93 | as written a diff frame never changes its collection, while the awaited handler stores an added document; the `added` frame on an empty collection exhibits it |
| Ddp.Collection.constructor | bbbot/ddp.py:103-109 | empty data, unsubscribed, no callbacks |
| Ddp.Collection.OnChange | bbbot/ddp.py:121-122 | the callback is appended; nothing else changes |
| Ddp.Collection.TriggerChange | bbbot/ddp.py:124-126 | every registered callback is invoked once, in order, with the same arguments |
| Ddp.Collection.Added | bbbot/ddp.py:128-131 | stores `fields` under `id` (overwriting, `before` ignored), sets subscribed, notifies `(id, None, fields)` |
| Ddp.Collection.Changed | bbbot/ddp.py:133-141 | the in-place update-then-pop loop leaves exactly the state and error the `changed` function gives |
| Ddp.Collection.Removed | bbbot/ddp.py:143-147 | the pop and the conditional notification give exactly the `removed` function's state and error |
| Ddp.Collection.Moved | bbbot/ddp.py:149-151 | only the subscribed flag changes |
| Ddp.Collection.Unsub | bbbot/ddp.py:117-119 | data cleared and subscription flag reset, callbacks not run, the error ignored |
| Ddp.Framed | bbbot/ddp.py:42-43 | the frame's keys are the arguments' keys plus `msg`, which is set to the message kind; the other fields are kept |
| Ddp.Client.constructor | bbbot/ddp.py:13-21 | counter 1, no pending calls, no collections, no socket |
| Ddp.Client.Send | bbbot/ddp.py:42-46 | with a socket exactly one framed payload is logged; without one AttributeError and nothing sent |
| Ddp.Client.Connect | bbbot/ddp.py:27-34 | the socket's close is registered and exactly one `connect` frame with version "1" is sent |
| Ddp.Client.AwaitHandshake | bbbot/ddp.py:35 | `connect()` returns exactly when the `connected` frame has arrived |
| Ddp.Client.Register | bbbot/ddp.py:49-51 | the counter is bumped and the new id, never issued before, maps to a pending future; other entries unchanged |
| Ddp.Client.Call | bbbot/ddp.py:48-52 | the new id is inserted before the `method` frame with that id, method and params is sent |
| Ddp.Client.NextCallId | bbbot/ddp.py:49-50 | the next id is not among the ids issued so far, which stay numbered 2 to the counter |
| Ddp.Client.CallIdsIncrease | bbbot/ddp.py:49-50 | each new id reads back as a number larger than every id issued before it |
| Ddp.Client.GetCollection | bbbot/ddp.py:97-100 | a known name returns the same object and changes nothing; a new name adds exactly one fresh empty collection |
| Ddp.Client.HandleResult | bbbot/ddp.py:70-73 | pops exactly the frame's id and resolves it with `result` or None; a missing or unknown id raises KeyError and changes nothing |
| Ddp.Client.HandleNoSub | bbbot/ddp.py:79-83 | resets only the collection whose subscription id matches and leaves every other collection as it was |
| Ddp.Client.ApplyDiff | bbbot/ddp.py:84-93 | a diff applied to a collection object gives exactly the state and error of the diff function |
| Ddp.Client.HandleDiff | bbbot/ddp.py:84-93 | KeyError without `collection`; otherwise the named collection (created if new) takes the diff, and every other collection stays |
| Ddp.Client.HandleDiffAsWritten | bbbot/ddp.py:84-93 | as written: a new name adds exactly that one collection, `id` is read (KeyError when absent), but no collection's state changes |
| Ddp.Client.OnMsg | bbbot/ddp.py:55-95 | per `msg` kind: `connected` records the session, `failed` closes, `ping` sends one `pong`, `result`/`nosub` as their handlers, diffs as the awaited diff handler (the corrected half of the unawaited-handler finding; as written a diff changes no collection, see `Ddp.Client.HandleDiffAsWritten`), other kinds change nothing; a missing `msg` or `session` raises KeyError |
| Ddp.FirstCallId | bbbot/ddp.py:48-52 | on a fresh client whose socket opened, `call("foo", 1, 2)` returns id "2", sends the connect frame then the method frame with id "2", and leaves that call pending |
| Rtc.Tagged | bbbot/rtc.py:67-69 | the SFU frame is the arguments with "id" set to the message name, overriding any caller "id", other fields kept |
| Rtc.LoopCancelAlwaysLogged | bbbot/rtc.py:49-50 | closing cancels each loop and logs a failure for it; a session's close, itself a best-effort `close`, is invoked and never logged |
| Rtc.SfuRaises | bbbot/rtc.py:49-50 | in the client's close both loop cancellations raise (a bool is awaited), a session's close never raises (its bare `except` swallows every failure), and the socket close raises exactly as given |
| Rtc.ExchangeFailure | bbbot/rtc.py:155-174 | the `try` block raises nothing exactly when `sdpAnswer` is present, the exchange succeeds and the socket is open; an exchange error is what it raises |
| Rtc.StartResponse | bbbot/rtc.py:119-180 | the state stays, becomes accepted or failed; a done future is kept; a future changes only to hold the raised error on a failed session; an answer is sent exactly when nothing raised, and then only the state changes, to accepted |
| Rtc.PeerStateChange | bbbot/rtc.py:143-153 | only `failed` closes, storing the connection error; an error raised is InvalidStateError on a done future, which is kept |
| Rtc.GuardsLeaveSessionAlone | bbbot/rtc.py:122-126 | a start response failing either guard raises KeyError or AssertionError before `state` changes or the future resolves |
| Rtc.AcceptedAfterFailure | bbbot/rtc.py:119-125 | an accepted start response on a failed session sets the state back to `accepted` and sends an answer, while the future keeps its error |
| Rtc.StartResponseOutcome | bbbot/rtc.py:125-180 | after the guards the session is `accepted`, `failed` exactly when the exchange or send raised an `Exception`, and answers with the local SDP exactly when nothing raised |
| Rtc.FailedHandshakeSettlesFuture | bbbot/rtc.py:176-180 | a failed handshake leaves the future done; an already done future keeps its value, a pending one holds the error |
| Rtc.FutureIsOneShot | bbbot/rtc.py:143-180 | a done future is never replaced; a later `failed` or `connected` peer state raises InvalidStateError and does not close |
| Rtc.PeerStateOnPending | bbbot/rtc.py:143-153 | on a pending future `failed` stores the error and closes, `connected` stores the result; `state` is never set to connected |
| Rtc.Session.constructor | bbbot/rtc.py:88-100 | state new, id 0, no tracks, pending future, the peer's close registered |
| Rtc.Session.Connect | bbbot/rtc.py:102-111 | state becomes starting and one `start` frame with type, role, the session id, no extension and listen-only false is sent |
| Rtc.Session.AwaitConnected | bbbot/rtc.py:113-117 | a future already done keeps its result or error and `connect()` returns or re-raises it; a timeout cancels the future and raises TimeoutError; the session is closed exactly when TimeoutError is raised, whether by the wait or from the future |
| Rtc.Session.OnStartResponse | bbbot/rtc.py:119-180 | the state, future, error and sent frames are exactly those the start-response function gives |
| Rtc.Session.OnConnectionStateChange | bbbot/rtc.py:143-153 | the future and error are those the peer-state function gives, and the session is closed exactly when it says so |
| Rtc.Session.OnTrack | bbbot/rtc.py:133-136 | the track is appended |
| Rtc.SfuClient.constructor | bbbot/rtc.py:17-23 | no ICE servers, no sessions, no socket |
| Rtc.SfuClient.AddIceServer | bbbot/rtc.py:25-32 | exactly one (url, username, credential) entry is appended; earlier entries unchanged |
| Rtc.SfuClient.Connect | bbbot/rtc.py:34-50 | the socket close and the two loop cancellations are registered, in that order |
| Rtc.SfuClient.Close | bbbot/rtc.py:49-50 | the client's close runs every closer with the loop cancellations failing |
| Rtc.SfuClient.Send | bbbot/rtc.py:67-71 | with a socket exactly one tagged frame is sent; without one AssertionError and nothing sent |
| Rtc.SfuClient.NewSession | bbbot/rtc.py:54-65 | the new session is appended, numbered with the new length, configured with the ICE servers, and its close registered; no socket raises AssertionError |
| Rtc.SfuClient.OnMsg | bbbot/rtc.py:73-83 | `pong` and other ids change nothing; `startResponse` needs `response == "accepted"`, raises IndexError with no sessions, and otherwise goes to the latest session, which changes exactly as `_on_start_response` says (its tracks and id kept), while every earlier session is unchanged |

## Left out

- The websocket I/O is left out: `ws_connect`, `send_str`, the read loops and JSON encoding and decoding. Frames are decoded records, and sent frames are an append-only log.
- Time is left out: the 10-second ping loop, the `wait_for` timeouts and `Event.wait`. A timeout is an input saying whether the limit passed.
- The aiortc peer connection is left out: SDP, ICE and track delivery. The description exchange is an `Exchange` input that succeeds or raises, the connection state is an input event, and the ICE-server list is a snapshot.
- An exception raised by `on_msg` or `_on_msg` ends the read loop (`bbbot/ddp.py:37-40`, `bbbot/rtc.py:39-42`), so no later frame is processed. The model's `OnMsg` methods return the error and may be called again; the end of the loop is not modelled.
- Documents are values. In the source a stored document is the same dict that was passed to callbacks as `new`, and `_changed` later changes it in place (`bbbot/ddp.py:130-137`). That aliasing is not modelled: a recorded notification keeps the document as it was when the notification was made.
- The effects of a closer on other objects are not modelled, e.g. a session's close run by the SFU client's close. A closer's effect is its step in the trace.
- Exceptions raised by change callbacks are not modelled. Callbacks are handles whose invocations are recorded.
- DDP subscriptions are not modelled. Only `sub`/`unsub` send frames, and they are left out.
- DDP URL rewriting with `urlsplit`/`urljoin` is left out.
- `bbbot/client.py`, `bbbot/join.py` and the example scripts are not part of this model.
- Cancelling a caller's `call()` future is not modelled. Pending futures stay pending until their `result` frame.
- Ddp.Client.HandleNoSub: `str(id(self))` is modelled as `str` of the collection's creation index. That gives the distinct string per collection the source relies on, but not the actual address.
- Utils.Waiter.OnEvent: a condition is a total, pure function of the event. A condition that raises is not modelled: in the source it escapes the comprehension, leaving `waiting` unchanged while earlier events are already set. The order in which conditions run is not observable in the model.
- Utils.Waiter.OnEventIntended: the same holds for raising conditions and the order of evaluation.
- Rtc.SfuClient.AddIceServer: the defaults `username=None, credential=None` are not represented; a caller passes `None` explicitly.
- Rtc.SfuClient.NewSession: the defaults `type="audio", role="recv"` are not represented; a caller passes them explicitly.
- Rtc.Session.AwaitConnected: the model assumes Python 3.11 or later, where `asyncio.TimeoutError` is the `TimeoutError` caught at `bbbot/rtc.py:115`.
- Handler registration is a flag. Registering the handlers again on a second start response is not modelled.
- Rtc.Session.OnStartResponse: the `assert answer` at `bbbot/rtc.py:162` is part of the `Exchange` input, as an `ExchangeRaised(AssertionError)` outcome.
- Values.Str: its contract states only that the rendering is non-empty and that its last digit is `n % 10`. Its meaning as decimal notation is stated by `Values.NumStr`.

## Findings

| source | as written | input that shows it | evidently intended | confidence | as-written member | corrected member |
|---|---|---|---|---|---|---|
| bbbot/utils.py:64 | `triggered` returns the bound method `event.is_set`, which is always truthy, so the filter drops every waiter | a waiter whose condition does not hold on an event is removed with its event unset, and will never fire | return `event.is_set()` so waiters whose event is still unset stay in the list | high (not executed) | `Utils.Waiter.OnEvent`, `Utils.DroppedWaiterNeverFires` | `Utils.Waiter.OnEventIntended` |
| bbbot/ddp.py:84-93 | the `async` handlers `_added`, `_changed`, `_removed` and `_moved` are called without `await`; the coroutines are dropped and their bodies never run | `{msg: "added", collection: "c", id: "x", fields: {a: 1}}` leaves collection `c` empty, unsubscribed and without notifications | `await` each handler call so the diff is applied | high (not executed) | `Ddp.Client.HandleDiffAsWritten`, `Ddp.UnawaitedDiffIsLost` | `Ddp.Client.HandleDiff` (used by `Ddp.Client.OnMsg`) |
