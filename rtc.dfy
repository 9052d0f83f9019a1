/** The SFU (selective forwarding unit) signalling client of `bbbot/rtc.py`:
    a websocket client that keeps the ICE servers and the media sessions it
    opened, and the per-session handshake that moves a session from `new`
    through `starting` and `accepted` (or `failed`) while its one-shot
    "connected" future waits for the peer connection.

    The peer connection (SDP offer/answer, ICE, tracks) is outside the model:
    the description exchange is an `Exchange` outcome passed in, and the
    peer's connection state arrives as an event. */
module Rtc {
  import opened Values
  import opened Utils

  /** `aiortc.RTCIceServer(url, username=..., credential=...)` */
  datatype IceServer = IceServer(url: string, username: Option<string>, credential: Option<string>)

  /** The values the `state` attribute takes: "new", "starting", "accepted", "failed". */
  datatype SessionState = New | Starting | Accepted | Failed

  /** A decoded SFU frame; a field is None when the key is absent. */
  datatype Frame = Frame(
    id: Option<string>,
    response: Option<string>,
    mediaType: Option<string>,  // the frame's "type"
    sdpAnswer: Option<string>)

  /** What setting the remote description, creating the answer and setting
      the local description did: the local SDP, or the exception one raised. */
  datatype Exchange = Answered(sdpOffer: string) | ExchangeRaised(error: PyError)

  /** A media track delivered by the peer connection. */
  datatype Track = Track(kind: string)

  /** What a resolved "connected" future holds: the session itself. */
  datatype Ready = Ready

  datatype SfuCloser = SocketClose | CancelPingLoop | CancelReadLoop | CloseSession(session: Session)
  datatype SessionCloser = PeerClose

  /** Which SFU closers raise inside `close`, given which of the others
      fail. A loop's closer is the task's `cancel`, which returns a bool:
      `await closer()` cancels the task and then raises TypeError, so
      those two are always logged. */
  function SfuRaises(fails: SfuCloser -> bool): (raises: SfuCloser -> bool)
    ensures raises(CancelPingLoop) && raises(CancelReadLoop)
    ensures raises(SocketClose) == fails(SocketClose)
  {
    (c: SfuCloser) => c.CancelPingLoop? || c.CancelReadLoop? || (!c.CloseSession? && fails(c))
  }

  /** Closing the SFU client cancels each loop and logs a failure for it,
      whatever else fails. */
  lemma LoopCancelAlwaysLogged(fails: SfuCloser -> bool, s: Session)
    ensures Attempt(CancelPingLoop, SfuRaises(fails)) == [Invoked(CancelPingLoop), Logged(CancelPingLoop)]
    ensures Attempt(CancelReadLoop, SfuRaises(fails)) == [Invoked(CancelReadLoop), Logged(CancelReadLoop)]
    ensures Attempt(SocketClose, SfuRaises(fails)) == Attempt(SocketClose, fails)
    ensures Attempt(CloseSession(s), SfuRaises(fails)) == [Invoked(CloseSession(s))]
  {
  }

  /** `send(id, **args)`: the frame is the keyword arguments with "id" set
      to the message name, replacing any "id" the caller gave. */
  function Tagged(id: string, args: Payload): (p: Payload)
    ensures p.Keys == args.Keys + {"id"}
    ensures p["id"] == JStr(id)
    ensures forall k :: k in args && k != "id" ==> p[k] == args[k]
  {
    args["id" := JStr(id)]
  }

  /** The arguments of the `start` request. */
  function StartArgs(mediaType: string, role: string, number: nat): Payload {
    map["type" := JStr(mediaType), "role" := JStr(role), "clientSessionNumber" := JInt(number),
        "extension" := JNull, "transparentListenOnly" := JBool(false)]
  }

  /** The arguments of the `subscriberAnswer` reply. */
  function AnswerArgs(mediaType: string, role: string, sdpOffer: string): Payload {
    map["type" := JStr(mediaType), "role" := JStr(role), "sdpOffer" := JStr(sdpOffer)]
  }

  /** Whether `except Exception` catches the error: since Python 3.8
      `CancelledError` derives from `BaseException` only. */
  predicate IsException(e: PyError) {
    e != CancelledError
  }

  // ---------------------------------------------------------------------
  // The session handshake as functions of the session's state

  /** The part of a session the handshake changes. */
  datatype SessionView = SessionView(state: SessionState, connected: Future<Ready>)

  /** A handler's effect: the new session view, what it raised, and the
      SDP it answered with, when it sent a `subscriberAnswer`. */
  datatype Reaction = Reaction(view: SessionView, err: Option<PyError>, answer: Option<string>)

  /** The exception the `try` block of `_on_start_response` raises, if
      any: reading `sdpAnswer`, the description exchange, then the send. */
  function ExchangeFailure(f: Frame, exchange: Exchange, sockOpen: bool): (r: Option<PyError>)
    ensures r.None? <==> f.sdpAnswer.Some? && exchange.Answered? && sockOpen
    ensures f.sdpAnswer.Some? && exchange.ExchangeRaised? ==> r == Some(exchange.error)
  {
    if f.sdpAnswer.None? then Some(KeyError)
    else if exchange.ExchangeRaised? then Some(exchange.error)
    else if !sockOpen then Some(AssertionError)
    else None
  }

  /** `_on_start_response(msg)` on a session of media type `mediaType`. */
  function StartResponse(v: SessionView, mediaType: string, f: Frame, exchange: Exchange, sockOpen: bool): (r: Reaction)
    ensures r.view.state == v.state || r.view.state == Accepted || r.view.state == Failed
    ensures v.connected.IsDone() ==> r.view.connected == v.connected
    ensures r.view.connected != v.connected ==> r.err.Some? && r.view == SessionView(Failed, Raised(r.err.value))
    ensures r.answer.Some? <==> r.err.None?
    ensures r.answer.Some? ==> r.view == v.(state := Accepted)
  {
    if f.response.None? then Reaction(v, Some(KeyError), None)
    else if f.response.value != "accepted" then Reaction(v, Some(AssertionError), None)
    else if f.mediaType.None? then Reaction(v, Some(KeyError), None)
    else if f.mediaType.value != mediaType then Reaction(v, Some(AssertionError), None)
    else
      var accepted := v.(state := Accepted);
      match ExchangeFailure(f, exchange, sockOpen)
      case None => Reaction(accepted, None, Some(exchange.sdpOffer))
      case Some(e) =>
        if !IsException(e) then Reaction(accepted, Some(e), None)
        else
          var settled := if v.connected.IsDone() then v.connected else Raised(e);
          Reaction(SessionView(Failed, settled), Some(e), None)
  }

  /** The `connectionstatechange` handler: the new future, what it raised,
      and whether it closed the session. */
  datatype PeerReaction = PeerReaction(connected: Future<Ready>, err: Option<PyError>, closes: bool)

  function PeerStateChange(connected: Future<Ready>, connState: string): (r: PeerReaction)
    ensures r.closes ==> connState == "failed" && r.err.None? && r.connected == Raised(ConnectionFailed)
    ensures r.err.Some? ==> r.err == Some(InvalidStateError) && r.connected == connected && connected.IsDone()
    ensures connected.IsDone() ==> r.connected == connected
  {
    if connState == "failed" then
      match connected.SetException(ConnectionFailed)
      case Ok(f) => PeerReaction(f, None, true)
      case Err(e) => PeerReaction(connected, Some(e), false)
    else if connState == "connected" then
      match connected.SetResult(Ready)
      case Ok(f) => PeerReaction(f, None, false)
      case Err(e) => PeerReaction(connected, Some(e), false)
    else PeerReaction(connected, None, false)
  }

  /** A start response that fails either guard raises before the `try`:
      the state is not touched, the future is not resolved, nothing is sent. */
  lemma GuardsLeaveSessionAlone(v: SessionView, mediaType: string, f: Frame, exchange: Exchange, sockOpen: bool)
    requires f.response != Some("accepted") || f.mediaType != Some(mediaType)
    ensures var r := StartResponse(v, mediaType, f, exchange, sockOpen);
      && r.view == v && r.answer.None?
      && (r.err == Some(KeyError) || r.err == Some(AssertionError))
      && (r.err == Some(KeyError) <==> f.response.None? || (f.response == Some("accepted") && f.mediaType.None?))
  {
  }

  /** Once both guards pass the session is `accepted`; it becomes `failed`
      exactly when the exchange or the send raises an `Exception`, and it
      answers with the local SDP exactly when nothing raised. */
  lemma StartResponseOutcome(v: SessionView, mediaType: string, f: Frame, exchange: Exchange, sockOpen: bool)
    requires f.response == Some("accepted") && f.mediaType == Some(mediaType)
    ensures var r := StartResponse(v, mediaType, f, exchange, sockOpen);
      var failure := ExchangeFailure(f, exchange, sockOpen);
      && r.err == failure
      && (r.view.state == Failed <==> failure.Some? && IsException(failure.value))
      && (r.view.state != Failed ==> r.view.state == Accepted && r.view.connected == v.connected)
      && (r.answer.Some? <==> failure.None?)
      && (failure.None? <==> f.sdpAnswer.Some? && exchange.Answered? && sockOpen)
      && (r.answer.Some? ==> r.answer.value == exchange.sdpOffer)
  {
  }

  /** Nothing keeps `state` from moving backwards: a later accepted start
      response on a failed session sets it to `accepted` again, while the
      future keeps the error it already holds. */
  lemma AcceptedAfterFailure(e: PyError, mediaType: string, f: Frame, sdpOffer: string)
    requires f.response == Some("accepted") && f.mediaType == Some(mediaType) && f.sdpAnswer.Some?
    ensures var r := StartResponse(SessionView(Failed, Raised(e)), mediaType, f, Answered(sdpOffer), true);
      r.view == SessionView(Accepted, Raised(e)) && r.err.None? && r.answer == Some(sdpOffer)
  {
  }

  /** A failed handshake always leaves the future done; one that was
      already done keeps its value, one that was pending holds the error. */
  lemma FailedHandshakeSettlesFuture(v: SessionView, mediaType: string, f: Frame, exchange: Exchange, sockOpen: bool)
    requires StartResponse(v, mediaType, f, exchange, sockOpen).view.state == Failed
    requires v.state != Failed
    ensures var r := StartResponse(v, mediaType, f, exchange, sockOpen);
      && r.view.connected.IsDone()
      && (v.connected.IsDone() ==> r.view.connected == v.connected)
      && (!v.connected.IsDone() ==> r.view.connected == Raised(r.err.value))
  {
  }

  /** The "connected" future is one-shot: neither the start response nor a
      peer state change replaces a result or an error already there. */
  lemma FutureIsOneShot(v: SessionView, mediaType: string, f: Frame, exchange: Exchange, sockOpen: bool, connState: string)
    requires v.connected.IsDone()
    ensures StartResponse(v, mediaType, f, exchange, sockOpen).view.connected == v.connected
    ensures PeerStateChange(v.connected, connState).connected == v.connected
    ensures PeerStateChange(v.connected, connState).err.Some? <==> connState == "failed" || connState == "connected"
    ensures !PeerStateChange(v.connected, connState).closes
  {
  }

  /** On a pending future, "failed" stores the connection error and closes
      the session, "connected" stores the result, any other state does
      nothing; none of them raises. */
  lemma PeerStateOnPending(connState: string)
    ensures var r := PeerStateChange(Pending, connState);
      && r.err.None?
      && (r.closes <==> connState == "failed")
      && (connState == "failed" ==> r.connected == Raised(ConnectionFailed))
      && (connState == "connected" ==> r.connected == Done(Ready))
      && (connState != "failed" && connState != "connected" ==> r.connected == Pending)
  {
  }

  /** What awaiting `connect()` gives once the wait ends. */
  datatype ConnectResult = Connected | ConnectRaised(error: PyError) | StillWaiting

  // ---------------------------------------------------------------------
  // RTCSession

  class Session {
    const sfu: SfuClient
    const mediaType: string
    const role: string
    /** The ICE servers the peer connection was configured with. */
    const config: seq<IceServer>
    var id: nat
    var state: SessionState
    var tracks: seq<Track>
    var connected: Future<Ready>
    /** Whether `_on_start_response` has registered the peer's handlers. */
    var handlersRegistered: bool
    const life: Closeable<SessionCloser>

    function View(): SessionView
      reads this
    {
      SessionView(state, connected)
    }

    /** `RTCSession(sfu, type, role, config)`: the peer's close is the first
        closer registered. */
    constructor (sfu: SfuClient, mediaType: string, role: string, config: seq<IceServer>)
      ensures this.sfu == sfu && this.mediaType == mediaType && this.role == role && this.config == config
      ensures id == 0 && state == New && tracks == [] && connected == Pending && !handlersRegistered
      ensures fresh(life) && life.onClose == [PeerClose] && !life.closed && life.trace == []
    {
      this.sfu, this.mediaType, this.role, this.config := sfu, mediaType, role, config;
      id, state, tracks, connected, handlersRegistered := 0, New, [], Pending, false;
      life := new Closeable();
      new;
      life.OnClose(PeerClose);
    }

    /** The first half of `connect()`: the state becomes `starting` and the
        `start` request goes out, numbered with the session id. */
    method Connect() returns (err: Option<PyError>)
      modifies this`state, sfu`sent
      ensures state == Starting
      ensures sfu.hasSock ==> err.None? && sfu.sent == old(sfu.sent) + [Tagged("start", StartArgs(mediaType, role, id))]
      ensures !sfu.hasSock ==> err == Some(AssertionError) && sfu.sent == old(sfu.sent)
    {
      state := Starting;
      err := sfu.Send("start", StartArgs(mediaType, role, id));
    }

    /** The second half of `connect()`, once the wait ends: `timedOut` says
        whether the 30-second limit passed before the future was done. On a
        timeout `wait_for` cancels the future. A `TimeoutError`, whether the
        wait's own or one the future holds, is caught: the session closes
        and the error is re-raised. */
    method AwaitConnected(timedOut: bool, closeFails: SessionCloser -> bool) returns (r: ConnectResult)
      modifies this`connected, life
      ensures old(connected).Done? ==> connected == old(connected) && r == Connected
      ensures old(connected).Raised? ==> connected == old(connected) && r == ConnectRaised(old(connected).error)
      ensures old(connected).Cancelled? ==> connected == Cancelled && r == ConnectRaised(CancelledError)
      ensures old(connected).Pending? && timedOut ==> connected == Cancelled && r == ConnectRaised(TimeoutError)
      ensures old(connected).Pending? && !timedOut ==> connected == Pending && r == StillWaiting
      ensures r == ConnectRaised(TimeoutError) ==>
        && life.closed && life.onClose == old(life.onClose)
        && life.trace == old(life.trace) + CloseRun(life.onClose, closeFails)
      ensures r != ConnectRaised(TimeoutError) ==> unchanged(life)
    {
      match connected
      case Done(_) => r := Connected;
      case Raised(e) =>
        r := ConnectRaised(e);
        if e == TimeoutError {
          life.Close(closeFails);
        }
      case Cancelled => r := ConnectRaised(CancelledError);
      case Pending =>
        if !timedOut {
          return StillWaiting;
        }
        connected := Cancelled;
        life.Close(closeFails);
        r := ConnectRaised(TimeoutError);
    }

    /** `_on_start_response(msg)`, with the description exchange's outcome
        given. Both assertions come before the `try`; inside it the peer's
        handlers are registered first, then `sdpAnswer` is read, the
        exchange made and the answer sent. */
    method OnStartResponse(f: Frame, exchange: Exchange) returns (err: Option<PyError>)
      modifies this`state, this`connected, this`handlersRegistered, sfu`sent
      ensures var r := StartResponse(old(View()), mediaType, f, exchange, sfu.hasSock);
        && View() == r.view && err == r.err
        && sfu.sent == old(sfu.sent) + (if r.answer.Some? then [Tagged("subscriberAnswer", AnswerArgs(mediaType, role, r.answer.value))] else [])
      ensures handlersRegistered <==> old(handlersRegistered) || (f.response == Some("accepted") && f.mediaType == Some(mediaType))
    {
      if f.response.None? {
        return Some(KeyError);
      }
      if f.response.value != "accepted" {
        return Some(AssertionError);
      }
      if f.mediaType.None? {
        return Some(KeyError);
      }
      if f.mediaType.value != mediaType {
        return Some(AssertionError);
      }
      state := Accepted;
      handlersRegistered := true;
      var failure: Option<PyError> := None;
      if f.sdpAnswer.None? {
        failure := Some(KeyError);
      } else if exchange.ExchangeRaised? {
        failure := Some(exchange.error);
      } else {
        failure := sfu.Send("subscriberAnswer", AnswerArgs(mediaType, role, exchange.sdpOffer));
      }
      if failure.Some? && IsException(failure.value) {
        state := Failed;
        if !connected.IsDone() {
          connected := Raised(failure.value);
        }
      }
      err := failure;
    }

    /** The `connectionstatechange` handler, for the peer's new connection
        state. `set_exception` and `set_result` raise on a done future. */
    method OnConnectionStateChange(connState: string, closeFails: SessionCloser -> bool) returns (err: Option<PyError>)
      requires handlersRegistered
      modifies this`connected, life
      ensures var r := PeerStateChange(old(connected), connState);
        && connected == r.connected && err == r.err
        && (r.closes ==> life.closed && life.onClose == old(life.onClose)
                         && life.trace == old(life.trace) + CloseRun(life.onClose, closeFails))
        && (!r.closes ==> unchanged(life))
    {
      err := None;
      if connState == "failed" {
        var settled := connected.SetException(ConnectionFailed);
        if settled.Err? {
          return Some(settled.error);
        }
        connected := settled.value;
        life.Close(closeFails);
      } else if connState == "connected" {
        var settled := connected.SetResult(Ready);
        if settled.Err? {
          return Some(settled.error);
        }
        connected := settled.value;
      }
    }

    /** The `track` handler: the track is appended. */
    method OnTrack(t: Track)
      requires handlersRegistered
      modifies this`tracks
      ensures tracks == old(tracks) + [t]
    {
      tracks := tracks + [t];
    }
  }

  // ---------------------------------------------------------------------
  // SFUClient

  class SfuClient {
    var iceServers: seq<IceServer>
    var sessions: seq<Session>
    var hasSock: bool
    /** Every frame passed to the socket, in order. */
    var sent: seq<Payload>
    const life: Closeable<SfuCloser>
    ghost var Repr: set<object>

    /** Every session belongs to this client and is numbered by its
        position: the i-th session created has id i + 1. */
    ghost predicate Valid()
      reads this, sessions
    {
      && this in Repr && life in Repr
      && forall i :: 0 <= i < |sessions| ==>
           && sessions[i] in Repr && sessions[i].life in Repr
           && sessions[i].sfu == this && sessions[i].id == i + 1
    }

    constructor ()
      ensures Valid() && fresh(Repr)
      ensures iceServers == [] && sessions == [] && !hasSock && sent == []
      ensures life.onClose == [] && !life.closed && life.trace == []
    {
      iceServers, sessions, hasSock, sent := [], [], false, [];
      life := new Closeable();
      new;
      Repr := {this, life};
    }

    /** `add_ice_server(url, username=None, credential=None)` */
    method AddIceServer(url: string, username: Option<string>, credential: Option<string>)
      modifies this`iceServers
      ensures iceServers == old(iceServers) + [IceServer(url, username, credential)]
    {
      iceServers := iceServers + [IceServer(url, username, credential)];
    }

    /** The part of `_connect` after the websocket opens: the socket's
        close, then the cancellation of the ping and read loops, are
        registered as closers. */
    method Connect()
      modifies this`hasSock, life
      ensures hasSock
      ensures life.onClose == old(life.onClose) + [SocketClose, CancelPingLoop, CancelReadLoop]
      ensures life.closed == old(life.closed) && life.trace == old(life.trace)
    {
      hasSock := true;
      life.OnClose(SocketClose);
      life.OnClose(CancelPingLoop);
      life.OnClose(CancelReadLoop);
    }

    /** `close()` of the client: every registered closer is attempted in
        order; `fails` says which of the socket and session closes raise. */
    method Close(fails: SfuCloser -> bool)
      modifies life
      ensures life.closed && life.onClose == old(life.onClose)
      ensures life.trace == old(life.trace) + CloseRun(life.onClose, SfuRaises(fails))
    {
      life.Close(SfuRaises(fails));
    }

    /** `send(id, **args)`; without a socket the assertion fails. */
    method Send(id: string, args: Payload) returns (err: Option<PyError>)
      modifies this`sent
      ensures hasSock ==> err.None? && sent == old(sent) + [Tagged(id, args)]
      ensures !hasSock ==> err == Some(AssertionError) && sent == old(sent)
    {
      if !hasSock {
        return Some(AssertionError);
      }
      sent := sent + [Tagged(id, args)];
      err := None;
    }

    /** `new_session(type, role)`: the session is configured with the ICE
        servers so far, its close registered, and it is appended and
        numbered with the new length of `sessions`. */
    method NewSession(mediaType: string, role: string) returns (r: Outcome<Session>)
      requires Valid()
      modifies this`sessions, this`Repr, life
      ensures Valid() && fresh(Repr - old(Repr))
      ensures !hasSock ==> r == Err(AssertionError) && sessions == old(sessions) && Repr == old(Repr) && unchanged(life)
      ensures hasSock ==>
        && r.Ok? && fresh(r.value) && fresh(r.value.life)
        && sessions == old(sessions) + [r.value] && r.value.id == |sessions|
        && r.value.mediaType == mediaType && r.value.role == role && r.value.config == iceServers
        && r.value.state == New && r.value.connected == Pending && r.value.tracks == []
        && life.onClose == old(life.onClose) + [CloseSession(r.value)]
        && life.closed == old(life.closed) && life.trace == old(life.trace)
    {
      if !hasSock {
        return Err(AssertionError);
      }
      var session := new Session(this, mediaType, role, iceServers);
      life.OnClose(CloseSession(session));
      sessions := sessions + [session];
      session.id := |sessions|;
      Repr := Repr + {session, session.life};
      r := Ok(session);
    }

    /** `_on_msg(msg)` for a decoded frame, with the outcome of the
        description exchange the latest session would make. A
        `startResponse` goes to the most recently created session. */
    method OnMsg(f: Frame, exchange: Exchange) returns (err: Option<PyError>)
      requires Valid()
      modifies this`sent, sessions
      ensures Valid() && sessions == old(sessions) && Repr == old(Repr)
      ensures f.id.None? ==> err == Some(KeyError) && sent == old(sent) && unchanged(sessions)
      ensures f.id.Some? && f.id.value != "startResponse" ==> err.None? && sent == old(sent) && unchanged(sessions)
      ensures f.id == Some("startResponse") && f.response.None? ==> err == Some(KeyError) && sent == old(sent) && unchanged(sessions)
      ensures f.id == Some("startResponse") && f.response.Some? && f.response.value != "accepted" ==>
        err == Some(AssertionError) && sent == old(sent) && unchanged(sessions)
      ensures f.id == Some("startResponse") && f.response == Some("accepted") && sessions == [] ==>
        err == Some(IndexError) && sent == old(sent)
      ensures f.id == Some("startResponse") && f.response == Some("accepted") && sessions != [] ==>
        var latest := sessions[|sessions| - 1];
        var r := StartResponse(old(latest.View()), latest.mediaType, f, exchange, hasSock);
        && latest.View() == r.view && err == r.err
        && sent == old(sent) + (if r.answer.Some? then [Tagged("subscriberAnswer", AnswerArgs(latest.mediaType, latest.role, r.answer.value))] else [])
        && latest.id == old(latest.id) && latest.tracks == old(latest.tracks) && unchanged(latest.life)
        && (latest.handlersRegistered <==> old(latest.handlersRegistered) || f.mediaType == Some(latest.mediaType))
        && unchanged(sessions[..|sessions| - 1])
    {
      if f.id.None? {
        return Some(KeyError);
      }
      if f.id.value == "pong" {
        return None;
      }
      if f.id.value != "startResponse" {
        return None;
      }
      if f.response.None? {
        return Some(KeyError);
      }
      if f.response.value != "accepted" {
        return Some(AssertionError);
      }
      if sessions == [] {
        return Some(IndexError);
      }
      var latest := sessions[|sessions| - 1];
      err := latest.OnStartResponse(f, exchange);
    }
  }
}
