/** The browser's link to the relay: one WebSocket at a time, the
    `ready` / `login` / `login_success` handshake that obtains and stores the
    user's UID, and reconnection with exponential backoff after abnormal
    closes. Sockets and timers are reduced to what the link does with them:
    each socket created has a `readyState`, every frame sent and every
    `close()` call is logged, and each pending timer is known by an id and
    its delay. */
module SignalingLink {
  import opened Signals

  const MaxReconnectAttempts: nat := 5
  const BaseReconnectDelay: nat := 1000
  const MaxReconnectDelay: nat := 30000
  /** The close code of a normal closure. */
  const NormalClosure: nat := 1000

  /** `WebSocket.readyState`. */
  datatype ReadyState = Connecting | Open | Closing | Closed

  /** One `close()` call: the socket and the code given, if any. */
  datatype CloseCall = CloseCall(socket: nat, code: Option<nat>)

  function Min(a: int, b: int): int { if a <= b then a else b }

  function Pow2(n: nat): (r: nat)
    ensures r >= 1
  {
    if n == 0 then 1 else 2 * Pow2(n - 1)
  }

  /** `Math.min(1000 * Math.pow(2, count - 1), 30000)` for the already
      incremented attempt count. */
  function RetryDelay(count: nat): (d: nat)
    requires count >= 1
    ensures BaseReconnectDelay <= d <= MaxReconnectDelay
  {
    Min(BaseReconnectDelay * Pow2(count - 1), MaxReconnectDelay)
  }

  /** What one abnormal-close decision does to the attempt count: a retry is
      scheduled exactly when the disconnect was not manual, the close code is
      not 1000 and fewer than five attempts were made; the count is then
      incremented first and the delay computed from the new count. */
  function RetryStep(count: nat, manual: bool, code: nat): (nat, Option<nat>) {
    if !manual && code != NormalClosure && count < MaxReconnectAttempts
    then (count + 1, Some(RetryDelay(count + 1)))
    else (count, None)
  }

  /** The attempt count and the delays scheduled by successive closes with
      the given codes, with no successful open and no manual disconnect in
      between. */
  function RetryRun(count: nat, codes: seq<nat>): (nat, seq<nat>)
    decreases |codes|
  {
    if codes == [] then (count, [])
    else
      var (next, delay) := RetryStep(count, false, codes[0]);
      var (last, delays) := RetryRun(next, codes[1..]);
      (last, (if delay.Some? then [delay.value] else []) + delays)
  }

  /** The delays of attempts 1 to 5. */
  const Backoff: seq<nat> := [1000, 2000, 4000, 8000, 16000]

  /** Within five attempts the delay doubles from one second and never
      reaches the 30-second cap; from the sixth it would be the cap. */
  lemma RetryDelayValues(count: nat)
    requires count >= 1
    ensures count <= MaxReconnectAttempts ==> RetryDelay(count) == Backoff[count - 1]
    ensures count < MaxReconnectAttempts ==> RetryDelay(count + 1) == 2 * RetryDelay(count)
    ensures count > MaxReconnectAttempts ==> RetryDelay(count) == MaxReconnectDelay
  {
    if count > MaxReconnectAttempts {
      Pow2AtLeast(count - 1);
    }
  }

  lemma {:induction false} Pow2AtLeast(n: nat)
    requires n >= 5
    ensures Pow2(n) >= 32
  {
    if n > 5 {
      Pow2AtLeast(n - 1);
    }
  }

  /** Backoff schedule: abnormal closes in a row, starting from `count`
      attempts, schedule the remaining delays of 1, 2, 4, 8 and 16 seconds in
      order and then nothing; the count stops at 5. */
  lemma {:induction false} BackoffSchedule(count: nat, codes: seq<nat>)
    requires count <= MaxReconnectAttempts
    requires forall i :: 0 <= i < |codes| ==> codes[i] != NormalClosure
    ensures RetryRun(count, codes).0 == Min(count + |codes|, MaxReconnectAttempts)
    ensures RetryRun(count, codes).1 == Backoff[count .. Min(count + |codes|, MaxReconnectAttempts)]
    decreases |codes|
  {
    if codes != [] {
      var (next, delay) := RetryStep(count, false, codes[0]);
      BackoffSchedule(next, codes[1..]);
      if count < MaxReconnectAttempts {
        RetryDelayValues(count + 1);
        assert delay == Some(Backoff[count]);
        var end := Min(count + |codes|, MaxReconnectAttempts);
        assert Backoff[count..end] == [Backoff[count]] + Backoff[count + 1..end];
      }
    }
  }

  /** The timer table after `clearTimeout` of the pending timer, if any. */
  function Cancelled(timers: map<nat, nat>, pending: Option<nat>): map<nat, nat> {
    if pending.Some? then timers - {pending.value} else timers
  }

  /** `ws.close()` on a socket that is not yet closed starts closing it. */
  function CloseSocket(states: seq<ReadyState>, s: nat): seq<ReadyState>
    requires s < |states|
  {
    if states[s] in {Connecting, Open} then states[s := Closing] else states
  }

  class Link {
    var reconnectCount: nat               // `reconnectCountRef`
    var isConnecting: bool                // `isConnectingRef`
    var isManualDisconnect: bool          // `isManualDisconnectRef`
    var timeout: Option<nat>              // `reconnectTimeoutRef`: a timer id
    var timers: map<nat, nat>             // timers scheduled and neither fired nor cleared: id to delay
    var nextTimer: nat
    var sockets: seq<ReadyState>          // every socket created, in creation order
    var ws: Option<nat>                   // `wsRef`
    var socket: Option<nat>               // the `socket` state
    var outbox: seq<(nat, Envelope)>      // every frame sent, with the socket it was sent on
    var closes: seq<CloseCall>            // every `close()` call
    var isConnected: bool
    var uid: Option<string>
    var storedUid: Option<string>         // `localStorage` item 'uid'
    var lastMessage: Option<Envelope>

    /** At most five attempts are ever counted; socket references are in
        range; pending timers have ids already issued. */
    ghost predicate Valid()
      reads this
    {
      && reconnectCount <= MaxReconnectAttempts
      && (ws.Some? ==> ws.value < |sockets|)
      && (socket.Some? ==> socket.value < |sockets|)
      && (forall t :: t in timers ==> t < nextTimer)
    }

    /** `wsRef.current && wsRef.current.readyState === WebSocket.OPEN`. */
    predicate SocketOpen()
      reads this
    {
      ws.Some? && ws.value < |sockets| && sockets[ws.value] == Open
    }

    /** The guard of `connect`: a connect in flight, or a current socket
        that is still connecting. */
    predicate ConnectInFlight()
      reads this
    {
      isConnecting || (ws.Some? && ws.value < |sockets| && sockets[ws.value] == Connecting)
    }

    constructor(saved: Option<string>)
      ensures Valid()
      ensures reconnectCount == 0 && !isConnecting && !isManualDisconnect
      ensures timeout == None && timers == map[] && sockets == [] && ws == None && socket == None
      ensures outbox == [] && closes == [] && !isConnected && uid == None && lastMessage == None
      ensures storedUid == saved
    {
      reconnectCount, isConnecting, isManualDisconnect := 0, false, false;
      timeout, timers, nextTimer := None, map[], 0;
      sockets, ws, socket, outbox, closes := [], None, None, [], [];
      isConnected, uid, storedUid, lastMessage := false, None, saved, None;
    }

    /** `sendMessage`: sent on the current socket when it is open, silently
        dropped otherwise. */
    method SendMessage(m: Envelope)
      requires Valid()
      modifies this
      ensures Valid()
      ensures outbox == if old(SocketOpen()) then old(outbox) + [(old(ws).value, m)] else old(outbox)
      ensures unchanged(this`reconnectCount, this`isConnecting, this`isManualDisconnect, this`timeout, this`timers)
      ensures unchanged(this`nextTimer, this`sockets, this`ws, this`socket, this`closes, this`isConnected)
      ensures unchanged(this`uid, this`storedUid, this`lastMessage)
    {
      if SocketOpen() {
        outbox := outbox + [(ws.value, m)];
      }
    }

    /** `clearReconnectTimeout`: the pending timer, if any, is cancelled and forgotten. */
    method ClearReconnectTimeout()
      requires Valid()
      modifies this
      ensures Valid()
      ensures timeout == None
      ensures timers == Cancelled(old(timers), old(timeout))
      ensures unchanged(this`reconnectCount, this`isConnecting, this`isManualDisconnect, this`nextTimer)
      ensures unchanged(this`sockets, this`ws, this`socket, this`outbox, this`closes, this`isConnected)
      ensures unchanged(this`uid, this`storedUid, this`lastMessage)
    {
      if timeout.Some? {
        timers := timers - {timeout.value};
        timeout := None;
      }
    }

    /** Apply `RetryStep` with the current count and manual flag: when it
        retries, the count is incremented and a timer with its delay is
        scheduled and becomes the pending one. */
    method MaybeScheduleRetry(code: nat)
      requires Valid()
      modifies this
      ensures Valid()
      ensures var (count, delay) := RetryStep(old(reconnectCount), old(isManualDisconnect), code);
        && reconnectCount == count
        && (delay.Some? ==>
              && timers == old(timers)[old(nextTimer) := delay.value]
              && timeout == Some(old(nextTimer)) && nextTimer == old(nextTimer) + 1)
        && (delay.None? ==> timers == old(timers) && timeout == old(timeout) && nextTimer == old(nextTimer))
      ensures unchanged(this`isConnecting, this`isManualDisconnect, this`sockets, this`ws, this`socket)
      ensures unchanged(this`outbox, this`closes, this`isConnected, this`uid, this`storedUid, this`lastMessage)
    {
      if !isManualDisconnect && code != NormalClosure && reconnectCount < MaxReconnectAttempts {
        reconnectCount := reconnectCount + 1;
        var delay := RetryDelay(reconnectCount);
        timers := timers[nextTimer := delay];
        timeout := Some(nextTimer);
        nextTimer := nextTimer + 1;
      }
    }

    /** `connect`: nothing while a connect is in flight or the current socket
        is still connecting. Otherwise the current socket is closed and
        forgotten, the pending timer cleared, and a new socket becomes current;
        when creating it throws, the failure is handled like an abnormal
        close. */
    method Connect(creationFails: bool)
      requires Valid()
      modifies this
      ensures Valid()
      ensures old(ConnectInFlight()) ==> unchanged(this)
      ensures !old(ConnectInFlight()) ==>
        && closes == old(closes) + (if old(ws).Some? then [CloseCall(old(ws).value, None)] else [])
        && socket == (if old(ws).Some? then None else old(socket))
        && (!creationFails ==>
              && sockets == (if old(ws).Some? then CloseSocket(old(sockets), old(ws).value) else old(sockets)) + [Connecting]
              && ws == Some(|old(sockets)|)
              && isConnecting
              && reconnectCount == old(reconnectCount)
              && timeout == None
              && timers == Cancelled(old(timers), old(timeout))
              && nextTimer == old(nextTimer))
        && (creationFails ==>
              && sockets == (if old(ws).Some? then CloseSocket(old(sockets), old(ws).value) else old(sockets))
              && ws == None
              && !isConnecting
              && var (count, delay) := RetryStep(old(reconnectCount), old(isManualDisconnect), 0);
                 && reconnectCount == count
                 && (delay.Some? ==>
                       && timeout == Some(old(nextTimer))
                       && timers == Cancelled(old(timers), old(timeout))[old(nextTimer) := delay.value]
                       && nextTimer == old(nextTimer) + 1)
                 && (delay.None? ==>
                       && timeout == None
                       && timers == Cancelled(old(timers), old(timeout))
                       && nextTimer == old(nextTimer)))
      ensures unchanged(this`isManualDisconnect, this`outbox, this`isConnected, this`uid, this`storedUid, this`lastMessage)
    {
      if isConnecting || (ws.Some? && sockets[ws.value] == Connecting) {
        return;
      }
      if ws.Some? {
        closes := closes + [CloseCall(ws.value, None)];
        sockets := CloseSocket(sockets, ws.value);
        ws := None;
        socket := None;
      }
      ClearReconnectTimeout();
      isConnecting := true;
      if !creationFails {
        sockets := sockets + [Connecting];
        ws := Some(|sockets| - 1);
      } else {
        isConnecting := false;
        MaybeScheduleRetry(0);
      }
    }

    /** A socket's `onopen`: the attempt count and the manual flag are reset;
        the link is not yet connected. */
    method OnOpen(s: nat)
      requires Valid() && s < |sockets| && sockets[s] == Connecting
      modifies this
      ensures Valid()
      ensures sockets == old(sockets)[s := Open]
      ensures socket == Some(s) && !isConnecting
      ensures reconnectCount == 0 && !isManualDisconnect
      ensures unchanged(this`timeout, this`timers, this`nextTimer, this`ws, this`outbox, this`closes)
      ensures unchanged(this`isConnected, this`uid, this`storedUid, this`lastMessage)
    {
      sockets := sockets[s := Open];
      socket := Some(s);
      isConnecting := false;
      reconnectCount := 0;
      isManualDisconnect := false;
    }

    /** A socket's `onmessage`: the envelope becomes the last message; `ready`
        answers with exactly one `login` carrying the stored UID (or `''`) on
        that socket; `login_success` sets and stores the UID and only then
        marks the link connected. */
    method OnMessage(s: nat, msg: Envelope)
      requires Valid() && s < |sockets| && sockets[s] == Open
      modifies this
      ensures Valid()
      ensures lastMessage == Some(msg)
      ensures msg.kind == "ready" ==>
        outbox == old(outbox) + [(s, Message("login", "", UidField(old(storedUid).GetOr(""))))]
      ensures msg.kind != "ready" ==> outbox == old(outbox)
      ensures msg.kind == "login_success" && msg.data.LoginOk? ==>
        uid == Some(msg.data.uid) && storedUid == Some(msg.data.uid) && isConnected
      ensures !(msg.kind == "login_success" && msg.data.LoginOk?) ==>
        uid == old(uid) && storedUid == old(storedUid) && isConnected == old(isConnected)
      ensures unchanged(this`reconnectCount, this`isConnecting, this`isManualDisconnect, this`timeout, this`timers)
      ensures unchanged(this`nextTimer, this`sockets, this`ws, this`socket, this`closes)
    {
      lastMessage := Some(msg);
      if msg.kind == "ready" {
        var saved := storedUid.GetOr("");
        outbox := outbox + [(s, Message("login", "", UidField(saved)))];
      } else if msg.kind == "login_success" {
        match msg.data
        case LoginOk(userUid, _) =>
          uid := Some(userUid);
          storedUid := Some(userUid);
          isConnected := true;
        case _ =>
      }
    }

    /** A socket's `onclose`: disconnected, no socket, no connect in flight,
        the current socket forgotten if it is this one, and a retry scheduled
        as `RetryStep` decides. */
    method OnClose(s: nat, code: nat)
      requires Valid() && s < |sockets| && sockets[s] != Closed
      modifies this
      ensures Valid()
      ensures sockets == old(sockets)[s := Closed]
      ensures !isConnected && socket == None && !isConnecting
      ensures ws == if old(ws) == Some(s) then None else old(ws)
      ensures var (count, delay) := RetryStep(old(reconnectCount), old(isManualDisconnect), code);
        && reconnectCount == count
        && (delay.Some? ==>
              && timers == old(timers)[old(nextTimer) := delay.value]
              && timeout == Some(old(nextTimer)) && nextTimer == old(nextTimer) + 1)
        && (delay.None? ==> timers == old(timers) && timeout == old(timeout) && nextTimer == old(nextTimer))
      ensures unchanged(this`isManualDisconnect, this`outbox, this`closes, this`uid, this`storedUid, this`lastMessage)
    {
      sockets := sockets[s := Closed];
      isConnected := false;
      socket := None;
      isConnecting := false;
      if ws == Some(s) {
        ws := None;
      }
      MaybeScheduleRetry(code);
    }

    /** A socket's `onerror`: the connect is no longer in flight. */
    method OnError(s: nat)
      requires Valid() && s < |sockets|
      modifies this
      ensures Valid()
      ensures !isConnecting
      ensures unchanged(this`reconnectCount, this`isManualDisconnect, this`timeout, this`timers, this`nextTimer)
      ensures unchanged(this`sockets, this`ws, this`socket, this`outbox, this`closes)
      ensures unchanged(this`isConnected, this`uid, this`storedUid, this`lastMessage)
    {
      isConnecting := false;
    }

    /** A retry timer fires: it leaves the timer table and calls `connect`
        unless the user disconnected by hand in the meantime. That `connect`
        does nothing while another is in flight; otherwise the old socket is
        closed, the pending timer cancelled, and a new socket becomes current,
        or, when creating it throws, the next retry is scheduled. */
    method FireTimer(t: nat, creationFails: bool)
      requires Valid() && t in timers
      modifies this
      ensures Valid()
      ensures t !in timers
      ensures old(isManualDisconnect) || old(ConnectInFlight()) ==>
        && timers == old(timers) - {t}
        && unchanged(this`sockets, this`ws, this`socket, this`closes, this`isConnecting, this`reconnectCount)
        && unchanged(this`timeout, this`nextTimer)
      ensures !old(isManualDisconnect) && !old(ConnectInFlight()) ==>
        && closes == old(closes) + (if old(ws).Some? then [CloseCall(old(ws).value, None)] else [])
        && socket == (if old(ws).Some? then None else old(socket))
        && (!creationFails ==>
              && sockets == (if old(ws).Some? then CloseSocket(old(sockets), old(ws).value) else old(sockets)) + [Connecting]
              && ws == Some(|old(sockets)|)
              && isConnecting
              && reconnectCount == old(reconnectCount)
              && timeout == None
              && timers == Cancelled(old(timers) - {t}, old(timeout))
              && nextTimer == old(nextTimer))
        && (creationFails ==>
              && sockets == (if old(ws).Some? then CloseSocket(old(sockets), old(ws).value) else old(sockets))
              && ws == None
              && !isConnecting
              && var (count, delay) := RetryStep(old(reconnectCount), false, 0);
                 && reconnectCount == count
                 && (delay.Some? ==>
                       && timeout == Some(old(nextTimer))
                       && timers == Cancelled(old(timers) - {t}, old(timeout))[old(nextTimer) := delay.value]
                       && nextTimer == old(nextTimer) + 1)
                 && (delay.None? ==>
                       && timeout == None
                       && timers == Cancelled(old(timers) - {t}, old(timeout))
                       && nextTimer == old(nextTimer)))
      ensures unchanged(this`isManualDisconnect, this`outbox, this`isConnected, this`uid, this`storedUid, this`lastMessage)
    {
      timers := timers - {t};
      if !isManualDisconnect {
        Connect(creationFails);
      }
    }

    /** `disconnect`: marked manual, the pending timer cancelled, the current
        socket closed with code 1000 and forgotten, and the link no longer
        connected or connecting. */
    method Disconnect()
      requires Valid()
      modifies this
      ensures Valid()
      ensures isManualDisconnect && timeout == None
      ensures timers == Cancelled(old(timers), old(timeout))
      ensures closes == old(closes) + (if old(ws).Some? then [CloseCall(old(ws).value, Some(NormalClosure))] else [])
      ensures sockets == if old(ws).Some? then CloseSocket(old(sockets), old(ws).value) else old(sockets)
      ensures ws == None && socket == None && !isConnected && !isConnecting
      ensures unchanged(this`reconnectCount, this`nextTimer, this`outbox, this`uid, this`storedUid, this`lastMessage)
    {
      isManualDisconnect := true;
      ClearReconnectTimeout();
      if ws.Some? {
        closes := closes + [CloseCall(ws.value, Some(NormalClosure))];
        sockets := CloseSocket(sockets, ws.value);
        ws := None;
      }
      socket := None;
      isConnected := false;
      isConnecting := false;
    }

    /** `reconnect`: the attempt count and the manual flag are reset, then
        `connect` runs. When it is not blocked by a connect in flight, the old
        socket is closed and the pending timer cancelled; then either a new
        socket becomes current, or, when creating it throws, the first retry
        (one second, attempt 1) is scheduled. */
    method Reconnect(creationFails: bool)
      requires Valid()
      modifies this
      ensures Valid()
      ensures !isManualDisconnect
      ensures reconnectCount == if !old(ConnectInFlight()) && creationFails then 1 else 0
      ensures old(ConnectInFlight()) ==>
        && unchanged(this`sockets, this`ws, this`socket, this`closes, this`isConnecting)
        && unchanged(this`timeout, this`timers, this`nextTimer)
      ensures !old(ConnectInFlight()) ==>
        && closes == old(closes) + (if old(ws).Some? then [CloseCall(old(ws).value, None)] else [])
        && socket == (if old(ws).Some? then None else old(socket))
        && (!creationFails ==>
              && sockets == (if old(ws).Some? then CloseSocket(old(sockets), old(ws).value) else old(sockets)) + [Connecting]
              && ws == Some(|old(sockets)|)
              && isConnecting
              && timeout == None
              && timers == Cancelled(old(timers), old(timeout))
              && nextTimer == old(nextTimer))
        && (creationFails ==>
              && sockets == (if old(ws).Some? then CloseSocket(old(sockets), old(ws).value) else old(sockets))
              && ws == None
              && !isConnecting
              && timeout == Some(old(nextTimer))
              && timers == Cancelled(old(timers), old(timeout))[old(nextTimer) := BaseReconnectDelay]
              && nextTimer == old(nextTimer) + 1)
      ensures unchanged(this`outbox, this`isConnected, this`uid, this`storedUid, this`lastMessage)
    {
      reconnectCount := 0;
      isManualDisconnect := false;
      Connect(creationFails);
    }
  }
}
