/** The browser-side peer session: the single peer connection and data
    channel, the consent gate on inbound offers, the shared buffer of early
    ICE candidates, chat and file sending, and the receiving handlers bound to
    every data channel. Browser objects are reduced to what the session does
    with them: a peer connection records its descriptions, the candidates
    applied to it and whether it was closed; a data channel records its owner
    and `readyState`; every frame sent on a channel and every signalling
    message is appended to a log. */
module PeerSession {
  import opened Signals
  import opened Transfer

  /** `readyState` of a data channel. */
  datatype ChannelState = Connecting | Open | Closing | Closed

  /** A data channel and the peer connection (by creation index) it belongs to. */
  datatype Channel = Channel(owner: nat, state: ChannelState)

  /** What is kept of one `RTCPeerConnection`. */
  datatype PeerConn = PeerConn(local: Option<Payload>, remote: Option<Payload>, applied: seq<Payload>, closed: bool)

  /** `pendingOfferRef`: the offer waiting for the user's decision. */
  datatype PendingOffer = PendingOffer(from: string, data: Payload)

  const RejectReason: string := "User rejected the connection offer"

  /** The characters `String.prototype.trim` removes. */
  predicate IsJsWhitespace(c: char) {
    || c == '\t' || c == '\n' || c == '\U{0B}' || c == '\U{0C}' || c == '\r' || c == ' '
    || c == '\U{A0}' || c == '\U{1680}' || ('\U{2000}' <= c <= '\U{200A}')
    || c == '\U{2028}' || c == '\U{2029}' || c == '\U{202F}' || c == '\U{205F}'
    || c == '\U{3000}' || c == '\U{FEFF}'
  }

  /** `!targetId || targetId.trim() === ''`. */
  predicate IsBlank(s: string) {
    forall i :: 0 <= i < |s| ==> IsJsWhitespace(s[i])
  }

  /** `pcRef.current.close()` when there is a current connection. */
  function ClosePeer(pcs: seq<PeerConn>, p: Option<nat>): seq<PeerConn> {
    if p.Some? && p.value < |pcs| then pcs[p.value := pcs[p.value].(closed := true)] else pcs
  }

  /** Closing a peer connection closes the data channels it owns. */
  function CloseChannelsOf(chs: seq<Channel>, p: Option<nat>): seq<Channel> {
    seq(|chs|, i requires 0 <= i < |chs| => if p == Some(chs[i].owner) then chs[i].(state := Closed) else chs[i])
  }

  /** `channel.close()`: a channel that is not yet closed starts closing. */
  function CloseChannel(chs: seq<Channel>, c: nat): seq<Channel>
    requires c < |chs|
  {
    if chs[c].state in {Connecting, Open} then chs[c := chs[c].(state := Closing)] else chs
  }

  /** At most one live peer connection, and it is the current one; channel
      references are in range; a closed connection's channels are closed. */
  ghost predicate PeersValid(pcs: seq<PeerConn>, pc: Option<nat>, chs: seq<Channel>, dc: Option<nat>) {
    && (pc.Some? ==> pc.value < |pcs| && !pcs[pc.value].closed)
    && (forall i :: 0 <= i < |pcs| && pc != Some(i) ==> pcs[i].closed)
    && (dc.Some? ==> dc.value < |chs|)
    && (forall c :: 0 <= c < |chs| ==>
          chs[c].owner < |pcs| && (pcs[chs[c].owner].closed ==> chs[c].state == Closed))
  }

  /** The confirmation prompt shows exactly when an offer is pending, naming its sender. */
  ghost predicate PromptMirrors(pending: Option<PendingOffer>, show: bool, from: Option<string>) {
    && show == pending.Some?
    && from == (if pending.Some? then Some(pending.value.from) else None)
  }

  /** Only the current connection can be live. */
  lemma AtMostOneLive(pcs: seq<PeerConn>, pc: Option<nat>, chs: seq<Channel>, dc: Option<nat>, i: nat, j: nat)
    requires PeersValid(pcs, pc, chs, dc)
    requires i < |pcs| && j < |pcs| && !pcs[i].closed && !pcs[j].closed
    ensures i == j && pc == Some(i)
  {
  }

  /** Closing the current connection and making a fresh one current keeps the
      peer invariant. */
  lemma ReplaceKeepsPeers(pcs: seq<PeerConn>, pc: Option<nat>, chs: seq<Channel>, dc: Option<nat>, newConn: PeerConn)
    requires PeersValid(pcs, pc, chs, dc) && !newConn.closed
    ensures PeersValid(ClosePeer(pcs, pc) + [newConn], Some(|pcs|), CloseChannelsOf(chs, pc), dc)
  {
    var pcs', chs' := ClosePeer(pcs, pc) + [newConn], CloseChannelsOf(chs, pc);
    forall c | 0 <= c < |chs'|
      ensures chs'[c].owner < |pcs'| && (pcs'[chs'[c].owner].closed ==> chs'[c].state == Closed)
    {
      assert chs'[c].owner == chs[c].owner;
    }
  }

  /** Updating the live connection's record keeps the peer invariant. */
  lemma UpdateCurrentKeepsPeers(pcs: seq<PeerConn>, p: nat, chs: seq<Channel>, dc: Option<nat>, conn: PeerConn)
    requires PeersValid(pcs, Some(p), chs, dc) && !conn.closed
    ensures PeersValid(pcs[p := conn], Some(p), chs, dc)
  {
  }

  /** A new connecting channel of a live connection keeps the peer invariant. */
  lemma NewChannelKeepsPeers(pcs: seq<PeerConn>, pc: Option<nat>, chs: seq<Channel>, dc: Option<nat>, p: nat)
    requires PeersValid(pcs, pc, chs, dc) && p < |pcs| && !pcs[p].closed
    ensures PeersValid(pcs, pc, chs + [Channel(p, Connecting)], Some(|chs|))
  {
  }

  /** A channel may change state while its connection is live, and may always close. */
  lemma ChannelStateKeepsPeers(pcs: seq<PeerConn>, pc: Option<nat>, chs: seq<Channel>, dc: Option<nat>,
                               c: nat, st: ChannelState)
    requires PeersValid(pcs, pc, chs, dc) && c < |chs|
    requires st == Closed || !pcs[chs[c].owner].closed
    ensures PeersValid(pcs, pc, chs[c := chs[c].(state := st)], dc)
  {
  }

  /** Closing the current connection and forgetting it keeps the peer invariant. */
  lemma ClosePeerKeepsPeers(pcs: seq<PeerConn>, pc: Option<nat>, chs: seq<Channel>, dc: Option<nat>)
    requires PeersValid(pcs, pc, chs, dc)
    ensures PeersValid(ClosePeer(pcs, pc), None, CloseChannelsOf(chs, pc), dc)
  {
    var pcs', chs' := ClosePeer(pcs, pc), CloseChannelsOf(chs, pc);
    forall c | 0 <= c < |chs'|
      ensures chs'[c].owner < |pcs'| && (pcs'[chs'[c].owner].closed ==> chs'[c].state == Closed)
    {
      assert chs'[c].owner == chs[c].owner;
    }
  }

  class Session {
    var signals: seq<Envelope>            // every `sendSignalingMessage` call, in order
    var pendingOffer: Option<PendingOffer>
    var showOfferConfirm: bool
    var offerFrom: Option<string>
    var pcs: seq<PeerConn>                // every peer connection created, in creation order
    var pc: Option<nat>                   // `pcRef`
    var channels: seq<Channel>            // every data channel set up, in order
    var dc: Option<nat>                   // `dataChannelRef`
    var candidates: seq<Payload>          // `pendingICECandidatesRef`: one buffer for every peer
    var target: Option<string>            // `currentTargetRef`
    var isConnected: bool
    var connectedPeerId: Option<string>
    var messages: seq<ChatMessage>
    var transfers: seq<FileTransfer>      // `fileTransfers`
    var receiving: seq<Incoming>          // `receivingFilesRef`, in insertion order
    var sent: seq<Frame>                  // every frame sent on a data channel, in order

    /** The peer invariant, the prompt mirroring the pending offer, and every
        incoming file's counter equal to the bytes it holds. */
    ghost predicate Valid()
      reads this
    {
      && PeersValid(pcs, pc, channels, dc)
      && PromptMirrors(pendingOffer, showOfferConfirm, offerFrom)
      && SizesAgree(receiving)
    }

    /** The receiver-side state the data-channel handlers update. */
    function Received(): Inbox
      reads this
    {
      Inbox(receiving, transfers, messages)
    }

    /** `dataChannelRef.current && dataChannelRef.current.readyState === 'open'`. */
    predicate ChannelOpen()
      reads this
    {
      dc.Some? && dc.value < |channels| && channels[dc.value].state == Open
    }

    /** `currentTargetRef.current` is truthy. */
    predicate HasTarget()
      reads this
    {
      target.Some? && target.value != ""
    }

    constructor()
      ensures Valid()
      ensures signals == [] && pendingOffer == None && pcs == [] && pc == None
      ensures channels == [] && dc == None && candidates == [] && target == None
      ensures !isConnected && connectedPeerId == None
      ensures messages == [] && transfers == [] && receiving == [] && sent == []
    {
      signals, pendingOffer, showOfferConfirm, offerFrom := [], None, false, None;
      pcs, pc, channels, dc, candidates := [], None, [], None, [];
      target, isConnected, connectedPeerId := None, false, None;
      messages, transfers, receiving, sent := [], [], [], [];
    }

    /** Close the current peer connection, if any, and make a new one current. */
    method ReplacePeerConnection()
      requires Valid()
      modifies this
      ensures Valid()
      ensures pcs == ClosePeer(old(pcs), old(pc)) + [PeerConn(None, None, [], false)]
      ensures pc == Some(|old(pcs)|)
      ensures channels == CloseChannelsOf(old(channels), old(pc))
      ensures unchanged(this`signals, this`pendingOffer, this`showOfferConfirm, this`offerFrom, this`dc)
      ensures unchanged(this`candidates, this`target, this`isConnected, this`connectedPeerId)
      ensures unchanged(this`messages, this`transfers, this`receiving, this`sent)
    {
      ReplaceKeepsPeers(pcs, pc, channels, dc, PeerConn(None, None, [], false));
      var closed := ClosePeer(pcs, pc);
      channels := CloseChannelsOf(channels, pc);
      pcs := closed + [PeerConn(None, None, [], false)];
      pc := Some(|closed|);
    }

    /** `sendSignalingMessage(m)`. */
    method SendSignal(m: Envelope)
      requires Valid()
      modifies this
      ensures Valid()
      ensures signals == old(signals) + [m]
      ensures unchanged(this`pendingOffer, this`showOfferConfirm, this`offerFrom, this`pcs, this`pc)
      ensures unchanged(this`channels, this`dc, this`candidates, this`target, this`isConnected, this`connectedPeerId)
      ensures unchanged(this`messages, this`transfers, this`receiving, this`sent)
    {
      signals := signals + [m];
    }

    /** `pc.setLocalDescription(d)` on the current connection. */
    method SetLocalDescription(p: nat, d: Payload)
      requires Valid() && pc == Some(p)
      modifies this
      ensures Valid()
      ensures pcs == old(pcs)[p := old(pcs)[p].(local := Some(d))]
      ensures unchanged(this`signals, this`pendingOffer, this`showOfferConfirm, this`offerFrom, this`pc)
      ensures unchanged(this`channels, this`dc, this`candidates, this`target, this`isConnected, this`connectedPeerId)
      ensures unchanged(this`messages, this`transfers, this`receiving, this`sent)
    {
      UpdateCurrentKeepsPeers(pcs, p, channels, dc, pcs[p].(local := Some(d)));
      pcs := pcs[p := pcs[p].(local := Some(d))];
    }

    /** `pc.setRemoteDescription(d)` on the current connection. */
    method SetRemoteDescription(p: nat, d: Payload)
      requires Valid() && pc == Some(p)
      modifies this
      ensures Valid()
      ensures pcs == old(pcs)[p := old(pcs)[p].(remote := Some(d))]
      ensures unchanged(this`signals, this`pendingOffer, this`showOfferConfirm, this`offerFrom, this`pc)
      ensures unchanged(this`channels, this`dc, this`candidates, this`target, this`isConnected, this`connectedPeerId)
      ensures unchanged(this`messages, this`transfers, this`receiving, this`sent)
    {
      UpdateCurrentKeepsPeers(pcs, p, channels, dc, pcs[p].(remote := Some(d)));
      pcs := pcs[p := pcs[p].(remote := Some(d))];
    }

    /** `connect`: a blank target is refused; otherwise the target is recorded,
        any current connection is closed, a new connection and its ordered
        channel become current and the offer goes to the target. */
    method Connect(targetId: string, offer: Payload)
      requires Valid()
      modifies this
      ensures Valid()
      ensures IsBlank(targetId) ==> unchanged(this)
      ensures !IsBlank(targetId) ==>
        && target == Some(targetId)
        && pcs == ClosePeer(old(pcs), old(pc)) + [PeerConn(Some(offer), None, [], false)]
        && pc == Some(|old(pcs)|)
        && channels == CloseChannelsOf(old(channels), old(pc)) + [Channel(|old(pcs)|, Connecting)]
        && dc == Some(|old(channels)|)
        && signals == old(signals) + [Message("offer", targetId, offer)]
      ensures unchanged(this`pendingOffer, this`showOfferConfirm, this`offerFrom, this`candidates)
      ensures unchanged(this`isConnected, this`connectedPeerId)
      ensures unchanged(this`messages, this`transfers, this`receiving, this`sent)
    {
      if IsBlank(targetId) {
        return;
      }
      target := Some(targetId);
      ReplacePeerConnection();
      var p := pc.value;
      NewChannelKeepsPeers(pcs, pc, channels, dc, p);
      channels := channels + [Channel(p, Connecting)];
      dc := Some(|channels| - 1);
      SetLocalDescription(p, offer);
      SendSignal(Message("offer", targetId, offer));
    }

    /** The candidate loop: every buffered candidate is applied to connection
        `p` in buffer order, then the buffer is emptied. */
    method FlushCandidates(p: nat)
      requires Valid() && pc == Some(p)
      modifies this
      ensures Valid()
      ensures pcs == old(pcs)[p := old(pcs)[p].(applied := old(pcs)[p].applied + old(candidates))]
      ensures candidates == []
      ensures unchanged(this`signals, this`pendingOffer, this`showOfferConfirm, this`offerFrom, this`pc)
      ensures unchanged(this`channels, this`dc, this`target, this`isConnected, this`connectedPeerId)
      ensures unchanged(this`messages, this`transfers, this`receiving, this`sent)
    {
      var applied := pcs[p].applied;
      var k := 0;
      while k < |candidates|
        invariant 0 <= k <= |candidates|
        invariant applied == old(pcs)[p].applied + candidates[..k]
      {
        applied := applied + [candidates[k]];
        k := k + 1;
      }
      assert candidates[..k] == candidates;
      UpdateCurrentKeepsPeers(pcs, p, channels, dc, pcs[p].(applied := applied));
      pcs := pcs[p := pcs[p].(applied := applied)];
      candidates := [];
    }

    /** An inbound `offer`: it only becomes the pending offer, replacing any
        earlier one, and raises the prompt. */
    method OnOffer(from: string, data: Payload)
      requires Valid()
      modifies this
      ensures Valid()
      ensures pendingOffer == Some(PendingOffer(from, data))
      ensures showOfferConfirm && offerFrom == Some(from)
      ensures unchanged(this`signals, this`pcs, this`pc, this`channels, this`dc, this`candidates, this`target)
      ensures unchanged(this`isConnected, this`connectedPeerId)
      ensures unchanged(this`messages, this`transfers, this`receiving, this`sent)
    {
      showOfferConfirm := true;
      offerFrom := Some(from);
      pendingOffer := Some(PendingOffer(from, data));
    }

    /** An inbound `answer`: dropped without a connection; otherwise it becomes
        the remote description and the buffered candidates are flushed. */
    method OnAnswer(data: Payload)
      requires Valid()
      modifies this
      ensures Valid()
      ensures old(pc).None? ==> unchanged(this)
      ensures old(pc).Some? ==>
        var p := old(pc).value;
        && pcs == old(pcs)[p := old(pcs)[p].(remote := Some(data), applied := old(pcs)[p].applied + old(candidates))]
        && candidates == []
      ensures unchanged(this`signals, this`pendingOffer, this`showOfferConfirm, this`offerFrom, this`pc)
      ensures unchanged(this`channels, this`dc, this`target, this`isConnected, this`connectedPeerId)
      ensures unchanged(this`messages, this`transfers, this`receiving, this`sent)
    {
      if pc.None? {
        return;
      }
      SetRemoteDescription(pc.value, data);
      FlushCandidates(pc.value);
    }

    /** An inbound `ice-candidate`: dropped without a connection, applied at
        once when the connection has a remote description, buffered otherwise. */
    method OnIceCandidate(data: Payload)
      requires Valid()
      modifies this
      ensures Valid()
      ensures old(pc).None? ==> unchanged(this)
      ensures old(pc).Some? && old(pcs)[old(pc).value].remote.Some? ==>
        var p := old(pc).value;
        pcs == old(pcs)[p := old(pcs)[p].(applied := old(pcs)[p].applied + [data])] && candidates == old(candidates)
      ensures old(pc).Some? && old(pcs)[old(pc).value].remote.None? ==>
        pcs == old(pcs) && candidates == old(candidates) + [data]
      ensures unchanged(this`signals, this`pendingOffer, this`showOfferConfirm, this`offerFrom, this`pc)
      ensures unchanged(this`channels, this`dc, this`target, this`isConnected, this`connectedPeerId)
      ensures unchanged(this`messages, this`transfers, this`receiving, this`sent)
    {
      if pc.None? {
        return;
      }
      var p := pc.value;
      if pcs[p].remote.Some? {
        UpdateCurrentKeepsPeers(pcs, p, channels, dc, pcs[p].(applied := pcs[p].applied + [data]));
        pcs := pcs[p := pcs[p].(applied := pcs[p].applied + [data])];
      } else {
        candidates := candidates + [data];
      }
    }

    /** The signalling `switch`: `offer`, `answer` and `ice-candidate` are
        handled, every other type is ignored. */
    method OnSignal(msg: Envelope)
      requires Valid()
      modifies this
      ensures Valid()
      ensures msg.kind !in {"offer", "answer", "ice-candidate"} ==> unchanged(this)
      ensures msg.kind == "offer" ==>
        && pendingOffer == Some(PendingOffer(msg.from, msg.data)) && showOfferConfirm && offerFrom == Some(msg.from)
        && pcs == old(pcs) && candidates == old(candidates)
        && isConnected == old(isConnected) && connectedPeerId == old(connectedPeerId)
      ensures msg.kind == "answer" ==>
        && (old(pc).None? ==> pcs == old(pcs) && candidates == old(candidates))
        && (old(pc).Some? ==>
              var p := old(pc).value;
              && pcs == old(pcs)[p := old(pcs)[p].(remote := Some(msg.data), applied := old(pcs)[p].applied + old(candidates))]
              && candidates == [])
      ensures msg.kind == "ice-candidate" ==>
        && (old(pc).None? ==> pcs == old(pcs) && candidates == old(candidates))
        && (old(pc).Some? && old(pcs)[old(pc).value].remote.Some? ==>
              var p := old(pc).value;
              pcs == old(pcs)[p := old(pcs)[p].(applied := old(pcs)[p].applied + [msg.data])] && candidates == old(candidates))
        && (old(pc).Some? && old(pcs)[old(pc).value].remote.None? ==>
              pcs == old(pcs) && candidates == old(candidates) + [msg.data])
      ensures msg.kind != "offer" ==> unchanged(this`pendingOffer, this`showOfferConfirm, this`offerFrom)
      ensures unchanged(this`isConnected, this`connectedPeerId)
      ensures unchanged(this`signals, this`pc, this`channels, this`dc, this`target)
      ensures unchanged(this`messages, this`transfers, this`receiving, this`sent)
    {
      if msg.kind == "offer" {
        OnOffer(msg.from, msg.data);
      } else if msg.kind == "answer" {
        OnAnswer(msg.data);
      } else if msg.kind == "ice-candidate" {
        OnIceCandidate(msg.data);
      }
    }

    /** `confirmOffer`: nothing without a pending offer; otherwise the prompt
        is cleared, the offerer becomes the target, a new connection replaces
        the current one, takes the offer as its remote description, receives
        the buffered candidates in order and the answer goes to the offerer. */
    method ConfirmOffer(answer: Payload)
      requires Valid()
      modifies this
      ensures Valid()
      ensures old(pendingOffer).None? ==> unchanged(this)
      ensures old(pendingOffer).Some? ==>
        var offer := old(pendingOffer).value;
        && pendingOffer == None
        && target == Some(offer.from)
        && pcs == ClosePeer(old(pcs), old(pc)) + [PeerConn(Some(answer), Some(offer.data), old(candidates), false)]
        && pc == Some(|old(pcs)|)
        && channels == CloseChannelsOf(old(channels), old(pc))
        && candidates == []
        && signals == old(signals) + [Message("answer", offer.from, answer)]
      ensures unchanged(this`dc, this`isConnected, this`connectedPeerId)
      ensures unchanged(this`messages, this`transfers, this`receiving, this`sent)
    {
      if pendingOffer.None? {
        return;
      }
      var offer := pendingOffer.value;
      showOfferConfirm, offerFrom, pendingOffer := false, None, None;
      target := Some(offer.from);
      assert PeersValid(pcs, pc, channels, dc);
      assert PromptMirrors(pendingOffer, showOfferConfirm, offerFrom);
      assert SizesAgree(receiving);
      ghost var closed := ClosePeer(old(pcs), old(pc));
      ReplacePeerConnection();
      var p := pc.value;
      assert p == |closed|;
      SetRemoteDescription(p, offer.data);
      assert pcs == closed + [PeerConn(None, Some(offer.data), [], false)];
      FlushCandidates(p);
      assert [] + old(candidates) == old(candidates);
      assert pcs == closed + [PeerConn(None, Some(offer.data), old(candidates), false)];
      SetLocalDescription(p, answer);
      SendSignal(Message("answer", offer.from, answer));
    }

    /** `rejectOffer`: nothing without a pending offer; otherwise the prompt is
        cleared and exactly one `offer-rejected` goes to the offerer, with no
        peer connection touched. */
    method RejectOffer()
      requires Valid()
      modifies this
      ensures Valid()
      ensures old(pendingOffer).None? ==> unchanged(this)
      ensures old(pendingOffer).Some? ==>
        && pendingOffer == None
        && signals == old(signals) + [Message("offer-rejected", old(pendingOffer).value.from, Reason(RejectReason))]
      ensures unchanged(this`pcs, this`pc, this`channels, this`dc, this`candidates, this`target)
      ensures unchanged(this`isConnected, this`connectedPeerId)
      ensures unchanged(this`messages, this`transfers, this`receiving, this`sent)
    {
      if pendingOffer.None? {
        return;
      }
      var from := pendingOffer.value.from;
      showOfferConfirm, offerFrom, pendingOffer := false, None, None;
      signals := signals + [Message("offer-rejected", from, Reason(RejectReason))];
    }

    /** The channel half of `disconnect`: the current channel, if any, is
        closed and forgotten. */
    method DropChannel()
      requires Valid()
      modifies this
      ensures Valid()
      ensures dc == None
      ensures channels == if old(dc).Some? then CloseChannel(old(channels), old(dc).value) else old(channels)
      ensures unchanged(this`signals, this`pendingOffer, this`showOfferConfirm, this`offerFrom, this`pcs, this`pc)
      ensures unchanged(this`candidates, this`target, this`isConnected, this`connectedPeerId)
      ensures unchanged(this`messages, this`transfers, this`receiving, this`sent)
    {
      if dc.Some? {
        var c := dc.value;
        if channels[c].state in {Connecting, Open} {
          ChannelStateKeepsPeers(pcs, pc, channels, dc, c, Closing);
        }
        channels := CloseChannel(channels, c);
        dc := None;
      }
    }

    /** The connection half of `disconnect`: the current connection, if any,
        is closed (closing its channels) and forgotten. */
    method DropPeerConnection()
      requires Valid()
      modifies this
      ensures Valid()
      ensures pc == None
      ensures pcs == ClosePeer(old(pcs), old(pc))
      ensures channels == CloseChannelsOf(old(channels), old(pc))
      ensures unchanged(this`signals, this`pendingOffer, this`showOfferConfirm, this`offerFrom, this`dc)
      ensures unchanged(this`candidates, this`target, this`isConnected, this`connectedPeerId)
      ensures unchanged(this`messages, this`transfers, this`receiving, this`sent)
    {
      ClosePeerKeepsPeers(pcs, pc, channels, dc);
      channels := CloseChannelsOf(channels, pc);
      pcs := ClosePeer(pcs, pc);
      pc := None;
    }

    /** `disconnect`: the channel is closed and forgotten, the connection is
        closed and forgotten, the target and the connected state are cleared.
        The candidate buffer is kept. */
    method Disconnect()
      requires Valid()
      modifies this
      ensures Valid()
      ensures dc == None && pc == None && target == None
      ensures !isConnected && connectedPeerId == None
      ensures pcs == ClosePeer(old(pcs), old(pc))
      ensures channels == CloseChannelsOf(
        if old(dc).Some? then CloseChannel(old(channels), old(dc).value) else old(channels), old(pc))
      ensures unchanged(this`signals, this`pendingOffer, this`showOfferConfirm, this`offerFrom, this`candidates)
      ensures unchanged(this`messages, this`transfers, this`receiving, this`sent)
    {
      DropChannel();
      DropPeerConnection();
      target, isConnected, connectedPeerId := None, false, None;
    }

    /** `sendMessage`: on an open channel one text frame is sent and the line
        joins the chat as the user's; otherwise nothing happens. */
    method SendMessage(text: string)
      requires Valid()
      modifies this
      ensures Valid()
      ensures !old(ChannelOpen()) ==> unchanged(this)
      ensures old(ChannelOpen()) ==>
        && sent == old(sent) + [TextFrame(text)]
        && messages == old(messages) + [ChatMessage(text, Me, TextKind)]
      ensures unchanged(this`signals, this`pendingOffer, this`showOfferConfirm, this`offerFrom, this`pcs, this`pc)
      ensures unchanged(this`channels, this`dc, this`candidates, this`target, this`isConnected, this`connectedPeerId)
      ensures unchanged(this`transfers, this`receiving)
    {
      if !ChannelOpen() {
        return;
      }
      sent := sent + [TextFrame(text)];
      messages := messages + [ChatMessage(text, Me, TextKind)];
    }

    /** `sendFile`: on an open channel the frames of `FileFrames` are sent,
        the slice read at each step being the next 16384 bytes; the record
        goes from `sending` to `completed` at 100 % and a chat line announces
        the file. On any other channel nothing happens. */
    method SendFile(id: string, name: string, file: seq<byte>)
      requires Valid()
      modifies this
      ensures Valid()
      ensures !old(ChannelOpen()) ==> unchanged(this)
      ensures old(ChannelOpen()) ==>
        && sent == old(sent) + FileFrames(id, name, file)
        && transfers == WithSent(old(transfers) + [FileTransfer(id, name, |file|, Percent(0), Sending, None)], id)
        && messages == old(messages) + [ChatMessage(SentText(name), Me, FileKind(name, |file|))]
      ensures old(ChannelOpen()) && (forall k :: 0 <= k < |old(transfers)| ==> old(transfers)[k].id != id) ==>
        transfers == old(transfers) + [FileTransfer(id, name, |file|, Percent(100), Completed, None)]
      ensures unchanged(this`signals, this`pendingOffer, this`showOfferConfirm, this`offerFrom, this`pcs, this`pc)
      ensures unchanged(this`channels, this`dc, this`candidates, this`target, this`isConnected, this`connectedPeerId)
      ensures unchanged(this`receiving)
    {
      if !ChannelOpen() {
        return;
      }
      var record := FileTransfer(id, name, |file|, Percent(0), Sending, None);
      var frames, ts := FrameFile(id, name, file, transfers + [record]);
      sent := sent + frames;
      transfers := WithSent(ts, id);
      messages := messages + [ChatMessage(SentText(name), Me, FileKind(name, |file|))];
      if forall k :: 0 <= k < |old(transfers)| ==> old(transfers)[k].id != id {
        WithSentFreshLast(old(transfers), record);
      }
    }

    // -------------------------------------------------------------------------
    // Receiving handlers

    /** `handleFileTransferStart`. */
    method HandleFileStart(id: string, name: string, size: nat)
      requires Valid()
      modifies this
      ensures Valid()
      ensures Received() == StartReceive(old(Received()), id, name, size)
      ensures unchanged(this`signals, this`pendingOffer, this`showOfferConfirm, this`offerFrom, this`pcs, this`pc)
      ensures unchanged(this`channels, this`dc, this`candidates, this`target, this`isConnected, this`connectedPeerId)
      ensures unchanged(this`sent)
    {
      DeliverKeepsSizes(Received(), FileStart(id, name, size, 0));
      receiving := Put(receiving, Incoming(id, [], 0, size, name));
      transfers := transfers + [FileTransfer(id, name, size, Percent(0), Receiving, None)];
    }

    /** `handleFileChunkInfo`. */
    method HandleFileChunkInfo(id: string, index: nat, total: nat)
      requires Valid()
      modifies this
      ensures Valid()
      ensures Received() == ChunkInfo(old(Received()), id, index, total)
      ensures unchanged(this`signals, this`pendingOffer, this`showOfferConfirm, this`offerFrom, this`pcs, this`pc)
      ensures unchanged(this`channels, this`dc, this`candidates, this`target, this`isConnected, this`connectedPeerId)
      ensures unchanged(this`sent)
    {
      transfers := WithProgress(transfers, id, Fraction(index, total));
    }

    /** `handleFileChunk`: the loop over the table's entries stops after the
        first, which takes the bytes whatever transfer they belong to. */
    method HandleFileChunk(bytes: seq<byte>)
      requires Valid()
      modifies this
      ensures Valid()
      ensures Received() == ChunkData(old(Received()), bytes)
      ensures unchanged(this`signals, this`pendingOffer, this`showOfferConfirm, this`offerFrom, this`pcs, this`pc)
      ensures unchanged(this`channels, this`dc, this`candidates, this`target, this`isConnected, this`connectedPeerId)
      ensures unchanged(this`sent)
    {
      DeliverKeepsSizes(Received(), Binary(bytes));
      var entries := receiving;
      var ts := transfers;
      var k := 0;
      while k < |entries|
        invariant k == 0 || k == |entries|
        invariant k == 0 ==> entries == old(receiving) && ts == old(transfers)
        invariant k > 0 ==> Inbox(entries, ts, messages) == ChunkData(old(Received()), bytes)
      {
        var info := entries[k];
        info := info.(chunks := info.chunks + [bytes], receivedSize := info.receivedSize + |bytes|);
        entries := entries[k := info];
        ts := WithProgress(ts, info.transferId, Fraction(info.receivedSize, info.totalSize));
        k := |entries|;  // only the first entry is handled
      }
      receiving := entries;
      transfers := ts;
    }

    /** `handleFileTransferEnd`: a known id has its chunks combined into one
        buffer, its record completed and its entry deleted, and a chat line
        announces the file; an unknown id changes nothing. */
    method HandleFileEnd(id: string)
      requires Valid()
      modifies this
      ensures Valid()
      ensures Received() == FinishReceive(old(Received()), id)
      ensures unchanged(this`signals, this`pendingOffer, this`showOfferConfirm, this`offerFrom, this`pcs, this`pc)
      ensures unchanged(this`channels, this`dc, this`candidates, this`target, this`isConnected, this`connectedPeerId)
      ensures unchanged(this`sent)
    {
      DeliverKeepsSizes(Received(), FileEnd(id));
      var k := Find(receiving, id);
      if k == |receiving| {
        return;
      }
      var info := receiving[k];
      var combined := Combine(info.chunks);
      transfers := WithCompleted(transfers, id, combined);
      messages := messages + [ChatMessage(ReceivedText(info.fileName), Peer, FileKind(info.fileName, info.totalSize))];
      receiving := Delete(receiving, id);
    }

    // -------------------------------------------------------------------------
    // Browser events

    /** A data channel's `onmessage`: binary frames go to the chunk handler,
        text frames, `file-start`, `file-chunk` and `file-end` to theirs, and
        anything else is ignored. */
    method OnChannelMessage(c: nat, f: Frame)
      requires Valid() && c < |channels| && channels[c].state == Open
      modifies this
      ensures Valid()
      ensures Received() == Deliver(old(Received()), f)
      ensures unchanged(this`signals, this`pendingOffer, this`showOfferConfirm, this`offerFrom, this`pcs, this`pc)
      ensures unchanged(this`channels, this`dc, this`candidates, this`target, this`isConnected, this`connectedPeerId)
      ensures unchanged(this`sent)
    {
      match f
      case Binary(bytes) => HandleFileChunk(bytes);
      case TextFrame(text) => messages := messages + [ChatMessage(text, Peer, TextKind)];
      case FileStart(id, name, size, _) => HandleFileStart(id, name, size);
      case FileChunk(id, index, total) => HandleFileChunkInfo(id, index, total);
      case FileEnd(id) => HandleFileEnd(id);
      case OtherFrame =>
    }

    /** A data channel's `onopen`: connected, and the target (if any) becomes
        the connected peer. */
    method OnChannelOpen(c: nat)
      requires Valid() && c < |channels| && channels[c].state == Connecting
      modifies this
      ensures Valid()
      ensures channels == old(channels)[c := Channel(old(channels)[c].owner, Open)]
      ensures isConnected
      ensures connectedPeerId == if old(HasTarget()) then old(target) else old(connectedPeerId)
      ensures unchanged(this`signals, this`pendingOffer, this`showOfferConfirm, this`offerFrom, this`pcs, this`pc)
      ensures unchanged(this`dc, this`candidates, this`target)
      ensures unchanged(this`messages, this`transfers, this`receiving, this`sent)
    {
      ChannelStateKeepsPeers(pcs, pc, channels, dc, c, Open);
      channels := channels[c := channels[c].(state := Open)];
      isConnected := true;
      if HasTarget() {
        connectedPeerId := target;
      }
    }

    /** A data channel's `onclose`: not connected, no connected peer. */
    method OnChannelClose(c: nat)
      requires Valid() && c < |channels| && channels[c].state != Closed
      modifies this
      ensures Valid()
      ensures channels == old(channels)[c := Channel(old(channels)[c].owner, Closed)]
      ensures !isConnected && connectedPeerId == None
      ensures unchanged(this`signals, this`pendingOffer, this`showOfferConfirm, this`offerFrom, this`pcs, this`pc)
      ensures unchanged(this`dc, this`candidates, this`target)
      ensures unchanged(this`messages, this`transfers, this`receiving, this`sent)
    {
      ChannelStateKeepsPeers(pcs, pc, channels, dc, c, Closed);
      channels := channels[c := channels[c].(state := Closed)];
      isConnected := false;
      connectedPeerId := None;
    }

    /** `onicecandidate` of a live connection: a candidate is sent to the
        target when there is one; the end-of-candidates event sends nothing. */
    method OnLocalCandidate(p: nat, candidate: Option<Payload>)
      requires Valid() && p < |pcs| && !pcs[p].closed
      modifies this
      ensures Valid()
      ensures signals == if candidate.Some? && old(HasTarget())
        then old(signals) + [Message("ice-candidate", old(target).value, candidate.value)]
        else old(signals)
      ensures unchanged(this`pendingOffer, this`showOfferConfirm, this`offerFrom, this`pcs, this`pc)
      ensures unchanged(this`channels, this`dc, this`candidates, this`target, this`isConnected, this`connectedPeerId)
      ensures unchanged(this`messages, this`transfers, this`receiving, this`sent)
    {
      if candidate.Some? && HasTarget() {
        signals := signals + [Message("ice-candidate", target.value, candidate.value)];
      }
    }

    /** `onconnectionstatechange` of a live connection. */
    method OnConnectionStateChange(p: nat, connected: bool)
      requires Valid() && p < |pcs| && !pcs[p].closed
      modifies this
      ensures Valid()
      ensures isConnected == connected
      ensures unchanged(this`signals, this`pendingOffer, this`showOfferConfirm, this`offerFrom, this`pcs, this`pc)
      ensures unchanged(this`channels, this`dc, this`candidates, this`target, this`connectedPeerId)
      ensures unchanged(this`messages, this`transfers, this`receiving, this`sent)
    {
      isConnected := connected;
    }

    /** `ondatachannel` of a live connection: the remote peer's channel is set
        up and becomes the current channel. */
    method OnDataChannel(p: nat)
      requires Valid() && p < |pcs| && !pcs[p].closed
      modifies this
      ensures Valid()
      ensures channels == old(channels) + [Channel(p, Connecting)]
      ensures dc == Some(|old(channels)|)
      ensures unchanged(this`signals, this`pendingOffer, this`showOfferConfirm, this`offerFrom, this`pcs, this`pc)
      ensures unchanged(this`candidates, this`target, this`isConnected, this`connectedPeerId)
      ensures unchanged(this`messages, this`transfers, this`receiving, this`sent)
    {
      NewChannelKeepsPeers(pcs, pc, channels, dc, p);
      channels := channels + [Channel(p, Connecting)];
      dc := Some(|channels| - 1);
    }
  }
}
