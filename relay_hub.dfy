/** The relay: the registry of logged-in connections (by connection ID and
    by user UID), the login of a new connection, and the routing of the
    signalling envelopes between users. Each connection's outgoing `Send`
    channel is a bounded queue of envelopes; the writer goroutine that drains
    it is reduced to one step that takes the head of a queue. */
module RelayHub {
  import opened Signals

  /** Characters of a generated UID: upper-case letters and digits without
      the easily confused I, O, 0 and 1. */
  const Alphabet: string := "ABCDEFGHJKLMNPQRSTUVWXYZ23456789"
  const UidLength: nat := 6
  /** Capacity of a connection's `Send` channel. */
  const Capacity: nat := 256

  const TargetNotFound: string := "Target user not found"
  const DeliveryFailed: string := "Failed to deliver message to target user"

  /** A connection: its ID and the UID it logged in with. */
  datatype Client = Client(id: string, uid: string)

  /** The two tables: connection ID to client and UID to client. */
  datatype Tables = Tables(clients: map<string, Client>, userClients: map<string, Client>)

  predicate IsFriendlyUid(s: string) {
    |s| == UidLength && forall i :: 0 <= i < |s| ==> s[i] in Alphabet
  }

  /** A generated UID never holds a confusable character. */
  lemma FriendlyUidAvoidsConfusables(s: string)
    requires IsFriendlyUid(s)
    ensures 'I' !in s && 'O' !in s && '0' !in s && '1' !in s
  {
    forall i | 0 <= i < |s| ensures s[i] != 'I' && s[i] != 'O' && s[i] != '0' && s[i] != '1' {
      assert s[i] in Alphabet;
    }
  }

  /** `generateFriendlyUID`: six characters, each drawn from the alphabet
      (`rand.Intn` is an arbitrary choice of index). */
  method GenerateFriendlyUid() returns (uid: string)
    ensures IsFriendlyUid(uid)
  {
    uid := "";
    for i := 0 to UidLength
      invariant |uid| == i
      invariant forall k :: 0 <= k < i ==> uid[k] in Alphabet
    {
      var n :| 0 <= n < |Alphabet|;
      uid := uid + [Alphabet[n]];
    }
  }

  /** Both tables describe the same set of clients: every client is filed
      under its own ID and its own UID, in both tables. */
  ghost predicate Consistent(t: Tables) {
    && (forall id :: id in t.clients ==>
          && t.clients[id].id == id
          && t.clients[id].uid in t.userClients
          && t.userClients[t.clients[id].uid] == t.clients[id])
    && (forall u :: u in t.userClients ==>
          && t.userClients[u].uid == u
          && t.userClients[u].id in t.clients
          && t.clients[t.userClients[u].id] == t.userClients[u])
  }

  /** The register case of `Hub.run`: a prior connection with the same UID
      loses its ID entry, then the new client is filed under both keys. */
  function Registered(t: Tables, c: Client): Tables {
    var clients := if c.uid in t.userClients then t.clients - {t.userClients[c.uid].id} else t.clients;
    Tables(clients[c.id := c], t.userClients[c.uid := c])
  }

  /** The unregister case of `Hub.run`: both entries go, but only when the
      connection ID is still filed. */
  function Unregistered(t: Tables, c: Client): Tables {
    if c.id in t.clients then Tables(t.clients - {c.id}, t.userClients - {c.uid}) else t
  }

  /** Registering keeps the tables consistent; afterwards both keys lead to
      the new client, the replaced connection (if any) is gone, and every
      other client is still filed. */
  lemma RegisterKeepsConsistent(t: Tables, c: Client)
    requires Consistent(t) && c.id !in t.clients
    ensures var t' := Registered(t, c);
      && Consistent(t')
      && t'.clients[c.id] == c && t'.userClients[c.uid] == c
      && (c.uid in t.userClients ==> t.userClients[c.uid].id !in t'.clients)
      && (forall id :: id in t.clients && t.clients[id].uid != c.uid ==> id in t'.clients && t'.clients[id] == t.clients[id])
  {
    var t' := Registered(t, c);
    forall id | id in t'.clients
      ensures t'.clients[id].id == id && t'.clients[id].uid in t'.userClients
      ensures t'.userClients[t'.clients[id].uid] == t'.clients[id]
    {
      if id != c.id {
        assert t'.clients[id] == t.clients[id];
        assert t.clients[id].uid != c.uid;
      }
    }
  }

  /** Unregistering keeps the tables consistent. */
  lemma UnregisterKeepsConsistent(t: Tables, c: Client)
    requires Consistent(t)
    requires c.id in t.clients ==> t.clients[c.id] == c
    ensures Consistent(Unregistered(t, c))
  {
    if c.id in t.clients {
      var t' := Unregistered(t, c);
      forall u | u in t'.userClients
        ensures t'.userClients[u].id in t'.clients
      {
        assert t.userClients[u].id != c.id;
      }
    }
  }

  /** Unregistering a connection that was replaced by a later login with the
      same UID changes nothing: the new connection stays filed. */
  lemma UnregisterReplacedIsNoop(t: Tables, prior: Client, c: Client)
    requires Consistent(t) && prior.id in t.clients && t.clients[prior.id] == prior
    requires c.uid == prior.uid && c.id !in t.clients
    ensures Unregistered(Registered(t, c), prior) == Registered(t, c)
  {
  }

  /** Registering a new UID and unregistering the same connection restores the tables. */
  lemma RegisterThenUnregister(t: Tables, c: Client)
    requires Consistent(t) && c.id !in t.clients && c.uid !in t.userClients
    ensures Unregistered(Registered(t, c), c) == t
  {
    var t' := Unregistered(Registered(t, c), c);
    assert t'.clients == t.clients;
    assert t'.userClients == t.userClients;
  }

  /** Every UID's connection has a `Send` channel. */
  predicate Routable(t: Tables, queues: map<string, seq<Envelope>>) {
    forall u :: u in t.userClients ==> t.userClients[u].id in queues
  }

  /** The non-blocking `select { case ch <- data: default: }`: the envelope is
      queued unless the channel is full. */
  function TrySend(queues: map<string, seq<Envelope>>, id: string, m: Envelope): (r: map<string, seq<Envelope>>)
    requires id in queues
    ensures r.Keys == queues.Keys
    ensures forall k :: k in queues && k != id ==> r[k] == queues[k]
    ensures r[id] == if |queues[id]| < Capacity then queues[id] + [m] else queues[id]
  {
    if |queues[id]| < Capacity then queues[id := queues[id] + [m]] else queues
  }

  /** `sendToUser`: the UID is looked up among logged-in users. */
  function ToUser(t: Tables, queues: map<string, seq<Envelope>>, uid: string, m: Envelope): map<string, seq<Envelope>>
    requires Routable(t, queues)
  {
    if uid in t.userClients then TrySend(queues, t.userClients[uid].id, m) else queues
  }

  /** `sendToClient`: the key is looked up among connection IDs. */
  function ToClient(t: Tables, queues: map<string, seq<Envelope>>, id: string, m: Envelope): map<string, seq<Envelope>> {
    if id in t.clients && id in queues then TrySend(queues, id, m) else queues
  }

  function ErrorMessage(text: string): Envelope {
    Envelope("error", "", "", NoData, text)
  }

  /** The envelope a target receives: type, sender, target and data. */
  function Forwarded(msg: Envelope): Envelope {
    Envelope(msg.kind, msg.from, msg.to, msg.data, "")
  }

  /** `relaySignaling`, on the queues. */
  function Relayed(t: Tables, queues: map<string, seq<Envelope>>, msg: Envelope): map<string, seq<Envelope>>
    requires Routable(t, queues)
  {
    if msg.to == "" then queues
    else if msg.to !in t.userClients then ToUser(t, queues, msg.from, ErrorMessage(TargetNotFound))
    else
      var target := t.userClients[msg.to].id;
      if |queues[target]| < Capacity then queues[target := queues[target] + [Forwarded(msg)]]
      else ToUser(t, queues, msg.from, ErrorMessage(DeliveryFailed))
  }

  /** A relayed envelope with room in the target's channel is appended to the
      channel of the connection logged in as the target, carrying the
      sender's UID; no other channel changes. */
  lemma RelayReachesTarget(t: Tables, queues: map<string, seq<Envelope>>, msg: Envelope)
    requires Consistent(t) && Routable(t, queues)
    requires msg.to != "" && msg.to in t.userClients
    requires |queues[t.userClients[msg.to].id]| < Capacity
    ensures var id := t.userClients[msg.to].id;
      && t.clients[id].uid == msg.to
      && Relayed(t, queues, msg) == queues[id := queues[id] + [Envelope(msg.kind, msg.from, msg.to, msg.data, "")]]
  {
  }

  /** A relay that cannot be delivered (unknown target, or its channel full)
      reaches the target with nothing and tells a logged-in sender why, with
      exactly one error appended to the sender's own channel when it has room. */
  lemma RelayFailureTellsSender(t: Tables, queues: map<string, seq<Envelope>>, msg: Envelope)
    requires Consistent(t) && Routable(t, queues)
    requires msg.to != "" && msg.from in t.userClients
    requires msg.to !in t.userClients || |queues[t.userClients[msg.to].id]| >= Capacity
    requires |queues[t.userClients[msg.from].id]| < Capacity
    ensures var id := t.userClients[msg.from].id;
      var reason := if msg.to in t.userClients then DeliveryFailed else TargetNotFound;
      && t.clients[id].uid == msg.from
      && Relayed(t, queues, msg) == queues[id := queues[id] + [ErrorMessage(reason)]]
  {
  }

  /** A relay appends to at most one channel, by at most one envelope, and
      never creates or drops a channel. */
  lemma RelayAppendsAtMostOne(t: Tables, queues: map<string, seq<Envelope>>, msg: Envelope)
    requires Routable(t, queues)
    ensures var r := Relayed(t, queues, msg);
      && r.Keys == queues.Keys
      && (forall id :: id in queues ==> queues[id] <= r[id] && |r[id]| <= |queues[id]| + 1)
      && (forall a, b :: a in queues && b in queues && r[a] != queues[a] && r[b] != queues[b] ==> a == b)
  {
  }

  const Pong: Envelope := Envelope("pong", "", "", NoData, "")

  /** The queues after the `ping` branch as written: `sendToClient(msg.From, pong)`
      looks the sender's UID up among connection IDs. */
  function PongAsWritten(t: Tables, queues: map<string, seq<Envelope>>, from: string): map<string, seq<Envelope>> {
    ToClient(t, queues, from, Pong)
  }

  /** The queues after the `ping` branch as intended: the pong goes to the
      connection of the sender's UID. */
  function PongToSender(t: Tables, queues: map<string, seq<Envelope>>, from: string): map<string, seq<Envelope>>
    requires Routable(t, queues)
  {
    ToUser(t, queues, from, Pong)
  }

  /** As written, a registered sender whose UID is not also some connection's
      ID never gets its pong: nothing is queued anywhere. */
  lemma PongLostAsWritten(t: Tables, queues: map<string, seq<Envelope>>, from: string)
    requires from in t.userClients && from !in t.clients
    ensures PongAsWritten(t, queues, from) == queues
  {
  }

  /** A concrete instance: one client with connection ID "c1" and UID
      "ABC234" pings; as written no queue changes, as intended its own queue
      gets the pong. */
  lemma PongLostExample()
    ensures var c := Client("c1", "ABC234");
      var t := Tables(map["c1" := c], map["ABC234" := c]);
      var q: map<string, seq<Envelope>> := map["c1" := []];
      && Consistent(t) && Routable(t, q)
      && PongAsWritten(t, q, "ABC234") == q
      && PongToSender(t, q, "ABC234") == map["c1" := [Pong]]
  {
    var c := Client("c1", "ABC234");
    var t := Tables(map["c1" := c], map["ABC234" := c]);
    var q: map<string, seq<Envelope>> := map["c1" := []];
    assert "ABC234" != "c1";
    assert "ABC234" !in t.clients;
    assert t.userClients["ABC234"].id == "c1";
    assert q["c1"] + [Pong] == [Pong];
  }

  /** As intended, a registered sender with room in its queue gets exactly
      one pong appended to its own connection's queue, and no other queue
      changes. */
  lemma PongReachesSender(t: Tables, queues: map<string, seq<Envelope>>, from: string)
    requires Consistent(t) && Routable(t, queues) && from in t.userClients
    requires |queues[t.userClients[from].id]| < Capacity
    ensures var id := t.userClients[from].id;
      && t.clients[id].uid == from
      && PongToSender(t, queues, from) == queues[id := queues[id] + [Pong]]
  {
  }

  class Hub {
    var clients: map<string, Client>        // key: connection ID
    var userClients: map<string, Client>    // key: user UID
    var queues: map<string, seq<Envelope>>  // each connection's `Send` channel
    var closed: set<string>                 // connections whose `Send` channel was closed
    var written: seq<(string, Envelope)>    // envelopes written to a connection, in order

    function Snapshot(): Tables
      reads this
    {
      Tables(clients, userClients)
    }

    /** The tables are consistent; every filed connection has an open `Send`
        channel; no channel holds more than its capacity. */
    ghost predicate Valid()
      reads this
    {
      && Consistent(Snapshot())
      && (forall id :: id in clients ==> id in queues && id !in closed)
      && (forall id :: id in queues ==> |queues[id]| <= Capacity)
    }

    constructor()
      ensures Valid()
      ensures clients == map[] && userClients == map[] && queues == map[] && closed == {} && written == []
    {
      clients, userClients, queues, closed, written := map[], map[], map[], {}, [];
    }

    /** `isUIDExists`. */
    predicate IsUidExists(uid: string)
      reads this
    {
      uid in userClients
    }

    /** `generateUniqueUID`: friendly UIDs are drawn until one is not in use.
        At most `fuel` draws are modelled; `None` stands for a loop that has
        not returned yet. */
    method GenerateUniqueUid(fuel: nat) returns (r: Option<string>)
      ensures r.Some? ==> IsFriendlyUid(r.value) && r.value !in userClients
    {
      var attempts := 0;
      while attempts < fuel
      {
        var uid := GenerateFriendlyUid();
        if !IsUidExists(uid) {
          return Some(uid);
        }
        attempts := attempts + 1;
      }
      return None;
    }

    /** `handleWebSocket`: a new connection gets an empty `Send` channel and
        is told the server is ready. */
    method Accept(id: string)
      requires Valid() && id !in queues && id !in closed
      modifies this
      ensures Valid()
      ensures queues == old(queues)[id := []]
      ensures written == old(written) + [(id, Envelope("ready", "", "", OtherData, ""))]
      ensures unchanged(this`clients, this`userClients, this`closed)
    {
      queues := queues[id := []];
      written := written + [(id, Envelope("ready", "", "", OtherData, ""))];
    }

    /** The register case of `run`: a prior connection of the same UID has
        its channel closed and its ID entry removed; the new client is filed
        under both keys. */
    method Register(c: Client)
      requires Valid() && c.id in queues && c.id !in clients && c.id !in closed
      modifies this
      ensures Valid()
      ensures Snapshot() == Registered(old(Snapshot()), c)
      ensures closed == old(closed) + (if c.uid in old(userClients) then {old(userClients)[c.uid].id} else {})
      ensures c.uid in old(userClients) ==> old(userClients)[c.uid].id !in old(closed)
      ensures unchanged(this`queues, this`written)
    {
      RegisterKeepsConsistent(Snapshot(), c);
      if c.uid in userClients {
        var oldClient := userClients[c.uid];
        closed := closed + {oldClient.id};
        clients := clients - {oldClient.id};
      }
      clients := clients[c.id := c];
      userClients := userClients[c.uid := c];
    }

    /** The unregister case of `run`: only a connection still filed by its ID
        is removed from both tables and has its channel closed; any other
        unregister changes nothing. */
    method Unregister(c: Client)
      requires Valid()
      requires c.id in clients ==> clients[c.id] == c
      modifies this
      ensures Valid()
      ensures Snapshot() == Unregistered(old(Snapshot()), c)
      ensures closed == old(closed) + (if c.id in old(clients) then {c.id} else {})
      ensures c.id in old(clients) ==> c.id !in old(closed)
      ensures c.id !in old(clients) ==> unchanged(this)
      ensures unchanged(this`queues, this`written)
    {
      UnregisterKeepsConsistent(Snapshot(), c);
      if c.id in clients {
        clients := clients - {c.id};
        userClients := userClients - {c.uid};
        closed := closed + {c.id};
      }
    }

    /** `sendToUser`: queued on the channel of the UID's connection unless it
        is full; nothing for an unknown UID. */
    method SendToUser(uid: string, m: Envelope)
      requires Valid()
      modifies this
      ensures Valid()
      ensures queues == ToUser(old(Snapshot()), old(queues), uid, m)
      ensures unchanged(this`clients, this`userClients, this`closed, this`written)
    {
      if uid in userClients {
        var client := userClients[uid];
        queues := TrySend(queues, client.id, m);
      }
    }

    /** `sendToClient`: queued on the channel of that connection unless it is
        full; nothing for an unknown connection ID. */
    method SendToClient(id: string, m: Envelope)
      requires Valid()
      modifies this
      ensures Valid()
      ensures queues == ToClient(old(Snapshot()), old(queues), id, m)
      ensures unchanged(this`clients, this`userClients, this`closed, this`written)
    {
      if id in clients {
        queues := TrySend(queues, id, m);
      }
    }

    /** `relaySignaling`: without a target nothing happens; for an unknown
        target the sender (when logged in) gets a "Target user not found"
        error; otherwise the target's channel gets the forwarded envelope, or,
        when it is full, the sender gets a "Failed to deliver message to
        target user" error. */
    method RelaySignaling(msg: Envelope)
      requires Valid()
      modifies this
      ensures Valid()
      ensures queues == Relayed(old(Snapshot()), old(queues), msg)
      ensures unchanged(this`clients, this`userClients, this`closed, this`written)
    {
      if msg.to == "" {
        return;
      }
      var targetExists := msg.to in userClients;
      var senderExists := msg.from in userClients;
      if !targetExists {
        if senderExists {
          SendToUser(msg.from, ErrorMessage(TargetNotFound));
        }
        return;
      }
      var targetClient := userClients[msg.to];
      var response := Forwarded(msg);
      if |queues[targetClient.id]| < Capacity {
        queues := queues[targetClient.id := queues[targetClient.id] + [response]];
      } else if senderExists {
        SendToUser(msg.from, ErrorMessage(DeliveryFailed));
      }
    }

    /** `handleMessage`: `offer`, `answer` and `ice-candidate` are relayed;
        `ping` is answered with a pong to the sender's connection (the lookup
        the code performs is `PongAsWritten`); every other type is dropped. */
    method HandleMessage(msg: Envelope)
      requires Valid()
      modifies this
      ensures Valid()
      ensures msg.kind in {"offer", "answer", "ice-candidate"} ==> queues == Relayed(old(Snapshot()), old(queues), msg)
      ensures msg.kind == "ping" ==> queues == PongToSender(old(Snapshot()), old(queues), msg.from)
      ensures msg.kind !in {"offer", "answer", "ice-candidate", "ping"} ==> unchanged(this)
      ensures unchanged(this`clients, this`userClients, this`closed, this`written)
    {
      if msg.kind == "offer" || msg.kind == "answer" || msg.kind == "ice-candidate" {
        RelaySignaling(msg);
      } else if msg.kind == "ping" {
        SendToUser(msg.from, Pong);
      }
    }

    /** One message read after login: its `from` is overwritten with the
        reading connection's UID, then it is handled. */
    method Receive(c: Client, msg: Envelope)
      requires Valid()
      modifies this
      ensures Valid()
      ensures msg.kind in {"offer", "answer", "ice-candidate"} ==>
        queues == Relayed(old(Snapshot()), old(queues), msg.(from := c.uid))
      ensures msg.kind == "ping" ==> queues == PongToSender(old(Snapshot()), old(queues), c.uid)
      ensures msg.kind !in {"offer", "answer", "ice-candidate", "ping"} ==> unchanged(this)
      ensures unchanged(this`clients, this`userClients, this`closed, this`written)
    {
      HandleMessage(msg.(from := c.uid));
    }

    /** The login part of `readPump`: the first message must be a `login`,
        otherwise nothing is registered. A non-empty `data.uid` is reused
        (not a new user); otherwise a fresh unused friendly UID is issued (a
        new user). The client is registered under that UID and its channel
        gets the `login_success` reply. */
    method Login(id: string, first: Option<Envelope>, fuel: nat) returns (registered: Option<Client>)
      requires Valid() && id in queues && queues[id] == [] && id !in clients && id !in closed
      modifies this
      ensures Valid()
      ensures first.None? || first.value.kind != "login" ==> registered.None? && unchanged(this)
      ensures registered.Some? ==>
        && first.Some? && first.value.kind == "login"
        && registered.value.id == id && registered.value.uid != ""
        && Snapshot() == Registered(old(Snapshot()), registered.value)
        && queues == old(queues)[id := [Message("login_success", "", LoginOk(registered.value.uid, !RequestedUid(first.value).Some?))]]
        && closed == old(closed) + (if registered.value.uid in old(userClients) then {old(userClients)[registered.value.uid].id} else {})
        && written == old(written)
      ensures first.Some? && first.value.kind == "login" && RequestedUid(first.value).Some? ==>
        registered == Some(Client(id, RequestedUid(first.value).value))
      ensures registered.Some? && !RequestedUid(first.value).Some? ==>
        IsFriendlyUid(registered.value.uid) && registered.value.uid !in old(userClients)
      ensures registered.None? ==> unchanged(this)
    {
      if first.None? || first.value.kind != "login" {
        return None;
      }
      var userId: string;
      var isNewUser := false;
      var requested := RequestedUid(first.value);
      if requested.Some? {
        userId := requested.value;
      } else {
        var generated := GenerateUniqueUid(fuel);
        if generated.None? {
          return None;
        }
        userId := generated.value;
        isNewUser := true;
      }
      var client := Client(id, userId);
      Register(client);
      assert queues[id] + [Message("login_success", "", LoginOk(userId, isNewUser))] == [Message("login_success", "", LoginOk(userId, isNewUser))];
      queues := queues[id := queues[id] + [Message("login_success", "", LoginOk(userId, isNewUser))]];
      return Some(client);
    }

    /** The writer goroutine takes the oldest queued envelope of a connection
        and writes it out. */
    method WriteOut(id: string)
      requires Valid() && id in queues && queues[id] != []
      modifies this
      ensures Valid()
      ensures written == old(written) + [(id, old(queues)[id][0])]
      ensures queues == old(queues)[id := old(queues)[id][1..]]
      ensures unchanged(this`clients, this`userClients, this`closed)
    {
      written := written + [(id, queues[id][0])];
      queues := queues[id := queues[id][1..]];
    }
  }

  /** The UID a `login` asks to keep: a non-empty string `data.uid`, read from
      any data object that has one, whatever its other members. */
  function RequestedUid(m: Envelope): (r: Option<string>)
    ensures r.Some? <==> (m.data.UidField? || m.data.LoginOk?) && m.data.uid != ""
    ensures r.Some? ==> r.value == m.data.uid && r.value != ""
  {
    match m.data
    case UidField(uid) => if uid != "" then Some(uid) else None
    case LoginOk(uid, _) => if uid != "" then Some(uid) else None
    case _ => None
  }
}
