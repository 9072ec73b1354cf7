/** The `/stream` signaling gateway: presence of viewers per stream, the
    broadcaster of each stream, and the relay of negotiation messages.
    Each inbound event is one atomic step from a state to a new state, the
    messages emitted, the calls made to the stream store, and the
    acknowledgement returned to the sender. */
module StreamsGateway {
  import opened Wrappers
  import opened StreamStore
  import opened SocketRooms

  /** A session description or ICE candidate: relayed, never inspected. */
  datatype Payload = Payload(body: string)

  /** What a connection can send, plus the transport's connect and
      disconnect. */
  datatype Inbound =
    | Connected
    | Disconnected
    | JoinStream(streamId: StreamId)
    | LeaveStream(streamId: StreamId)
    | StartStream(streamId: StreamId)
    | StopStream(streamId: StreamId)
    | Offer(streamId: StreamId, offer: Payload, to: Option<ConnId>)
    | Answer(streamId: StreamId, answer: Payload, answerTo: ConnId)
    | IceCandidate(streamId: StreamId, candidate: Payload, to: Option<ConnId>)

  /** What the gateway emits to connections. */
  datatype Outbound =
    | ViewerCount(streamId: StreamId, count: nat)
    | ViewerJoined(streamId: StreamId, viewerId: ConnId)
    | StreamStarted(streamId: StreamId)
    | StreamStopped(streamId: StreamId)
    | RelayedOffer(offer: Payload, from: ConnId)
    | RelayedAnswer(answer: Payload, from: ConnId)
    | RelayedCandidate(candidate: Payload, from: ConnId)

  /** One emit, with the set of connections it reaches. */
  datatype Message = Message(recipients: set<ConnId>, event: Outbound)

  /** The handler's return value: nothing, or `{ success: true }` with the
      viewer count when the handler reports one. */
  datatype Ack = NoAck | Success(viewerCount: Option<nat>)

  /** `viewers` is `activeStreams` (stream -> viewer connections) and
      `order` the insertion order of its keys; `broadcasters` is
      `broadcasterSockets`; `rooms` is the socket.io adapter; `store` the
      stream records. */
  datatype State = State(
    viewers: map<StreamId, set<ConnId>>,
    order: seq<StreamId>,
    broadcasters: map<StreamId, ConnId>,
    rooms: Rooms,
    store: Store)

  datatype StepResult = StepResult(state: State, emits: seq<Message>, writes: seq<Write>, ack: Ack)

  /** A gateway that has just started, in front of an existing store: no
      stream has viewers or a broadcaster, and no connection is live. */
  function Init(store: Store): (r: State)
    ensures Valid(r) && r.store == store
    ensures forall s :: ViewersOf(r, s) == {} && s !in r.broadcasters
    ensures forall c :: c !in r.rooms
  {
    State(map[], [], map[], map[], store)
  }

  /** JavaScript truthiness of a string: only the empty string is falsy. */
  function Truthy(s: string): (b: bool)
    ensures b <==> |s| > 0
  {
    s != ""
  }

  /** The viewer set of a stream, empty when the stream has no entry. */
  function ViewersOf(st: State, s: StreamId): set<ConnId> {
    if s in st.viewers then st.viewers[s] else {}
  }

  /** The state invariant: `order` lists each key of `viewers` exactly
      once, and every viewer of a stream is a live connection inside that
      stream's room. */
  ghost predicate Valid(st: State) {
    OrderListsKeys(st.order, st.viewers) && ViewersInRooms(st.viewers, st.rooms)
  }

  /** `order` lists each key of `viewers` exactly once. */
  ghost predicate OrderListsKeys(order: seq<StreamId>, viewers: map<StreamId, set<ConnId>>) {
    && (forall i, j :: 0 <= i < j < |order| ==> order[i] != order[j])
    && (forall s :: s in order <==> s in viewers)
  }

  /** Every viewer of a stream is a live connection in that stream's room. */
  ghost predicate ViewersInRooms(viewers: map<StreamId, set<ConnId>>, rooms: Rooms) {
    forall s, v {:trigger v in viewers[s]} :: s in viewers && v in viewers[s] ==> v in rooms && s in rooms[v]
  }

  /** A new transport connection; the gateway itself only logs it. */
  function HandleConnection(st: State, c: ConnId): (r: StepResult)
    requires c !in st.rooms
    ensures c in r.state.rooms && c in Members(r.state.rooms, c)
    ensures r.state.rooms == Connect(st.rooms, c) && r.state.order == st.order
    ensures r.state.viewers == st.viewers && r.state.broadcasters == st.broadcasters
    ensures r.state.store == st.store && r.emits == [] && r.writes == [] && r.ack == NoAck
  {
    StepResult(st.(rooms := Connect(st.rooms, c)), [], [], NoAck)
  }

  /** The disconnect sweep over the keys of `activeStreams`, in `keys`
      order: each stream whose viewer set holds `c` loses `c` and gets one
      count write carrying its new size. */
  function Sweep(keys: seq<StreamId>, viewers: map<StreamId, set<ConnId>>, c: ConnId)
    : (r: (map<StreamId, set<ConnId>>, seq<Write>))
    ensures r.0.Keys == viewers.Keys
    ensures forall s :: s in viewers ==> r.0[s] == (if s in keys then viewers[s] - {c} else viewers[s])
    decreases |keys|
  {
    if keys == [] then (viewers, [])
    else
      var s := keys[0];
      if s in viewers && c in viewers[s] then
        var viewers' := viewers[s := viewers[s] - {c}];
        var rest := Sweep(keys[1..], viewers', c);
        (rest.0, [Write(s, CountPatch(|viewers'[s]|))] + rest.1)
      else
        Sweep(keys[1..], viewers, c)
  }

  /** Each write of `ws` goes to a stream of `keys` whose viewer set in
      `before` held `c`, and carries that stream's size in `after`. */
  ghost predicate SoundCountWrites(ws: seq<Write>, keys: seq<StreamId>, before: map<StreamId, set<ConnId>>,
                                   after: map<StreamId, set<ConnId>>, c: ConnId)
  {
    forall i :: 0 <= i < |ws| ==>
      && ws[i].id in keys && ws[i].id in before && c in before[ws[i].id] && ws[i].id in after
      && ws[i].patch == CountPatch(|after[ws[i].id]|)
  }

  /** Each write of the sweep goes to a stream of `keys` whose viewer set
      held `c`, and carries that stream's size after the sweep. */
  lemma {:induction false} SweepWritesSound(keys: seq<StreamId>, viewers: map<StreamId, set<ConnId>>, c: ConnId)
    ensures SoundCountWrites(Sweep(keys, viewers, c).1, keys, viewers, Sweep(keys, viewers, c).0, c)
    decreases |keys|
  {
    if keys != [] {
      var s := keys[0];
      assert keys == [s] + keys[1..];
      if s in viewers && c in viewers[s] {
        var viewers' := viewers[s := viewers[s] - {c}];
        SweepWritesSound(keys[1..], viewers', c);
        var rest := Sweep(keys[1..], viewers', c);
        var ws := [Write(s, CountPatch(|viewers'[s]|))] + rest.1;
        forall i | 0 <= i < |ws|
          ensures ws[i].id in keys && ws[i].id in viewers && c in viewers[ws[i].id]
          ensures ws[i].patch == CountPatch(|rest.0[ws[i].id]|)
        {
          if i > 0 {
            assert ws[i] == rest.1[i - 1];
          }
        }
      } else {
        SweepWritesSound(keys[1..], viewers, c);
      }
    }
  }

  /** The sweep writes each stream at most once. */
  lemma {:induction false} SweepWritesDistinct(keys: seq<StreamId>, viewers: map<StreamId, set<ConnId>>, c: ConnId)
    ensures DistinctIds(Sweep(keys, viewers, c).1)
    decreases |keys|
  {
    if keys != [] {
      var s := keys[0];
      if s in viewers && c in viewers[s] {
        var viewers' := viewers[s := viewers[s] - {c}];
        SweepWritesDistinct(keys[1..], viewers', c);
        SweepWritesSound(keys[1..], viewers', c);
        var rest := Sweep(keys[1..], viewers', c);
        var ws := [Write(s, CountPatch(|viewers'[s]|))] + rest.1;
        forall i, j | 0 <= i < j < |ws| ensures ws[i].id != ws[j].id {
          assert ws[j] == rest.1[j - 1];
          assert c in viewers'[rest.1[j - 1].id];
          if i > 0 {
            assert ws[i] == rest.1[i - 1];
          }
        }
      } else {
        SweepWritesDistinct(keys[1..], viewers, c);
      }
    }
  }

  /** Every stream of `keys` whose viewer set held `c` is written. */
  lemma {:induction false} SweepWritesCover(keys: seq<StreamId>, viewers: map<StreamId, set<ConnId>>, c: ConnId)
    ensures forall s :: s in keys && s in viewers && c in viewers[s] ==>
              s in WrittenIds(Sweep(keys, viewers, c).1)
    decreases |keys|
  {
    if keys != [] {
      var s := keys[0];
      if s in viewers && c in viewers[s] {
        var viewers' := viewers[s := viewers[s] - {c}];
        SweepWritesCover(keys[1..], viewers', c);
        var rest := Sweep(keys[1..], viewers', c);
        var ws := [Write(s, CountPatch(|viewers'[s]|))] + rest.1;
        assert WrittenIds(ws) == {s} + WrittenIds(rest.1) by {
          assert forall i :: 0 <= i < |rest.1| ==> ws[i + 1] == rest.1[i];
          forall t | t in WrittenIds(ws) ensures t in {s} + WrittenIds(rest.1) {
            var i :| 0 <= i < |ws| && ws[i].id == t;
            if i > 0 {
              assert rest.1[i - 1].id == t;
            }
          }
          forall t | t in {s} + WrittenIds(rest.1) ensures t in WrittenIds(ws) {
            if t == s {
              assert ws[0].id == t;
            } else {
              var i :| 0 <= i < |rest.1| && rest.1[i].id == t;
              assert ws[i + 1].id == t;
            }
          }
        }
        forall t | t in keys && t in viewers && c in viewers[t] && t != s ensures t in keys[1..] {
        }
      } else {
        SweepWritesCover(keys[1..], viewers, c);
        forall t | t in keys && t in viewers && c in viewers[t] ensures t in keys[1..] {
        }
      }
    }
  }

  /** `handleDisconnect` (after socket.io has dropped the connection from
      all its rooms): `c` is removed from every viewer set that holds it
      and each such stream's new size is persisted. Nothing is emitted and
      `broadcasterSockets` is left as it was. */
  function HandleDisconnect(st: State, c: ConnId): (r: StepResult)
    ensures r.state.rooms == Disconnect(st.rooms, c)
    ensures r.state.broadcasters == st.broadcasters && r.state.order == st.order
    ensures r.emits == [] && r.ack == NoAck
    ensures r.state.viewers.Keys == st.viewers.Keys
    ensures forall s :: s in st.viewers && s in st.order ==> r.state.viewers[s] == st.viewers[s] - {c}
    ensures DistinctIds(r.writes)
    ensures forall i :: 0 <= i < |r.writes| ==>
              && r.writes[i].id in st.viewers && c in st.viewers[r.writes[i].id]
              && r.writes[i].patch == CountPatch(|r.state.viewers[r.writes[i].id]|)
    ensures forall s :: s in st.order && s in st.viewers && c in st.viewers[s] ==>
              s in WrittenIds(r.writes)
    ensures r.state.store == ApplyWrites(st.store, r.writes)
  {
    SweepWritesSound(st.order, st.viewers, c);
    SweepWritesDistinct(st.order, st.viewers, c);
    SweepWritesCover(st.order, st.viewers, c);
    var swept := Sweep(st.order, st.viewers, c);
    var st' := st.(viewers := swept.0, rooms := Disconnect(st.rooms, c),
                   store := ApplyWrites(st.store, swept.1));
    StepResult(st', [], swept.1, NoAck)
  }

  /** `join-stream`: `c` becomes a viewer of `s` (the entry is created if
      absent) and joins room `s`; the new size is persisted, published to
      the whole room, and returned; the broadcaster of `s`, if any, is told
      that `c` joined. */
  function HandleJoinStream(st: State, c: ConnId, s: StreamId): (r: StepResult)
    requires c in st.rooms
    ensures s in r.state.viewers && r.state.viewers[s] == ViewersOf(st, s) + {c}
    ensures r.state.viewers.Keys == st.viewers.Keys + {s}
    ensures forall t :: t in st.viewers && t != s ==> r.state.viewers[t] == st.viewers[t]
    ensures r.state.order == (if s in st.viewers then st.order else st.order + [s])
    ensures r.state.broadcasters == st.broadcasters
    ensures r.state.rooms == Join(st.rooms, c, s)
    ensures r.ack == Success(Some(|r.state.viewers[s]|))
    ensures r.writes == [Write(s, CountPatch(|r.state.viewers[s]|))]
    ensures r.state.store == ApplyWrites(st.store, r.writes)
    ensures 1 <= |r.emits| <= 2
    ensures r.emits[0] == Message(Members(r.state.rooms, s), ViewerCount(s, |r.state.viewers[s]|))
    ensures c in r.emits[0].recipients
    ensures |r.emits| == 2 <==> s in st.broadcasters && Truthy(st.broadcasters[s])
    ensures |r.emits| == 2 ==>
              r.emits[1] == Message(ServerTo(r.state.rooms, st.broadcasters[s]), ViewerJoined(s, c))
  {
    var set' := ViewersOf(st, s) + {c};
    var count := |set'|;
    var rooms' := Join(st.rooms, c, s);
    var ws := [Write(s, CountPatch(count))];
    var st' := st.(viewers := st.viewers[s := set'],
                   order := if s in st.viewers then st.order else st.order + [s],
                   rooms := rooms',
                   store := ApplyWrites(st.store, ws));
    var countMsg := Message(ServerTo(rooms', s), ViewerCount(s, count));
    var joinedMsg :=
      if s in st.broadcasters && Truthy(st.broadcasters[s])
      then [Message(ServerTo(rooms', st.broadcasters[s]), ViewerJoined(s, c))]
      else [];
    StepResult(st', [countMsg] + joinedMsg, ws, Success(Some(count)))
  }

  /** `leave-stream`: when `s` has an entry, `c` is removed from its viewer
      set and the new size is persisted and published to the room as it is
      before `c` leaves it; then `c` leaves room `s`. The entry itself is
      never deleted. */
  function HandleLeaveStream(st: State, c: ConnId, s: StreamId): (r: StepResult)
    requires c in st.rooms
    ensures r.state.viewers.Keys == st.viewers.Keys && r.state.order == st.order
    ensures s in st.viewers ==> r.state.viewers[s] == st.viewers[s] - {c}
    ensures forall t :: t in st.viewers && t != s ==> r.state.viewers[t] == st.viewers[t]
    ensures s !in st.viewers ==> r.emits == [] && r.writes == []
    ensures s in st.viewers ==>
              && r.writes == [Write(s, CountPatch(|r.state.viewers[s]|))]
              && r.emits == [Message(Members(st.rooms, s), ViewerCount(s, |r.state.viewers[s]|))]
    ensures r.state.store == ApplyWrites(st.store, r.writes)
    ensures r.state.rooms == Leave(st.rooms, c, s)
    ensures r.state.broadcasters == st.broadcasters
    ensures r.ack == Success(None)
  {
    if s in st.viewers then
      var set' := st.viewers[s] - {c};
      var ws := [Write(s, CountPatch(|set'|))];
      var st' := st.(viewers := st.viewers[s := set'],
                     rooms := Leave(st.rooms, c, s),
                     store := ApplyWrites(st.store, ws));
      StepResult(st', [Message(ServerTo(st.rooms, s), ViewerCount(s, |set'|))], ws, Success(None))
    else
      StepResult(st.(rooms := Leave(st.rooms, c, s)), [], [], Success(None))
  }

  /** `start-stream`: if the store has a record for `s`, it is marked live,
      `c` joins room `s` and becomes the broadcaster of `s` (replacing any
      previous one), and every live connection is told the stream started.
      Without a record nothing happens. Success is reported either way. */
  function HandleStartStream(st: State, c: ConnId, s: StreamId): (r: StepResult)
    requires c in st.rooms
    ensures r.ack == Success(None)
    ensures r.state.viewers == st.viewers && r.state.order == st.order
    ensures s !in st.store ==> r.state == st && r.emits == [] && r.writes == []
    ensures s in st.store ==>
              && r.writes == [Write(s, LivePatch(true))]
              && r.state.store == st.store[s := StreamRecord(true, st.store[s].viewerCount)]
              && r.state.broadcasters == st.broadcasters[s := c]
              && r.state.rooms == Join(st.rooms, c, s)
              && r.emits == [Message(r.state.rooms.Keys, StreamStarted(s))]
    ensures r.state.store == ApplyWrites(st.store, r.writes)
  {
    match FindOne(st.store, s)
    case None => StepResult(st, [], [], Success(None))
    case Some(_) =>
      var ws := [Write(s, LivePatch(true))];
      var rooms' := Join(st.rooms, c, s);
      var st' := st.(store := ApplyWrites(st.store, ws),
                     rooms := rooms',
                     broadcasters := st.broadcasters[s := c]);
      StepResult(st', [Message(ServerEmit(rooms'), StreamStarted(s))], ws, Success(None))
  }

  /** `stop-stream`: if the store has a record for `s`, it is marked not
      live, room `s` is told the stream stopped, and `s` no longer has a
      broadcaster. Any connection may stop any stream. Without a record
      nothing happens. Success is reported either way. */
  function HandleStopStream(st: State, c: ConnId, s: StreamId): (r: StepResult)
    requires c in st.rooms
    ensures r.ack == Success(None)
    ensures r.state.viewers == st.viewers && r.state.order == st.order && r.state.rooms == st.rooms
    ensures s !in st.store ==> r.state == st && r.emits == [] && r.writes == []
    ensures s in st.store ==>
              && r.writes == [Write(s, LivePatch(false))]
              && r.state.store == st.store[s := StreamRecord(false, st.store[s].viewerCount)]
              && s !in r.state.broadcasters
              && (forall t :: t != s && t in st.broadcasters ==>
                    t in r.state.broadcasters && r.state.broadcasters[t] == st.broadcasters[t])
              && r.state.broadcasters.Keys == st.broadcasters.Keys - {s}
              && r.emits == [Message(Members(st.rooms, s), StreamStopped(s))]
    ensures r.state.store == ApplyWrites(st.store, r.writes)
  {
    match FindOne(st.store, s)
    case None => StepResult(st, [], [], Success(None))
    case Some(_) =>
      var ws := [Write(s, LivePatch(false))];
      var st' := st.(store := ApplyWrites(st.store, ws),
                     broadcasters := st.broadcasters - {s});
      StepResult(st', [Message(ServerTo(st.rooms, s), StreamStopped(s))], ws, Success(None))
  }

  /** `offer`: to the connection named by a non-empty `to` through
      `server.to` (which reaches the sender too if it names itself);
      otherwise to room `s` through `client.to`, leaving out the room
      named by the sender's id. */
  function HandleOffer(st: State, c: ConnId, s: StreamId, offer: Payload, to: Option<ConnId>)
    : (r: StepResult)
    ensures r.state == st && r.writes == [] && r.ack == NoAck
    ensures |r.emits| == 1 && r.emits[0].event == RelayedOffer(offer, c)
    ensures to.Some? && Truthy(to.value) ==> r.emits[0].recipients == Members(st.rooms, to.value)
    ensures !(to.Some? && Truthy(to.value)) ==>
              r.emits[0].recipients == Members(st.rooms, s) - Members(st.rooms, c)
  {
    if to.Some? && Truthy(to.value) then
      StepResult(st, [Message(ServerTo(st.rooms, to.value), RelayedOffer(offer, c))], [], NoAck)
    else
      StepResult(st, [Message(ClientTo(st.rooms, c, s), RelayedOffer(offer, c))], [], NoAck)
  }

  /** `answer`: always to the room named by `to` through `client.to`, so
      never to a connection in the room named by the sender's id (the
      sender itself, unless it has left that room). */
  function HandleAnswer(st: State, c: ConnId, s: StreamId, answer: Payload, to: ConnId)
    : (r: StepResult)
    ensures r.state == st && r.writes == [] && r.ack == NoAck
    ensures |r.emits| == 1 && r.emits[0].event == RelayedAnswer(answer, c)
    ensures r.emits[0].recipients == Members(st.rooms, to) - Members(st.rooms, c)
    ensures c in st.rooms && c in st.rooms[c] ==> c !in r.emits[0].recipients
  {
    StepResult(st, [Message(ClientTo(st.rooms, c, to), RelayedAnswer(answer, c))], [], NoAck)
  }

  /** `ice-candidate`: to a non-empty `to`, otherwise to room `s`; through
      `client.to` in both cases, so never to a connection in the room
      named by the sender's id. */
  function HandleIceCandidate(st: State, c: ConnId, s: StreamId, candidate: Payload, to: Option<ConnId>)
    : (r: StepResult)
    ensures r.state == st && r.writes == [] && r.ack == NoAck
    ensures |r.emits| == 1 && r.emits[0].event == RelayedCandidate(candidate, c)
    ensures c in st.rooms && c in st.rooms[c] ==> c !in r.emits[0].recipients
    ensures to.Some? && Truthy(to.value) ==>
              r.emits[0].recipients == Members(st.rooms, to.value) - Members(st.rooms, c)
    ensures !(to.Some? && Truthy(to.value)) ==>
              r.emits[0].recipients == Members(st.rooms, s) - Members(st.rooms, c)
  {
    var target := if to.Some? && Truthy(to.value) then to.value else s;
    StepResult(st, [Message(ClientTo(st.rooms, c, target), RelayedCandidate(candidate, c))], [], NoAck)
  }

  /** The transport delivers a connect only for a new id, and messages only
      from live connections; a disconnect may arrive at any time. */
  predicate Deliverable(st: State, c: ConnId, ev: Inbound) {
    match ev
    case Connected => c !in st.rooms
    case Disconnected => true
    case _ => c in st.rooms
  }

  /** Dispatch of one event from connection `c`. Events the transport would
      not deliver change nothing. */
  function Step(st: State, c: ConnId, ev: Inbound): (r: StepResult)
    ensures !Deliverable(st, c, ev) ==> r == StepResult(st, [], [], NoAck)
    ensures r.state.store == ApplyWrites(st.store, r.writes)
    ensures r.state.store.Keys == st.store.Keys
  {
    if !Deliverable(st, c, ev) then StepResult(st, [], [], NoAck)
    else
      match ev
      case Connected => HandleConnection(st, c)
      case Disconnected => HandleDisconnect(st, c)
      case JoinStream(s) => HandleJoinStream(st, c, s)
      case LeaveStream(s) => HandleLeaveStream(st, c, s)
      case StartStream(s) => HandleStartStream(st, c, s)
      case StopStream(s) => HandleStopStream(st, c, s)
      case Offer(s, offer, to) => HandleOffer(st, c, s, offer, to)
      case Answer(s, answer, to) => HandleAnswer(st, c, s, answer, to)
      case IceCandidate(s, candidate, to) => HandleIceCandidate(st, c, s, candidate, to)
  }

  /** The state after a trace of (connection, event) pairs. */
  function Run(st: State, trace: seq<(ConnId, Inbound)>): State
    decreases |trace|
  {
    if trace == [] then st
    else Run(Step(st, trace[0].0, trace[0].1).state, trace[1..])
  }
}
