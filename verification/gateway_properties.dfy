/** Properties of the gateway that relate several steps, or a step and the
    state invariant. */
module GatewayProperties {
  import opened Wrappers
  import opened StreamStore
  import opened SocketRooms
  import opened StreamsGateway

  /** A new connection keeps the invariant. */
  lemma ConnectPreservesValid(st: State, c: ConnId)
    requires Valid(st) && c !in st.rooms
    ensures Valid(HandleConnection(st, c).state)
  {
  }

  /** The sweep keeps `order` listing the keys. */
  lemma SweepKeepsOrder(order: seq<StreamId>, viewers: map<StreamId, set<ConnId>>, c: ConnId)
    requires OrderListsKeys(order, viewers)
    ensures OrderListsKeys(order, Sweep(order, viewers, c).0)
  {
  }

  /** Removing `c` from the viewer sets of all keys and from all rooms
      keeps every remaining viewer in its room. */
  lemma SweepKeepsViewersInRooms(order: seq<StreamId>, viewers: map<StreamId, set<ConnId>>, rooms: Rooms, c: ConnId)
    requires OrderListsKeys(order, viewers) && ViewersInRooms(viewers, rooms)
    ensures ViewersInRooms(Sweep(order, viewers, c).0, Disconnect(rooms, c))
  {
  }

  /** A disconnect keeps the invariant. */
  lemma DisconnectPreservesValid(st: State, c: ConnId)
    requires Valid(st)
    ensures Valid(HandleDisconnect(st, c).state)
  {
    SweepKeepsOrder(st.order, st.viewers, c);
    SweepKeepsViewersInRooms(st.order, st.viewers, st.rooms, c);
  }

  /** A join keeps the invariant. */
  lemma JoinPreservesValid(st: State, c: ConnId, s: StreamId)
    requires Valid(st) && c in st.rooms
    ensures Valid(HandleJoinStream(st, c, s).state)
  {
    var r := HandleJoinStream(st, c, s);
    if s !in st.viewers {
      assert s !in st.order;
      forall i, j | 0 <= i < j < |r.state.order| ensures r.state.order[i] != r.state.order[j] {
        assert r.state.order[i] == st.order[i];
        if j < |st.order| {
          assert r.state.order[j] == st.order[j];
        }
      }
    }
    forall t, v | t in r.state.viewers && v in r.state.viewers[t]
      ensures v in r.state.rooms && t in r.state.rooms[v]
    {
      if t != s || v != c {
        assert v in st.viewers[t];
      }
    }
  }

  /** A leave keeps the invariant. */
  lemma LeavePreservesValid(st: State, c: ConnId, s: StreamId)
    requires Valid(st) && c in st.rooms
    ensures Valid(HandleLeaveStream(st, c, s).state)
  {
  }

  /** Every event preserves the invariant: `activeStreams`' keys keep a
      duplicate-free insertion order, and every viewer stays a live member
      of its stream's room. */
  lemma StepPreservesValid(st: State, c: ConnId, ev: Inbound)
    requires Valid(st)
    ensures Valid(Step(st, c, ev).state)
  {
    if Deliverable(st, c, ev) {
      match ev
      case Connected => ConnectPreservesValid(st, c);
      case Disconnected => DisconnectPreservesValid(st, c);
      case JoinStream(s) => JoinPreservesValid(st, c, s);
      case LeaveStream(s) => LeavePreservesValid(st, c, s);
      case StartStream(s) =>
        var r := HandleStartStream(st, c, s);
        assert forall t, v :: t in st.viewers && v in st.viewers[t] ==> t in r.state.rooms[v];
      case _ =>
    }
  }

  /** The invariant holds after any trace of events from a valid state. */
  lemma {:induction false} RunPreservesValid(st: State, trace: seq<(ConnId, Inbound)>)
    requires Valid(st)
    ensures Valid(Run(st, trace))
    decreases |trace|
  {
    if trace != [] {
      StepPreservesValid(st, trace[0].0, trace[0].1);
      RunPreservesValid(Step(st, trace[0].0, trace[0].1).state, trace[1..]);
    }
  }

  /** Every state the gateway can reach from start-up satisfies the
      invariant. */
  lemma ReachableValid(store: Store, trace: seq<(ConnId, Inbound)>)
    ensures Valid(Run(Init(store), trace))
  {
    RunPreservesValid(Init(store), trace);
  }

  /** Count consistency for join and leave: afterwards the stored
      `viewerCount` of `s` (when the record exists) and the published
      `viewer-count` both equal the size of the viewer set, and every
      viewer of `s` receives the publication. */
  lemma JoinLeaveCountConsistent(st: State, c: ConnId, ev: Inbound)
    requires Valid(st) && c in st.rooms
    requires ev.JoinStream? || (ev.LeaveStream? && ev.streamId in st.viewers)
    ensures var r := Step(st, c, ev);
      var s := ev.streamId;
      && s in r.state.viewers
      && (s in st.store ==> r.state.store[s].viewerCount == |r.state.viewers[s]|)
      && |r.emits| >= 1
      && r.emits[0].event == ViewerCount(s, |r.state.viewers[s]|)
      && r.state.viewers[s] <= r.emits[0].recipients
  {
  }

  /** Count consistency for disconnect: every stream whose viewer set held
      `c` has, when its record exists, a stored `viewerCount` equal to the
      size of its viewer set afterwards. */
  lemma DisconnectCountConsistent(st: State, c: ConnId, s: StreamId)
    requires Valid(st)
    requires s in st.viewers && c in st.viewers[s] && s in st.store
    ensures var r := Step(st, c, Disconnected);
      r.state.store[s].viewerCount == |r.state.viewers[s]| == |st.viewers[s]| - 1
  {
    var r := Step(st, c, Disconnected);
    assert s in st.order;
    assert s in WrittenIds(r.writes);
    var i :| 0 <= i < |r.writes| && r.writes[i].id == s;
    ApplyWritesAt(st.store, r.writes, s);
  }

  /** Disconnect purges `c` from presence: it is in no viewer set and no
      room afterwards; a stream loses `c` and nothing else; streams without
      `c` keep their viewers and are not written; each stream that held `c`
      is written exactly once; `broadcasterSockets` is untouched. */
  lemma DisconnectPurges(st: State, c: ConnId)
    requires Valid(st)
    ensures var r := Step(st, c, Disconnected);
      && c !in r.state.rooms
      && r.state.viewers.Keys == st.viewers.Keys
      && (forall s :: s in st.viewers ==> r.state.viewers[s] == st.viewers[s] - {c})
      && (forall s :: s in r.state.viewers ==> c !in r.state.viewers[s])
      && WrittenIds(r.writes) == (set s | s in st.viewers && c in st.viewers[s])
      && DistinctIds(r.writes)
      && r.state.broadcasters == st.broadcasters
      && r.emits == []
  {
    var r := Step(st, c, Disconnected);
    forall s | s in WrittenIds(r.writes) ensures s in st.viewers && c in st.viewers[s] {
      var i :| 0 <= i < |r.writes| && r.writes[i].id == s;
    }
  }

  /** The sweep over streams none of which holds `c` changes nothing and
      writes nothing. */
  lemma {:induction false} SweepWithoutMember(keys: seq<StreamId>, viewers: map<StreamId, set<ConnId>>, c: ConnId)
    requires forall s :: s in keys && s in viewers ==> c !in viewers[s]
    ensures Sweep(keys, viewers, c) == (viewers, [])
    decreases |keys|
  {
    if keys != [] {
      SweepWithoutMember(keys[1..], viewers, c);
    }
  }

  /** A second disconnect of the same connection is a no-op. */
  lemma DisconnectIdempotent(st: State, c: ConnId)
    ensures var r1 := Step(st, c, Disconnected);
      var r2 := Step(r1.state, c, Disconnected);
      r2 == StepResult(r1.state, [], [], NoAck)
  {
    var r1 := Step(st, c, Disconnected);
    SweepWithoutMember(r1.state.order, r1.state.viewers, c);
    assert Disconnect(r1.state.rooms, c) == r1.state.rooms;
  }

  /** Re-joining a stream one is already viewing leaves presence as it
      was, but persists and publishes the same count again and returns it
      again. */
  lemma RejoinRepublishes(st: State, c: ConnId, s: StreamId)
    requires c in st.rooms
    ensures var r1 := Step(st, c, JoinStream(s));
      var r2 := Step(r1.state, c, JoinStream(s));
      && r2.state.viewers == r1.state.viewers
      && r2.state.order == r1.state.order
      && r2.state.rooms == r1.state.rooms
      && r2.writes == r1.writes
      && r2.emits[0] == r1.emits[0]
      && r2.ack == r1.ack
  {
    var r1 := Step(st, c, JoinStream(s));
    assert r1.state.rooms[c] + {s} == r1.state.rooms[c];
  }

  /** Leaving undoes joining: for a connection that was neither a viewer
      of an existing entry `s` nor in room `s`, join-stream followed by
      leave-stream restores presence and room membership exactly. */
  lemma LeaveUndoesJoin(st: State, c: ConnId, s: StreamId)
    requires c in st.rooms && s !in st.rooms[c]
    requires s in st.viewers && c !in st.viewers[s]
    ensures var r1 := Step(st, c, JoinStream(s));
      var r2 := Step(r1.state, c, LeaveStream(s));
      && r2.state.viewers == st.viewers
      && r2.state.order == st.order
      && r2.state.rooms == st.rooms
      && r2.state.broadcasters == st.broadcasters
      && |r2.state.viewers[s]| == |r1.state.viewers[s]| - 1
  {
    var r1 := Step(st, c, JoinStream(s));
    assert st.viewers[s] + {c} - {c} == st.viewers[s];
    SocketRooms.LeaveUndoesJoin(st.rooms, c, s);
  }

  /** Last writer wins: two successful starts of the same stream leave the
      second starter as broadcaster and the record live, whatever came
      before. */
  lemma LastStartWins(st: State, c1: ConnId, c2: ConnId, s: StreamId)
    requires c1 in st.rooms && c2 in st.rooms && s in st.store
    ensures var r1 := Step(st, c1, StartStream(s));
      var r2 := Step(r1.state, c2, StartStream(s));
      && r1.state.broadcasters[s] == c1 && r1.state.store[s].isLive
      && r2.state.broadcasters[s] == c2 && r2.state.store[s].isLive
      && c1 in Members(r2.state.rooms, s) && c2 in Members(r2.state.rooms, s)
  {
  }

  /** Stop after start: any connection's stop clears the broadcaster and
      the live flag, and the stop notice reaches the broadcaster, who
      joined the room on start. */
  lemma StopAfterStart(st: State, b: ConnId, c: ConnId, s: StreamId)
    requires b in st.rooms && c in st.rooms && s in st.store
    ensures var r1 := Step(st, b, StartStream(s));
      var r2 := Step(r1.state, c, StopStream(s));
      && s !in r2.state.broadcasters
      && !r2.state.store[s].isLive
      && r2.emits == [Message(Members(r1.state.rooms, s), StreamStopped(s))]
      && b in r2.emits[0].recipients
  {
  }

  /** A broadcaster that disconnects stays recorded as the broadcaster; a
      later viewer's `viewer-joined` notice is then addressed to it but
      reaches no live connection named by it. */
  lemma DisconnectedBroadcasterIsStale(st: State, b: ConnId, v: ConnId, s: StreamId)
    requires Valid(st)
    requires b in st.rooms && v in st.rooms && b != v && Truthy(b) && s in st.store
    ensures var r1 := Step(st, b, StartStream(s));
      var r2 := Step(r1.state, b, Disconnected);
      var r3 := Step(r2.state, v, JoinStream(s));
      && r3.state.broadcasters[s] == b
      && |r3.emits| == 2
      && r3.emits[1].event == ViewerJoined(s, v)
      && b !in r3.emits[1].recipients
  {
    var r1 := Step(st, b, StartStream(s));
    var r2 := Step(r1.state, b, Disconnected);
    assert b !in r2.state.rooms;
  }

  /** An offer addressed to a connection whose own room is intact reaches
      exactly that connection, the sender too when it names itself. */
  lemma OfferToOneConnection(st: State, c: ConnId, s: StreamId, p: Payload, to: ConnId)
    requires c in st.rooms && Truthy(to) && OwnRoomIntact(st.rooms, to)
    ensures Step(st, c, Offer(s, p, Some(to))).emits == [Message({to}, RelayedOffer(p, c))]
  {
    SocketRooms.AddressById(st.rooms, c, to);
  }

  /** An answer sent by a live connection to itself reaches nobody, in
      every state: `client.to(c)` from `c` leaves out exactly the room it
      targets. The same holds for an ICE candidate addressed to a
      non-empty `c`; an empty `to` sends it to the stream room instead. */
  lemma SelfAddressedAnswerReachesNobody(st: State, c: ConnId, s: StreamId, p: Payload)
    requires c in st.rooms
    ensures Step(st, c, Answer(s, p, c)).emits == [Message({}, RelayedAnswer(p, c))]
    ensures Truthy(c) ==>
              Step(st, c, IceCandidate(s, p, Some(c))).emits == [Message({}, RelayedCandidate(p, c))]
  {
    assert Members(st.rooms, c) - Members(st.rooms, c) == {};
  }

  /** An unaddressed offer or ICE candidate from a member of room `s`
      never comes back to a sender still in its own room, and reaches
      every other member of `s` when the sender's own room is intact. */
  lemma RoomRelayExcludesSender(st: State, c: ConnId, s: StreamId, p: Payload)
    requires c in st.rooms && s in st.rooms[c]
    ensures var r := Step(st, c, Offer(s, p, None));
      && (c in st.rooms[c] ==> c !in r.emits[0].recipients)
      && (OwnRoomIntact(st.rooms, c) ==> r.emits[0].recipients + {c} == Members(st.rooms, s))
    ensures var r := Step(st, c, IceCandidate(s, p, None));
      && (c in st.rooms[c] ==> c !in r.emits[0].recipients)
      && (OwnRoomIntact(st.rooms, c) ==> r.emits[0].recipients + {c} == Members(st.rooms, s))
  {
  }

  /** A connection that has left the room named by its own id (by sending
      `leave-stream` with its id as the stream) is no longer excluded by
      `client.to`: its next unaddressed offer to a stream it joined comes
      back to it. */
  lemma SenderOutsideOwnRoomHearsItself(st: State, c: ConnId, s: StreamId, p: Payload)
    requires c in st.rooms && s != c
    ensures var r1 := Step(st, c, JoinStream(s));
      var r2 := Step(r1.state, c, LeaveStream(c));
      var r3 := Step(r2.state, c, Offer(s, p, None));
      c in r3.emits[0].recipients
  {
    var r1 := Step(st, c, JoinStream(s));
    var r2 := Step(r1.state, c, LeaveStream(c));
    assert s in r2.state.rooms[c] && c !in r2.state.rooms[c];
  }

  /** A connection `d` that joins a stream named by another connection's
      id `c` is from then on left out of every `client.to` relay from `c`,
      even when it is in the target room. */
  lemma SenderRoomJoinerMissesRelays(st: State, c: ConnId, d: ConnId, s: StreamId, p: Payload)
    requires c in st.rooms && d in st.rooms && c != d
    ensures var r1 := HandleJoinStream(st, d, c);
      && d !in HandleOffer(r1.state, c, s, p, None).emits[0].recipients
      && d !in HandleAnswer(r1.state, c, s, p, d).emits[0].recipients
      && d !in HandleIceCandidate(r1.state, c, s, p, None).emits[0].recipients
  {
    var r1 := HandleJoinStream(st, d, c);
    assert c in r1.state.rooms[d];
  }

  /** No relay event changes presence, broadcasters or the store, and
      every relayed message carries the sender as `from`. */
  lemma RelaysOnlyForward(st: State, c: ConnId, ev: Inbound)
    requires ev.Offer? || ev.Answer? || ev.IceCandidate?
    requires c in st.rooms
    ensures var r := Step(st, c, ev);
      && r.state == st && r.writes == [] && r.ack == NoAck
      && |r.emits| == 1 && r.emits[0].event.from == c
  {
  }

  /** The trace in which each connection of `cs`, in order, sends
      `join-stream(s)`. */
  function JoinTrace(cs: seq<ConnId>, s: StreamId): seq<(ConnId, Inbound)>
    decreases |cs|
  {
    if cs == [] then [] else [(cs[0], JoinStream(s))] + JoinTrace(cs[1..], s)
  }

  /** The trace in which each connection of `cs`, in order, sends
      `leave-stream(s)`. */
  function LeaveTrace(cs: seq<ConnId>, s: StreamId): seq<(ConnId, Inbound)>
    decreases |cs|
  {
    if cs == [] then [] else [(cs[0], LeaveStream(s))] + LeaveTrace(cs[1..], s)
  }

  /** The joins of `cs`, in order, to `s`, as the transport delivers
      them: a join from a connection that is not live is dropped. */
  function JoinAll(st: State, cs: seq<ConnId>, s: StreamId): State
    decreases |cs|
  {
    if cs == [] then st
    else
      var st1 := if cs[0] in st.rooms then HandleJoinStream(st, cs[0], s).state else st;
      JoinAll(st1, cs[1..], s)
  }

  /** The leaves of `cs`, in order, of `s`, as the transport delivers
      them. */
  function LeaveAll(st: State, cs: seq<ConnId>, s: StreamId): State
    decreases |cs|
  {
    if cs == [] then st
    else
      var st1 := if cs[0] in st.rooms then HandleLeaveStream(st, cs[0], s).state else st;
      LeaveAll(st1, cs[1..], s)
  }

  /** Running a trace of joins is folding the join handler. */
  lemma {:induction false} RunJoinTrace(st: State, cs: seq<ConnId>, s: StreamId)
    ensures Run(st, JoinTrace(cs, s)) == JoinAll(st, cs, s)
    decreases |cs|
  {
    if cs != [] {
      RunJoinTrace(Step(st, cs[0], JoinStream(s)).state, cs[1..], s);
    }
  }

  /** Running a trace of leaves is folding the leave handler. */
  lemma {:induction false} RunLeaveTrace(st: State, cs: seq<ConnId>, s: StreamId)
    ensures Run(st, LeaveTrace(cs, s)) == LeaveAll(st, cs, s)
    decreases |cs|
  {
    if cs != [] {
      RunLeaveTrace(Step(st, cs[0], LeaveStream(s)).state, cs[1..], s);
    }
  }

  /** Joins of live connections keep the set of live connections and add
      exactly those connections to the viewers of `s`. */
  lemma {:induction false} JoinsAddAll(st: State, cs: seq<ConnId>, s: StreamId)
    requires forall i :: 0 <= i < |cs| ==> cs[i] in st.rooms
    ensures JoinAll(st, cs, s).rooms.Keys == st.rooms.Keys
    ensures ViewersOf(JoinAll(st, cs, s), s) == ViewersOf(st, s) + Elems(cs)
    decreases |cs|
  {
    if cs != [] {
      var st1 := HandleJoinStream(st, cs[0], s).state;
      JoinsAddAll(st1, cs[1..], s);
      assert Elems(cs) == {cs[0]} + Elems(cs[1..]);
    }
  }

  /** Leaves of an existing entry `s` by live connections remove exactly
      those connections from the viewers of `s`. */
  lemma {:induction false} LeavesRemoveAll(st: State, cs: seq<ConnId>, s: StreamId)
    requires s in st.viewers
    requires forall i :: 0 <= i < |cs| ==> cs[i] in st.rooms
    ensures var st' := LeaveAll(st, cs, s);
      s in st'.viewers && st'.viewers[s] == st.viewers[s] - Elems(cs)
    decreases |cs|
  {
    if cs != [] {
      var st1 := HandleLeaveStream(st, cs[0], s).state;
      LeavesRemoveAll(st1, cs[1..], s);
      assert Elems(cs) == {cs[0]} + Elems(cs[1..]);
    }
  }

  /** The connections listed in `cs`. */
  function Elems(cs: seq<ConnId>): (r: set<ConnId>)
    ensures forall c :: c in r <==> c in cs
    decreases |cs|
  {
    if cs == [] then {} else {cs[0]} + Elems(cs[1..])
  }

  /** A sequence without repetitions has as many elements as its set. */
  lemma {:induction false} DistinctCard(cs: seq<ConnId>)
    requires forall i, j :: 0 <= i < j < |cs| ==> cs[i] != cs[j]
    ensures |Elems(cs)| == |cs|
    decreases |cs|
  {
    if cs != [] {
      DistinctCard(cs[1..]);
      assert cs[0] !in cs[1..];
    }
  }

  /** The stored `viewerCount` of `s`, when its record exists, is the size
      of its viewer set. */
  predicate CountPersisted(st: State, s: StreamId) {
    s in st.store ==> s in st.viewers && st.store[s].viewerCount == |st.viewers[s]|
  }

  /** After a non-empty run of joins by live connections, the stored count
      of `s` is the size of its viewer set; no record is created. */
  lemma {:induction false} JoinsPersistCount(st: State, cs: seq<ConnId>, s: StreamId)
    requires cs != []
    requires forall i :: 0 <= i < |cs| ==> cs[i] in st.rooms
    ensures JoinAll(st, cs, s).store.Keys == st.store.Keys
    ensures CountPersisted(JoinAll(st, cs, s), s)
    decreases |cs|
  {
    var r := HandleJoinStream(st, cs[0], s);
    if s in st.store {
      PatchEffects(st.store[s], |r.state.viewers[s]|, true);
    }
    if |cs| > 1 {
      JoinsPersistCount(r.state, cs[1..], s);
    }
  }

  /** Leaves of an existing entry by live connections keep the stored count
      of `s` equal to the size of its viewer set; no record is created. */
  lemma {:induction false} LeavesPersistCount(st: State, ls: seq<ConnId>, s: StreamId)
    requires s in st.viewers && CountPersisted(st, s)
    requires forall i :: 0 <= i < |ls| ==> ls[i] in st.rooms
    ensures LeaveAll(st, ls, s).store.Keys == st.store.Keys
    ensures CountPersisted(LeaveAll(st, ls, s), s)
    decreases |ls|
  {
    if ls != [] {
      var r := HandleLeaveStream(st, ls[0], s);
      if s in st.store {
        PatchEffects(st.store[s], |r.state.viewers[s]|, true);
      }
      LeavesPersistCount(r.state, ls[1..], s);
    }
  }

  /** N distinct live connections join a stream nobody is viewing (no entry
      yet, or an entry emptied by earlier leaves), then M distinct ones
      among them leave it: N - M viewers remain, and the stored count of
      the stream, when its record exists, is N - M. */
  lemma JoinsThenLeavesCount(st: State, cs: seq<ConnId>, ls: seq<ConnId>, s: StreamId)
    requires ViewersOf(st, s) == {} && cs != []
    requires forall i :: 0 <= i < |cs| ==> cs[i] in st.rooms
    requires forall i, j :: 0 <= i < j < |cs| ==> cs[i] != cs[j]
    requires forall i, j :: 0 <= i < j < |ls| ==> ls[i] != ls[j]
    requires forall i :: 0 <= i < |ls| ==> ls[i] in cs
    ensures var st' := Run(Run(st, JoinTrace(cs, s)), LeaveTrace(ls, s));
      s in st'.viewers && |st'.viewers[s]| == |cs| - |ls|
    ensures var st' := Run(Run(st, JoinTrace(cs, s)), LeaveTrace(ls, s));
      s in st.store ==> s in st'.store && st'.store[s].viewerCount == |cs| - |ls|
  {
    RunJoinTrace(st, cs, s);
    var st1 := JoinAll(st, cs, s);
    RunLeaveTrace(st1, ls, s);
    JoinsAddAll(st, cs, s);
    assert s in st1.viewers by {
      assert cs[0] in ViewersOf(st1, s);
    }
    forall i | 0 <= i < |ls| ensures ls[i] in st1.rooms {
      var j :| 0 <= j < |cs| && cs[j] == ls[i];
    }
    LeavesRemoveAll(st1, ls, s);
    JoinsPersistCount(st, cs, s);
    LeavesPersistCount(st1, ls, s);
    assert Run(Run(st, JoinTrace(cs, s)), LeaveTrace(ls, s)) == LeaveAll(st1, ls, s);
    DistinctCard(cs);
    DistinctCard(ls);
    assert Elems(ls) <= Elems(cs);
  }

  /* The end-to-end session: `b` starts an existing offline stream "s1",
     `v1` joins it, `v1` disconnects, `b` stops it. The states between
     the steps are written out. */

  const SessionStore: Store := map["s1" := DefaultRecord]
  const Session1: State := State(map[], [], map[], map["b" := {"b"}], SessionStore)
  const Session2: State := Session1.(rooms := map["b" := {"b"}, "v1" := {"v1"}])
  const Session3: State :=
    State(map[], [], map["s1" := "b"], map["b" := {"b", "s1"}, "v1" := {"v1"}],
          map["s1" := StreamRecord(true, 0)])
  const Session4: State :=
    State(map["s1" := {"v1"}], ["s1"], map["s1" := "b"],
          map["b" := {"b", "s1"}, "v1" := {"v1", "s1"}], map["s1" := StreamRecord(true, 1)])
  const Session5: State :=
    State(map["s1" := {}], ["s1"], map["s1" := "b"], map["b" := {"b", "s1"}],
          map["s1" := StreamRecord(true, 0)])
  const Session6: State :=
    State(map["s1" := {}], ["s1"], map[], map["b" := {"b", "s1"}],
          map["s1" := StreamRecord(false, 0)])

  /** The session's connects. */
  lemma SessionConnects()
    ensures Step(Init(SessionStore), "b", Connected) == StepResult(Session1, [], [], NoAck)
    ensures Step(Session1, "v1", Connected) == StepResult(Session2, [], [], NoAck)
  {
  }

  /** Start: the record becomes live, `b` is the broadcaster, and every
      live connection hears `stream-started`. */
  lemma SessionStart()
    ensures Step(Session2, "b", StartStream("s1")) ==
            StepResult(Session3, [Message({"b", "v1"}, StreamStarted("s1"))],
                       [Write("s1", LivePatch(true))], Success(None))
  {
    assert Session2.rooms["b"] + {"s1"} == {"b", "s1"};
    assert Join(Session2.rooms, "b", "s1") == Session3.rooms;
    assert ApplyWrites(SessionStore, [Write("s1", LivePatch(true))]) == Session3.store;
    assert HandleStartStream(Session2, "b", "s1").state == Session3;
    assert ServerEmit(Session3.rooms) == {"b", "v1"};
  }

  /** Join: the count becomes 1, is published to `b` and `v1`, and `b`
      hears that `v1` joined. */
  lemma SessionJoin()
    ensures Step(Session3, "v1", JoinStream("s1")) ==
            StepResult(Session4,
                       [Message({"b", "v1"}, ViewerCount("s1", 1)),
                        Message({"b"}, ViewerJoined("s1", "v1"))],
                       [Write("s1", CountPatch(1))], Success(Some(1)))
  {
    assert "s1" !in Session3.viewers && ViewersOf(Session3, "s1") + {"v1"} == {"v1"};
    assert Session3.rooms["v1"] + {"s1"} == {"v1", "s1"};
    assert Join(Session3.rooms, "v1", "s1") == Session4.rooms;
    assert ApplyWrites(Session3.store, [Write("s1", CountPatch(1))]) == Session4.store;
    assert HandleJoinStream(Session3, "v1", "s1").state == Session4;
    assert Members(Session4.rooms, "s1") == {"b", "v1"};
    assert Members(Session4.rooms, "b") == {"b"};
  }

  /** Disconnect of `v1`: the count 0 is persisted, nothing is emitted. */
  lemma SessionDisconnect()
    ensures Step(Session4, "v1", Disconnected) ==
            StepResult(Session5, [], [Write("s1", CountPatch(0))], NoAck)
  {
    var viewers' := Session4.viewers["s1" := {}];
    assert viewers' == Session5.viewers;
    assert Sweep(["s1"], Session4.viewers, "v1") == (viewers', [Write("s1", CountPatch(0))] + Sweep([], viewers', "v1").1);
    assert Disconnect(Session4.rooms, "v1") == Session5.rooms;
  }

  /** Stop: the record goes offline, the broadcaster is cleared, and the
      room (now only `b`) hears `stream-stopped`. */
  lemma SessionStop()
    ensures Step(Session5, "b", StopStream("s1")) ==
            StepResult(Session6, [Message({"b"}, StreamStopped("s1"))],
                       [Write("s1", LivePatch(false))], Success(None))
  {
    assert Members(Session5.rooms, "s1") == {"b"};
  }

  /** The whole session as one trace ends offline, with no broadcaster,
      an empty but still present viewer entry, and a stored count of 0. */
  lemma BroadcastSession()
    ensures Run(Init(SessionStore),
                [("b", Connected), ("v1", Connected), ("b", StartStream("s1")),
                 ("v1", JoinStream("s1")), ("v1", Disconnected), ("b", StopStream("s1"))])
            == Session6
    ensures Session6.viewers["s1"] == {} && "s1" !in Session6.broadcasters
    ensures Session6.store["s1"] == StreamRecord(false, 0)
  {
    SessionConnects();
    SessionStart();
    SessionJoin();
    SessionDisconnect();
    SessionStop();
  }
}
