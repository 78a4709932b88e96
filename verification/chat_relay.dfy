/** The socket server's chat relay (apps/socket-server/events/chat.events.ts).
    Every connection may join and leave per-lead rooms; messages are fanned
    out to a whole room, typing signals to a room minus their originator.
    Room membership follows socket.io's adapter: a room is a set of
    connection ids, and a room that loses its last member is deleted. */
module ChatRelay {
  import opened Optional

  type ConnId = string

  /** The room of lead `leadId` is `"lead-" + leadId`. */
  function RoomOf(leadId: string): (room: string)
    ensures |room| == |leadId| + 5
    ensures room[..5] == "lead-" && room[5..] == leadId
  {
    "lead-" + leadId
  }

  /** Distinct leads never share a room. */
  lemma {:induction false} RoomOfInjective(a: string, b: string)
    ensures RoomOf(a) == RoomOf(b) <==> a == b
  {
    if RoomOf(a) == RoomOf(b) {
      assert a == RoomOf(a)[5..];
    }
  }

  /** What a client emits to the relay. */
  datatype ClientEvent =
    | JoinLeadChat(leadId: string)
    | LeaveLeadChat(leadId: string)
    | SendMessage(leadId: string, message: string, sender: string)
    | Typing(leadId: string, user: string)
    | StopTyping(leadId: string, user: string)

  /** What the relay emits to clients. */
  datatype ServerEvent =
    | NewMessage(leadId: string, message: string, sender: string, timestamp: string)
    | UserTyping(leadId: string, user: string)
    | UserStopTyping(leadId: string, user: string)

  datatype Delivery = Delivery(to: ConnId, event: ServerEvent)

  /** The room table: room name to its member connections. */
  type Rooms = map<string, set<ConnId>>

  function Members(rooms: Rooms, room: string): set<ConnId> {
    if room in rooms then rooms[room] else {}
  }

  /** socket.io keeps no empty rooms. */
  predicate NoEmptyRooms(rooms: Rooms) {
    forall room | room in rooms :: rooms[room] != {}
  }

  /** `socket.join(room)`: set insertion. */
  function Joined(rooms: Rooms, c: ConnId, room: string): (r: Rooms)
    ensures forall k, d :: d in Members(r, k) <==> d in Members(rooms, k) || (k == room && d == c)
    ensures NoEmptyRooms(rooms) ==> NoEmptyRooms(r)
  {
    rooms[room := Members(rooms, room) + {c}]
  }

  /** `socket.leave(room)`: set removal, deleting the room once it is empty. */
  function Left(rooms: Rooms, c: ConnId, room: string): (r: Rooms)
    ensures forall k, d :: d in Members(r, k) <==> d in Members(rooms, k) && !(k == room && d == c)
    ensures NoEmptyRooms(rooms) ==> NoEmptyRooms(r)
  {
    if room !in rooms then rooms
    else if rooms[room] - {c} == {} then rooms - {room}
    else rooms[room := rooms[room] - {c}]
  }

  /** socket.io's own cleanup when a connection closes: it leaves every room. */
  function Disconnected(rooms: Rooms, c: ConnId): (r: Rooms)
    ensures forall k, d :: d in Members(r, k) <==> d in Members(rooms, k) && d != c
    ensures NoEmptyRooms(r)
  {
    map room | room in rooms && rooms[room] - {c} != {} :: rooms[room] - {c}
  }

  /** Two tables with the same membership and no empty rooms are equal. */
  lemma {:induction false} SameMembersSameRooms(a: Rooms, b: Rooms)
    requires NoEmptyRooms(a) && NoEmptyRooms(b)
    requires forall k, d :: d in Members(a, k) <==> d in Members(b, k)
    ensures a == b
  {
    forall k | k in a
      ensures k in b && a[k] == b[k]
    {
      var d :| d in a[k];
      assert d in Members(a, k);
      assert forall e :: e in a[k] <==> e in Members(b, k);
    }
    forall k | k in b
      ensures k in a
    {
      var d :| d in b[k];
      assert d in Members(b, k);
    }
  }

  /** A repeated join leaves the table as the first join left it. */
  lemma {:induction false} JoinIdempotent(rooms: Rooms, c: ConnId, room: string)
    ensures Joined(Joined(rooms, c, room), c, room) == Joined(rooms, c, room)
  {
    var once := Joined(rooms, c, room);
    assert room in once && c in once[room];
    assert once[room] + {c} == once[room];
  }

  /** Leaving a room one is not in changes nothing. */
  lemma {:induction false} LeaveNonMember(rooms: Rooms, c: ConnId, room: string)
    requires NoEmptyRooms(rooms)
    requires c !in Members(rooms, room)
    ensures Left(rooms, c, room) == rooms
  {
    SameMembersSameRooms(Left(rooms, c, room), rooms);
  }

  /** Leaving undoes a join of a room one was not in. */
  lemma {:induction false} LeaveUndoesJoin(rooms: Rooms, c: ConnId, room: string)
    requires NoEmptyRooms(rooms)
    requires c !in Members(rooms, room)
    ensures Left(Joined(rooms, c, room), c, room) == rooms
  {
    SameMembersSameRooms(Left(Joined(rooms, c, room), c, room), rooms);
  }

  /** Disconnecting a connection that holds no membership changes nothing. */
  lemma {:induction false} DisconnectNonMember(rooms: Rooms, c: ConnId)
    requires NoEmptyRooms(rooms)
    requires forall k :: c !in Members(rooms, k)
    ensures Disconnected(rooms, c) == rooms
  {
    SameMembersSameRooms(Disconnected(rooms, c), rooms);
  }

  /** The set of connections a list of deliveries reaches. */
  function Recipients(ds: seq<Delivery>): (r: set<ConnId>)
    ensures forall c :: c in r <==> exists i | 0 <= i < |ds| :: ds[i].to == c
  {
    set i | 0 <= i < |ds| :: ds[i].to
  }

  lemma {:induction false} RecipientsAppend(ds: seq<Delivery>, d: Delivery)
    ensures Recipients(ds + [d]) == Recipients(ds) + {d.to}
  {
    var e := ds + [d];
    assert forall i | 0 <= i < |ds| :: e[i] == ds[i];
    assert e[|ds|] == d;
  }

  /** No connection appears twice among the deliveries. */
  predicate NoRepeats(ds: seq<Delivery>) {
    forall i, j | 0 <= i < j < |ds| :: ds[i].to != ds[j].to
  }

  /** `ds` delivers `ev`, and only `ev`, exactly once to each of `targets` and to nobody else. */
  predicate IsFanOut(ds: seq<Delivery>, targets: set<ConnId>, ev: ServerEvent) {
    && Recipients(ds) == targets
    && NoRepeats(ds)
    && (forall i | 0 <= i < |ds| :: ds[i].event == ev)
  }

  /** Every target receives exactly one copy. */
  lemma {:induction false} FanOutOnce(ds: seq<Delivery>, targets: set<ConnId>, ev: ServerEvent, c: ConnId)
    requires IsFanOut(ds, targets, ev)
    requires c in targets
    ensures exists i | 0 <= i < |ds| :: ds[i] == Delivery(c, ev)
    ensures forall i, j | 0 <= i < |ds| && 0 <= j < |ds| && ds[i].to == c && ds[j].to == c :: i == j
  {
    var i :| 0 <= i < |ds| && ds[i].to == c;
    assert ds[i] == Delivery(c, ev);
  }

  /** A fan-out reaches as many connections as there are targets. */
  lemma {:induction false} FanOutCount(ds: seq<Delivery>, targets: set<ConnId>, ev: ServerEvent)
    requires IsFanOut(ds, targets, ev)
    ensures |ds| == |targets|
  {
    if ds != [] {
      var last := ds[|ds| - 1];
      var init := ds[..|ds| - 1];
      assert forall i | 0 <= i < |init| :: init[i] == ds[i];
      assert Recipients(init) == targets - {last.to} by {
        forall c | c in targets - {last.to}
          ensures c in Recipients(init)
        {
          var i :| 0 <= i < |ds| && ds[i].to == c;
          assert i < |ds| - 1;
          assert init[i].to == c;
        }
      }
      FanOutCount(init, targets - {last.to}, ev);
    }
  }

  /** io.to(room).emit / socket.to(room).emit: send `ev` to every connection of `targets`. */
  method FanOut(targets: set<ConnId>, ev: ServerEvent) returns (ds: seq<Delivery>)
    ensures IsFanOut(ds, targets, ev)
  {
    ds := [];
    var rest := targets;
    while rest != {}
      invariant rest <= targets
      invariant Recipients(ds) == targets - rest
      invariant NoRepeats(ds)
      invariant forall i | 0 <= i < |ds| :: ds[i].event == ev
      decreases rest
    {
      var c :| c in rest;
      RecipientsAppend(ds, Delivery(c, ev));
      ds := ds + [Delivery(c, ev)];
      rest := rest - {c};
    }
  }

  /** The relay server: one room table shared by every connection's handlers. */
  class Relay {
    var rooms: Rooms

    ghost predicate Valid()
      reads this
    {
      NoEmptyRooms(rooms)
    }

    constructor ()
      ensures Valid() && rooms == map[]
    {
      rooms := map[];
    }

    /** The connections currently in lead `leadId`'s room. */
    function MembersOf(leadId: string): set<ConnId>
      reads this
    {
      Members(rooms, RoomOf(leadId))
    }

    /** `join-lead-chat`: the calling socket joins `"lead-" + leadId`. */
    method JoinLeadChat(socket: ConnId, leadId: string)
      requires Valid()
      modifies this
      ensures Valid()
      ensures rooms == Joined(old(rooms), socket, RoomOf(leadId))
    {
      rooms := Joined(rooms, socket, RoomOf(leadId));
    }

    /** `leave-lead-chat`: the calling socket leaves `"lead-" + leadId`. */
    method LeaveLeadChat(socket: ConnId, leadId: string)
      requires Valid()
      modifies this
      ensures Valid()
      ensures rooms == Left(old(rooms), socket, RoomOf(leadId))
    {
      rooms := Left(rooms, socket, RoomOf(leadId));
    }

    /** The transport closed the connection; socket.io removes it from every room. */
    method Disconnect(socket: ConnId)
      requires Valid()
      modifies this
      ensures Valid()
      ensures rooms == Disconnected(old(rooms), socket)
    {
      rooms := Disconnected(rooms, socket);
    }

    /** `send-message`: every member of the room, the sender included, gets
        `new-message` with the payload copied and the relay's timestamp `now`. */
    method SendMessage(socket: ConnId, leadId: string, message: string, sender: string, now: string)
      returns (ds: seq<Delivery>)
      ensures IsFanOut(ds, MembersOf(leadId), NewMessage(leadId, message, sender, now))
    {
      ds := FanOut(Members(rooms, RoomOf(leadId)), NewMessage(leadId, message, sender, now));
    }

    /** `typing`: every member of the room but the originating socket gets `user-typing`. */
    method Typing(socket: ConnId, leadId: string, user: string) returns (ds: seq<Delivery>)
      ensures IsFanOut(ds, MembersOf(leadId) - {socket}, UserTyping(leadId, user))
    {
      ds := FanOut(Members(rooms, RoomOf(leadId)) - {socket}, UserTyping(leadId, user));
    }

    /** `stop-typing`: every member of the room but the originating socket gets `user-stop-typing`. */
    method StopTyping(socket: ConnId, leadId: string, user: string) returns (ds: seq<Delivery>)
      ensures IsFanOut(ds, MembersOf(leadId) - {socket}, UserStopTyping(leadId, user))
    {
      ds := FanOut(Members(rooms, RoomOf(leadId)) - {socket}, UserStopTyping(leadId, user));
    }

    /** One event from connection `socket`, dispatched to its handler. */
    method Handle(socket: ConnId, ev: ClientEvent, now: string) returns (ds: seq<Delivery>)
      requires Valid()
      modifies this
      ensures Valid()
      ensures rooms == NextRooms(old(rooms), socket, ev)
      ensures IsFanOut(ds, Targets(old(rooms), socket, ev), Emitted(ev, now))
    {
      match ev
      case JoinLeadChat(leadId) =>
        JoinLeadChat(socket, leadId);
        ds := [];
      case LeaveLeadChat(leadId) =>
        LeaveLeadChat(socket, leadId);
        ds := [];
      case SendMessage(leadId, message, sender) =>
        ds := SendMessage(socket, leadId, message, sender, now);
      case Typing(leadId, user) =>
        ds := Typing(socket, leadId, user);
      case StopTyping(leadId, user) =>
        ds := StopTyping(socket, leadId, user);
    }
  }

  /** The room table after `socket`'s event: only joins and leaves change it. */
  function NextRooms(rooms: Rooms, socket: ConnId, ev: ClientEvent): Rooms {
    match ev
    case JoinLeadChat(leadId) => Joined(rooms, socket, RoomOf(leadId))
    case LeaveLeadChat(leadId) => Left(rooms, socket, RoomOf(leadId))
    case _ => rooms
  }

  /** Who receives `socket`'s event: nobody for joins and leaves, the whole
      room for a message, the room minus the sender for typing signals. */
  function Targets(rooms: Rooms, socket: ConnId, ev: ClientEvent): set<ConnId> {
    match ev
    case JoinLeadChat(_) => {}
    case LeaveLeadChat(_) => {}
    case SendMessage(leadId, _, _) => Members(rooms, RoomOf(leadId))
    case Typing(leadId, _) => Members(rooms, RoomOf(leadId)) - {socket}
    case StopTyping(leadId, _) => Members(rooms, RoomOf(leadId)) - {socket}
  }

  /** The payload the relay emits for an event received at time `now`; joins
      and leaves emit nothing (their targets are empty), so their entry is
      never delivered. */
  function Emitted(ev: ClientEvent, now: string): ServerEvent {
    match ev
    case SendMessage(leadId, message, sender) => NewMessage(leadId, message, sender, now)
    case Typing(leadId, user) => UserTyping(leadId, user)
    case StopTyping(leadId, user) => UserStopTyping(leadId, user)
    case _ => UserTyping("", "")
  }

  /** A join or leave changes only the caller's membership of that one room. */
  lemma {:induction false} MembershipChangeIsLocal(rooms: Rooms, socket: ConnId, ev: ClientEvent, k: string, d: ConnId)
    requires ev.JoinLeadChat? || ev.LeaveLeadChat?
    requires k != RoomOf(ev.leadId) || d != socket
    ensures d in Members(NextRooms(rooms, socket, ev), k) <==> d in Members(rooms, k)
  {
  }

  /** Room isolation: a message for lead `leadId` reaches only members of its room. */
  lemma {:induction false} MessageStaysInRoom(rooms: Rooms, socket: ConnId, ev: ClientEvent, now: string,
                                              ds: seq<Delivery>, i: int)
    requires ev.SendMessage? || ev.Typing? || ev.StopTyping?
    requires IsFanOut(ds, Targets(rooms, socket, ev), Emitted(ev, now))
    requires 0 <= i < |ds|
    ensures ds[i].to in Members(rooms, RoomOf(ev.leadId))
    ensures ds[i].event.leadId == ev.leadId
  {
    assert ds[i].to in Recipients(ds);
  }

  /** Presence exclusion: a typing signal never returns to its originator,
      while a message does whenever the sender is in the room. */
  lemma {:induction false} EchoPolicy(rooms: Rooms, socket: ConnId, ev: ClientEvent, now: string, ds: seq<Delivery>)
    requires IsFanOut(ds, Targets(rooms, socket, ev), Emitted(ev, now))
    ensures ev.Typing? || ev.StopTyping? ==> forall i | 0 <= i < |ds| :: ds[i].to != socket
    ensures ev.SendMessage? && socket in Members(rooms, RoomOf(ev.leadId)) ==>
              exists i | 0 <= i < |ds| :: ds[i] == Delivery(socket, Emitted(ev, now))
  {
    if ev.Typing? || ev.StopTyping? {
      forall i | 0 <= i < |ds|
        ensures ds[i].to != socket
      {
        assert ds[i].to in Recipients(ds);
      }
    }
    if ev.SendMessage? && socket in Members(rooms, RoomOf(ev.leadId)) {
      FanOutOnce(ds, Targets(rooms, socket, ev), Emitted(ev, now), socket);
    }
  }
}
