/**
  The Socket.IO side of the back end: which rooms each connected socket has
  joined through the `identify` event, and the log of what was emitted to
  which room and which sockets it reached.
*/
module Gateway {
  import opened Wrappers
  import opened JsValue

  type SocketId = string

  /** The six fields the server sends with a 'notification' event. */
  datatype NotificationPayload = NotificationPayload(
    notificationID: int,
    kind: string,
    date: string,
    time: string,
    applicationID: int,
    adminID: Option<int>)

  function OptionalId(i: Option<int>): (v: Value)
    ensures i.None? ==> v == Null
    ensures i.Some? ==> v == Num(Int(i.value))
  {
    if i.Some? then Num(Int(i.value)) else Null
  }

  /** The payload as the JSON object on the wire; `kind` travels as `type`. */
  function ToJson(p: NotificationPayload): Value {
    Obj(map[
      "notificationID" := Num(Int(p.notificationID)),
      "type" := Str(p.kind),
      "date" := Str(p.date),
      "time" := Str(p.time),
      "applicationID" := Num(Int(p.applicationID)),
      "adminID" := OptionalId(p.adminID)])
  }

  /** The JSON object has exactly the six keys, each carrying its field. */
  lemma ToJsonFields(p: NotificationPayload)
    ensures ToJson(p).Obj?
    ensures ToJson(p).fields.Keys == {"notificationID", "type", "date", "time", "applicationID", "adminID"}
    ensures var f := ToJson(p).fields;
      && f["notificationID"] == Num(Int(p.notificationID)) && f["type"] == Str(p.kind)
      && f["date"] == Str(p.date) && f["time"] == Str(p.time)
      && f["applicationID"] == Num(Int(p.applicationID)) && f["adminID"] == OptionalId(p.adminID)
  {
  }

  /** Distinct payloads are distinct on the wire. */
  lemma ToJsonInjective(p: NotificationPayload, q: NotificationPayload)
    requires ToJson(p) == ToJson(q)
    ensures p == q
  {
    ToJsonFields(p);
    ToJsonFields(q);
    assert ToJson(p).fields["notificationID"] == ToJson(q).fields["notificationID"];
    assert ToJson(p).fields["type"] == ToJson(q).fields["type"];
    assert ToJson(p).fields["date"] == ToJson(q).fields["date"];
    assert ToJson(p).fields["time"] == ToJson(q).fields["time"];
    assert ToJson(p).fields["applicationID"] == ToJson(q).fields["applicationID"];
    assert ToJson(p).fields["adminID"] == ToJson(q).fields["adminID"];
  }

  /** One `io.to(room).emit('notification', payload)`, with the sockets that
      were in the room at that moment. */
  datatype Emission = Emission(room: string, payload: NotificationPayload, recipients: set<SocketId>)

  /** The room a user's sessions join: `user:` followed by the decimal id. */
  function UserRoom(uid: int): (room: string)
    ensures |room| > 5 && room[..5] == "user:" && room[5..] == IntToDecimal(uid)
  {
    "user:" + IntToDecimal(uid)
  }

  /** Two users never share a room. */
  lemma UserRoomInjective(a: int, b: int)
    requires UserRoom(a) == UserRoom(b)
    ensures a == b
  {
    assert IntToDecimal(a) == UserRoom(a)[5..];
    DecimalInjective(a, b);
  }

  /** `payload.userID || payload.userID === 0`: the id is truthy or the
      number 0. `null`, `false` and `''` fail it, although `Number` turns
      each of them into 0. */
  predicate UserIdGiven(u: Value) {
    Truthy(u) || u == Num(Int(0))
  }

  /** The room an `identify` payload names: the payload is an object, its
      `userID` passes the guard, and `Number(userID)` is not NaN. Otherwise
      no room. */
  function IdentifyRoom(payload: Value): (r: Option<string>)
    ensures !Truthy(payload) ==> r == None
    ensures Truthy(payload) && !payload.Obj? ==> r == None
    ensures payload.Obj? && "userID" !in payload.fields ==> r == None
    ensures r.Some? ==> payload.Obj? && "userID" in payload.fields
                        && UserIdGiven(payload.fields["userID"])
                        && ToNumber(payload.fields["userID"]).Int?
                        && r.value == UserRoom(ToNumber(payload.fields["userID"]).i)
    ensures payload.Obj? && "userID" in payload.fields && UserIdGiven(payload.fields["userID"])
            && ToNumber(payload.fields["userID"]).Int?
            ==> r == Some(UserRoom(ToNumber(payload.fields["userID"]).i))
  {
    if !Truthy(payload) then None
    else
      var u := Get(payload, "userID");
      if !UserIdGiven(u) then None
      else
        var uid := ToNumber(u);
        if uid.NaN? then None else Some("user:" + NumberToString(uid))
  }

  /** A numeric userID, 0 included, names that user's room. */
  lemma IdentifyNumericUser(uid: int)
    ensures IdentifyRoom(Obj(map["userID" := Num(Int(uid))])) == Some(UserRoom(uid))
  {
  }

  /** A userID sent as its decimal string names the same room as the number. */
  lemma IdentifyDecimalUser(uid: int)
    ensures IdentifyRoom(Obj(map["userID" := Str(IntToDecimal(uid))])) == Some(UserRoom(uid))
  {
    var u := Str(IntToDecimal(uid));
    assert Get(Obj(map["userID" := u]), "userID") == u;
    DecimalRoundTrip(uid);
    assert Truthy(u) && ToNumber(u) == Int(uid);
  }

  /** Falsy user ids other than 0 name no room, whatever else the payload
      holds: `null`, `false`, `''`, NaN. */
  lemma IdentifyFalsyUser(fields: map<string, Value>)
    requires "userID" in fields && !Truthy(fields["userID"]) && fields["userID"] != Num(Int(0))
    ensures IdentifyRoom(Obj(fields)) == None
  {
  }

  /** A userID that does not convert to a number names no room. */
  lemma IdentifyNotNumeric(s: string)
    requires StringToNumber(s).NaN?
    ensures IdentifyRoom(Obj(map["userID" := Str(s)])) == None
  {
  }

  /** The room memberships after `sid` sent `identify` with `payload`: the
      named room is added, nothing is ever left. */
  function Joined(rooms: map<SocketId, set<string>>, sid: SocketId, payload: Value): (r: map<SocketId, set<string>>)
    requires sid in rooms
    ensures r.Keys == rooms.Keys
    ensures forall s | s in rooms && s != sid :: r[s] == rooms[s]
    ensures IdentifyRoom(payload).None? ==> r[sid] == rooms[sid]
    ensures IdentifyRoom(payload).Some? ==> r[sid] == rooms[sid] + {IdentifyRoom(payload).value}
  {
    match IdentifyRoom(payload)
    case None => rooms
    case Some(room) => rooms[sid := rooms[sid] + {room}]
  }

  /** The sockets an emit to `room` reaches. */
  function Recipients(rooms: map<SocketId, set<string>>, room: string): (r: set<SocketId>)
    ensures forall s :: s in r <==> s in rooms && room in rooms[s]
  {
    set s | s in rooms && room in rooms[s]
  }

  /** Identifying never removes a socket from any room's audience. */
  lemma JoinsAccumulate(rooms: map<SocketId, set<string>>, sid: SocketId, payload: Value, room: string)
    requires sid in rooms
    ensures Recipients(rooms, room) <= Recipients(Joined(rooms, sid, payload), room)
    ensures IdentifyRoom(payload) == Some(room) ==>
      Recipients(Joined(rooms, sid, payload), room) == Recipients(rooms, room) + {sid}
    ensures IdentifyRoom(payload) != Some(room) ==>
      Recipients(Joined(rooms, sid, payload), room) == Recipients(rooms, room)
  {
  }

  /** Identifying twice with the same payload is the same as once. */
  lemma IdentifyIdempotent(rooms: map<SocketId, set<string>>, sid: SocketId, payload: Value)
    requires sid in rooms
    ensures Joined(Joined(rooms, sid, payload), sid, payload) == Joined(rooms, sid, payload)
  {
  }

  /** Every session that identified as a user receives what is emitted to
      that user's room, whatever it identified as besides. */
  lemma SessionsOfUserReceive(rooms: map<SocketId, set<string>>, s1: SocketId, s2: SocketId, uid: int, other: Value)
    requires s1 in rooms && s2 in rooms
    ensures var r := Joined(Joined(Joined(rooms, s1, Obj(map["userID" := Num(Int(uid))])), s2,
                                   Obj(map["userID" := Str(IntToDecimal(uid))])), s1, other);
            {s1, s2} <= Recipients(r, UserRoom(uid))
  {
    var room := UserRoom(uid);
    var p1 := Obj(map["userID" := Num(Int(uid))]);
    var p2 := Obj(map["userID" := Str(IntToDecimal(uid))]);
    var r1 := Joined(rooms, s1, p1);
    IdentifyNumericUser(uid);
    JoinsAccumulate(rooms, s1, p1, room);
    var r2 := Joined(r1, s2, p2);
    IdentifyDecimalUser(uid);
    JoinsAccumulate(r1, s2, p2, room);
    JoinsAccumulate(r2, s1, other, room);
  }

  /** The Socket.IO server: the rooms of every connected socket and the
      emissions so far. */
  class SocketServer {
    var rooms: map<SocketId, set<string>>
    var sent: seq<Emission>

    constructor ()
      ensures rooms == map[] && sent == []
    {
      rooms := map[];
      sent := [];
    }

    /** A new connection, in no room yet (socket ids are unique). */
    method Connect(sid: SocketId)
      requires sid !in rooms
      modifies this
      ensures rooms == old(rooms)[sid := {}] && sent == old(sent)
    {
      rooms := rooms[sid := {}];
    }

    /** The `identify` handler of a connected socket. */
    method Identify(sid: SocketId, payload: Value)
      requires sid in rooms
      modifies this
      ensures rooms == Joined(old(rooms), sid, payload) && sent == old(sent)
    {
      var room := IdentifyRoom(payload);
      if room.Some? {
        rooms := rooms[sid := rooms[sid] + {room.value}];
      }
    }

    /** `io.to(room).emit('notification', payload)`: reaches the sockets in
        the room now; an empty room is not an error. */
    method Emit(room: string, payload: NotificationPayload)
      modifies this
      ensures rooms == old(rooms)
      ensures sent == old(sent) + [Emission(room, payload, Recipients(rooms, room))]
    {
      sent := sent + [Emission(room, payload, Recipients(rooms, room))];
    }
  }
}
