/** The real-time relay of the backend: every client connection may join named rooms,
    and each recognised event a client sends is re-emitted, unchanged and under the same
    name, to every connection in a fixed set of rooms. Emitting to a room set reaches each
    member connection once, the sender included when it is a member. */
module RoomRouter {
  import opened Wrappers
  import StringUtil

  type Room = string
  type ConnId = string

  /** A value a client sends along with an event, as the server sees it after decoding. */
  datatype Value =
    | Undefined
    | Null
    | Bool(b: bool)
    | Num(n: int)
    | Str(s: string)
    | Arr(items: seq<Value>)
    | Obj(fields: map<string, Value>)

  const Patients: Room := "patients"
  const Doctors: Room := "doctors"
  const AdminRoom: Room := "admin"
  const Pharmacy: Room := "pharmacy"
  const Reception: Room := "reception"

  /** JavaScript truthiness. */
  predicate Truthy(v: Value) {
    match v
    case Undefined => false
    case Null => false
    case Bool(b) => b
    case Num(n) => n != 0
    case Str(s) => s != ""
    case Arr(_) => true
    case Obj(_) => true
  }

  /** JavaScript's string conversion, as a template literal applies it. */
  function ToJsString(v: Value): string
    decreases v, 1
  {
    match v
    case Undefined => "undefined"
    case Null => "null"
    case Bool(b) => if b then "true" else "false"
    case Num(n) => StringUtil.IntToString(n)
    case Str(s) => s
    case Arr(items) => JoinItems(v, items)
    case Obj(_) => "[object Object]"
  }

  /** Array elements converted and joined by commas; `null` and `undefined` become empty. */
  function JoinItems(whole: Value, items: seq<Value>): string
    requires forall i :: 0 <= i < |items| ==> items[i] < whole
    decreases whole, 0, |items|
  {
    if items == [] then ""
    else
      var first := if items[0].Undefined? || items[0].Null? then "" else ToJsString(items[0]);
      if |items| == 1 then first else first + "," + JoinItems(whole, items[1..])
  }

  /** Why a handler throws: reading `data.userId` when `data` is null or undefined. */
  datatype HandlerError = TypeError

  /** `data.userId`: a property of an object, undefined for every other non-null value. */
  function UserIdOf(data: Value): (r: Result<Value, HandlerError>)
    ensures r.Failure? <==> data.Undefined? || data.Null?
  {
    match data
    case Undefined => Failure(TypeError)
    case Null => Failure(TypeError)
    case Obj(fields) => Success(if "userId" in fields then fields["userId"] else Undefined)
    case _ => Success(Undefined)
  }

  /** The per-user room `user_<userId>`. */
  function UserRoom(userId: Value): Room {
    "user_" + ToJsString(userId)
  }

  /** The event names the connection handler listens for, plus everything else. */
  datatype EventKind =
    | JoinRoom | DoctorStatusChanged | PrescriptionSent | PrescriptionReceived
    | PrescriptionDispensed | SosAlert | SosAcknowledged | QueueUpdated | Notification
    | CallNextPatient | PatientCheckedIn | PatientReady | ConsultationComplete
    | Unhandled

  function EventName(k: EventKind): string
    requires !k.Unhandled?
  {
    match k
    case JoinRoom => "JOIN_ROOM"
    case DoctorStatusChanged => "DOCTOR_STATUS_CHANGED"
    case PrescriptionSent => "PRESCRIPTION_SENT"
    case PrescriptionReceived => "PRESCRIPTION_RECEIVED"
    case PrescriptionDispensed => "PRESCRIPTION_DISPENSED"
    case SosAlert => "SOS_ALERT"
    case SosAcknowledged => "SOS_ACKNOWLEDGED"
    case QueueUpdated => "QUEUE_UPDATED"
    case Notification => "NOTIFICATION"
    case CallNextPatient => "CALL_NEXT_PATIENT"
    case PatientCheckedIn => "PATIENT_CHECKED_IN"
    case PatientReady => "PATIENT_READY"
    case ConsultationComplete => "CONSULTATION_COMPLETE"
  }

  /** Which handler, if any, an incoming event name selects. */
  function KindOf(event: string): (k: EventKind)
    ensures !k.Unhandled? ==> EventName(k) == event
    ensures k.Unhandled? ==> forall k': EventKind :: !k'.Unhandled? ==> EventName(k') != event
  {
    if event == "JOIN_ROOM" then JoinRoom
    else if event == "DOCTOR_STATUS_CHANGED" then DoctorStatusChanged
    else if event == "PRESCRIPTION_SENT" then PrescriptionSent
    else if event == "PRESCRIPTION_RECEIVED" then PrescriptionReceived
    else if event == "PRESCRIPTION_DISPENSED" then PrescriptionDispensed
    else if event == "SOS_ALERT" then SosAlert
    else if event == "SOS_ACKNOWLEDGED" then SosAcknowledged
    else if event == "QUEUE_UPDATED" then QueueUpdated
    else if event == "NOTIFICATION" then Notification
    else if event == "CALL_NEXT_PATIENT" then CallNextPatient
    else if event == "PATIENT_CHECKED_IN" then PatientCheckedIn
    else if event == "PATIENT_READY" then PatientReady
    else if event == "CONSULTATION_COMPLETE" then ConsultationComplete
    else Unhandled
  }

  /** For each `emit` the handler performs, in order, the set of rooms it goes to; a
      handler that throws gives an error. `JOIN_ROOM` and unhandled events emit nothing. */
  function Targets(k: EventKind, data: Value): Result<seq<set<Room>>, HandlerError> {
    match k
    case DoctorStatusChanged => Success([{Patients, AdminRoom, Pharmacy, Reception}])
    case PrescriptionSent => Success([{Pharmacy}, {AdminRoom}])
    case PrescriptionReceived => Success([{Doctors}])
    case PrescriptionDispensed => Success([{Patients}, {AdminRoom}])
    case SosAlert => Success([{Doctors, Pharmacy, AdminRoom, Reception}])
    case SosAcknowledged => Success([{Patients}])
    case QueueUpdated => Success([{AdminRoom, Patients, Doctors, Reception}])
    case Notification =>
      (match UserIdOf(data)
       case Failure(e) => Failure(e)
       case Success(id) => Success(if Truthy(id) then [{UserRoom(id)}] else []))
    case CallNextPatient => Success([{Reception, AdminRoom}])
    case PatientCheckedIn => Success([{Doctors, AdminRoom}])
    case PatientReady => Success([{Doctors, AdminRoom}])
    case ConsultationComplete => Success([{Reception, AdminRoom, Patients}])
    case JoinRoom => Success([])
    case Unhandled => Success([])
  }

  /** The connections that are in at least one of the rooms. */
  function Recipients(membership: map<ConnId, set<Room>>, rooms: set<Room>): (r: set<ConnId>)
    ensures forall c :: c in r <==> c in membership && exists room :: room in rooms && room in membership[c]
  {
    set c | c in membership && exists room :: room in rooms && room in membership[c]
  }

  /** One emit: the event name, the payload, the connections it reaches. */
  datatype Delivery = Delivery(event: string, data: Value, to: set<ConnId>)

  function DeliveriesFor(membership: map<ConnId, set<Room>>, event: string, data: Value,
                         emits: seq<set<Room>>): (r: seq<Delivery>)
    ensures |r| == |emits|
    ensures forall i :: 0 <= i < |r| ==>
              r[i] == Delivery(event, data, Recipients(membership, emits[i]))
  {
    if emits == [] then []
    else [Delivery(event, data, Recipients(membership, emits[0]))]
         + DeliveriesFor(membership, event, data, emits[1..])
  }

  /** What the server emits when a connection sends `event` with `data`. */
  function Handle(membership: map<ConnId, set<Room>>, event: string, data: Value): Result<seq<Delivery>, HandlerError> {
    match Targets(KindOf(event), data)
    case Failure(e) => Failure(e)
    case Success(emits) => Success(DeliveriesFor(membership, event, data, emits))
  }

  /** The connections of a live server and the rooms each has joined. */
  class Hub {
    var membership: map<ConnId, set<Room>>

    constructor ()
      ensures membership == map[]
    {
      membership := map[];
    }

    /** A new connection starts in the room named by its own id. */
    method Connect(id: ConnId)
      requires id !in membership
      modifies this
      ensures membership == old(membership)[id := {id}]
    {
      membership := membership[id := {id}];
    }

    /** A closed connection leaves every room. */
    method Disconnect(id: ConnId)
      modifies this
      ensures membership == old(membership) - {id}
    {
      membership := membership - {id};
    }

    /** A message from connection `sender`: `JOIN_ROOM` with a room name adds the sender to
        exactly that room; every other event leaves membership alone and is relayed. */
    method Receive(sender: ConnId, event: string, data: Value) returns (out: Result<seq<Delivery>, HandlerError>)
      requires sender in membership
      modifies this
      ensures event == "JOIN_ROOM" && data.Str? ==>
                membership == old(membership)[sender := old(membership)[sender] + {data.s}]
      ensures !(event == "JOIN_ROOM" && data.Str?) ==> membership == old(membership)
      ensures out == Handle(old(membership), event, data)
    {
      out := Handle(membership, event, data);
      if event == "JOIN_ROOM" && data.Str? {
        membership := membership[sender := membership[sender] + {data.s}];
      }
    }
  }

  // ---------------------------------------------------------------- properties

  /** Joining a room changes no other connection's rooms and no room but the one named. */
  lemma JoinOnlyAddsSender(m: map<ConnId, set<Room>>, sender: ConnId, room: Room)
    requires sender in m
    ensures var m' := m[sender := m[sender] + {room}];
            m'.Keys == m.Keys &&
            (forall c :: c in m && c != sender ==> m'[c] == m[c]) &&
            m'[sender] - m[sender] <= {room} && room in m'[sender]
  {
  }

  /** An event without a handler, and `JOIN_ROOM`, emits nothing. */
  lemma UnhandledEmitsNothing(m: map<ConnId, set<Room>>, event: string, data: Value)
    requires KindOf(event).Unhandled? || KindOf(event).JoinRoom?
    ensures Handle(m, event, data) == Success([])
  {
  }

  /** A relayed event keeps its name and its payload exactly. */
  lemma ForwardedUnchanged(m: map<ConnId, set<Room>>, event: string, data: Value)
    ensures Handle(m, event, data).Success? ==>
              forall d :: d in Handle(m, event, data).value ==> d.event == event && d.data == data
  {
  }

  /** Emitting through the server reaches the sender too whenever it is in a target room. */
  lemma SenderIncluded(m: map<ConnId, set<Room>>, sender: ConnId, event: string, data: Value, i: nat)
    requires sender in m
    requires Targets(KindOf(event), data).Success? && i < |Targets(KindOf(event), data).value|
    requires exists room :: room in Targets(KindOf(event), data).value[i] && room in m[sender]
    ensures sender in Handle(m, event, data).value[i].to
  {
  }

  /** A notification with a user id reaches exactly the connections that joined that user's
      room; without one (or with a falsy one) nothing is emitted. */
  lemma NotificationOnlyToUser(m: map<ConnId, set<Room>>, data: Value)
    requires data.Obj?
    ensures var id := if "userId" in data.fields then data.fields["userId"] else Undefined;
            var h := Handle(m, "NOTIFICATION", data);
            h.Success? &&
            (!Truthy(id) ==> h.value == []) &&
            (Truthy(id) ==>
               (|h.value| == 1 && forall c :: c in h.value[0].to <==> c in m && UserRoom(id) in m[c]))
  {
  }

  /** A notification whose payload is null or missing makes the handler throw. */
  lemma NotificationWithoutPayloadThrows(m: map<ConnId, set<Room>>)
    ensures Handle(m, "NOTIFICATION", Null) == Failure(TypeError)
    ensures Handle(m, "NOTIFICATION", Undefined) == Failure(TypeError)
  {
  }

  /** Every handled event other than `NOTIFICATION` succeeds whatever its payload. */
  lemma FixedHandlersTotal(m: map<ConnId, set<Room>>, event: string, data: Value)
    requires KindOf(event) != Notification
    ensures Handle(m, event, data).Success?
  {
  }

  /** How many of the deliveries reach connection `c`. */
  function TimesReached(c: ConnId, ds: seq<Delivery>): nat {
    if ds == [] then 0 else (if c in ds[0].to then 1 else 0) + TimesReached(c, ds[1..])
  }

  /** Two separate emits reach a connection in both pharmacy and admin twice; one emit to
      the union of several rooms reaches a member of all of them once. */
  lemma SeparateEmitsDeliverTwice(m: map<ConnId, set<Room>>, c: ConnId, data: Value)
    requires c in m && Pharmacy in m[c] && AdminRoom in m[c] && Doctors in m[c]
    ensures TimesReached(c, Handle(m, "PRESCRIPTION_SENT", data).value) == 2
    ensures TimesReached(c, Handle(m, "SOS_ALERT", data).value) == 1
  {
    var d1 := Handle(m, "PRESCRIPTION_SENT", data).value;
    assert c in d1[0].to && c in d1[1].to;
    assert d1[1..][1..] == [];
    assert TimesReached(c, d1[1..]) == 1 + TimesReached(c, d1[1..][1..]);
    var d2 := Handle(m, "SOS_ALERT", data).value;
    assert c in d2[0].to;
    assert d2[1..] == [];
  }

  /** The same routing read from the other side: for each role room, the events whose
      relay it receives. */
  function EventsHeardBy(room: Room): set<EventKind> {
    if room == Patients then
      {DoctorStatusChanged, PrescriptionDispensed, SosAcknowledged, QueueUpdated, ConsultationComplete}
    else if room == Doctors then
      {PrescriptionReceived, SosAlert, QueueUpdated, PatientCheckedIn, PatientReady}
    else if room == AdminRoom then
      {DoctorStatusChanged, PrescriptionSent, PrescriptionDispensed, SosAlert, QueueUpdated,
       CallNextPatient, PatientCheckedIn, PatientReady, ConsultationComplete}
    else if room == Pharmacy then
      {DoctorStatusChanged, PrescriptionSent, SosAlert}
    else if room == Reception then
      {DoctorStatusChanged, SosAlert, QueueUpdated, CallNextPatient, ConsultationComplete}
    else {}
  }

  predicate RoleRoom(room: Room) {
    room == Patients || room == Doctors || room == AdminRoom || room == Pharmacy || room == Reception
  }

  /** All rooms some emit of a handler targets. */
  function UnionAll(emits: seq<set<Room>>): set<Room> {
    if emits == [] then {} else emits[0] + UnionAll(emits[1..])
  }

  lemma UnionAllOne(a: set<Room>)
    ensures UnionAll([a]) == a
  {
    assert [a][1..] == [];
  }

  lemma UnionAllTwo(a: set<Room>, b: set<Room>)
    ensures UnionAll([a, b]) == a + b
  {
    assert [a, b][1..] == [b];
    UnionAllOne(b);
  }

  /** Some emit of the event's handler targets the room. */
  predicate Reaches(k: EventKind, data: Value, room: Room) {
    Targets(k, data).Success? && room in UnionAll(Targets(k, data).value)
  }

  /** The rooms an event other than `NOTIFICATION` reaches, all emits together. */
  function TargetSet(k: EventKind): set<Room> {
    match k
    case DoctorStatusChanged => {Patients, AdminRoom, Pharmacy, Reception}
    case PrescriptionSent => {Pharmacy, AdminRoom}
    case PrescriptionReceived => {Doctors}
    case PrescriptionDispensed => {Patients, AdminRoom}
    case SosAlert => {Doctors, Pharmacy, AdminRoom, Reception}
    case SosAcknowledged => {Patients}
    case QueueUpdated => {AdminRoom, Patients, Doctors, Reception}
    case CallNextPatient => {Reception, AdminRoom}
    case PatientCheckedIn => {Doctors, AdminRoom}
    case PatientReady => {Doctors, AdminRoom}
    case ConsultationComplete => {Reception, AdminRoom, Patients}
    case _ => {}
  }

  lemma HeardByTargetSet(k: EventKind, room: Room)
    requires RoleRoom(room)
    ensures room in TargetSet(k) <==> k in EventsHeardBy(room)
  {
    if room == Patients {
    } else if room == Doctors {
    } else if room == AdminRoom {
    } else if room == Pharmacy {
    } else {
    }
  }

  /** The emits of one event, merged. */
  lemma AgreeFor(k: EventKind, data: Value, room: Room)
    requires k != Notification
    ensures room in UnionAll(Targets(k, data).value) <==> room in TargetSet(k)
  {
    match k
    case PrescriptionSent => UnionAllTwo({Pharmacy}, {AdminRoom});
    case PrescriptionDispensed => UnionAllTwo({Patients}, {AdminRoom});
    case JoinRoom =>
    case Unhandled =>
    case DoctorStatusChanged => UnionAllOne({Patients, AdminRoom, Pharmacy, Reception});
    case PrescriptionReceived => UnionAllOne({Doctors});
    case SosAlert => UnionAllOne({Doctors, Pharmacy, AdminRoom, Reception});
    case SosAcknowledged => UnionAllOne({Patients});
    case QueueUpdated => UnionAllOne({AdminRoom, Patients, Doctors, Reception});
    case CallNextPatient => UnionAllOne({Reception, AdminRoom});
    case PatientCheckedIn => UnionAllOne({Doctors, AdminRoom});
    case PatientReady => UnionAllOne({Doctors, AdminRoom});
    case ConsultationComplete => UnionAllOne({Reception, AdminRoom, Patients});
  }

  /** The relay table and the per-room table agree, in both directions, for every role
      room and every event other than the per-user `NOTIFICATION`. */
  lemma RoutingTablesAgree(k: EventKind, data: Value, room: Room)
    requires RoleRoom(room) && k != Notification
    ensures Reaches(k, data, room) <==> k in EventsHeardBy(room)
  {
    AgreeFor(k, data, room);
    HeardByTargetSet(k, room);
  }

  /** A notification only ever goes to a `user_` room, so never to a role room. */
  lemma NotificationNeverRoleRoom(data: Value, room: Room)
    requires RoleRoom(room)
    ensures !Reaches(Notification, data, room)
  {
    match UserIdOf(data)
    case Failure(_) =>
    case Success(id) =>
      if Truthy(id) {
        UnionAllOne({UserRoom(id)});
        assert UserRoom(id)[0] == 'u';
      }
  }
}
