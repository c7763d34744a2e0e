/**
 * `ElementParameters`: the flat string map of one element's displayable parameters, its
 * centroid and its rooms, plus the two process-wide sets of parameter names and room ids.
 *
 * The centroid's text (`CentroidVolume.Centroid_Str`) and the host's `GetRoomAtPoint` are
 * given functions. A constructor that throws is a `Create` that returns `None`.
 */
module ElementParams {
  import opened Wrappers
  import opened Host
  import opened GeometryExtensions

  /** The static `Session_Params` and `Rooms` sets: they only ever grow. */
  class Session {
    var sessionParams: set<string>
    var rooms: set<string>

    constructor()
      ensures sessionParams == {} && rooms == {}
    {
      sessionParams, rooms := {}, {};
    }
  }

  /** The filter on `GetOrderedParameters()`: a value and a non-empty display string. */
  predicate Displayable(p: Parameter)
  {
    p.hasValue && p.valueString != ""
  }

  /** The parameter loop of `Siphon`: each displayable parameter inserts or overwrites its
      name with its display string, in order. */
  function Overwrite(m: map<string, string>, ps: seq<Parameter>): map<string, string>
  {
    if |ps| == 0 then m
    else
      var rest, last := Overwrite(m, ps[..|ps| - 1]), ps[|ps| - 1];
      if Displayable(last) then rest[last.name := last.valueString] else rest
  }

  /** The names the parameter loop adds to `Session_Params`. */
  function Names(ps: seq<Parameter>): set<string>
  {
    if |ps| == 0 then {}
    else
      var rest, last := Names(ps[..|ps| - 1]), ps[|ps| - 1];
      if Displayable(last) then rest + {last.name} else rest
  }

  /** What `TryGetRoom` reports: whether it found a room, and `room`, `toRoom`, `fromRoom`. */
  datatype RoomLookup = RoomLookup(found: bool, room: Option<Room>, toRoom: Option<Room>, fromRoom: Option<Room>)

  /** The rule of `TryGetRoom`. A family instance gives its `Room`, its `FromRoom` as `toRoom`
      and its `ToRoom` as `fromRoom`; any other element needs a centroid and asks the host for
      the room at that point. */
  function RoomsOf(e: Element, centroid: Option<CentroidVolume>, roomAt: XYZ -> Option<Room>): RoomLookup
  {
    match e.kind
    case FamilyInstance(room, fromRoom, toRoom) =>
      RoomLookup(!(room.None? && fromRoom.None? && toRoom.None?), room, fromRoom, toRoom)
    case OtherElement =>
      if centroid.None? then RoomLookup(false, None, None, None)
      else
        var room := roomAt(centroid.value.centroid);
        RoomLookup(room.Some?, room, None, None)
  }

  /** `TryGetRoom`. */
  method TryGetRoom(e: Element, centroid: Option<CentroidVolume>, roomAt: XYZ -> Option<Room>)
    returns (ok: bool, room: Option<Room>, toRoom: Option<Room>, fromRoom: Option<Room>)
    ensures RoomLookup(ok, room, toRoom, fromRoom) == RoomsOf(e, centroid, roomAt)
    ensures ok <==> room.Some? || toRoom.Some? || fromRoom.Some?
    ensures e.kind.FamilyInstance? ==>
      room == e.kind.room && toRoom == e.kind.fromRoom && fromRoom == e.kind.toRoom
    ensures e.kind.OtherElement? ==>
      toRoom.None? && fromRoom.None?
      && (centroid.None? ==> room.None?)
      && (centroid.Some? ==> room == roomAt(centroid.value.centroid))
  {
    room, toRoom, fromRoom := None, None, None;
    if e.kind.FamilyInstance? {
      room := e.kind.room;
      toRoom := e.kind.fromRoom;
      fromRoom := e.kind.toRoom;
      return !(room.None? && toRoom.None? && fromRoom.None?), room, toRoom, fromRoom;
    }
    if centroid.None? {
      return false, room, toRoom, fromRoom;
    }
    room := roomAt(centroid.value.centroid);
    ok := room.Some?;
  }

  /** The map, the room ids recorded, and whether `Siphon` ran to its end (an `Add` of a key
      already present throws). */
  datatype Outcome = Outcome(parameters: map<string, string>, rooms: set<string>, completed: bool)

  /** `if (room != null) { _parameters.Add(key, room.UniqueId); Rooms.Add(room.UniqueId); }`
      after a throw, nothing happens. */
  function AddRoom(o: Outcome, key: string, room: Option<Room>): Outcome
  {
    if !o.completed || room.None? then o
    else if key in o.parameters then o.(completed := false)
    else Outcome(o.parameters[key := room.value.uniqueId], o.rooms + {room.value.uniqueId}, true)
  }

  /** The centroid `Siphon` computes: only when asked for, and null without geometry. */
  function CentroidFor(e: Element, calculateCentroid: bool): Option<CentroidVolume>
  {
    if calculateCentroid then CentroidOf(e) else None
  }

  /** The parameter map after the parameter loop and the centroid entry, before the rooms. */
  function WithCentroid(m: map<string, string>, e: Element, c: Option<CentroidVolume>, format: XYZ -> string): map<string, string>
  {
    var m1 := Overwrite(m, e.parameters);
    if c.Some? then m1["Centroid" := format(c.value.centroid)] else m1
  }

  /** What `Siphon` does to a map `m` and the recorded room ids `rooms`, given the centroid `c`
      it computed: the parameter loop, then `"Centroid"` (thrown if the key exists), then the
      rooms. The methods pass `CentroidFor(e, calculateCentroid)`; the lemmas hold for any
      `c`. */
  function SiphonOutcome(m: map<string, string>, rooms: set<string>, e: Element, c: Option<CentroidVolume>,
                        format: XYZ -> string, roomAt: XYZ -> Option<Room>): Outcome
  {
    if c.Some? && "Centroid" in Overwrite(m, e.parameters) then Outcome(Overwrite(m, e.parameters), rooms, false)
    else
      var start := Outcome(WithCentroid(m, e, c, format), rooms, true);
      var found := RoomsOf(e, c, roomAt);
      if !found.found then start
      else AddRoom(AddRoom(AddRoom(start, "Room", found.room), "ToRoom", found.toRoom), "FromRoom", found.fromRoom)
  }

  class ElementParameters {
    const id: string
    const category: string
    var parameters: map<string, string>

    /** The map always holds `"Name"`: the constructor puts it there and nothing removes keys. */
    predicate Valid()
      reads this
    {
      "Name" in parameters
    }

    /** The part of the C# constructor before `Siphon`: `Id`, `Category` (a field, not a key)
        and `{"Name" -> e.Name}`. `e.Category.Name` throws on a null category. */
    constructor(e: Element)
      requires e.category.Some?
      ensures Valid()
      ensures id == e.uniqueId && category == e.category.value.name
      ensures parameters == map["Name" := e.name]
    {
      id := e.uniqueId;
      category := e.category.value.name;
      parameters := map["Name" := e.name];
    }

    /** `Siphon`; `completed` is false when it threw, with the effects made before the throw
        kept. */
    method Siphon(e: Element, calculateCentroid: bool, format: XYZ -> string, roomAt: XYZ -> Option<Room>,
                  session: Session)
      returns (completed: bool)
      requires Valid()
      modifies this, session
      ensures Valid()
      ensures var out := SiphonOutcome(old(parameters), old(session.rooms), e, CentroidFor(e, calculateCentroid), format, roomAt);
        parameters == out.parameters && session.rooms == out.rooms && completed == out.completed
      ensures session.sessionParams == old(session.sessionParams) + Names(e.parameters)
    {
      ghost var m := parameters;
      SiphonParameters(e.parameters, session);

      var c: Option<CentroidVolume> := None;
      if calculateCentroid {
        var ok;
        ok, c := TryGetCentroid(e);
        if ok {
          if "Centroid" in parameters {
            return false;
          }
          parameters := parameters["Centroid" := format(c.value.centroid)];
        }
      }
      assert parameters == WithCentroid(m, e, CentroidFor(e, calculateCentroid), format);

      var found, room, toRoom, fromRoom := TryGetRoom(e, c, roomAt);
      if found {
        completed := AddRoomEntry("Room", room, session);
        if !completed { return; }
        completed := AddRoomEntry("ToRoom", toRoom, session);
        if !completed { return; }
        completed := AddRoomEntry("FromRoom", fromRoom, session);
        if !completed { return; }
      }
      return true;
    }

    /** The loop over the displayable parameters: insert or overwrite, and record the name. */
    method SiphonParameters(ps: seq<Parameter>, session: Session)
      requires Valid()
      modifies this, session
      ensures Valid()
      ensures parameters == Overwrite(old(parameters), ps)
      ensures session.sessionParams == old(session.sessionParams) + Names(ps)
      ensures session.rooms == old(session.rooms)
    {
      ghost var m := parameters;
      var i := 0;
      while i < |ps|
        invariant 0 <= i <= |ps|
        invariant parameters == Overwrite(m, ps[..i])
        invariant session.sessionParams == old(session.sessionParams) + Names(ps[..i])
        invariant session.rooms == old(session.rooms)
      {
        assert ps[..i + 1][..i] == ps[..i];
        var p := ps[i];
        if Displayable(p) {
          session.sessionParams := session.sessionParams + {p.name};
          parameters := parameters[p.name := p.valueString];
        }
        i := i + 1;
      }
      assert ps[..i] == ps;
      OverwriteKeepsKeys(m, ps);
    }

    /** One room line of `Siphon`: a null room does nothing; otherwise `Add` throws on an
        existing key, or the id is stored under the key and recorded. */
    method AddRoomEntry(key: string, room: Option<Room>, session: Session) returns (ok: bool)
      requires Valid()
      modifies this, session
      ensures Valid()
      ensures AddRoom(Outcome(old(parameters), old(session.rooms), true), key, room)
        == Outcome(parameters, session.rooms, ok)
      ensures session.sessionParams == old(session.sessionParams)
    {
      if room.Some? {
        if key in parameters {
          return false;
        }
        parameters := parameters[key := room.value.uniqueId];
        session.rooms := session.rooms + {room.value.uniqueId};
      }
      return true;
    }

    /** `Add`: inserts or overwrites (the value's `ToString()` is the given string). */
    method Add(paramName: string, value: string)
      requires Valid()
      modifies this
      ensures Valid()
      ensures parameters == old(parameters)[paramName := value]
    {
      parameters := parameters[paramName := value];
    }

    /** `Parameters`: a copy of the map. A Dafny map is a value, so later changes to either
        side never reach the other. */
    method Parameters() returns (copy: map<string, string>)
      ensures copy == parameters
    {
      copy := map k | k in parameters :: parameters[k];
    }
  }

  /** `new ElementParameters(e, calculateCentroid)`: `None` when the constructor throws, which
      is on a null category (before any effect) or when `Siphon` throws (after its effects on
      the session). */
  method Create(e: Element, calculateCentroid: bool, format: XYZ -> string, roomAt: XYZ -> Option<Room>,
                session: Session)
    returns (r: Option<ElementParameters>)
    modifies session
    ensures e.category.None? ==> r.None? && unchanged(session)
    ensures e.category.Some? ==>
      var out := SiphonOutcome(map["Name" := e.name], old(session.rooms), e, CentroidFor(e, calculateCentroid), format, roomAt);
      (r.Some? <==> out.completed)
      && session.rooms == out.rooms
      && session.sessionParams == old(session.sessionParams) + Names(e.parameters)
      && (r.Some? ==>
            fresh(r.value) && r.value.Valid() && r.value.id == e.uniqueId
            && r.value.category == e.category.value.name && r.value.parameters == out.parameters)
  {
    if e.category.None? {
      return None;
    }
    var ep := new ElementParameters(e);
    var completed := ep.Siphon(e, calculateCentroid, format, roomAt, session);
    r := if completed then Some(ep) else None;
  }

  // ---------------------------------------------------------------------------------------
  // Properties

  /** The parameter loop only adds keys: the keys are those of `m` and the kept names. */
  lemma {:induction false} OverwriteKeepsKeys(m: map<string, string>, ps: seq<Parameter>)
    ensures Overwrite(m, ps).Keys == m.Keys + Names(ps)
  {
    if |ps| > 0 {
      OverwriteKeepsKeys(m, ps[..|ps| - 1]);
    }
  }

  /** A key no kept parameter names keeps its value from `m`. */
  lemma {:induction false} OverwriteKeepsOthers(m: map<string, string>, ps: seq<Parameter>, k: string)
    requires k in m && k !in Names(ps)
    ensures k in Overwrite(m, ps) && Overwrite(m, ps)[k] == m[k]
  {
    if |ps| > 0 {
      OverwriteKeepsOthers(m, ps[..|ps| - 1], k);
    }
  }

  /** A kept name holds the display string of its last displayable parameter. */
  lemma {:induction false} OverwriteLastWins(m: map<string, string>, ps: seq<Parameter>, i: nat)
    requires i < |ps| && Displayable(ps[i])
    requires forall j :: i < j < |ps| && Displayable(ps[j]) ==> ps[j].name != ps[i].name
    ensures ps[i].name in Overwrite(m, ps) && Overwrite(m, ps)[ps[i].name] == ps[i].valueString
  {
    if i < |ps| - 1 {
      var front := ps[..|ps| - 1];
      assert front[i] == ps[i];
      forall j | i < j < |front| && Displayable(front[j])
        ensures front[j].name != front[i].name
      {
        assert front[j] == ps[j];
      }
      OverwriteLastWins(m, front, i);
    }
  }

  /** A kept parameter named `"Name"` overwrites the element's name. */
  lemma NameCanBeOverwritten(name: string, p: Parameter)
    requires p.name == "Name" && Displayable(p)
    ensures Overwrite(map["Name" := name], [p])["Name"] == p.valueString
  {
    assert [p][..0] == [];
  }

  /** A centroid is computed exactly when asked for and the element has geometry. */
  lemma CentroidForIff(e: Element, calculateCentroid: bool)
    ensures CentroidFor(e, calculateCentroid).Some? <==> calculateCentroid && e.geometry.Some?
  {
  }

  /** With a centroid, the map holds its text under `"Centroid"`, unless a parameter of that
      name already made the `Add` throw. */
  lemma CentroidEntry(m: map<string, string>, rooms: set<string>, e: Element, c: Option<CentroidVolume>, format: XYZ -> string,
                      roomAt: XYZ -> Option<Room>)
    ensures var out := SiphonOutcome(m, rooms, e, c, format, roomAt);
      (c.Some? && "Centroid" in Overwrite(m, e.parameters) ==> !out.completed && out.rooms == rooms)
      && (c.Some? && "Centroid" !in Overwrite(m, e.parameters) ==>
            out.parameters["Centroid"] == format(c.value.centroid))
  {
    var out := SiphonOutcome(m, rooms, e, c, format, roomAt);
    if c.Some? && "Centroid" !in Overwrite(m, e.parameters) {
      var start := Outcome(WithCentroid(m, e, c, format), rooms, true);
      assert start.parameters["Centroid"] == format(c.value.centroid);
      var found := RoomsOf(e, c, roomAt);
      var o1 := AddRoom(start, "Room", found.room);
      var o2 := AddRoom(o1, "ToRoom", found.toRoom);
      assert o1.parameters["Centroid"] == format(c.value.centroid);
      assert o2.parameters["Centroid"] == format(c.value.centroid);
    }
  }

  /** Adding a room never removes a key or a recorded id, and never changes an existing
      value. */
  lemma AddRoomGrows(o: Outcome, key: string, room: Option<Room>)
    ensures var o' := AddRoom(o, key, room);
      o.parameters.Keys <= o'.parameters.Keys && o.rooms <= o'.rooms
      && (forall k :: k in o.parameters ==> o'.parameters[k] == o.parameters[k])
      && (o'.completed ==> o.completed)
  {
  }

  lemma AddRoomShift(p: map<string, string>, rooms: set<string>, r: set<string>, completed: bool,
                     key: string, room: Option<Room>)
    ensures var a := AddRoom(Outcome(p, rooms + r, completed), key, room);
      var b := AddRoom(Outcome(p, r, completed), key, room);
      a == Outcome(b.parameters, rooms + b.rooms, b.completed)
  {
  }

  /** The room ids recorded before `Siphon` do not change the map it builds or whether it
      completes; they are only carried along. */
  lemma RoomsDoNotMatter(m: map<string, string>, rooms: set<string>, e: Element, c: Option<CentroidVolume>,
                         format: XYZ -> string, roomAt: XYZ -> Option<Room>)
    ensures var a := SiphonOutcome(m, rooms, e, c, format, roomAt);
      var b := SiphonOutcome(m, {}, e, c, format, roomAt);
      a.parameters == b.parameters && a.completed == b.completed && a.rooms == rooms + b.rooms
  {
    if !(c.Some? && "Centroid" in Overwrite(m, e.parameters)) {
      var m2 := WithCentroid(m, e, c, format);
      var found := RoomsOf(e, c, roomAt);
      if found.found {
        var empty: set<string> := {};
        assert rooms + empty == rooms;
        AddRoomShift(m2, rooms, empty, true, "Room", found.room);
        var b1 := AddRoom(Outcome(m2, empty, true), "Room", found.room);
        AddRoomShift(b1.parameters, rooms, b1.rooms, b1.completed, "ToRoom", found.toRoom);
        var b2 := AddRoom(b1, "ToRoom", found.toRoom);
        AddRoomShift(b2.parameters, rooms, b2.rooms, b2.completed, "FromRoom", found.fromRoom);
      }
    }
  }

  /** `Siphon` never loses a key of the map it starts from, so `"Name"` stays. */
  lemma SiphonKeepsKeys(m: map<string, string>, rooms: set<string>, e: Element, c: Option<CentroidVolume>, format: XYZ -> string,
                        roomAt: XYZ -> Option<Room>)
    ensures m.Keys <= SiphonOutcome(m, rooms, e, c, format, roomAt).parameters.Keys
  {
    OverwriteKeepsKeys(m, e.parameters);
    if !(c.Some? && "Centroid" in Overwrite(m, e.parameters)) {
      var start := Outcome(WithCentroid(m, e, c, format), rooms, true);
      var found := RoomsOf(e, c, roomAt);
      AddRoomGrows(start, "Room", found.room);
      AddRoomGrows(AddRoom(start, "Room", found.room), "ToRoom", found.toRoom);
      AddRoomGrows(AddRoom(AddRoom(start, "Room", found.room), "ToRoom", found.toRoom), "FromRoom", found.fromRoom);
    }
  }

  /** For a family instance whose `Siphon` completes, the map has each of its rooms under its
      key, `ToRoom` and `FromRoom` swapped, and exactly those room ids are recorded. */
  lemma FamilyInstanceRooms(m: map<string, string>, rooms: set<string>, e: Element, c: Option<CentroidVolume>, format: XYZ -> string,
                            roomAt: XYZ -> Option<Room>)
    requires e.kind.FamilyInstance?
    ensures var out := SiphonOutcome(m, rooms, e, c, format, roomAt);
      var k := e.kind;
      out.completed ==>
        (k.room.Some? ==> out.parameters["Room"] == k.room.value.uniqueId)
        && (k.fromRoom.Some? ==> out.parameters["ToRoom"] == k.fromRoom.value.uniqueId)
        && (k.toRoom.Some? ==> out.parameters["FromRoom"] == k.toRoom.value.uniqueId)
        && out.rooms == rooms + (if k.room.Some? then {k.room.value.uniqueId} else {})
                      + (if k.fromRoom.Some? then {k.fromRoom.value.uniqueId} else {})
                      + (if k.toRoom.Some? then {k.toRoom.value.uniqueId} else {})
  {
  }

  /** `Siphon` completes exactly when no `Add` meets its key: not `"Centroid"` after the
      parameter loop, nor a room key of a room that was found. */
  lemma SiphonCompletes(m: map<string, string>, rooms: set<string>, e: Element, c: Option<CentroidVolume>, format: XYZ -> string,
                        roomAt: XYZ -> Option<Room>)
    ensures var out := SiphonOutcome(m, rooms, e, c, format, roomAt);
      var found := RoomsOf(e, c, roomAt);
      var m2 := WithCentroid(m, e, c, format);
      out.completed <==>
        !(c.Some? && "Centroid" in Overwrite(m, e.parameters))
        && (found.found ==>
              (found.room.Some? ==> "Room" !in m2)
              && (found.toRoom.Some? ==> "ToRoom" !in m2)
              && (found.fromRoom.Some? ==> "FromRoom" !in m2))
  {
  }

  /** An element that is not a family instance never gets `ToRoom` or `FromRoom` from
      `Siphon`, and without a centroid it gets no room at all. */
  lemma OtherElementRooms(m: map<string, string>, rooms: set<string>, e: Element, c: Option<CentroidVolume>, format: XYZ -> string,
                          roomAt: XYZ -> Option<Room>)
    requires e.kind.OtherElement?
    ensures var out := SiphonOutcome(m, rooms, e, c, format, roomAt);
      var m2 := WithCentroid(m, e, c, format);
      out.parameters.Keys <= m2.Keys + {"Room"}
      && (c.None? ==> out.parameters == m2 && out.rooms == rooms && out.completed)
  {
  }
}
