/** The `rooms` and `room_equipments` tables and the handlers that change them
    (backendExpress/controllers/rooms.js): insert, delete, the merge-patch
    update, the (room, equipment) upsert and its removal, and the SET-clause
    builder of the alternative update handler. */
module Rooms {
  import opened JsCore
  import opened Express
  import Rows

  type Id = nat

  /** A row of `rooms`. */
  datatype Room = Room(id: Id, name: string, capacity: int, location: string, isActive: bool)

  function RoomId(r: Room): nat
  {
    r.id
  }

  /** `capacity` is a `smallint` column (the update casts to `::smallint`). */
  predicate IsSmallint(n: int)
  {
    -32768 <= n <= 32767
  }

  /** The database's message when a capacity does not fit the column. */
  function OutOfRange(n: int): string
  {
    "value \"" + IntToString(n) + "\" is out of range for type smallint"
  }

  // ---------------------------------------------------------------------------
  // The merge-patch update
  // ---------------------------------------------------------------------------

  /** The fields of the PATCH body; None is an absent or null field. */
  datatype RoomPatch = RoomPatch(name: Option<string>, capacity: Option<int>, location: Option<string>, isActive: Option<bool>)

  const NoChange: RoomPatch := RoomPatch(None, None, None, None)

  /** The row the UPDATE writes over `current`. */
  function MergeRoom(current: Room, p: RoomPatch): Room
  {
    Room(current.id, Coalesce(p.name, current.name), Coalesce(p.capacity, current.capacity),
         Coalesce(p.location, current.location), Coalesce(p.isActive, current.isActive))
  }

  /** The two patches applied one after the other, as one patch: a field of
      `second` wins whenever it is supplied. */
  function Then(first: RoomPatch, second: RoomPatch): RoomPatch
  {
    RoomPatch(if second.name.Some? then second.name else first.name,
              if second.capacity.Some? then second.capacity else first.capacity,
              if second.location.Some? then second.location else first.location,
              if second.isActive.Some? then second.isActive else first.isActive)
  }

  /** The merge keeps the id and touches only the supplied fields; an empty
      patch is a no-op. */
  lemma MergeRoomKeeps(current: Room, p: RoomPatch)
    ensures MergeRoom(current, p).id == current.id
    ensures p.name.None? ==> MergeRoom(current, p).name == current.name
    ensures p.capacity.None? ==> MergeRoom(current, p).capacity == current.capacity
    ensures p.location.None? ==> MergeRoom(current, p).location == current.location
    ensures p.isActive.None? ==> MergeRoom(current, p).isActive == current.isActive
    ensures MergeRoom(current, NoChange) == current
  {
  }

  /** Applying the same patch twice is applying it once, and two patches in
      a row are the one combined patch. */
  lemma MergeRoomComposes(current: Room, p: RoomPatch, q: RoomPatch)
    ensures MergeRoom(MergeRoom(current, p), p) == MergeRoom(current, p)
    ensures MergeRoom(MergeRoom(current, p), q) == MergeRoom(current, Then(p, q))
  {
  }

  // ---------------------------------------------------------------------------
  // The (room, equipment) association
  // ---------------------------------------------------------------------------

  /** `quantity = 1` in the destructuring: the default for an absent quantity. */
  function QuantityOrDefault(quantity: Option<int>): (q: int)
    ensures quantity.None? ==> q == 1
    ensures quantity.Some? ==> q == quantity.value
  {
    if quantity.Some? then quantity.value else 1
  }

  /** INSERT … ON CONFLICT (room_id, equipment_id) DO UPDATE SET quantity:
      afterwards the pair is present exactly once with the new quantity and
      every other pair is as it was. */
  function Upsert(stock: map<(Id, Id), int>, roomId: Id, equipmentId: Id, quantity: int): (r: map<(Id, Id), int>)
    ensures (roomId, equipmentId) in r && r[(roomId, equipmentId)] == quantity
    ensures forall key :: key != (roomId, equipmentId) ==>
              (key in r <==> key in stock) && (key in stock ==> r[key] == stock[key])
  {
    stock[(roomId, equipmentId) := quantity]
  }

  /** Repeating the upsert changes nothing. */
  lemma UpsertIdempotent(stock: map<(Id, Id), int>, roomId: Id, equipmentId: Id, quantity: int)
    ensures Upsert(Upsert(stock, roomId, equipmentId, quantity), roomId, equipmentId, quantity)
         == Upsert(stock, roomId, equipmentId, quantity)
  {
  }

  // ---------------------------------------------------------------------------
  // updateRoomById2: a SET clause built from the keys of the body
  // ---------------------------------------------------------------------------

  /** A handler's outcome: a value, or the reply it sends instead. */
  datatype Result<T> = Success(value: T) | Failure(error: Reply)

  /** A query parameter: a body value, or the id from the path. */
  datatype Param = BodyValue(v: Json) | PathId(id: Id)

  datatype Query = Query(sql: string, params: seq<Param>)

  /** `$n`, the n-th query parameter. */
  function Placeholder(n: nat): string
  {
    "$" + NatToString(n)
  }

  /** `${key} = $${index + 1}` */
  function Assignment(key: string, index: nat): string
  {
    key + " = " + Placeholder(index + 1)
  }

  /** `keys.map(...)`: one assignment per key, in key order. */
  function Assignments(entries: seq<(string, Json)>): seq<string>
  {
    seq(|entries|, i requires 0 <= i < |entries| => Assignment(entries[i].0, i))
  }

  /** `parts.join(sep)`. */
  function Join(parts: seq<string>, sep: string): (r: string)
    ensures parts == [] ==> r == ""
    ensures |parts| == 1 ==> r == parts[0]
    ensures |parts| >= 1 ==> parts[0] <= r
  {
    if parts == [] then ""
    else if |parts| == 1 then parts[0]
    else parts[0] + sep + Join(parts[1..], sep)
  }

  /** The handler's query, or its reply when the body has no keys.
      `entries` are the body's own properties in `Object.keys` order. */
  function BuildUpdate(entries: seq<(string, Json)>, id: Id): (r: Result<Query>)
    ensures entries == [] <==> r.Failure?
    ensures r.Failure? ==> r.error == Reply(400, "No update fields provided")
    ensures r.Success? ==>
              |r.value.params| == |entries| + 1 &&
              r.value.params[|entries|] == PathId(id) &&
              forall i :: 0 <= i < |entries| ==> r.value.params[i] == BodyValue(entries[i].1)
  {
    if entries == [] then Failure(Reply(400, "No update fields provided"))
    else
      var values := seq(|entries|, i requires 0 <= i < |entries| => BodyValue(entries[i].1)) + [PathId(id)];
      Success(Query("UPDATE rooms SET " + Join(Assignments(entries), ", ") + " WHERE id = " + Placeholder(|values|), values))
  }

  /** The number written after `$`. */
  function PlaceholderNumber(p: string): nat
    requires |p| >= 1 && forall i :: 1 <= i < |p| ==> IsDigit(p[i])
  {
    DigitsValue(p[1..])
  }

  /** Assignment `i` names the i-th key, and its placeholder is parameter
      `i + 1`, which holds that key's value. */
  lemma KeyPlaceholderBinds(entries: seq<(string, Json)>, id: Id, i: nat)
    requires i < |entries|
    ensures var q := BuildUpdate(entries, id).value;
            var p := Placeholder(i + 1);
            Assignments(entries)[i] == entries[i].0 + " = " + p &&
            PlaceholderNumber(p) == i + 1 &&
            q.params[PlaceholderNumber(p) - 1] == BodyValue(entries[i].1)
  {
    var p := Placeholder(i + 1);
    assert p[1..] == NatToString(i + 1);
    NatToStringRoundTrip(i + 1);
  }

  /** Two keys never share a placeholder. */
  lemma PlaceholdersDistinct(i: nat, j: nat)
    requires i != j
    ensures Placeholder(i + 1) != Placeholder(j + 1)
  {
    if Placeholder(i + 1) == Placeholder(j + 1) {
      assert Placeholder(i + 1)[1..] == NatToString(i + 1);
      assert Placeholder(j + 1)[1..] == NatToString(j + 1);
      NatToStringInjective(i + 1, j + 1);
    }
  }

  /** The statement ends with the WHERE placeholder, which is the last
      parameter, position `keys + 1`, and holds the id. */
  lemma WherePlaceholderBinds(entries: seq<(string, Json)>, id: Id)
    requires entries != []
    ensures var q := BuildUpdate(entries, id).value;
            var w := Placeholder(|q.params|);
            q.sql == "UPDATE rooms SET " + Join(Assignments(entries), ", ") + " WHERE id = " + w &&
            PlaceholderNumber(w) == |entries| + 1 &&
            q.params[PlaceholderNumber(w) - 1] == PathId(id)
  {
    var w := Placeholder(|entries| + 1);
    assert w[1..] == NatToString(|entries| + 1);
    NatToStringRoundTrip(|entries| + 1);
  }

  // ---------------------------------------------------------------------------
  // The tables and their handlers
  // ---------------------------------------------------------------------------

  class RoomTables {
    var rooms: seq<Room>
    /** `room_equipments`: the quantity of each (room_id, equipment_id) pair;
        the pair is the table's unique key. */
    var stock: map<(Id, Id), int>
    /** The id the database generates for the next room. */
    var nextId: nat

    ghost predicate Valid()
      reads this
    {
      Rows.UniqueKeys(rooms, RoomId) && Rows.KeysBelow(rooms, RoomId, nextId) &&
      forall i :: 0 <= i < |rooms| ==> IsSmallint(rooms[i].capacity)
    }

    constructor ()
      ensures Valid() && rooms == [] && stock == map[]
    {
      rooms := [];
      stock := map[];
      nextId := 0;
    }

    /** `addRoom`: one new row with the given fields, or the cast error. */
    method AddRoom(name: string, capacity: int, location: string, isActive: bool) returns (replies: seq<Reply>)
      requires Valid()
      modifies this
      ensures Valid() && stock == old(stock)
      ensures IsSmallint(capacity) ==>
                rooms == old(rooms) + [Room(old(nextId), name, capacity, location, isActive)] &&
                replies == [Ok("room added")]
      ensures !IsSmallint(capacity) ==>
                rooms == old(rooms) && replies == [Reply(400, OutOfRange(capacity))]
    {
      if !IsSmallint(capacity) {
        replies := [Reply(400, OutOfRange(capacity))];
        return;
      }
      var r := Room(nextId, name, capacity, location, isActive);
      Rows.AppendKeepsUniqueKeys(rooms, RoomId, r, nextId);
      rooms := rooms + [r];
      nextId := nextId + 1;
      replies := [Ok("room added")];
    }

    /** `deleteRoomById`. When no row matched, the handler sends "room not
        found" and, having no `return`, then the success reply as well. */
    method DeleteRoom(id: Id) returns (replies: seq<Reply>)
      requires Valid()
      modifies this
      ensures Valid() && nextId == old(nextId) && stock == old(stock)
      ensures rooms == Rows.Without(old(rooms), RoomId, id)
      ensures Rows.Find(old(rooms), RoomId, id).None? ==>
                replies == [Reply(400, "room not found"), Ok("room deleted")]
      ensures Rows.Find(old(rooms), RoomId, id).Some? ==> replies == [Ok("room deleted")]
    {
      var before := rooms;
      rooms := Rows.Without(rooms, RoomId, id);
      Rows.WithoutShrinksIffFound(before, RoomId, id);
      Rows.WithoutKeepsUniqueKeys(before, RoomId, id);
      Rows.WithoutKeepsKeysBelow(before, RoomId, RoomId, id, nextId);
      forall i | 0 <= i < |rooms|
        ensures IsSmallint(rooms[i].capacity)
      {
        assert rooms[i] in before;
      }
      if |rooms| == |before| {
        replies := [Reply(400, "room not found"), Ok("room deleted")];
      } else {
        replies := [Ok("room deleted")];
      }
    }

    /** `updateRoomById`. For an unknown id the handler replies "room not
        found" and, having no `return`, reads `current.name` of `undefined`:
        the TypeError lands in the catch block before any UPDATE. */
    method UpdateRoom(id: Id, p: RoomPatch) returns (replies: seq<Reply>)
      requires Valid()
      modifies this
      ensures Valid() && nextId == old(nextId) && stock == old(stock)
      ensures Rows.Find(old(rooms), RoomId, id).None? ==>
                rooms == old(rooms) &&
                replies == [Reply(404, "room not found"), Reply(400, ReadOfUndefined("name"))]
      ensures Rows.Find(old(rooms), RoomId, id).Some? ==>
                var k := Rows.Find(old(rooms), RoomId, id).value;
                if p.capacity.Some? && !IsSmallint(p.capacity.value) then
                  rooms == old(rooms) && replies == [Reply(400, OutOfRange(p.capacity.value))]
                else
                  rooms == old(rooms)[k := MergeRoom(old(rooms)[k], p)] && replies == [Ok("room updated")]
    {
      var found := Rows.Find(rooms, RoomId, id);
      if found.None? {
        replies := [Reply(404, "room not found"), Reply(400, ReadOfUndefined("name"))];
        return;
      }
      var k := found.value;
      if p.capacity.Some? && !IsSmallint(p.capacity.value) {
        replies := [Reply(400, OutOfRange(p.capacity.value))];
        return;
      }
      rooms := rooms[k := MergeRoom(rooms[k], p)];
      replies := [Ok("room updated")];
    }

    /** `addEquipmentToRoom`: the upsert of the pair with the given quantity,
        1 when none is given. */
    method AddEquipmentToRoom(roomId: Id, equipmentId: Id, quantity: Option<int>) returns (replies: seq<Reply>)
      requires Valid()
      modifies this
      ensures Valid() && rooms == old(rooms) && nextId == old(nextId)
      ensures stock == Upsert(old(stock), roomId, equipmentId, QuantityOrDefault(quantity))
      ensures replies == [Ok("Equipment assigned to room")]
    {
      stock := Upsert(stock, roomId, equipmentId, QuantityOrDefault(quantity));
      replies := [Ok("Equipment assigned to room")];
    }

    /** `removeEquipmentFromRoom`: deletes only the matching pair. With no
        match it replies "room or equipment not found" and, having no
        `return`, the success reply as well. */
    method RemoveEquipmentFromRoom(roomId: Id, equipmentId: Id) returns (replies: seq<Reply>)
      requires Valid()
      modifies this
      ensures Valid() && rooms == old(rooms) && nextId == old(nextId)
      ensures (roomId, equipmentId) !in stock
      ensures forall key :: key != (roomId, equipmentId) ==>
                (key in stock <==> key in old(stock)) && (key in stock ==> stock[key] == old(stock)[key])
      ensures (roomId, equipmentId) !in old(stock) ==>
                replies == [Reply(404, "room or equipment not found"), Ok("Equipment removed from room")]
      ensures (roomId, equipmentId) in old(stock) ==> replies == [Ok("Equipment removed from room")]
    {
      var matched := (roomId, equipmentId) in stock;
      stock := stock - {(roomId, equipmentId)};
      if !matched {
        replies := [Reply(404, "room or equipment not found"), Ok("Equipment removed from room")];
      } else {
        replies := [Ok("Equipment removed from room")];
      }
    }
  }
}
