/** The rooms page (frontendApp/src/components/RoomsPage.jsx): the capacity
    filter over the room list, the table from equipment code to display name
    built from the equipment catalogue, and the name shown for each
    equipment line of a room. */
module RoomsPage {
  import opened JsCore

  // ---------------------------------------------------------------------------
  // The capacity filter
  // ---------------------------------------------------------------------------

  /** `Number(v)` for the values a capacity can hold; None is NaN. A string
      counts only when it is empty (0) or all decimal digits. */
  function ToNumber(v: Option<Json>): Option<int>
  {
    match v
    case None => None
    case Some(j) =>
      match j
      case JNull => Some(0)
      case JBool(b) => Some(if b then 1 else 0)
      case JNum(n) => Some(n)
      case JStr(s) =>
        if forall i :: 0 <= i < |s| ==> IsDigit(s[i]) then Some(DigitsValue(s)) else None
      case _ => None
  }

  /** The test of `filteredRooms` for one capacity: every comparison with NaN
      is false, and a filter other than the three bands keeps every room. */
  predicate InBand(filter: string, cap: Option<int>)
  {
    if filter == "LE4" then cap.Some? && cap.value <= 4
    else if filter == "5TO12" then cap.Some? && cap.value >= 5 && cap.value <= 12
    else if filter == "GE13" then cap.Some? && cap.value >= 13
    else true
  }

  function CapacityOf(room: Json): Option<int>
  {
    ToNumber(Prop(Some(room), "capacity"))
  }

  /** `filteredRooms`. */
  function FilterRooms(rooms: seq<Json>, filter: string): seq<Json>
  {
    Filter(rooms, (r: Json) => InBand(filter, CapacityOf(r)))
  }

  /** Every numeric capacity falls in exactly one of the three bands; a
      capacity that is not a number falls in none. */
  lemma BandsPartitionCapacities(cap: Option<int>)
    ensures cap.Some? ==>
              (InBand("LE4", cap) || InBand("5TO12", cap) || InBand("GE13", cap)) &&
              !(InBand("LE4", cap) && InBand("5TO12", cap)) &&
              !(InBand("LE4", cap) && InBand("GE13", cap)) &&
              !(InBand("5TO12", cap) && InBand("GE13", cap))
    ensures cap.None? ==> !InBand("LE4", cap) && !InBand("5TO12", cap) && !InBand("GE13", cap)
  {
  }

  /** A filter that is none of the bands keeps all rooms, in order. */
  lemma {:induction false} OtherFilterKeepsAll(rooms: seq<Json>, filter: string)
    requires filter != "LE4" && filter != "5TO12" && filter != "GE13"
    ensures FilterRooms(rooms, filter) == rooms
  {
    if rooms != [] {
      OtherFilterKeepsAll(rooms[1..], filter);
      assert rooms == [rooms[0]] + rooms[1..];
    }
  }

  /** When every room's capacity is a number, the three bands split the room
      list: each room is shown under exactly one of them. */
  lemma {:induction false} BandsSplitRooms(rooms: seq<Json>)
    requires forall i :: 0 <= i < |rooms| ==> CapacityOf(rooms[i]).Some?
    ensures multiset(FilterRooms(rooms, "LE4")) + multiset(FilterRooms(rooms, "5TO12")) +
            multiset(FilterRooms(rooms, "GE13")) == multiset(rooms)
  {
    if rooms != [] {
      BandsSplitRooms(rooms[1..]);
      BandsPartitionCapacities(CapacityOf(rooms[0]));
      assert rooms == [rooms[0]] + rooms[1..];
    }
  }

  // ---------------------------------------------------------------------------
  // Equipment names
  // ---------------------------------------------------------------------------

  function CodeOf(eq: Json): Option<Json>
  {
    Prop(Some(eq), "code")
  }

  function DisplayNameOf(eq: Json): Option<Json>
  {
    Prop(Some(eq), "display_name")
  }

  /** The entry a catalogue item contributes: `display_name || code`. */
  function NameOf(eq: Json): Json
    requires Truthy(CodeOf(eq))
  {
    Or(DisplayNameOf(eq), CodeOf(eq)).value
  }

  /** The table the loop over the catalogue builds: for each item with a
      truthy code, `String(code)` maps to its name, a later item overwriting
      an earlier one with the same key. */
  function NameTable(list: seq<Json>): map<string, Json>
  {
    if list == [] then map[]
    else
      var table := NameTable(list[..|list| - 1]);
      var eq := list[|list| - 1];
      if Truthy(CodeOf(eq)) then table[JsString(CodeOf(eq)) := NameOf(eq)] else table
  }

  /** `for (const eq of list) if (eq?.code) map[String(eq.code)] = eq.display_name || eq.code`. */
  method BuildNameTable(list: seq<Json>) returns (table: map<string, Json>)
    ensures table == NameTable(list)
  {
    table := map[];
    for i := 0 to |list|
      invariant table == NameTable(list[..i])
    {
      assert list[..i + 1][..i] == list[..i];
      var eq := list[i];
      if Truthy(CodeOf(eq)) {
        table := table[JsString(CodeOf(eq)) := NameOf(eq)];
      }
    }
    assert list[..|list|] == list;
  }

  /** The items whose code renders as `key`. */
  predicate HasKey(eq: Json, key: string)
  {
    Truthy(CodeOf(eq)) && JsString(CodeOf(eq)) == key
  }

  /** The table has a key exactly for the codes of the catalogue, and each
      key holds the name of the LAST item with that code, which is never
      blank. */
  lemma {:induction false} NameTableEntries(list: seq<Json>, key: string)
    ensures key in NameTable(list) <==> exists i :: 0 <= i < |list| && HasKey(list[i], key)
    ensures key in NameTable(list) ==>
              Truthy(Some(NameTable(list)[key])) &&
              exists i :: 0 <= i < |list| && HasKey(list[i], key) && NameTable(list)[key] == NameOf(list[i]) &&
                          forall j :: i < j < |list| ==> !HasKey(list[j], key)
  {
    if list != [] {
      var init, eq := list[..|list| - 1], list[|list| - 1];
      NameTableEntries(init, key);
      assert forall i :: 0 <= i < |init| ==> init[i] == list[i];
      if HasKey(eq, key) {
        assert HasKey(list[|list| - 1], key);
      } else if key in NameTable(init) {
        var i :| 0 <= i < |init| && HasKey(init[i], key) && NameTable(init)[key] == NameOf(init[i]) &&
                 forall j :: i < j < |init| ==> !HasKey(init[j], key);
        assert HasKey(list[i], key) && NameTable(list)[key] == NameOf(list[i]);
      }
    }
  }

  /** The name of a room's equipment line:
      `e.display_name || equipmentNameByCode[e.code] || e.code`. */
  function ShownName(e: Json, table: map<string, Json>): Option<Json>
  {
    var key := JsString(CodeOf(e));
    Or(Or(DisplayNameOf(e), if key in table then Some(table[key]) else None), CodeOf(e))
  }

  /** The line's own display name comes first; without one, a catalogue item
      with the same code supplies its name; a line with a code or a display
      name of its own is never shown blank. */
  lemma ShownNameFallback(e: Json, list: seq<Json>)
    ensures Truthy(DisplayNameOf(e)) ==> ShownName(e, NameTable(list)) == DisplayNameOf(e)
    ensures !Truthy(DisplayNameOf(e)) && Truthy(CodeOf(e)) && JsString(CodeOf(e)) in NameTable(list) ==>
              ShownName(e, NameTable(list)) == Some(NameTable(list)[JsString(CodeOf(e))])
    ensures Truthy(DisplayNameOf(e)) || Truthy(CodeOf(e)) ==> Truthy(ShownName(e, NameTable(list)))
  {
    NameTableEntries(list, JsString(CodeOf(e)));
  }
}
