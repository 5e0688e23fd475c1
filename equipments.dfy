/** The `equipments` table and the handlers that change it
    (backendExpress/controllers/equipments.js): insert, delete, and the
    merge-patch update. */
module Equipments {
  import opened JsCore
  import opened Express
  import Rows

  type Id = nat

  /** A row of `equipments`. */
  datatype Equipment = Equipment(id: Id, code: string, displayName: string, description: string)

  function EquipmentId(e: Equipment): nat
  {
    e.id
  }

  /** The fields of the PATCH body; None is an absent or null field. */
  datatype EquipmentPatch = EquipmentPatch(code: Option<string>, displayName: Option<string>, description: Option<string>)

  const NoChange: EquipmentPatch := EquipmentPatch(None, None, None)

  /** The row the UPDATE writes over `current`. */
  function MergeEquipment(current: Equipment, p: EquipmentPatch): Equipment
  {
    Equipment(current.id, Coalesce(p.code, current.code), Coalesce(p.displayName, current.displayName),
              Coalesce(p.description, current.description))
  }

  /** Each column takes the supplied value when there is one and keeps the
      current one otherwise; an empty patch is a no-op; applying a patch
      twice is applying it once. */
  lemma MergeEquipmentFieldwise(current: Equipment, p: EquipmentPatch)
    ensures var r := MergeEquipment(current, p);
            r.id == current.id &&
            (p.code.Some? ==> r.code == p.code.value) && (p.code.None? ==> r.code == current.code) &&
            (p.displayName.Some? ==> r.displayName == p.displayName.value) &&
            (p.displayName.None? ==> r.displayName == current.displayName) &&
            (p.description.Some? ==> r.description == p.description.value) &&
            (p.description.None? ==> r.description == current.description)
    ensures MergeEquipment(current, NoChange) == current
    ensures MergeEquipment(MergeEquipment(current, p), p) == MergeEquipment(current, p)
  {
  }

  class EquipmentTable {
    var rows: seq<Equipment>
    /** The id the database generates for the next insert. */
    var nextId: nat

    ghost predicate Valid()
      reads this
    {
      Rows.UniqueKeys(rows, EquipmentId) && Rows.KeysBelow(rows, EquipmentId, nextId)
    }

    constructor ()
      ensures Valid() && rows == []
    {
      rows := [];
      nextId := 0;
    }

    /** `addEquipment`: one new row carrying the given fields. */
    method AddEquipment(code: string, displayName: string, description: string) returns (replies: seq<Reply>)
      requires Valid()
      modifies this
      ensures Valid()
      ensures rows == old(rows) + [Equipment(old(nextId), code, displayName, description)]
      ensures replies == [Ok("equipment added")]
    {
      var e := Equipment(nextId, code, displayName, description);
      Rows.AppendKeepsUniqueKeys(rows, EquipmentId, e, nextId);
      rows := rows + [e];
      nextId := nextId + 1;
      replies := [Ok("equipment added")];
    }

    /** `deleteEquipmentById`. When no row matched, the handler sends
        "equipments not found" and, having no `return`, the success reply too. */
    method DeleteEquipment(id: Id) returns (replies: seq<Reply>)
      requires Valid()
      modifies this
      ensures Valid() && nextId == old(nextId)
      ensures rows == Rows.Without(old(rows), EquipmentId, id)
      ensures Rows.Find(old(rows), EquipmentId, id).None? ==>
                replies == [Reply(400, "equipments not found"), Ok("equipment deleted")]
      ensures Rows.Find(old(rows), EquipmentId, id).Some? ==> replies == [Ok("equipment deleted")]
    {
      var before := rows;
      rows := Rows.Without(rows, EquipmentId, id);
      Rows.WithoutShrinksIffFound(before, EquipmentId, id);
      Rows.WithoutKeepsUniqueKeys(before, EquipmentId, id);
      Rows.WithoutKeepsKeysBelow(before, EquipmentId, EquipmentId, id, nextId);
      if |rows| == |before| {
        replies := [Reply(400, "equipments not found"), Ok("equipment deleted")];
      } else {
        replies := [Ok("equipment deleted")];
      }
    }

    /** `updateEquipmentById`. For an unknown id the handler replies
        "equipment not found" and, having no `return`, reads `current.code` of
        `undefined`: the TypeError lands in the catch block before any UPDATE. */
    method UpdateEquipment(id: Id, p: EquipmentPatch) returns (replies: seq<Reply>)
      requires Valid()
      modifies this
      ensures Valid() && nextId == old(nextId)
      ensures Rows.Find(old(rows), EquipmentId, id).None? ==>
                rows == old(rows) &&
                replies == [Reply(404, "equipment not found"), Reply(400, ReadOfUndefined("code"))]
      ensures Rows.Find(old(rows), EquipmentId, id).Some? ==>
                var k := Rows.Find(old(rows), EquipmentId, id).value;
                rows == old(rows)[k := MergeEquipment(old(rows)[k], p)] && replies == [Ok("equipment updated")]
    {
      var found := Rows.Find(rows, EquipmentId, id);
      if found.None? {
        replies := [Reply(404, "equipment not found"), Reply(400, ReadOfUndefined("code"))];
        return;
      }
      var k := found.value;
      rows := rows[k := MergeEquipment(rows[k], p)];
      replies := [Ok("equipment updated")];
    }
  }
}
