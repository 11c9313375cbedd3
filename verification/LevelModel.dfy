/** Level states (`src/model/LevelState.hpp`) and equality up to empty-valued fields. */
module LevelModel {
  import opened Prelude

  const UUID_LIMIT := 0x1_0000_0000_0000_0000

  /** `std::uint64_t` object ids; 0 is the placeholder for "no object". */
  type Uuid = u: int | 0 <= u < UUID_LIMIT

  type FieldMap = map<string, string>

  datatype Object = Object(uuid: Uuid, fields: FieldMap)

  /** Every object is stored under its own uuid. */
  type ObjectMap = m: map<Uuid, Object> | forall u :: u in m ==> m[u].uuid == u

  datatype LevelState = LevelState(rawHeader: string, header: FieldMap, objects: ObjectMap)

  const EMPTY_STATE := LevelState("", map[], map[])

  /** A missing key reads as the empty string. */
  function Get(m: FieldMap, k: string): string {
    if k in m then m[k] else ""
  }

  function Lookup(objs: ObjectMap, u: Uuid): Option<Object> {
    if u in objs then Some(objs[u]) else None
  }

  /** Drop the fields whose value is empty. */
  function Norm(m: FieldMap): FieldMap {
    map k | k in m && m[k] != "" :: m[k]
  }

  function NormObject(o: Object): Object {
    Object(o.uuid, Norm(o.fields))
  }

  function NormState(s: LevelState): LevelState {
    LevelState(s.rawHeader, Norm(s.header), map u | u in s.objects :: NormObject(s.objects[u]))
  }

  /** Equality after dropping empty-valued fields. */
  ghost predicate SameFields(a: FieldMap, b: FieldMap) {
    Norm(a) == Norm(b)
  }

  ghost predicate SameState(a: LevelState, b: LevelState) {
    NormState(a) == NormState(b)
  }

  ghost predicate NoEmptyField(m: FieldMap) {
    forall k :: k in m ==> m[k] != ""
  }

  ghost predicate NoEmpty(s: LevelState) {
    NoEmptyField(s.header) && forall u :: u in s.objects ==> NoEmptyField(s.objects[u].fields)
  }

  lemma SameFieldsIff(a: FieldMap, b: FieldMap)
    ensures SameFields(a, b) <==> forall k :: Get(a, k) == Get(b, k)
  {
    if SameFields(a, b) {
      forall k ensures Get(a, k) == Get(b, k) {
        assert k in Norm(a) <==> k in Norm(b);
      }
    }
    if forall k :: Get(a, k) == Get(b, k) {
      forall k ensures k in Norm(a) <==> k in Norm(b) {
        assert Get(a, k) == Get(b, k);
      }
      forall k | k in Norm(a) ensures Norm(a)[k] == Norm(b)[k] {
        assert Get(a, k) == Get(b, k);
      }
      assert Norm(a).Keys == Norm(b).Keys;
    }
  }

  /** Object by object, field by field. */
  ghost predicate SameObjects(a: ObjectMap, b: ObjectMap) {
    a.Keys == b.Keys && forall u :: u in a ==> SameFields(a[u].fields, b[u].fields)
  }

  lemma SameStateIff(a: LevelState, b: LevelState)
    ensures SameState(a, b) <==>
            a.rawHeader == b.rawHeader && SameFields(a.header, b.header) && SameObjects(a.objects, b.objects)
  {
    var na, nb := NormState(a).objects, NormState(b).objects;
    assert na.Keys == a.objects.Keys && nb.Keys == b.objects.Keys;
    if na == nb {
      forall u | u in a.objects ensures SameFields(a.objects[u].fields, b.objects[u].fields) {
        assert na[u] == nb[u];
      }
    }
    if SameObjects(a.objects, b.objects) {
      forall u | u in na ensures na[u] == nb[u] {
        assert SameFields(a.objects[u].fields, b.objects[u].fields);
      }
      assert na == nb;
    }
  }

  lemma NormId(m: FieldMap)
    requires NoEmptyField(m)
    ensures Norm(m) == m
  {
  }

  /** Without empty values the two equalities coincide. */
  lemma SameStateExact(a: LevelState, b: LevelState)
    requires NoEmpty(a) && NoEmpty(b) && SameState(a, b)
    ensures a == b
  {
    SameStateIff(a, b);
    NormId(a.header);
    NormId(b.header);
    forall u | u in a.objects ensures a.objects[u] == b.objects[u] {
      NormId(a.objects[u].fields);
      NormId(b.objects[u].fields);
      assert SameFields(a.objects[u].fields, b.objects[u].fields);
    }
    assert a.objects == b.objects;
  }
}
