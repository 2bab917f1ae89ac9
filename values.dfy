/**
 * Go values as the reflection-based code of the library sees them: the struct of a
 * resource is an explicit list of field descriptors (name, `apikit` tag, anonymous
 * flag, value), and a pointer designates a heap cell holding a value.
 */
module Values {
  import opened Wrappers

  /** A Go value: a leaf of one of the kinds the resources use, or a struct of a named
      type whose fields are listed in declaration order. `Ptr` stands for any pointer
      or interface value (address 0 is nil); timestamps are integers. */
  datatype Value =
    | Int(i: int)
    | Str(s: string)
    | Bool(b: bool)
    | Ptr(address: nat)
    | Struct(typeName: string, fields: seq<Field>)

  /** One struct field: its name, the value of its `apikit` tag key ("" when the tag has
      no such key), whether it is an anonymous (embedded) field, and its value. */
  datatype Field = Field(name: string, apikitTag: string, anonymous: bool, value: Value)

  /** The memory a Go pointer to a value designates. */
  class Cell {
    var contents: Value

    constructor (v: Value)
      ensures contents == v
    {
      contents := v;
    }
  }

  /** reflect.Value.FieldByName over the direct fields of a struct: the position of the
      first field with that name, if any. */
  function FieldByName(fields: seq<Field>, name: string): (r: Option<nat>)
    ensures r.Some? ==> r.value < |fields| && fields[r.value].name == name
    ensures r.Some? ==> forall j :: 0 <= j < r.value ==> fields[j].name != name
    ensures r.None? ==> forall j :: 0 <= j < |fields| ==> fields[j].name != name
  {
    if |fields| == 0 then None
    else if fields[0].name == name then Some(0)
    else match FieldByName(fields[1..], name)
      case None => None
      case Some(j) => Some(j + 1)
  }

  /** reflect's CanSet on a field reached through a pointer: the field is exported, that
      is, its name starts with an upper-case letter (ASCII letters only). */
  predicate Exported(name: string) {
    |name| > 0 && 'A' <= name[0] <= 'Z'
  }

  /** Two descriptors of the same field slot: only the value may differ. */
  predicate SameSlot(a: Field, b: Field) {
    a.name == b.name && a.apikitTag == b.apikitTag && a.anonymous == b.anonymous
  }

  /** Go gives the direct fields of a struct distinct names. */
  ghost predicate DistinctNames(fields: seq<Field>) {
    forall i, j :: 0 <= i < j < |fields| ==> fields[i].name != fields[j].name
  }

  /** A value Go's type system could produce: distinct field names at every level. */
  ghost predicate WellFormed(v: Value)
    decreases v
  {
    v.Struct? ==>
      DistinctNames(v.fields) &&
      forall k :: 0 <= k < |v.fields| ==> WellFormed(v.fields[k].value)
  }

  /** With distinct names, FieldByName finds the field itself. */
  lemma FieldByNameDistinct(fields: seq<Field>, j: nat)
    requires DistinctNames(fields) && j < |fields|
    ensures FieldByName(fields, fields[j].name) == Some(j)
  {
  }

  /** FieldByName depends on the names alone. */
  lemma FieldByNameSameSlots(a: seq<Field>, b: seq<Field>, name: string)
    requires |a| == |b|
    requires forall j :: 0 <= j < |a| ==> a[j].name == b[j].name
    ensures FieldByName(a, name) == FieldByName(b, name)
  {
  }
}
