/**
 * The immutable-attribute copier of attributecopier.go. Every field of the source whose
 * `apikit` tag value is "immutable" is written onto the same-named destination field,
 * overwriting what the destination held; anonymous (embedded) fields are recursed into
 * by the same rules; a source type with its own ImmutableAttributeCopier is delegated to.
 */
module AttributeCopier {
  import opened Wrappers
  import opened Values

  const ImmutableTag := "immutable"
  const NilDestination := "Given a nil destination object"
  const NilSource := "Given a nil source object"
  const SourceNotStruct := "Source is not a pointer to a struct"
  const DestinationNotStruct := "Destination is not a pointer to a struct"

  /** What a copy leaves behind: its error, if any, and the destination's contents. */
  datatype CopyResult = CopyResult(err: Option<string>, dest: Value)

  /** The struct types whose pointers implement ImmutableAttributeCopier, each with its
      CopyImmutableAttributesTo as a function of source and destination contents. */
  type CopierTable = map<string, (Value, Value) -> CopyResult>

  predicate HasCustomCopier(v: Value, copiers: CopierTable) {
    v.Struct? && v.typeName in copiers
  }

  /** A source field the loop may recurse into: embedded and not tagged immutable. */
  predicate Recursed(f: Field) {
    f.apikitTag != ImmutableTag && f.anonymous
  }

  /** At every level the recursion reaches, the destination has a field at the position
      of each embedded, untagged source field: the positional lookup of
      attributecopier.go:62 stays in range. The copy recurses only where that positional
      field is embedded too, so only there is the same-named pair constrained. */
  ghost predicate Conforms(src: Value, dst: Value, copiers: CopierTable)
    decreases src
  {
    (src.Struct? && dst.Struct? && !HasCustomCopier(src, copiers)) ==>
      (forall k :: 0 <= k < |src.fields| && Recursed(src.fields[k]) ==> k < |dst.fields|) &&
      forall k, j ::
        0 <= k < |src.fields| && 0 <= j < |dst.fields| && Recursed(src.fields[k]) &&
        k < |dst.fields| && dst.fields[k].anonymous && src.fields[k].name == dst.fields[j].name
        ==> Conforms(src.fields[k].value, dst.fields[j].value, copiers)
  }

  /** Conforms for the source fields from index i on, against the current dest fields. */
  ghost predicate ConformsFrom(src: Value, fields: seq<Field>, i: nat, copiers: CopierTable)
    requires src.Struct?
  {
    (forall k :: i <= k < |src.fields| && Recursed(src.fields[k]) ==> k < |fields|) &&
    forall k, j ::
      i <= k < |src.fields| && 0 <= j < |fields| && Recursed(src.fields[k]) &&
      k < |fields| && fields[k].anonymous && src.fields[k].name == fields[j].name
      ==> Conforms(src.fields[k].value, fields[j].value, copiers)
  }

  /** CopyImmutableAttributes on the values two non-nil pointers designate. */
  function DeepCopy(src: Value, dst: Value, copiers: CopierTable): (r: CopyResult)
    requires WellFormed(src) && Conforms(src, dst, copiers)
    ensures HasCustomCopier(src, copiers) ==> r == copiers[src.typeName](src, dst)
    ensures !HasCustomCopier(src, copiers) && !src.Struct? ==> r == CopyResult(Some(SourceNotStruct), dst)
    ensures !HasCustomCopier(src, copiers) && src.Struct? && !dst.Struct? ==> r == CopyResult(Some(DestinationNotStruct), dst)
    ensures !HasCustomCopier(src, copiers) && src.Struct? && dst.Struct? ==>
      r.dest.Struct? && r.dest.typeName == dst.typeName && |r.dest.fields| == |dst.fields| &&
      (forall j :: 0 <= j < |dst.fields| ==> SameSlot(dst.fields[j], r.dest.fields[j])) &&
      forall j :: 0 <= j < |dst.fields| && !Targeted(src, 0, dst.fields[j].name) ==> r.dest.fields[j] == dst.fields[j]
    decreases src, 1
  {
    if HasCustomCopier(src, copiers) then copiers[src.typeName](src, dst)
    else if !src.Struct? then CopyResult(Some(SourceNotStruct), dst)
    else if !dst.Struct? then CopyResult(Some(DestinationNotStruct), dst)
    else
      var (err, fields) := CopyFieldsFrom(src, dst.fields, 0, copiers);
      CopyResult(err, dst.(fields := fields))
  }

  /** The loop of attributecopier.go:50-72 from source field i on, the destination's
      fields being `fields` so far. An error from a nested copy stops the loop, keeping
      what was already written. */
  function CopyFieldsFrom(src: Value, fields: seq<Field>, i: nat, copiers: CopierTable): (r: (Option<string>, seq<Field>))
    requires src.Struct? && WellFormed(src)
    requires i <= |src.fields|
    requires ConformsFrom(src, fields, i, copiers)
    ensures |r.1| == |fields| && forall j :: 0 <= j < |fields| ==> SameSlot(fields[j], r.1[j])
    ensures forall j :: 0 <= j < |fields| && !Targeted(src, i, fields[j].name) ==> r.1[j] == fields[j]
    decreases src, 0, |src.fields| - i
  {
    if i == |src.fields| then (None, fields)
    else
      var f := src.fields[i];
      var j := FieldByName(fields, f.name);
      if f.apikitTag == ImmutableTag then
        if j.Some? && Exported(f.name) then
          CopyFieldsFrom(src, fields[j.value := fields[j.value].(value := f.value)], i + 1, copiers)
        else CopyFieldsFrom(src, fields, i + 1, copiers)
      else if f.anonymous && j.Some? && fields[i].anonymous then
        var nested := DeepCopy(f.value, fields[j.value].value, copiers);
        var updated := fields[j.value := fields[j.value].(value := nested.dest)];
        if nested.err.Some? then (nested.err, updated)
        else CopyFieldsFrom(src, updated, i + 1, copiers)
      else CopyFieldsFrom(src, fields, i + 1, copiers)
  }

  /** Some source field from index i on, named `name`, is tagged immutable or anonymous. */
  ghost predicate Targeted(src: Value, i: nat, name: string)
    requires src.Struct?
  {
    exists k :: i <= k < |src.fields| && src.fields[k].name == name &&
      (src.fields[k].apikitTag == ImmutableTag || src.fields[k].anonymous)
  }

  /** CopyImmutableAttributes (attributecopier.go:14-75) on the values of two non-nil
      pointers, written as the source's recursive loop. */
  method CopyPointees(src: Value, dst: Value, copiers: CopierTable) returns (r: CopyResult)
    requires WellFormed(src) && Conforms(src, dst, copiers)
    ensures r == DeepCopy(src, dst, copiers)
    decreases src, 1
  {
    if HasCustomCopier(src, copiers) {
      return copiers[src.typeName](src, dst);
    }
    if !src.Struct? {
      return CopyResult(Some(SourceNotStruct), dst);
    }
    if !dst.Struct? {
      return CopyResult(Some(DestinationNotStruct), dst);
    }
    var fields := dst.fields;
    for i := 0 to |src.fields|
      invariant |fields| == |dst.fields|
      invariant forall j :: 0 <= j < |fields| ==> SameSlot(dst.fields[j], fields[j])
      invariant ConformsFrom(src, fields, i, copiers)
      invariant CopyFieldsFrom(src, dst.fields, 0, copiers) == CopyFieldsFrom(src, fields, i, copiers)
    {
      var f := src.fields[i];
      var j := FieldByName(fields, f.name);
      if f.apikitTag == ImmutableTag {
        if j.Some? && Exported(f.name) {
          var updated := fields[j.value := fields[j.value].(value := f.value)];
          ConformsAfterWrite(src, fields, i, j.value, f.value, copiers);
          fields := updated;
        }
      } else if f.anonymous {
        var positional := fields[i];
        if j.Some? && positional.anonymous {
          var nested := CopyPointees(f.value, fields[j.value].value, copiers);
          var updated := fields[j.value := fields[j.value].(value := nested.dest)];
          if nested.err.Some? {
            return CopyResult(nested.err, dst.(fields := updated));
          }
          ConformsAfterWrite(src, fields, i, j.value, nested.dest, copiers);
          fields := updated;
        }
      }
    }
    return CopyResult(None, dst.(fields := fields));
  }

  /** Writing the destination field named like source field i leaves the remaining
      source fields conforming: their names differ from field i's. */
  lemma ConformsAfterWrite(src: Value, fields: seq<Field>, i: nat, j: nat, v: Value, copiers: CopierTable)
    requires src.Struct? && WellFormed(src) && i < |src.fields| && j < |fields|
    requires fields[j].name == src.fields[i].name
    requires ConformsFrom(src, fields, i, copiers)
    ensures ConformsFrom(src, fields[j := fields[j].(value := v)], i + 1, copiers)
  {
    var updated := fields[j := fields[j].(value := v)];
    forall k, j' | i + 1 <= k < |src.fields| && 0 <= j' < |updated| && Recursed(src.fields[k]) &&
      k < |updated| && updated[k].anonymous && src.fields[k].name == updated[j'].name
      ensures Conforms(src.fields[k].value, updated[j'].value, copiers)
    {
      if j' == j {
        assert false;
      }
    }
  }

  /**
   * CopyImmutableAttributes(source, dest) (attributecopier.go:14-75). Nil arguments are
   * reported, dest first; otherwise the pointees are copied as DeepCopy says and the
   * result is written into the destination in place. The source is only read.
   */
  method CopyImmutableAttributes(source: Option<Cell>, dest: Option<Cell>, copiers: CopierTable) returns (err: Option<string>)
    requires source.Some? && dest.Some? ==>
      WellFormed(source.value.contents) && Conforms(source.value.contents, dest.value.contents, copiers)
    modifies if dest.Some? then {dest.value} else {}
    ensures dest.None? ==> err == Some(NilDestination)
    ensures dest.Some? && source.None? ==> err == Some(NilSource) && dest.value.contents == old(dest.value.contents)
    ensures dest.Some? && source.Some? ==>
      CopyResult(err, dest.value.contents) == DeepCopy(old(source.value.contents), old(dest.value.contents), copiers)
    ensures source.Some? && (dest.None? || source.value != dest.value) ==>
      source.value.contents == old(source.value.contents)
  {
    if dest.None? {
      return Some(NilDestination);
    }
    if source.None? {
      return Some(NilSource);
    }
    var r := CopyPointees(source.value.contents, dest.value.contents, copiers);
    dest.value.contents := r.dest;
    err := r.err;
  }

  /* ---- What a successful copy promises, field by field ---- */

  /** The promise about destination field `d`, now `o`, whose name is that of source
      field k: an immutable-tagged field takes the source's value when it is settable;
      an embedded field whose positional counterpart is embedded too is copied
      recursively; any other field keeps its value. */
  ghost predicate Rule(src: Value, dst: seq<Field>, k: nat, d: Field, o: Field, copiers: CopierTable)
    requires src.Struct? && k < |src.fields|
    decreases src, 0
  {
    var f := src.fields[k];
    if f.apikitTag == ImmutableTag then
      o == (if Exported(d.name) then d.(value := f.value) else d)
    else if f.anonymous && k < |dst| && dst[k].anonymous then
      SameSlot(d, o) && Copied(f.value, d.value, o.value, copiers)
    else o == d
  }

  /** Destination field j, now `o`, after the source fields before n were processed.
      With `stopped`, the copy failed inside source field n, whose counterpart keeps
      only its slot. */
  ghost predicate FieldCopied(src: Value, dst: seq<Field>, j: nat, o: Field, n: nat, stopped: bool, copiers: CopierTable)
    requires src.Struct? && j < |dst|
    decreases src, 1
  {
    match FieldByName(src.fields, dst[j].name)
    case Some(k) =>
      if k < n then Rule(src, dst, k, dst[j], o, copiers)
      else if k == n && stopped then SameSlot(dst[j], o)
      else o == dst[j]
    case None => o == dst[j]
  }

  ghost predicate FieldsCopied(src: Value, dst: seq<Field>, out: seq<Field>, n: nat, stopped: bool, copiers: CopierTable)
    requires src.Struct?
    decreases src, 2
  {
    |out| == |dst| && forall j :: 0 <= j < |dst| ==> FieldCopied(src, dst, j, out[j], n, stopped, copiers)
  }

  /** The copy failed inside source field n: the error is the one the nested copy onto
      n's counterpart returned, and the counterpart holds what that nested copy left. */
  ghost predicate NestedFailure(src: Value, dst: seq<Field>, n: nat, err: Option<string>, out: seq<Field>, copiers: CopierTable)
    requires src.Struct? && n < |src.fields|
  {
    match FieldByName(dst, src.fields[n].name)
    case None => false
    case Some(jj) =>
      var f := src.fields[n];
      jj < |out| && WellFormed(f.value) && Conforms(f.value, dst[jj].value, copiers) &&
      err == DeepCopy(f.value, dst[jj].value, copiers).err &&
      out[jj].value == DeepCopy(f.value, dst[jj].value, copiers).dest
  }

  /** `out` is what a successful copy of `src` onto `dst` may leave in the destination. */
  ghost predicate Copied(src: Value, dst: Value, out: Value, copiers: CopierTable)
    decreases src, 3
  {
    if HasCustomCopier(src, copiers) then copiers[src.typeName](src, dst) == CopyResult(None, out)
    else
      src.Struct? && dst.Struct? && out.Struct? && out.typeName == dst.typeName &&
      FieldsCopied(src, dst.fields, out.fields, |src.fields|, false, copiers)
  }

  /** Processing source field i, whose counterpart dst[jj] becomes `o` by the rule,
      extends the processed prefix by one. */
  lemma StepCopied(src: Value, dst: seq<Field>, fields: seq<Field>, i: nat, jj: nat, o: Field, copiers: CopierTable)
    requires src.Struct? && DistinctNames(src.fields) && DistinctNames(dst) && i < |src.fields|
    requires FieldsCopied(src, dst, fields, i, false, copiers)
    requires jj < |dst| && dst[jj].name == src.fields[i].name && Rule(src, dst, i, dst[jj], o, copiers)
    ensures FieldsCopied(src, dst, fields[jj := o], i + 1, false, copiers)
  {
    FieldByNameDistinct(src.fields, i);
    var out := fields[jj := o];
    forall j | 0 <= j < |dst|
      ensures FieldCopied(src, dst, j, out[j], i + 1, false, copiers)
    {
      assert FieldCopied(src, dst, j, fields[j], i, false, copiers);
    }
  }

  /** A failure inside source field i leaves the fields processed before it copied. */
  lemma StepStopped(src: Value, dst: seq<Field>, fields: seq<Field>, i: nat, jj: nat, o: Field, copiers: CopierTable)
    requires src.Struct? && DistinctNames(src.fields) && DistinctNames(dst) && i < |src.fields|
    requires FieldsCopied(src, dst, fields, i, false, copiers)
    requires jj < |dst| && dst[jj].name == src.fields[i].name && SameSlot(dst[jj], o)
    ensures FieldsCopied(src, dst, fields[jj := o], i, true, copiers)
  {
    FieldByNameDistinct(src.fields, i);
    var out := fields[jj := o];
    forall j | 0 <= j < |dst|
      ensures FieldCopied(src, dst, j, out[j], i, true, copiers)
    {
      assert FieldCopied(src, dst, j, fields[j], i, false, copiers);
    }
  }

  /** Before source field i is processed, its counterpart is untouched. */
  lemma CounterpartUntouched(src: Value, dst: seq<Field>, fields: seq<Field>, i: nat, jj: nat, copiers: CopierTable)
    requires src.Struct? && DistinctNames(src.fields) && i < |src.fields|
    requires FieldsCopied(src, dst, fields, i, false, copiers)
    requires jj < |dst| && dst[jj].name == src.fields[i].name
    ensures fields[jj] == dst[jj]
  {
    FieldByNameDistinct(src.fields, i);
    assert FieldCopied(src, dst, jj, fields[jj], i, false, copiers);
  }

  /** Processing source field i changes nothing when the rule keeps its counterpart. */
  lemma StepUnchanged(src: Value, dst: seq<Field>, fields: seq<Field>, i: nat, copiers: CopierTable)
    requires src.Struct? && DistinctNames(src.fields) && DistinctNames(dst) && i < |src.fields|
    requires FieldsCopied(src, dst, fields, i, false, copiers)
    requires forall jj :: 0 <= jj < |dst| && dst[jj].name == src.fields[i].name ==> Rule(src, dst, i, dst[jj], dst[jj], copiers)
    ensures FieldsCopied(src, dst, fields, i + 1, false, copiers)
  {
    FieldByNameDistinct(src.fields, i);
    forall j | 0 <= j < |dst|
      ensures FieldCopied(src, dst, j, fields[j], i + 1, false, copiers)
    {
      assert FieldCopied(src, dst, j, fields[j], i, false, copiers);
      if dst[j].name == src.fields[i].name {
        assert Rule(src, dst, i, dst[j], dst[j], copiers);
      }
    }
  }

  /** The source fields from i on are processed as FieldsCopied describes. */
  lemma {:induction false} CopyFieldsFromSound(src: Value, dst: seq<Field>, fields: seq<Field>, i: nat, copiers: CopierTable)
    requires src.Struct? && WellFormed(src) && DistinctNames(dst)
    requires forall j :: 0 <= j < |dst| ==> WellFormed(dst[j].value)
    requires i <= |src.fields| && |fields| == |dst|
    requires ConformsFrom(src, fields, i, copiers)
    requires forall j :: 0 <= j < |dst| ==> SameSlot(dst[j], fields[j])
    requires FieldsCopied(src, dst, fields, i, false, copiers)
    ensures var r := CopyFieldsFrom(src, fields, i, copiers);
      (r.0.None? ==> FieldsCopied(src, dst, r.1, |src.fields|, false, copiers)) &&
      (r.0.Some? ==> exists n :: i <= n < |src.fields| && src.fields[n].anonymous &&
                                 FieldsCopied(src, dst, r.1, n, true, copiers) &&
                                 NestedFailure(src, dst, n, r.0, r.1, copiers))
    decreases src, 0, |src.fields| - i, 3
  {
    if i == |src.fields| {
      return;
    }
    var f := src.fields[i];
    var j := FieldByName(fields, f.name);
    FieldByNameSameSlots(fields, dst, f.name);
    if f.apikitTag == ImmutableTag && j.Some? && Exported(f.name) {
      TaggedSound(src, dst, fields, i, j.value, copiers);
    } else if f.apikitTag != ImmutableTag && f.anonymous && j.Some? && fields[i].anonymous {
      EmbeddedSound(src, dst, fields, i, j.value, copiers);
    } else {
      OtherSound(src, dst, fields, i, copiers);
    }
  }

  lemma {:induction false} TaggedSound(src: Value, dst: seq<Field>, fields: seq<Field>, i: nat, jj: nat, copiers: CopierTable)
    requires src.Struct? && WellFormed(src) && DistinctNames(dst)
    requires forall j :: 0 <= j < |dst| ==> WellFormed(dst[j].value)
    requires i < |src.fields| && |fields| == |dst|
    requires ConformsFrom(src, fields, i, copiers)
    requires forall j :: 0 <= j < |dst| ==> SameSlot(dst[j], fields[j])
    requires FieldsCopied(src, dst, fields, i, false, copiers)
    requires src.fields[i].apikitTag == ImmutableTag && Exported(src.fields[i].name)
    requires FieldByName(fields, src.fields[i].name) == Some(jj)
    ensures var r := CopyFieldsFrom(src, fields, i, copiers);
      (r.0.None? ==> FieldsCopied(src, dst, r.1, |src.fields|, false, copiers)) &&
      (r.0.Some? ==> exists n :: i <= n < |src.fields| && src.fields[n].anonymous &&
                                 FieldsCopied(src, dst, r.1, n, true, copiers) &&
                                 NestedFailure(src, dst, n, r.0, r.1, copiers))
    decreases src, 0, |src.fields| - i, 0
  {
    var f := src.fields[i];
    var updated := fields[jj := fields[jj].(value := f.value)];
    CounterpartUntouched(src, dst, fields, i, jj, copiers);
    StepCopied(src, dst, fields, i, jj, updated[jj], copiers);
    ConformsAfterWrite(src, fields, i, jj, f.value, copiers);
    CopyFieldsFromSound(src, dst, updated, i + 1, copiers);
  }

  lemma {:induction false} EmbeddedSound(src: Value, dst: seq<Field>, fields: seq<Field>, i: nat, jj: nat, copiers: CopierTable)
    requires src.Struct? && WellFormed(src) && DistinctNames(dst)
    requires forall j :: 0 <= j < |dst| ==> WellFormed(dst[j].value)
    requires i < |src.fields| && |fields| == |dst|
    requires ConformsFrom(src, fields, i, copiers)
    requires forall j :: 0 <= j < |dst| ==> SameSlot(dst[j], fields[j])
    requires FieldsCopied(src, dst, fields, i, false, copiers)
    requires src.fields[i].apikitTag != ImmutableTag && src.fields[i].anonymous && fields[i].anonymous
    requires FieldByName(fields, src.fields[i].name) == Some(jj)
    ensures var r := CopyFieldsFrom(src, fields, i, copiers);
      (r.0.None? ==> FieldsCopied(src, dst, r.1, |src.fields|, false, copiers)) &&
      (r.0.Some? ==> exists n :: i <= n < |src.fields| && src.fields[n].anonymous &&
                                 FieldsCopied(src, dst, r.1, n, true, copiers) &&
                                 NestedFailure(src, dst, n, r.0, r.1, copiers))
    decreases src, 0, |src.fields| - i, 2
  {
    if DeepCopy(src.fields[i].value, fields[jj].value, copiers).err.Some? {
      EmbeddedStopped(src, dst, fields, i, jj, copiers);
    } else {
      EmbeddedCopied(src, dst, fields, i, jj, copiers);
    }
  }

  /** A failure inside the embedded field stops the copy there. */
  lemma EmbeddedStopped(src: Value, dst: seq<Field>, fields: seq<Field>, i: nat, jj: nat, copiers: CopierTable)
    requires src.Struct? && WellFormed(src) && DistinctNames(dst)
    requires forall j :: 0 <= j < |dst| ==> WellFormed(dst[j].value)
    requires i < |src.fields| && |fields| == |dst|
    requires ConformsFrom(src, fields, i, copiers)
    requires forall j :: 0 <= j < |dst| ==> SameSlot(dst[j], fields[j])
    requires FieldsCopied(src, dst, fields, i, false, copiers)
    requires src.fields[i].apikitTag != ImmutableTag && src.fields[i].anonymous && fields[i].anonymous
    requires FieldByName(fields, src.fields[i].name) == Some(jj)
    requires DeepCopy(src.fields[i].value, fields[jj].value, copiers).err.Some?
    ensures var r := CopyFieldsFrom(src, fields, i, copiers);
      r.0.Some? && FieldsCopied(src, dst, r.1, i, true, copiers) &&
      NestedFailure(src, dst, i, r.0, r.1, copiers)
  {
    var f := src.fields[i];
    var nested := DeepCopy(f.value, fields[jj].value, copiers);
    var updated := fields[jj := fields[jj].(value := nested.dest)];
    FieldByNameSameSlots(fields, dst, f.name);
    CounterpartUntouched(src, dst, fields, i, jj, copiers);
    StepStopped(src, dst, fields, i, jj, updated[jj], copiers);
    assert CopyFieldsFrom(src, fields, i, copiers) == (nested.err, updated);
  }

  /** A successful copy of the embedded field goes on with the next source field. */
  lemma {:induction false} EmbeddedCopied(src: Value, dst: seq<Field>, fields: seq<Field>, i: nat, jj: nat, copiers: CopierTable)
    requires src.Struct? && WellFormed(src) && DistinctNames(dst)
    requires forall j :: 0 <= j < |dst| ==> WellFormed(dst[j].value)
    requires i < |src.fields| && |fields| == |dst|
    requires ConformsFrom(src, fields, i, copiers)
    requires forall j :: 0 <= j < |dst| ==> SameSlot(dst[j], fields[j])
    requires FieldsCopied(src, dst, fields, i, false, copiers)
    requires src.fields[i].apikitTag != ImmutableTag && src.fields[i].anonymous && fields[i].anonymous
    requires FieldByName(fields, src.fields[i].name) == Some(jj)
    requires DeepCopy(src.fields[i].value, fields[jj].value, copiers).err.None?
    ensures var r := CopyFieldsFrom(src, fields, i, copiers);
      (r.0.None? ==> FieldsCopied(src, dst, r.1, |src.fields|, false, copiers)) &&
      (r.0.Some? ==> exists n :: i <= n < |src.fields| && src.fields[n].anonymous &&
                                 FieldsCopied(src, dst, r.1, n, true, copiers) &&
                                 NestedFailure(src, dst, n, r.0, r.1, copiers))
    decreases src, 0, |src.fields| - i, 1
  {
    var updated := EmbeddedAdvance(src, dst, fields, i, jj, copiers);
    CopyFieldsFromSound(src, dst, updated, i + 1, copiers);
  }

  /** The fields after a successful copy of embedded field i meet the requirements of
      the rest of the loop, which goes on from them. */
  lemma {:induction false} EmbeddedAdvance(src: Value, dst: seq<Field>, fields: seq<Field>, i: nat, jj: nat, copiers: CopierTable)
    returns (updated: seq<Field>)
    requires src.Struct? && WellFormed(src) && DistinctNames(dst)
    requires forall j :: 0 <= j < |dst| ==> WellFormed(dst[j].value)
    requires i < |src.fields| && |fields| == |dst|
    requires ConformsFrom(src, fields, i, copiers)
    requires forall j :: 0 <= j < |dst| ==> SameSlot(dst[j], fields[j])
    requires FieldsCopied(src, dst, fields, i, false, copiers)
    requires src.fields[i].apikitTag != ImmutableTag && src.fields[i].anonymous && fields[i].anonymous
    requires FieldByName(fields, src.fields[i].name) == Some(jj)
    requires DeepCopy(src.fields[i].value, fields[jj].value, copiers).err.None?
    ensures |updated| == |dst| && ConformsFrom(src, updated, i + 1, copiers)
    ensures forall j :: 0 <= j < |dst| ==> SameSlot(dst[j], updated[j])
    ensures FieldsCopied(src, dst, updated, i + 1, false, copiers)
    ensures CopyFieldsFrom(src, fields, i, copiers) == CopyFieldsFrom(src, updated, i + 1, copiers)
    decreases src, 0, |src.fields| - i, 0
  {
    var f := src.fields[i];
    assert Recursed(f) && i < |fields|;
    CounterpartUntouched(src, dst, fields, i, jj, copiers);
    var nested := DeepCopy(f.value, fields[jj].value, copiers);
    updated := fields[jj := fields[jj].(value := nested.dest)];
    assert CopyFieldsFrom(src, fields, i, copiers) == CopyFieldsFrom(src, updated, i + 1, copiers);
    DeepCopySound(f.value, dst[jj].value, copiers);
    StepCopied(src, dst, fields, i, jj, updated[jj], copiers);
    ConformsAfterWrite(src, fields, i, jj, nested.dest, copiers);
  }

  lemma {:induction false} OtherSound(src: Value, dst: seq<Field>, fields: seq<Field>, i: nat, copiers: CopierTable)
    requires src.Struct? && WellFormed(src) && DistinctNames(dst)
    requires forall j :: 0 <= j < |dst| ==> WellFormed(dst[j].value)
    requires i < |src.fields| && |fields| == |dst|
    requires ConformsFrom(src, fields, i, copiers)
    requires forall j :: 0 <= j < |dst| ==> SameSlot(dst[j], fields[j])
    requires FieldsCopied(src, dst, fields, i, false, copiers)
    requires var f := src.fields[i]; var j := FieldByName(fields, f.name);
      !(f.apikitTag == ImmutableTag && j.Some? && Exported(f.name)) &&
      !(f.apikitTag != ImmutableTag && f.anonymous && j.Some? && fields[i].anonymous)
    ensures var r := CopyFieldsFrom(src, fields, i, copiers);
      (r.0.None? ==> FieldsCopied(src, dst, r.1, |src.fields|, false, copiers)) &&
      (r.0.Some? ==> exists n :: i <= n < |src.fields| && src.fields[n].anonymous &&
                                 FieldsCopied(src, dst, r.1, n, true, copiers) &&
                                 NestedFailure(src, dst, n, r.0, r.1, copiers))
    decreases src, 0, |src.fields| - i, 0
  {
    var f := src.fields[i];
    FieldByNameSameSlots(fields, dst, f.name);
    forall jj | 0 <= jj < |dst| && dst[jj].name == f.name
      ensures Rule(src, dst, i, dst[jj], dst[jj], copiers)
    {
      CounterpartUntouched(src, dst, fields, i, jj, copiers);
    }
    StepUnchanged(src, dst, fields, i, copiers);
    CopyFieldsFromSound(src, dst, fields, i + 1, copiers);
  }

  /** A copy that succeeds leaves the destination as Copied describes; one that fails
      inside embedded field n keeps every field processed before n copied and every
      field after n untouched (the copy is not atomic). */
  lemma {:induction false} DeepCopySound(src: Value, dst: Value, copiers: CopierTable)
    requires WellFormed(src) && WellFormed(dst) && Conforms(src, dst, copiers)
    ensures var r := DeepCopy(src, dst, copiers);
      (r.err.None? ==> Copied(src, dst, r.dest, copiers)) &&
      (!HasCustomCopier(src, copiers) && src.Struct? && dst.Struct? && r.err.Some? ==>
        exists n :: 0 <= n < |src.fields| && src.fields[n].anonymous &&
                    FieldsCopied(src, dst.fields, r.dest.fields, n, true, copiers) &&
                    NestedFailure(src, dst.fields, n, r.err, r.dest.fields, copiers))
    decreases src, 1
  {
    if !HasCustomCopier(src, copiers) && src.Struct? && dst.Struct? {
      forall j | 0 <= j < |dst.fields|
        ensures FieldCopied(src, dst.fields, j, dst.fields[j], 0, false, copiers)
      {
      }
      CopyFieldsFromSound(src, dst.fields, dst.fields, 0, copiers);
    }
  }

  /** After a successful copy, a settable destination field named like an immutable-tagged
      source field holds the source field's value, whatever it held before. */
  lemma TaggedFieldTakesSourceValue(src: Value, dst: Value, copiers: CopierTable, k: nat, j: nat)
    requires WellFormed(src) && WellFormed(dst) && Conforms(src, dst, copiers)
    requires src.Struct? && dst.Struct? && !HasCustomCopier(src, copiers)
    requires DeepCopy(src, dst, copiers).err.None?
    requires k < |src.fields| && src.fields[k].apikitTag == ImmutableTag
    requires j < |dst.fields| && dst.fields[j].name == src.fields[k].name && Exported(dst.fields[j].name)
    ensures DeepCopy(src, dst, copiers).dest.fields[j] == dst.fields[j].(value := src.fields[k].value)
  {
    var out := DeepCopy(src, dst, copiers).dest;
    DeepCopySound(src, dst, copiers);
    FieldByNameDistinct(src.fields, k);
    assert FieldsCopied(src, dst.fields, out.fields, |src.fields|, false, copiers);
    assert FieldCopied(src, dst.fields, j, out.fields[j], |src.fields|, false, copiers);
    assert Rule(src, dst.fields, k, dst.fields[j], out.fields[j], copiers);
  }

  /** After a successful copy, an embedded field whose positional counterpart is embedded
      too holds the recursive copy of the source's embedded value. */
  lemma EmbeddedFieldCopied(src: Value, dst: Value, copiers: CopierTable, k: nat, j: nat)
    requires WellFormed(src) && WellFormed(dst) && Conforms(src, dst, copiers)
    requires src.Struct? && dst.Struct? && !HasCustomCopier(src, copiers)
    requires DeepCopy(src, dst, copiers).err.None?
    requires k < |src.fields| && src.fields[k].apikitTag != ImmutableTag && src.fields[k].anonymous
    requires k < |dst.fields| && dst.fields[k].anonymous
    requires j < |dst.fields| && dst.fields[j].name == src.fields[k].name
    ensures var o := DeepCopy(src, dst, copiers).dest.fields[j];
      SameSlot(dst.fields[j], o) && Copied(src.fields[k].value, dst.fields[j].value, o.value, copiers)
  {
    var out := DeepCopy(src, dst, copiers).dest;
    DeepCopySound(src, dst, copiers);
    FieldByNameDistinct(src.fields, k);
    assert FieldsCopied(src, dst.fields, out.fields, |src.fields|, false, copiers);
    assert FieldCopied(src, dst.fields, j, out.fields[j], |src.fields|, false, copiers);
    assert Rule(src, dst.fields, k, dst.fields[j], out.fields[j], copiers);
  }

  /** An immutable-tagged field before an embedded pointer: the nested call fails on the
      pointer (its address is not a pointer to a struct), and the tagged field stays copied. */
  lemma PartialCopyOnNestedError()
    ensures var src := Struct("T", [Field("Stamp", ImmutableTag, false, Int(1)), Field("Base", "", true, Ptr(5))]);
      var dst := Struct("T", [Field("Stamp", ImmutableTag, false, Int(2)), Field("Base", "", true, Ptr(6))]);
      WellFormed(src) && WellFormed(dst) && Conforms(src, dst, map[]) &&
      DeepCopy(src, dst, map[]) ==
        CopyResult(Some(SourceNotStruct), Struct("T", [Field("Stamp", ImmutableTag, false, Int(1)), Field("Base", "", true, Ptr(6))]))
  {
    var src := Struct("T", [Field("Stamp", ImmutableTag, false, Int(1)), Field("Base", "", true, Ptr(5))]);
    var dst := Struct("T", [Field("Stamp", ImmutableTag, false, Int(2)), Field("Base", "", true, Ptr(6))]);
    var stamped := [Field("Stamp", ImmutableTag, false, Int(1)), Field("Base", "", true, Ptr(6))];
    assert FieldByName(dst.fields, "Stamp") == Some(0);
    assert FieldByName(stamped, "Base") == Some(1) by {
      assert stamped[0].name != "Base";
    }
    assert Exported("Stamp");
    assert dst.fields[0 := dst.fields[0].(value := Int(1))] == stamped;
    assert CopyFieldsFrom(src, dst.fields, 0, map[]) == CopyFieldsFrom(src, stamped, 1, map[]);
    assert DeepCopy(Ptr(5), Ptr(6), map[]) == CopyResult(Some(SourceNotStruct), Ptr(6));
    assert stamped[1 := stamped[1].(value := Ptr(6))] == stamped;
  }
}
