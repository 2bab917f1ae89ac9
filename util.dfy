/**
 * util.go: finding, reading and replacing the GenericRESTController a revel controller
 * embeds. A controller is a struct whose members are listed in declaration order; the
 * embedded dispatcher is the member that is anonymous and named GenericRESTController,
 * and its value is the dispatcher's three fields. The object handed in may be a struct
 * value, a pointer to a struct (a heap cell), or something else.
 */
module Embedding {
  import opened Wrappers
  import opened Values
  import opened Controller

  /** The value of an embedded GenericRESTController: what the injection filter binds. */
  datatype Binding = Binding(
    authenticatedUser: Option<Identity>,
    request: Option<Request>,
    modelProvider: Option<Provider>)

  /** The value of a controller member: an embedded dispatcher, or anything else. */
  datatype MemberValue = DispatcherValue(binding: Binding) | OtherValue(v: Value)

  datatype Member = Member(name: string, anonymous: bool, value: MemberValue)

  /** The member util.go looks for: anonymous AND named GenericRESTController. */
  predicate IsDispatcherMember(m: Member) {
    m.name == RestControllerName && m.anonymous
  }

  /** An anonymous member takes its name from its type, so the one named
      GenericRESTController holds a dispatcher. */
  predicate MembersTyped(ms: seq<Member>) {
    forall i :: 0 <= i < |ms| && IsDispatcherMember(ms[i]) ==> ms[i].value.DispatcherValue?
  }

  type Members = ms: seq<Member> | MembersTyped(ms) witness []

  /** A controller struct reached through a pointer. */
  class StructCell {
    var members: Members

    constructor (ms: Members)
      ensures members == ms
    {
      members := ms;
    }
  }

  /** The interface{} argument: a struct value, a pointer to a struct (None: nil), a
      non-nil pointer to something that is not a struct, or a value of another kind. */
  datatype Obj =
    | StructValue(members: Members)
    | PointerToStruct(target: Option<StructCell>)
    | PointerToNonStruct
    | NonStruct

  function Footprint(obj: Obj): set<object> {
    if obj.PointerToStruct? && obj.target.Some? then {obj.target.value} else {}
  }

  /** The struct util.go inspects: the value itself, or what a non-nil pointer points
      at; None for every other kind (reflect.Indirect of a nil pointer is not a struct). */
  function StructOf(obj: Obj): (r: Option<Members>)
    reads Footprint(obj)
    ensures r.Some? <==> obj.StructValue? || (obj.PointerToStruct? && obj.target.Some?)
  {
    match obj
    case StructValue(ms) => Some(ms)
    case PointerToStruct(target) =>
      if target.Some? then Some(target.value.members) else None
    case _ => None
  }

  /** The position of the first dispatcher member. */
  function FirstDispatcher(ms: seq<Member>): (r: Option<nat>)
    ensures r.Some? ==> r.value < |ms| && IsDispatcherMember(ms[r.value])
    ensures r.Some? ==> forall j :: 0 <= j < r.value ==> !IsDispatcherMember(ms[j])
    ensures r.None? <==> forall j :: 0 <= j < |ms| ==> !IsDispatcherMember(ms[j])
  {
    if |ms| == 0 then None
    else if IsDispatcherMember(ms[0]) then Some(0)
    else match FirstDispatcher(ms[1..])
      case None => None
      case Some(j) => Some(j + 1)
  }

  /** getEmbeddedRESTController (util.go:18-43): a copy of the first dispatcher member's
      value; None for an object that is no struct, or a struct without such a member. */
  method GetEmbedded(obj: Obj) returns (r: Option<Binding>)
    ensures StructOf(obj).None? ==> r.None?
    ensures StructOf(obj).Some? ==>
      var ms := StructOf(obj).value;
      match FirstDispatcher(ms)
      case None => r.None?
      case Some(i) => r == Some(ms[i].value.binding)
  {
    var ms: Members;
    match obj {
      case StructValue(members) =>
        ms := members;
      case PointerToStruct(target) =>
        if target.None? {
          return None;
        }
        ms := target.value.members;
      case PointerToNonStruct =>
        return None;
      case NonStruct =>
        return None;
    }
    for i := 0 to |ms|
      invariant forall j :: 0 <= j < i ==> !IsDispatcherMember(ms[j])
    {
      if ms[i].name == RestControllerName && ms[i].anonymous {
        return Some(ms[i].value.binding);
      }
    }
    return None;
  }

  /** embedsRESTController (util.go:14-16). */
  method Embeds(obj: Obj) returns (b: bool)
    ensures b <==> StructOf(obj).Some? && FirstDispatcher(StructOf(obj).value).Some?
  {
    var found := GetEmbedded(obj);
    b := found.Some?;
  }

  /** How setEmbeddedRESTController ends: true, false, or a panic, because reflect
      cannot Set a field of a struct passed by value. */
  datatype SetResult = Written | NotWritten | Unaddressable

  /** setEmbeddedRESTController (util.go:45-70): replaces the first dispatcher member's
      value behind a pointer, writing that member alone. */
  method SetEmbedded(obj: Obj, b: Binding) returns (r: SetResult)
    modifies Footprint(obj)
    ensures old(StructOf(obj)).None? ==> r == NotWritten
    ensures old(StructOf(obj)).Some? && FirstDispatcher(old(StructOf(obj)).value).None? ==> r == NotWritten
    ensures old(StructOf(obj)).Some? && FirstDispatcher(old(StructOf(obj)).value).Some? ==>
      if obj.StructValue? then r == Unaddressable else r == Written
    ensures r == Written ==>
      var ms := old(StructOf(obj)).value;
      var i := FirstDispatcher(ms).value;
      obj.PointerToStruct? && obj.target.value.members == ms[i := ms[i].(value := DispatcherValue(b))]
    ensures r != Written ==> unchanged(Footprint(obj))
  {
    var ms: Members;
    match obj {
      case StructValue(members) =>
        ms := members;
      case PointerToStruct(target) =>
        if target.None? {
          return NotWritten;
        }
        ms := target.value.members;
      case PointerToNonStruct =>
        return NotWritten;
      case NonStruct =>
        return NotWritten;
    }
    for i := 0 to |ms|
      invariant forall j :: 0 <= j < i ==> !IsDispatcherMember(ms[j])
    {
      if ms[i].name == RestControllerName && ms[i].anonymous {
        if obj.StructValue? {
          return Unaddressable;
        }
        var cell := obj.target.value;
        cell.members := ms[i := ms[i].(value := DispatcherValue(b))];
        return Written;
      }
    }
    return NotWritten;
  }

  /** A struct and a pointer to it give the same answers. */
  lemma PointerAgreesWithValue(c: StructCell)
    ensures StructOf(PointerToStruct(Some(c))) == StructOf(StructValue(c.members))
  {
  }

  /** Which member is the dispatcher depends on names and anonymity alone, so after Set
      wrote b, Get finds the same member and returns b. */
  lemma {:induction false} GetAfterSet(ms: Members, b: Binding)
    requires FirstDispatcher(ms).Some?
    ensures var i := FirstDispatcher(ms).value;
      var written := ms[i := ms[i].(value := DispatcherValue(b))];
      FirstDispatcher(written) == Some(i) && written[i].value.binding == b
  {
    var i := FirstDispatcher(ms).value;
    var written := ms[i := ms[i].(value := DispatcherValue(b))];
    assert IsDispatcherMember(written[i]);
    assert forall j :: 0 <= j < i ==> written[j] == ms[j];
  }
}
