// The configuration manager's descriptor helpers and the token handlers
// that search the repository for the object a token refers to.

module JunoHandlers {
  import opened Uefi
  import opened JunoRepository

  /**
   * HandleCmObject: describe `count` objects at `objects`; always succeeds.
   * The descriptor is well formed exactly when the arguments are: a NULL
   * pointer with nothing counted, or `count` elements that all lie inside the
   * one field the pointer addresses, with the size of `count` such elements.
   */
  function HandleCmObject(objectId: CmObjectId, objects: Addr, size: ObjSize, count: nat): (d: CmObjDesc)
    ensures d.objectId == objectId && d.data == objects
    ensures d.size == size && d.count == count
    ensures (objects.At? && 0 < count && objects.index + count <= Length(objects.field)
             && size == SizeOf(count, objects.field)) ==> Describes(d)
    ensures objects.Null? && count == 0 && size.count == 0 ==> Describes(d)
    ensures Describes(d) ==> !objects.Elsewhere?
    ensures Describes(d) && objects.At? ==>
              0 < count && objects.index + count <= Length(objects.field) && size == SizeOf(count, objects.field)
  {
    CmObjDesc(objectId, size, objects, count)
  }

  /**
   * The search done by GetGicCInfo, GetLpiInfo, GetPciAddressMapInfo,
   * GetPciInterruptMapInfo, GetPsdInfo and GetCpcInfo, stated directly: a NULL
   * This or descriptor is rejected, a token that addresses an element of
   * `field` yields a descriptor of that one element, and any other token is
   * not found and leaves the descriptor as it was.
   */
  function ElementSearch(thisPresent: bool, field: Field, objectId: CmObjectId,
                         token: Addr, desc: Option<CmObjDesc>): Lookup
  {
    if !thisPresent || desc.None? then (InvalidParameter, desc)
    else if token.At? && token.field == field && token.index < Length(field)
    then (Success, Some(CmObjDesc(objectId, SizeOf(1, field), token, 1)))
    else (NotFound, desc)
  }

  /**
   * The loop those six handlers share: walk the elements of `field` and
   * compare each element's address with the token.
   */
  method FindElementByToken(thisPresent: bool, field: Field, objectId: CmObjectId,
                            searchToken: Addr, desc: Option<CmObjDesc>)
    returns (status: EfiStatus, out: Option<CmObjDesc>)
    ensures status == ElementSearch(thisPresent, field, objectId, searchToken, desc).0
    ensures out == ElementSearch(thisPresent, field, objectId, searchToken, desc).1
  {
    if !thisPresent || desc.None? {
      return InvalidParameter, desc;
    }
    var totalObjCount := Length(field);
    for objIndex := 0 to totalObjCount
      invariant forall k :: 0 <= k < objIndex ==> searchToken != At(field, k)
    {
      if searchToken == At(field, objIndex) {
        return Success, Some(CmObjDesc(objectId, SizeOf(1, field), At(field, objIndex), 1));
      }
    }
    return NotFound, desc;
  }

  /** GetGTBlockTimerFrameInfo: only the address of the frame array matches. */
  function TimerFrameSearch(thisPresent: bool, objectId: CmObjectId, token: Addr,
                            desc: Option<CmObjDesc>): (r: Lookup)
    ensures !thisPresent || desc.None? ==> r == (InvalidParameter, desc)
    ensures thisPresent && desc.Some? && token == At(GTBlock0TimerInfo, 0) ==>
              r.0 == Success && r.1.Some? && r.1.value.count == Length(GTBlock0TimerInfo)
    ensures thisPresent && desc.Some? && token != At(GTBlock0TimerInfo, 0) ==> r == (NotFound, desc)
  {
    if !thisPresent || desc.None? then (InvalidParameter, desc)
    else if token != At(GTBlock0TimerInfo, 0) then (NotFound, desc)
    else
      var n := Length(GTBlock0TimerInfo);
      (Success, Some(CmObjDesc(objectId, SizeOf(n, GTBlock0TimerInfo), token, n)))
  }

  /** The reference lists GetCmObjRefs knows, in the order it tests them. */
  const ObjRefLists: seq<Field> :=
    [BigClusterResources, BigCoreResources, LittleClusterResources,
     LittleCoreResources, ClustersLpiRef, CoresLpiRef, PciAddressMapRef,
     PciInterruptMapRef]

  /**
   * GetCmObjRefs: a token naming one of the reference lists yields the whole
   * list. The object id is left as the caller set it.
   */
  function ObjRefSearch(thisPresent: bool, token: Addr, desc: Option<CmObjDesc>): (r: Lookup)
    ensures !thisPresent || desc.None? ==> r == (InvalidParameter, desc)
    ensures thisPresent && desc.Some? ==>
              (r.0 == Success <==> token.At? && token.index == 0 && token.field in ObjRefLists)
  {
    if !thisPresent || desc.None? then (InvalidParameter, desc)
    else if token.At? && token.index == 0 && token.field in ObjRefLists then
      var n := Length(token.field);
      (Success, Some(desc.value.(size := SizeOf(n, token.field), data := token, count := n)))
    else (NotFound, desc)
  }

  /** The CM_OBJECT_HANDLER_PROC a dispatcher hands to the token helpers. */
  datatype TokenHandler = SearchElements(field: Field) | SearchTimerFrames | SearchObjRefs

  function RunHandler(h: TokenHandler, thisPresent: bool, objectId: CmObjectId,
                      token: Addr, desc: Option<CmObjDesc>): (r: Lookup)
    ensures !thisPresent || desc.None? ==> r == (InvalidParameter, desc)
    ensures desc.Some? ==> r.1.Some?
    ensures r.0 != Success ==> r.1 == desc
  {
    match h
    case SearchElements(f) => ElementSearch(thisPresent, f, objectId, token, desc)
    case SearchTimerFrames => TimerFrameSearch(thisPresent, objectId, token, desc)
    case SearchObjRefs => ObjRefSearch(thisPresent, token, desc)
  }

  /**
   * HandleCmObjectRefByToken: the object id is always stored; CM_NULL_TOKEN
   * describes the whole given array, any other token goes to the handler.
   */
  function HandleCmObjectRefByToken(objectId: CmObjectId, objects: Addr, size: ObjSize,
                                    count: nat, token: Addr, h: TokenHandler,
                                    desc: CmObjDesc): (r: (EfiStatus, CmObjDesc))
    ensures token == Null ==> r == (Success, HandleCmObject(objectId, objects, size, count))
    ensures r.1.objectId == objectId
  {
    var d := desc.(objectId := objectId);
    if token == Null then (Success, d.(size := size, data := objects, count := count))
    else
      var res := RunHandler(h, true, objectId, token, Some(d));
      (res.0, if res.1.Some? then res.1.value else d)
  }

  /**
   * HandleCmObjectSearchPlatformRepo: as above, but CM_NULL_TOKEN is refused
   * because there is no array to fall back to.
   */
  function HandleCmObjectSearchPlatformRepo(objectId: CmObjectId, token: Addr,
                                            h: TokenHandler, desc: CmObjDesc): (r: (EfiStatus, CmObjDesc))
    ensures token == Null ==> r.0 == InvalidParameter
    ensures r.1.objectId == objectId
  {
    var d := desc.(objectId := objectId);
    if token == Null then (InvalidParameter, d)
    else
      var res := RunHandler(h, true, objectId, token, Some(d));
      (res.0, if res.1.Some? then res.1.value else d)
  }

  // ---------------------------------------------------------------------
  // Properties of the handlers.

  /**
   * The element search succeeds exactly for a token addressing an element of
   * the field, and then describes just that element.
   */
  lemma ElementSearchFinds(field: Field, objectId: CmObjectId, token: Addr, desc: CmObjDesc)
    ensures var r := ElementSearch(true, field, objectId, token, Some(desc));
      (r.0 == Success <==> exists i :: 0 <= i < Length(field) && token == At(field, i)) &&
      (r.0 == Success ==> r.1 == Some(CmObjDesc(objectId, SizeOf(1, field), token, 1))) &&
      (r.0 != Success ==> r == (NotFound, Some(desc)))
  {
  }

  /** Whatever a handler returns on success is a well-formed descriptor. */
  lemma HandlersDescribe(h: TokenHandler, objectId: CmObjectId, token: Addr, desc: CmObjDesc)
    ensures var r := RunHandler(h, true, objectId, token, Some(desc));
      r.0 == Success ==> r.1.Some? && Describes(r.1.value) && r.1.value.data == token
  {
  }
}
