/**
 * The DICOM vocabulary shared by the tag scripts and the tree model: tag numbers,
 * value representations (VRs), the values read from the CSV and JSON tag
 * specifications, and `check_cast`, which converts a value to the Python type
 * pydicom expects for a VR.
 *
 * pydicom itself (tag-name resolution, the data dictionary, element
 * construction) and Python's conversions on values of a foreign type are
 * uninterpreted: they are fields of `Externals`.
 */
module Dicom {
  import opened Wrappers

  /** A DICOM tag: group in the high 16 bits, element in the low 16 bits. */
  newtype TagCode = x: int | 0 <= x < 0x1_0000_0000

  /** pydicom's `VR` enumeration: the standard codes and the four ambiguous ones. */
  datatype VR =
    | AE | AS | AT | CS | DA | DS | DT | FD | FL | IS | LO | LT | OB | OD | OF | OL | OV | OW
    | PN | SH | SL | SQ | SS | ST | SV | TM | UC | UI | UL | UN | UR | US | UT | UV
    | US_SS_OW | US_SS | US_OW | OB_OW

  /** pydicom's `STR_VR`: the default- and customizable-charset VRs. */
  const StringVRs: set<VR> := {AE, AS, CS, DA, DS, DT, IS, TM, UI, UR, LO, LT, PN, SH, ST, UC, UT}
  /** pydicom's `INT_VR`. */
  const IntVRs: set<VR> := {AT, IS, SL, SS, SV, UL, US, UV}
  /** pydicom's `FLOAT_VR`. */
  const FloatVRs: set<VR> := {DS, FD, FL}
  /** pydicom's `BYTES_VR`. */
  const BytesVRs: set<VR> := {OB, OD, OF, OL, OV, OW, UN}

  /**
   * A value read from a CSV cell or a JSON specification, or produced by a
   * cast. Floats are kept as their IEEE-754 bit pattern: the model never
   * computes with them. A JSON object is a `JsonObject`.
   */
  datatype Value =
    | Null
    | Text(s: string)
    | Integer(i: int)
    | Float(bits: bv64)
    | Bytes(b: seq<bv8>)
    | TagRef(tag: TagCode)
    | Boolean(flag: bool)
    | List(items: seq<Value>)
    | Object(entries: seq<(string, Value)>)

  /** No key appears twice among the entries. */
  predicate DistinctKeys(entries: seq<(string, Value)>)
  {
    forall i, j :: 0 <= i < j < |entries| ==> entries[i].0 != entries[j].0
  }

  /**
   * A value `json.load` can produce. It builds every object as a Python dict,
   * which holds each key once (at the position of its first occurrence in
   * the document, with the value of its last one), so every object, at any
   * depth, has distinct keys.
   */
  predicate JsonValue(v: Value)
    decreases v
  {
    match v
    case List(items) => forall k :: 0 <= k < |items| ==> JsonValue(items[k])
    case Object(entries) => DistinctKeys(entries) && forall k :: 0 <= k < |entries| ==> JsonValue(entries[k].1)
    case _ => true
  }

  /** A dict read by `json.load`: its (key, value) entries in iteration order. */
  type JsonObject = entries: seq<(string, Value)> | DistinctKeys(entries) && forall k :: 0 <= k < |entries| ==> JsonValue(entries[k].1)

  /** The Python type a value has, as far as `check_cast` is concerned. */
  datatype Kind = NoneKind | TextKind | IntKind | FloatKind | BytesKind | TagKind | BoolKind | ListKind | DictKind

  function KindOf(v: Value): Kind
  {
    match v
    case Null => NoneKind
    case Text(_) => TextKind
    case Integer(_) => IntKind
    case Float(_) => FloatKind
    case Bytes(_) => BytesKind
    case TagRef(_) => TagKind
    case Boolean(_) => BoolKind
    case List(_) => ListKind
    case Object(_) => DictKind
  }

  /**
   * The foreign functions the scripts call. Each one that can raise returns
   * None where the source would see an exception.
   *   tag          pydicom.tag.Tag on a string (keyword or hex) or other object
   *   dictionaryVR pydicom.datadict.dictionary_VR
   *   toStr, toInt, toFloat, toBytes
   *                Python's str(), int(), float(), bytes() on a value that is
   *                not already of the target type
   *   accepts      whether DataElement(tag, vr, value) and Dataset.add succeed
   *                while warnings are turned into errors
   */
  datatype Externals = Externals(
    tag: Value -> Option<TagCode>,
    dictionaryVR: TagCode -> Option<VR>,
    toStr: Value -> string,
    toInt: Value -> Option<int>,
    toFloat: Value -> Option<bv64>,
    toBytes: Value -> Option<seq<bv8>>,
    accepts: (TagCode, VR, Value) -> bool)

  /** `Tag(v)`: a tag or an in-range integer is taken as it is. */
  function TagOf(x: Externals, v: Value): Option<TagCode>
  {
    match v
    case TagRef(t) => Some(t)
    case Integer(i) => if 0 <= i < 0x1_0000_0000 then Some(i as TagCode) else None
    case _ => x.tag(v)
  }

  /** Whether a column or tag name resolves to a DICOM tag (`Tag(name)` does not raise). */
  predicate Resolves(x: Externals, name: string)
  {
    TagOf(x, Text(name)).Some?
  }

  /** `str(v)`: a string is returned unchanged. */
  function StrOf(x: Externals, v: Value): string
  {
    if v.Text? then v.s else x.toStr(v)
  }

  /** `int(v)`: an integer is returned unchanged. */
  function IntOf(x: Externals, v: Value): Option<int>
  {
    if v.Integer? then Some(v.i) else x.toInt(v)
  }

  /** `float(v)`: a float is returned unchanged. */
  function FloatOf(x: Externals, v: Value): Option<bv64>
  {
    if v.Float? then Some(v.bits) else x.toFloat(v)
  }

  /** `bytes(v)`: a bytes object is copied unchanged. */
  function BytesOf(x: Externals, v: Value): Option<seq<bv8>>
  {
    if v.Bytes? then Some(v.b) else x.toBytes(v)
  }

  /** Why a cast did not produce a value. */
  datatype CastError =
    | NotImplementedCast   // NotImplementedError: SQ and the ambiguous VRs
    | ConversionFailed     // the conversion itself raised

  /**
   * The Python type `check_cast` produces for each VR, written out per code.
   * IS and DS are in both STR_VR and INT_VR/FLOAT_VR; the string test comes
   * first, so they stay text. SQ and the ambiguous VRs have no cast.
   */
  function PreferredKind(vr: VR): Option<Kind>
  {
    match vr
    case AT => Some(TagKind)
    case AE | AS | CS | DA | DS | DT | IS | TM | UI | UR | LO | LT | PN | SH | ST | UC | UT => Some(TextKind)
    case SL | SS | SV | UL | US | UV => Some(IntKind)
    case FD | FL => Some(FloatKind)
    case OB | OD | OF | OL | OV | OW | UN => Some(BytesKind)
    case SQ | US_SS_OW | US_SS | US_OW | OB_OW => None
  }

  /**
   * `check_cast(vr, val)`: AT first, then the string, integer, float and bytes
   * VRs; the first category the VR belongs to decides the conversion.
   */
  function CheckCast(x: Externals, vr: VR, val: Value): (r: Result<Value, CastError>)
    // SQ and the ambiguous VRs, and only they, raise NotImplementedError
    ensures r == Failure(NotImplementedCast) <==> PreferredKind(vr).None?
    // a successful cast has the Python type the table above gives
    ensures r.Success? ==> PreferredKind(vr) == Some(KindOf(r.value))
    // a string VR never fails, and a string value comes back unchanged
    ensures PreferredKind(vr) == Some(TextKind) ==> r == Success(Text(StrOf(x, val)))
    ensures PreferredKind(vr) == Some(TextKind) && val.Text? ==> r == Success(val)
    // a value that already has the VR's type round-trips unchanged
    ensures KindOf(val) != NoneKind && PreferredKind(vr) == Some(KindOf(val)) ==> r == Success(val)
  {
    DispatchOrder(vr);
    if vr == AT then
      match TagOf(x, val)
      case Some(t) => Success(TagRef(t))
      case None => Failure(ConversionFailed)
    else if vr in StringVRs then
      Success(Text(StrOf(x, val)))
    else if vr in IntVRs then
      match IntOf(x, val)
      case Some(i) => Success(Integer(i))
      case None => Failure(ConversionFailed)
    else
    DispatchOrderRest(vr);
    if vr in FloatVRs then
      match FloatOf(x, val)
      case Some(f) => Success(Float(f))
      case None => Failure(ConversionFailed)
    else if vr in BytesVRs then
      match BytesOf(x, val)
      case Some(b) => Success(Bytes(b))
      case None => Failure(ConversionFailed)
    else
      Failure(NotImplementedCast)
  }

  /**
   * Testing the VR sets in `check_cast`'s order (AT, string, integer, float,
   * bytes) picks exactly the type `PreferredKind` lists for every VR:
   * the first three tests here, the rest in `DispatchOrderRest`.
   */
  lemma DispatchOrder(vr: VR)
    ensures vr == AT ==> PreferredKind(vr) == Some(TagKind)
    ensures vr != AT && vr in StringVRs ==> PreferredKind(vr) == Some(TextKind)
    ensures vr != AT && vr !in StringVRs && vr in IntVRs ==> PreferredKind(vr) == Some(IntKind)
  {
    match vr
    case AT =>
    case AE | AS | CS | DA | DS | DT | IS | TM | UI | UR | LO | LT | PN | SH | ST | UC | UT =>
      assert vr in StringVRs;
    case SL | SS | SV | UL | US | UV =>
      assert vr !in StringVRs;
    case FD | FL | OB | OD | OF | OL | OV | OW | UN | SQ | US_SS_OW | US_SS | US_OW | OB_OW =>
      assert vr !in StringVRs && vr !in IntVRs;
  }

  /** The float, bytes and unsupported cases of `DispatchOrder`. */
  lemma DispatchOrderRest(vr: VR)
    ensures vr != AT && vr !in StringVRs && vr !in IntVRs && vr in FloatVRs ==> PreferredKind(vr) == Some(FloatKind)
    ensures vr != AT && vr !in StringVRs && vr !in IntVRs && vr !in FloatVRs && vr in BytesVRs
            ==> PreferredKind(vr) == Some(BytesKind)
    ensures vr != AT && vr !in StringVRs && vr !in IntVRs && vr !in FloatVRs && vr !in BytesVRs
            ==> PreferredKind(vr) == None
  {
    match vr
    case AT =>
    case AE | AS | CS | DA | DS | DT | IS | TM | UI | UR | LO | LT | PN | SH | ST | UC | UT =>
      assert vr in StringVRs;
    case SL | SS | SV | UL | US | UV =>
      assert vr in IntVRs;
    case FD | FL =>
      assert vr !in StringVRs && vr !in IntVRs;
    case OB | OD | OF | OL | OV | OW | UN =>
      assert vr !in StringVRs && vr !in IntVRs && vr !in FloatVRs;
    case SQ | US_SS_OW | US_SS | US_OW | OB_OW =>
      assert vr !in StringVRs && vr !in IntVRs && vr !in FloatVRs && vr !in BytesVRs;
  }
}
