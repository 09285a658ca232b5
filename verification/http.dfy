/** The payload classifier of http.go: from the shape of a payload it
    decides whether the payload has to be JSON-encoded before it is sent. */
module Http {
  import opened Base

  /** What Go reflection sees of an `any` payload. Values whose contents the
      model does not inspect carry an opaque `id`, so that two different maps
      (say) can be told apart by the encoder.
      `Scalar` is every remaining kind: booleans, numbers, channels,
      functions, interfaces, values of a named string or named byte-slice
      type, and slices whose element is a named uint8 type (neither the
      byte-slice carve-out nor the raw-payload check treats any of those
      differently from a number). */
  datatype Shape =
    | Nil                        // the untyped nil interface value
    | Bytes(data: seq<byte>)     // a value of type []byte
    | Str(text: seq<byte>)       // a value of type string
    | Slice(id: nat)             // a slice whose element kind is not uint8
    | Map(id: nat)
    | Struct(id: nat)
    | Array(id: nat)             // a fixed-length array, whatever its element type
    | Scalar(id: nat)
    | Ptr(target: Shape)         // a pointer to `target`; Ptr(Nil) is a typed nil pointer

  /** The kinds the JSON path encodes: map, struct, and slice of non-bytes. */
  predicate IsJSONKind(k: Shape)
  {
    k.Map? || k.Struct? || k.Slice?
  }

  /** `IsStructMapOrSlice`. Exactly one level of pointer is followed, and a
      byte slice is not JSON even though its kind is slice. A typed nil
      pointer makes reflection panic, so callers must not pass one. */
  function IsStructMapOrSlice(s: Shape): (r: bool)
    requires s != Ptr(Nil)
    ensures s == Nil ==> !r
    ensures s.Bytes? || s.Str? || s.Array? || s.Scalar? ==> !r
    ensures IsJSONKind(s) ==> r
    ensures s.Ptr? ==> (r <==> IsJSONKind(s.target))
    ensures s.Ptr? && (s.target.Bytes? || s.target.Str? || s.target.Ptr?) ==> !r
  {
    if s == Nil then false
    else
      var k := if s.Ptr? then s.target else s;
      if k.Bytes? then false
      else IsJSONKind(k)
  }

  /** `depth` pointers in front of `s`. */
  function Pointers(s: Shape, depth: nat): (r: Shape)
    ensures depth > 0 ==> r.Ptr?
  {
    if depth == 0 then s else Ptr(Pointers(s, depth - 1))
  }

  /** Only one pointer is followed: two or more pointers in front of any
      value, a JSON one included, make the classifier refuse it. */
  lemma OnlyOneDereference(s: Shape, depth: nat)
    requires depth >= 2
    ensures !IsStructMapOrSlice(Pointers(s, depth))
  {
  }
}
