/**
  The small bridges every conversion is built from: the DimensionType
  mapping, the optional-string encoding and decoding, and the 0/1 boolean
  convention.
 */
module Bridge {
  import opened Ints
  import opened Wrappers
  import opened Utf8
  import opened Capi
  import opened Values

  // ---- DimensionType ----

  /** `From<DimensionType> for capi::DimensionType`: total. */
  function DimensionTypeToNative(k: DimensionType): (v: u32)
    ensures v < 4
    ensures v == DIMENSION_TYPE_SPACE <==> k == Space
  {
    match k
    case Space => DIMENSION_TYPE_SPACE
    case Channel => DIMENSION_TYPE_CHANNEL
    case Time => DIMENSION_TYPE_TIME
    case Other => DIMENSION_TYPE_OTHER
  }

  /** `TryFrom<capi::DimensionType> for DimensionType`: defined on the four foreign values only. */
  function DimensionTypeFromNative(v: u32): (r: Result<DimensionType, Error>)
    ensures r.Ok? <==> v < 4
    ensures r.Ok? ==> DimensionTypeToNative(r.value) == v
    ensures r.Err? ==> r.error == UnknownDimensionType(v)
  {
    if v == DIMENSION_TYPE_SPACE then Ok(Space)
    else if v == DIMENSION_TYPE_CHANNEL then Ok(Channel)
    else if v == DIMENSION_TYPE_TIME then Ok(Time)
    else if v == DIMENSION_TYPE_OTHER then Ok(Other)
    else Err(UnknownDimensionType(v))
  }

  /** The mapping is a bijection between the four variants and the four foreign values. */
  lemma DimensionTypeBijection(k: DimensionType, j: DimensionType)
    ensures DimensionTypeFromNative(DimensionTypeToNative(k)) == Ok(k)
    ensures DimensionTypeToNative(k) == DimensionTypeToNative(j) ==> k == j
  {
  }

  // ---- optional strings ----

  /** The bytes `CStr::from_ptr` reads: everything before the first NUL. */
  function BeforeNul(s: seq<u8>): (r: seq<u8>)
    ensures r <= s
    ensures NUL !in r
    ensures |r| < |s| ==> s[|r|] == NUL
  {
    if s == [] || s[0] == NUL then [] else [s[0]] + BeforeNul(s[1..])
  }

  /** The text before the first NUL of a NUL-terminated copy of NUL-free text is that text. */
  lemma {:induction false} BeforeNulOfTerminated(t: seq<u8>)
    requires NUL !in t
    ensures BeforeNul(t + [NUL]) == t
  {
    if t != [] {
      assert (t + [NUL])[1..] == t[1..] + [NUL];
      BeforeNulOfTerminated(t[1..]);
      assert [t[0]] + t[1..] == t;
    }
  }

  /**
    Decoding an optional string: a zero length means absent; otherwise the
    bytes before the first NUL, which must be valid UTF-8.
   */
  function DecodeString(v: StringView): (r: Result<Option<Text>, Error>)
    requires Readable(v)
    ensures r == Ok(None) <==> v.nbytes == 0
    ensures r.Err? <==> v.nbytes != 0 && !ValidUtf8(BeforeNul(v.bytes.value))
    ensures r.Err? ==> r.error == InvalidUtf8
    ensures r.Ok? && r.value.Some? ==> r.value.value == BeforeNul(v.bytes.value)
    ensures r.Ok? && r.value.Some? ==> r.value.value + [NUL] <= v.bytes.value
  {
    if v.nbytes == 0 then Ok(None)
    else
      var text := BeforeNul(v.bytes.value);
      if ValidUtf8(text) then Ok(Some(text)) else Err(InvalidUtf8)
  }

  /** Only the zero test reads `nbytes`: any two non-zero lengths over the same memory decode alike. */
  lemma DecodeStringIgnoresLength(v: StringView, w: StringView)
    requires Readable(v) && Readable(w)
    requires v.bytes == w.bytes && v.nbytes != 0 && w.nbytes != 0
    ensures DecodeString(v) == DecodeString(w)
  {
  }

  /** The view passed to the native side for an optional string that is free of NULs. */
  function StringViewOf(s: Option<Text>): (v: StringView)
    ensures s.None? <==> v.nbytes == 0
    ensures s.None? ==> v == NULL_VIEW
    ensures s.Some? ==> v.nbytes == |s.value| + 1 && v.bytes == Some(s.value + [NUL])
  {
    match s
    case None => NULL_VIEW
    case Some(t) => StringView(Some(t + [NUL]), |t| + 1)
  }

  /**
    Encoding an optional string: absent becomes a null pointer with length
    0, present text a NUL-terminated copy whose length counts the NUL;
    `CString::new` rejects text holding a NUL.
   */
  function EncodeString(s: Option<Text>): (r: Result<StringView, Error>)
    ensures r.Err? <==> s.Some? && NUL in s.value
    ensures r.Err? ==> r.error == InteriorNul
    ensures r.Ok? ==> r.value == StringViewOf(s)
  {
    match s
    case None => Ok(NULL_VIEW)
    case Some(t) => if NUL in t then Err(InteriorNul) else Ok(StringViewOf(s))
  }

  /** Round trip: whatever encodes decodes back to itself, absent to absent and text to the same text. */
  lemma StringRoundTrip(s: Option<Text>)
    requires EncodeString(s).Ok?
    ensures Readable(EncodeString(s).value)
    ensures DecodeString(EncodeString(s).value) == Ok(s)
  {
    if s.Some? {
      BeforeNulOfTerminated(s.value);
    }
  }

  /** Absent and empty stay apart: `None` has length 0, `Some("")` has length 1 and decodes back to `Some("")`. */
  lemma AbsentIsNotEmpty()
    ensures EncodeString(None) == Ok(NULL_VIEW) && DecodeString(NULL_VIEW) == Ok(None)
    ensures EncodeString(Some([])) == Ok(StringView(Some([NUL]), 1))
    ensures DecodeString(StringView(Some([NUL]), 1)) == Ok(Some([]))
  {
    var empty: Text := [];
    assert empty + [NUL] == [NUL];
    assert BeforeNul([NUL]) == [];
  }

  // ---- booleans ----

  /** The native boolean convention: only exactly 1 is true. */
  function BoolFromNative(b: u8): (r: bool)
    ensures r <==> b == BoolAsU8(true)
  {
    b == 1
  }

  /** Decoding is true for 1 only, so 2 and 255 are false; `bool as u8` decodes back; a byte survives decode-then-encode exactly when it is 0 or 1. */
  lemma BoolConvention(x: bool, b: u8)
    ensures BoolFromNative(BoolAsU8(x)) == x
    ensures !BoolFromNative(0) && !BoolFromNative(2) && !BoolFromNative(255) && BoolFromNative(1)
    ensures BoolAsU8(BoolFromNative(b)) == b <==> b <= 1
  {
  }
}
