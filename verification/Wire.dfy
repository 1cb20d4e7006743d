/** The wire format: fixed-size values as raw bytes, slices as an 8-byte element count followed by the
    elements, C strings as byte slices that end in their only NUL. */
module Wire {
  import opened Bytes
  import opened Options

  // ---------------------------------------------------------------- little-endian integers

  function Pow256(k: nat): nat { if k == 0 then 1 else 256 * Pow256(k - 1) }

  function ToLe(n: nat, k: nat): (r: seq<Byte>)
    ensures |r| == k
  {
    if k == 0 then [] else [n % 256] + ToLe(n / 256, k - 1)
  }

  function FromLe(bytes: seq<Byte>): nat {
    if bytes == [] then 0 else bytes[0] + 256 * FromLe(bytes[1..])
  }

  lemma {:induction false} LeRoundTrip(n: nat, k: nat)
    requires n < Pow256(k)
    ensures FromLe(ToLe(n, k)) == n
  {
    if k > 0 {
      LeRoundTrip(n / 256, k - 1);
      assert ToLe(n, k)[1..] == ToLe(n / 256, k - 1);
    }
  }

  lemma {:induction false} LeOnto(bytes: seq<Byte>)
    ensures FromLe(bytes) < Pow256(|bytes|) && ToLe(FromLe(bytes), |bytes|) == bytes
  {
    if bytes != [] {
      LeOnto(bytes[1..]);
      Digits(bytes[0], FromLe(bytes[1..]));
      assert bytes == [bytes[0]] + bytes[1..];
    }
  }

  lemma Digits(low: Byte, high: nat)
    ensures (low + 256 * high) % 256 == low && (low + 256 * high) / 256 == high
  {
  }

  // ---------------------------------------------------------------- fields

  const WORD: nat := 8

  datatype FieldType = Fixed(size: nat) | Slice(elem: nat) | CStr

  /** A field's contents: how many elements it says it has, and its bytes. */
  datatype Value = Raw(bytes: seq<Byte>) | Items(count: nat, bytes: seq<Byte>)

  predicate IsCString(bytes: seq<Byte>) {
    && bytes != [] && bytes[|bytes| - 1] == 0
    && forall i :: 0 <= i < |bytes| - 1 ==> bytes[i] != 0
  }

  predicate WellTyped(t: FieldType, v: Value) {
    match t
    case Fixed(size) => v.Raw? && |v.bytes| == size
    case Slice(elem) => v.Items? && v.count < Pow256(WORD) && |v.bytes| == v.count * elem
    case CStr => v.Items? && v.count < Pow256(WORD) && |v.bytes| == v.count && IsCString(v.bytes)
  }

  /** `send`, `send_slice`, and equally `save`, `save_slice`. */
  function Encode(v: Value): seq<Byte> {
    match v
    case Raw(bytes) => bytes
    case Items(count, bytes) => ToLe(count, WORD) + bytes
  }

  /** `recv`, `recv_slice`, `recv_cstr`; None when the stream is too short or the string malformed. */
  function Decode(t: FieldType, s: seq<Byte>): Option<(Value, seq<Byte>)> {
    match t
    case Fixed(size) => if |s| < size then None else Some((Raw(s[..size]), s[size..]))
    case Slice(elem) => DecodeItems(elem, s)
    case CStr =>
      var r := DecodeItems(1, s);
      if r.Some? && IsCString(r.value.0.bytes) then r else None
  }

  function DecodeItems(elem: nat, s: seq<Byte>): Option<(Value, seq<Byte>)> {
    if |s| < WORD then None
    else
      var count := FromLe(s[..WORD]);
      if |s| - WORD < count * elem then None
      else Some((Items(count, s[WORD..WORD + count * elem]), s[WORD + count * elem..]))
  }

  lemma DecodeItemsEncode(elem: nat, v: Value, rest: seq<Byte>)
    requires v.Items? && v.count < Pow256(WORD) && |v.bytes| == v.count * elem
    ensures DecodeItems(elem, Encode(v) + rest) == Some((v, rest))
  {
    LeRoundTrip(v.count, WORD);
    var s := Encode(v) + rest;
    assert s[..WORD] == ToLe(v.count, WORD);
    assert s[WORD..WORD + |v.bytes|] == v.bytes && s[WORD + |v.bytes|..] == rest;
  }

  lemma DecodeItemsOnto(elem: nat, s: seq<Byte>)
    requires DecodeItems(elem, s).Some?
    ensures var (v, rest) := DecodeItems(elem, s).value;
            v.Items? && v.count < Pow256(WORD) && |v.bytes| == v.count * elem && s == Encode(v) + rest
  {
    hide ToLe, FromLe, Pow256;
    LeOnto(s[..WORD]);
    var n := FromLe(s[..WORD]) * elem;
    Sections(s, WORD, n);
  }

  lemma Sections(s: seq<Byte>, a: nat, b: nat)
    requires a + b <= |s|
    ensures s == s[..a] + s[a..a + b] + s[a + b..]
  {
  }

  /** Decoding undoes encoding, and only encodings decode. */
  lemma DecodeEncode(t: FieldType, v: Value, rest: seq<Byte>)
    requires WellTyped(t, v)
    ensures Decode(t, Encode(v) + rest) == Some((v, rest))
  {
    match t
    case Fixed(size) =>
      assert (v.bytes + rest)[..size] == v.bytes && (v.bytes + rest)[size..] == rest;
    case Slice(elem) => DecodeItemsEncode(elem, v, rest);
    case CStr => DecodeItemsEncode(1, v, rest);
  }

  lemma DecodeOnto(t: FieldType, s: seq<Byte>)
    requires Decode(t, s).Some?
    ensures var (v, rest) := Decode(t, s).value; WellTyped(t, v) && s == Encode(v) + rest
  {
    match t
    case Fixed(size) =>
    case Slice(elem) => DecodeItemsOnto(elem, s);
    case CStr => DecodeItemsOnto(1, s);
  }

  /** A text without NUL bytes, sent with the one that ends it, reads back as that text. */
  lemma StringReads(text: seq<Byte>, rest: seq<Byte>)
    requires 0 !in text && |text| + 1 < Pow256(WORD)
    ensures Decode(CStr, ToLe(|text| + 1, WORD) + (text + [0]) + rest) == Some((Items(|text| + 1, text + [0]), rest))
  {
    hide ToLe, FromLe, Pow256, Decode;
    var v := Items(|text| + 1, text + [0]);
    assert IsCString(v.bytes) by {
      forall i | 0 <= i < |text| ensures v.bytes[i] != 0 { assert v.bytes[i] == text[i] && text[i] in text; }
    }
    DecodeEncode(CStr, v, rest);
  }

  /** And nothing else reads as a string: what follows the count is such a text and its NUL. */
  lemma OnlyStringsRead(s: seq<Byte>)
    requires Decode(CStr, s).Some?
    ensures var (v, rest) := Decode(CStr, s).value;
            && v.Items? && v.count == |v.bytes| > 0 && v.bytes[|v.bytes| - 1] == 0 && 0 !in v.bytes[..|v.bytes| - 1]
            && s == ToLe(|v.bytes|, WORD) + v.bytes + rest
  {
    hide ToLe, FromLe, Pow256;
    DecodeItemsOnto(1, s);
  }

  // ---------------------------------------------------------------- field lists

  predicate AllWellTyped(ts: seq<FieldType>, vs: seq<Value>) {
    |ts| == |vs| && forall i :: 0 <= i < |ts| ==> WellTyped(ts[i], vs[i])
  }

  function EncodeAll(vs: seq<Value>): seq<Byte> {
    if vs == [] then [] else Encode(vs[0]) + EncodeAll(vs[1..])
  }

  function DecodeAll(ts: seq<FieldType>, s: seq<Byte>): Option<(seq<Value>, seq<Byte>)> {
    if ts == [] then Some(([], s))
    else match Decode(ts[0], s)
      case None => None
      case Some((v, rest)) =>
        match DecodeAll(ts[1..], rest)
        case None => None
        case Some((vs, rest')) => Some(([v] + vs, rest'))
  }

  lemma {:induction false} DecodeEncodeAll(ts: seq<FieldType>, vs: seq<Value>, rest: seq<Byte>)
    requires AllWellTyped(ts, vs)
    ensures DecodeAll(ts, EncodeAll(vs) + rest) == Some((vs, rest))
  {
    if ts == [] {
      assert EncodeAll(vs) + rest == rest;
    } else {
      var tail := EncodeAll(vs[1..]);
      assert EncodeAll(vs) + rest == Encode(vs[0]) + (tail + rest);
      DecodeEncode(ts[0], vs[0], tail + rest);
      DecodeEncodeAll(ts[1..], vs[1..], rest);
      assert [vs[0]] + vs[1..] == vs;
    }
  }

  lemma {:induction false} DecodeAllOnto(ts: seq<FieldType>, s: seq<Byte>)
    requires DecodeAll(ts, s).Some?
    ensures var (vs, rest) := DecodeAll(ts, s).value; AllWellTyped(ts, vs) && s == EncodeAll(vs) + rest
  {
    if ts != [] {
      DecodeOnto(ts[0], s);
      var (v, rest) := Decode(ts[0], s).value;
      DecodeAllOnto(ts[1..], rest);
      var (vs, rest') := DecodeAll(ts[1..], rest).value;
      assert ([v] + vs)[1..] == vs;
      assert Encode(v) + (EncodeAll(vs) + rest') == EncodeAll([v] + vs) + rest';
    }
  }
}
