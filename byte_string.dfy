/** The data-URL fallback's byte handling: picking the base64 payload out of
    the data URL with `split(",")[1]`, and copying the binary string that
    `atob` returns into a `Uint8Array` one character code at a time. */
module ByteString {
  import opened Wrappers

  newtype uint8 = x: int | 0 <= x < 256

  /** The Uint8Array element store: ToUint8, i.e. the value modulo 2^8. */
  function ToUint8(n: int): (b: uint8)
    ensures 0 <= n < 256 ==> b as int == n
    ensures (b as int - n) % 256 == 0
  {
    (n % 256) as uint8
  }

  /** A binary string, as `atob` returns: every character code is below 256. */
  predicate IsBinaryString(s: string)
  {
    forall i :: 0 <= i < |s| ==> s[i] as int < 256
  }

  /** The bytes `ia` holds after `ia[i] = byteString.charCodeAt(i)` for every i. */
  function CharCodeBytes(s: string): (bytes: seq<uint8>)
    ensures |bytes| == |s|
    ensures forall i :: 0 <= i < |s| ==> bytes[i] as int % 256 == s[i] as int % 256
  {
    seq(|s|, i requires 0 <= i < |s| => ToUint8(s[i] as int))
  }

  /** The binary string whose character codes are the given bytes. */
  function Latin1(bytes: seq<uint8>): (s: string)
    ensures |s| == |bytes| && IsBinaryString(s)
  {
    seq(|bytes|, i requires 0 <= i < |bytes| => bytes[i] as int as char)
  }

  /** On a binary string every byte is exactly the character's code, so no
      information is lost by the store. */
  lemma BinaryStringCodesKept(s: string)
    requires IsBinaryString(s)
    ensures forall i :: 0 <= i < |s| ==> CharCodeBytes(s)[i] as int == s[i] as int
  {
  }

  /** Copying the Latin-1 string of any bytes gives those bytes back. */
  lemma CharCodeBytesInvertsLatin1(bytes: seq<uint8>)
    ensures CharCodeBytes(Latin1(bytes)) == bytes
  {
  }

  /** Latin-1 decoding of the copy of a binary string gives that string back. */
  lemma Latin1InvertsCharCodeBytes(s: string)
    requires IsBinaryString(s)
    ensures Latin1(CharCodeBytes(s)) == s
  {
    var back := Latin1(CharCodeBytes(s));
    forall i | 0 <= i < |s| ensures back[i] == s[i] {
      assert CharCodeBytes(s)[i] as int == s[i] as int;
    }
  }

  /** `new Uint8Array(new ArrayBuffer(byteString.length))` followed by the
      loop `for (let i = 0; i < byteString.length; i++) ia[i] = byteString.charCodeAt(i)`. */
  method ByteStringToBytes(byteString: string) returns (ia: array<uint8>)
    ensures fresh(ia)
    ensures ia.Length == |byteString|
    ensures ia[..] == CharCodeBytes(byteString)
  {
    ia := new uint8[|byteString|];
    for i := 0 to |byteString|
      invariant forall k :: 0 <= k < i ==> ia[k] == ToUint8(byteString[k] as int)
    {
      ia[i] := ToUint8(byteString[i] as int);
    }
  }

  /** The text before the first comma of `s` (all of `s` when it has none). */
  function UpToComma(s: string): (r: string)
    ensures |r| <= |s| && r == s[..|r|]
    ensures ',' !in r
    ensures |r| < |s| ==> s[|r|] == ','
  {
    if s == [] || s[0] == ',' then [] else [s[0]] + UpToComma(s[1..])
  }

  /** The text after the first comma of `s`, or None when `s` has no comma. */
  function AfterFirstComma(s: string): (r: Option<string>)
    ensures r.None? <==> ',' !in s
    ensures r.Some? ==> |r.value| < |s| && r.value == s[|s| - |r.value|..]
                        && s[|s| - |r.value| - 1] == ',' && ',' !in s[..|s| - |r.value| - 1]
  {
    if s == [] then None
    else if s[0] == ',' then Some(s[1..])
    else
      var rest := AfterFirstComma(s[1..]);
      assert rest.Some? ==> s[..|s| - |rest.value| - 1] == [s[0]] + s[1..][..|s| - 1 - |rest.value| - 1];
      rest
  }

  /** `s.split(",")[1]`: the second comma-separated field, or None (JavaScript's
      `undefined`) when `s` has no comma. */
  function SecondField(s: string): (r: Option<string>)
    ensures r.None? <==> ',' !in s
    ensures r.Some? ==> ',' !in r.value
    ensures r.Some? ==>
              var k := |s| - |AfterFirstComma(s).value|;
              k + |r.value| <= |s| && r.value == s[k..k + |r.value|]
              && (k + |r.value| == |s| || s[k + |r.value|] == ',')
  {
    match AfterFirstComma(s)
    case None => None
    case Some(rest) => Some(UpToComma(rest))
  }

  /** For a data URL `header,payload` whose header and payload hold no comma,
      as `toDataURL` produces, the split picks out exactly the payload. */
  lemma {:induction false} SecondFieldOfDataUrl(header: string, payload: string)
    requires ',' !in header && ',' !in payload
    ensures SecondField(header + "," + payload) == Some(payload)
  {
    AfterCommaOfHeader(header, payload);
    UpToCommaOfPlain(payload);
  }

  lemma {:induction false} AfterCommaOfHeader(header: string, payload: string)
    requires ',' !in header
    ensures AfterFirstComma(header + "," + payload) == Some(payload)
  {
    var s := header + "," + payload;
    if header == [] {
      assert s == [','] + payload;
      assert s[1..] == payload;
    } else {
      assert s[0] == header[0];
      assert s[1..] == header[1..] + "," + payload;
      AfterCommaOfHeader(header[1..], payload);
    }
  }

  lemma {:induction false} UpToCommaOfPlain(s: string)
    requires ',' !in s
    ensures UpToComma(s) == s
  {
    if s != [] {
      assert s[0] in s;
      assert ',' !in s[1..] by {
        forall c | c in s[1..] ensures c in s { }
      }
      UpToCommaOfPlain(s[1..]);
    }
  }
}
