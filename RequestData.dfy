/** The `RequestData` record carried from service to service, and its header codec. */
module RequestDatas {
  import opened Wrappers
  import opened Bytes

  /** The four string properties of `RequestData`; each is a .NET string and so may be null (`None`). */
  datatype RequestData = RequestData(
    defaultUILanguage: Option<string>,
    uiLanguage: Option<string>,
    cultureCode: Option<string>,
    userId: Option<string>)

  /** `new RequestData()`: only the field initialiser of `DefaultUILanguage` runs. */
  function NewRequestData(): (r: RequestData)
    ensures r.defaultUILanguage == Some("en")
    ensures r.uiLanguage == None && r.cultureCode == None && r.userId == None
  {
    RequestData(Some("en"), None, None, None)
  }

  /** `RequestData.Default`: a new instance whose object initialiser then sets three properties. */
  function Default(): (r: RequestData)
    ensures r.cultureCode == Some("en") && r.uiLanguage == Some("en") && r.userId == Some("")
    ensures r.defaultUILanguage == Some("en")
  {
    NewRequestData().(cultureCode := Some("en"), uiLanguage := Some("en"), userId := Some(""))
  }

  /** A plainly constructed value leaves three properties null, so it is not `Default`. */
  lemma PlainIsNotDefault()
    ensures NewRequestData() != Default()
    ensures NewRequestData().defaultUILanguage == Default().defaultUILanguage
  {
  }

  /** `Serialize` and `Deserialize`. The source runs a binary formatter through a deflate stream;
    * that byte format is not modelled, so a codec is any pair of total functions, and
    * `Deserialize` may fail on bytes that are not a valid payload. */
  datatype Codec = Codec(serialize: RequestData -> seq<byte>, deserialize: seq<byte> -> Result<RequestData>)
  {
    /** `Deserialize` inverts `Serialize`, field for field, including null versus empty strings. */
    ghost predicate RoundTrips()
    {
      forall d: RequestData {:trigger serialize(d)} :: deserialize(serialize(d)) == Success(d)
    }
  }

  // A concrete codec with a self-describing layout. It shows that the round-trip hypothesis
  // the rest of the model makes about `Serialize`/`Deserialize` can be met.

  /** Whether `n` is the code of a Unicode scalar value, the values of a Dafny `char`. */
  predicate IsScalar(n: int)
  {
    (0 <= n < 0xD800) || (0xE000 <= n < 0x11_0000)
  }

  /** Each character as a marker byte 1 and three little-endian bytes; a byte 0 ends the string. */
  function EncodeChars(s: string): (r: seq<byte>)
    ensures |r| > 0
  {
    if s == [] then [0] else [1] + LittleEndian(s[0] as int, 3) + EncodeChars(s[1..])
  }

  /** A null string is the byte 0; a string is the byte 1 followed by its characters. */
  function EncodeField(f: Option<string>): seq<byte>
  {
    match f
    case None => [0]
    case Some(s) => [1] + EncodeChars(s)
  }

  function EncodeFields(d: RequestData): seq<byte>
  {
    EncodeField(d.defaultUILanguage) + EncodeField(d.uiLanguage)
      + EncodeField(d.cultureCode) + EncodeField(d.userId)
  }

  /** Reads one encoded string off the front of `s`, returning it and what follows. */
  function DecodeChars(s: seq<byte>): (r: Result<(string, seq<byte>)>)
    ensures r.Success? ==> |r.value.1| < |s|
    decreases |s|
  {
    if s == [] then Failure(SerializationFailed)
    else if s[0] == 0 then Success(([], s[1..]))
    else if s[0] != 1 || |s| < 4 then Failure(SerializationFailed)
    else
      var n := FromLittleEndian(s[1..4]);
      if !IsScalar(n) then Failure(SerializationFailed)
      else
        match DecodeChars(s[4..])
        case Failure(e) => Failure(e)
        case Success(tail) => Success(([n as char] + tail.0, tail.1))
  }

  /** Reads one encoded field off the front of `s`. */
  function DecodeField(s: seq<byte>): (r: Result<(Option<string>, seq<byte>)>)
    ensures r.Success? ==> |r.value.1| < |s|
  {
    if s == [] then Failure(SerializationFailed)
    else if s[0] == 0 then Success((None, s[1..]))
    else if s[0] != 1 then Failure(SerializationFailed)
    else
      match DecodeChars(s[1..])
      case Failure(e) => Failure(e)
      case Success(p) => Success((Some(p.0), p.1))
  }

  /** Reads the four fields in order; bytes that remain afterwards make the payload invalid. */
  function DecodeFields(s: seq<byte>): Result<RequestData>
  {
    match DecodeField(s)
    case Failure(e) => Failure(e)
    case Success(p1) =>
      match DecodeField(p1.1)
      case Failure(e) => Failure(e)
      case Success(p2) =>
        match DecodeField(p2.1)
        case Failure(e) => Failure(e)
        case Success(p3) =>
          match DecodeField(p3.1)
          case Failure(e) => Failure(e)
          case Success(p4) =>
            if p4.1 != [] then Failure(SerializationFailed)
            else Success(RequestData(p1.0, p2.0, p3.0, p4.0))
  }

  const FieldCodec: Codec := Codec(EncodeFields, DecodeFields)

  /** Decoding one encoded character in front of `more`. */
  lemma DecodeOneChar(c: char, more: seq<byte>)
    ensures DecodeChars([1] + LittleEndian(c as int, 3) + more)
            == match DecodeChars(more)
               case Failure(e) => Failure(e)
               case Success(tail) => Success(([c] + tail.0, tail.1))
  {
    var s := [1] + LittleEndian(c as int, 3) + more;
    assert s[1..4] == LittleEndian(c as int, 3);
    assert s[4..] == more;
    FromLittleEndianOfLittleEndian(c as int, 3);
  }

  lemma {:induction false} DecodeEncodeChars(t: string, rest: seq<byte>)
    ensures DecodeChars(EncodeChars(t) + rest) == Success((t, rest))
  {
    if t != [] {
      var more := EncodeChars(t[1..]) + rest;
      assert EncodeChars(t) + rest == [1] + LittleEndian(t[0] as int, 3) + more;
      DecodeOneChar(t[0], more);
      DecodeEncodeChars(t[1..], rest);
      assert [t[0]] + t[1..] == t;
    }
  }

  lemma DecodeEncodeField(f: Option<string>, rest: seq<byte>)
    ensures DecodeField(EncodeField(f) + rest) == Success((f, rest))
  {
    if f.Some? {
      assert (EncodeField(f) + rest)[1..] == EncodeChars(f.value) + rest;
      DecodeEncodeChars(f.value, rest);
    }
  }

  /** The concrete codec meets the round-trip hypothesis. */
  lemma FieldCodecRoundTrips()
    ensures FieldCodec.RoundTrips()
  {
    forall d: RequestData ensures DecodeFields(EncodeFields(d)) == Success(d) {
      var f1, f2, f3, f4 := EncodeField(d.defaultUILanguage), EncodeField(d.uiLanguage),
                            EncodeField(d.cultureCode), EncodeField(d.userId);
      assert EncodeFields(d) == f1 + (f2 + (f3 + (f4 + [])));
      DecodeEncodeField(d.defaultUILanguage, f2 + (f3 + (f4 + [])));
      DecodeEncodeField(d.uiLanguage, f3 + (f4 + []));
      DecodeEncodeField(d.cultureCode, f4 + []);
      DecodeEncodeField(d.userId, []);
    }
  }
}
