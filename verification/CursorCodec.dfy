/** The opaque cursor of the union feed: `time|kind|uuid`, encoded as base64url
    (section 5 of RFC 4648) with the padding removed (section 3.2 of RFC 4648). */
module CursorCodec {
  import opened Common

  type Byte = b: int | 0 <= b < 256
  type Sextet = v: int | 0 <= v < 64

  datatype Kind = Event | Asset {
    function Order(): nat { if Event? then 0 else 1 }
    function Text(): string { if Event? then "event" else "asset" }
  }

  /** A position in the feed; `time` is an instant in UTC. */
  datatype Key = Key(time: int, kind: Kind, id: Uuid)

  // ------------------------------------------------------------ base64url

  function Symbol(v: Sextet): char {
    if v < 26 then 'A' + v as char
    else if v < 52 then 'a' + (v - 26) as char
    else if v < 62 then '0' + (v - 52) as char
    else if v == 62 then '-'
    else '_'
  }

  /** The value of an accepted symbol. The decoder maps the URL-safe symbols onto the
      standard ones first, so it takes either pair. */
  function Value(c: char): Option<Sextet> {
    if 'A' <= c <= 'Z' then Some(c as int - 'A' as int)
    else if 'a' <= c <= 'z' then Some(c as int - 'a' as int + 26)
    else if '0' <= c <= '9' then Some(c as int - '0' as int + 52)
    else if c == '-' || c == '+' then Some(62)
    else if c == '_' || c == '/' then Some(63)
    else None
  }

  predicate UrlSafe(c: char) {
    'A' <= c <= 'Z' || 'a' <= c <= 'z' || '0' <= c <= '9' || c == '-' || c == '_'
  }

  lemma ValueOfSymbol(v: Sextet)
    ensures Value(Symbol(v)) == Some(v) && UrlSafe(Symbol(v)) && Symbol(v) != '='
  {
  }

  /** Base64url of the bytes, without any padding. */
  function Body(b: seq<Byte>): string {
    if |b| == 0 then ""
    else if |b| == 1 then [Symbol(b[0] / 4), Symbol(b[0] % 4 * 16)]
    else if |b| == 2 then [Symbol(b[0] / 4), Symbol(b[0] % 4 * 16 + b[1] / 16), Symbol(b[1] % 16 * 4)]
    else [Symbol(b[0] / 4), Symbol(b[0] % 4 * 16 + b[1] / 16), Symbol(b[1] % 16 * 4 + b[2] / 64), Symbol(b[2] % 64)]
         + Body(b[3..])
  }

  function Equals(n: nat): string {
    seq(n, _ => '=')
  }

  /** What the library's encoder returns: whole groups of four, padded with '='. */
  function B64Encode(b: seq<Byte>): string {
    Body(b) + Equals((3 - |b| % 3) % 3)
  }

  function RStripPad(s: string): string {
    if s != [] && s[|s| - 1] == '=' then RStripPad(s[..|s| - 1]) else s
  }

  /** `cursor + "=" * (-len(cursor) % 4)` */
  function Repad(s: string): string {
    s + Equals((4 - |s| % 4) % 4)
  }

  /** The library's lenient decoder, one symbol at a time: `quad` symbols of the current
      group are read, `left` holds their unused low bits, `pads` counts '=' in a row.
      Unknown symbols are skipped, a complete pad ends the text, an open group is an error. */
  function A2b(s: string, quad: nat, left: nat, pads: nat): Option<seq<Byte>>
    requires quad < 4
    requires quad == 1 ==> left < 64
    requires quad == 2 ==> left < 16
    requires quad == 3 ==> left < 4
  {
    if s == [] then
      if quad == 0 then Some([]) else None
    else if s[0] == '=' then
      if quad < 2 then A2b(s[1..], quad, left, pads)
      else if quad + pads + 1 >= 4 then Some([])
      else A2b(s[1..], quad, left, pads + 1)
    else
      match Value(s[0])
      case None => A2b(s[1..], quad, left, pads)
      case Some(v) =>
        if quad == 0 then A2b(s[1..], 1, v, 0)
        else if quad == 1 then Prepend(left * 4 + v / 16, A2b(s[1..], 2, v % 16, 0))
        else if quad == 2 then Prepend(left * 16 + v / 4, A2b(s[1..], 3, v % 4, 0))
        else Prepend(left * 64 + v, A2b(s[1..], 0, 0, 0))
  }

  function Prepend(b: Byte, rest: Option<seq<Byte>>): Option<seq<Byte>> {
    match rest
    case None => None
    case Some(bytes) => Some([b] + bytes)
  }

  function B64Decode(s: string): Option<seq<Byte>> {
    A2b(s, 0, 0, 0)
  }

  lemma {:induction false} BodyShape(b: seq<Byte>)
    ensures |Body(b)| == |b| / 3 * 4 + (if |b| % 3 == 0 then 0 else |b| % 3 + 1)
    ensures forall i :: 0 <= i < |Body(b)| ==> UrlSafe(Body(b)[i])
  {
    if |b| > 0 {
      ValueOfSymbol(b[0] / 4);
    }
    if |b| == 1 {
      ValueOfSymbol(b[0] % 4 * 16);
    } else if |b| >= 2 {
      ValueOfSymbol(b[0] % 4 * 16 + b[1] / 16);
      if |b| == 2 {
        ValueOfSymbol(b[1] % 16 * 4);
      } else {
        ValueOfSymbol(b[1] % 16 * 4 + b[2] / 64);
        ValueOfSymbol(b[2] % 64);
        BodyShape(b[3..]);
      }
    }
  }

  /** Decoding one symbol inside a group. */
  lemma A2bStep(v: Sextet, rest: string, quad: nat, left: nat, pads: nat)
    requires quad < 4
    requires quad == 1 ==> left < 64
    requires quad == 2 ==> left < 16
    requires quad == 3 ==> left < 4
    ensures A2b([Symbol(v)] + rest, quad, left, pads) ==
            if quad == 0 then A2b(rest, 1, v, 0)
            else if quad == 1 then Prepend(left * 4 + v / 16, A2b(rest, 2, v % 16, 0))
            else if quad == 2 then Prepend(left * 16 + v / 4, A2b(rest, 3, v % 4, 0))
            else Prepend(left * 64 + v, A2b(rest, 0, 0, 0))
  {
    ValueOfSymbol(v);
    assert ([Symbol(v)] + rest)[1..] == rest;
  }

  /** How the sextets of up to three bytes give the bytes back. */
  lemma Sextets(b0: Byte, b1: Byte, b2: Byte)
    ensures b0 / 4 * 4 + (b0 % 4 * 16 + b1 / 16) / 16 == b0
    ensures (b0 % 4 * 16 + b1 / 16) % 16 == b1 / 16
    ensures b1 / 16 * 16 + (b1 % 16 * 4 + b2 / 64) / 4 == b1
    ensures (b1 % 16 * 4 + b2 / 64) % 4 == b2 / 64
    ensures b2 / 64 * 64 + b2 % 64 == b2
  {
  }

  /** The first three symbols of a group with at least two bytes. */
  lemma GroupStart(b0: Byte, b1: Byte, b2: Byte, rest: string)
    ensures A2b([Symbol(b0 / 4), Symbol(b0 % 4 * 16 + b1 / 16), Symbol(b1 % 16 * 4 + b2 / 64)] + rest, 0, 0, 0)
         == Prepend(b0, Prepend(b1, A2b(rest, 3, b2 / 64, 0)))
  {
    var v0, v1, v2 := b0 / 4, b0 % 4 * 16 + b1 / 16, b1 % 16 * 4 + b2 / 64;
    Sextets(b0, b1, b2);
    assert [Symbol(v0), Symbol(v1), Symbol(v2)] + rest == [Symbol(v0)] + ([Symbol(v1)] + ([Symbol(v2)] + rest));
    A2bStep(v0, [Symbol(v1)] + ([Symbol(v2)] + rest), 0, 0, 0);
    A2bStep(v1, [Symbol(v2)] + rest, 1, v0, 0);
    A2bStep(v2, rest, 2, b1 / 16, 0);
  }

  lemma LastGroup(b: seq<Byte>)
    requires |b| <= 2
    ensures B64Decode(B64Encode(b)) == Some(b)
  {
    if |b| == 0 {
      assert B64Encode(b) == [];
    } else if |b| == 1 {
      var v0, v1 := b[0] / 4, b[0] % 4 * 16;
      assert B64Encode(b) == [Symbol(v0)] + ([Symbol(v1)] + ['=', '=']);
      Sextets(b[0], 0, 0);
      A2bStep(v0, [Symbol(v1)] + ['=', '='], 0, 0, 0);
      A2bStep(v1, ['=', '='], 1, v0, 0);
      assert ['=', '='][1..] == ['='];
      assert b == [b[0]] + [];
    } else {
      assert B64Encode(b) == [Symbol(b[0] / 4), Symbol(b[0] % 4 * 16 + b[1] / 16), Symbol(b[1] % 16 * 4 + 0 / 64)] + ['='];
      GroupStart(b[0], b[1], 0, ['=']);
      assert b == [b[0]] + ([b[1]] + []);
    }
  }

  /** A whole group of three bytes. */
  lemma WholeGroup(b0: Byte, b1: Byte, b2: Byte, tail: string)
    ensures A2b([Symbol(b0 / 4), Symbol(b0 % 4 * 16 + b1 / 16), Symbol(b1 % 16 * 4 + b2 / 64), Symbol(b2 % 64)] + tail, 0, 0, 0)
         == Prepend(b0, Prepend(b1, Prepend(b2, A2b(tail, 0, 0, 0))))
  {
    var start := [Symbol(b0 / 4), Symbol(b0 % 4 * 16 + b1 / 16), Symbol(b1 % 16 * 4 + b2 / 64)];
    assert start + [Symbol(b2 % 64)] + tail == start + ([Symbol(b2 % 64)] + tail);
    GroupStart(b0, b1, b2, [Symbol(b2 % 64)] + tail);
    A2bStep(b2 % 64, tail, 3, b2 / 64, 0);
    Sextets(b0, b1, b2);
    assert start + [Symbol(b2 % 64)] == [start[0], start[1], start[2], Symbol(b2 % 64)];
  }

  lemma EncodeGroup(b: seq<Byte>)
    requires |b| >= 3
    ensures B64Encode(b) == [Symbol(b[0] / 4), Symbol(b[0] % 4 * 16 + b[1] / 16), Symbol(b[1] % 16 * 4 + b[2] / 64), Symbol(b[2] % 64)]
                            + B64Encode(b[3..])
  {
  }

  /** The decoder inverts the encoder on every byte string. */
  lemma {:induction false} Base64RoundTrip(b: seq<Byte>)
    ensures B64Decode(B64Encode(b)) == Some(b)
  {
    hide A2b, Symbol, Body, B64Encode;
    if |b| <= 2 {
      LastGroup(b);
    } else {
      EncodeGroup(b);
      WholeGroup(b[0], b[1], b[2], B64Encode(b[3..]));
      Base64RoundTrip(b[3..]);
      assert b == [b[0]] + ([b[1]] + ([b[2]] + b[3..]));
    }
  }

  lemma {:induction false} RStripEquals(body: string, n: nat)
    requires body == [] || body[|body| - 1] != '='
    ensures RStripPad(body + Equals(n)) == body
  {
    var s := body + Equals(n);
    if n == 0 {
      assert s == body;
    } else {
      assert s[..|s| - 1] == body + Equals(n - 1);
      RStripEquals(body, n - 1);
    }
  }

  /** For bytes of every length, the stripped text has no padding and only URL-safe symbols,
      and padding it back to a multiple of four restores the encoder's text exactly. */
  lemma PaddingRestored(b: seq<Byte>)
    ensures var c := RStripPad(B64Encode(b));
            Repad(c) == B64Encode(b) && forall i :: 0 <= i < |c| ==> UrlSafe(c[i])
  {
    BodyShape(b);
    RStripEquals(Body(b), (3 - |b| % 3) % 3);
    MissingPad(|b|, |Body(b)|);
  }

  lemma MissingPad(bytes: nat, symbols: nat)
    requires symbols == bytes / 3 * 4 + (if bytes % 3 == 0 then 0 else bytes % 3 + 1)
    ensures (4 - symbols % 4) % 4 == (3 - bytes % 3) % 3
  {
  }

  // ------------------------------------------------------------ cursors

  /** The standard library's text conversions, which are not part of the repository. */
  datatype Library = Library(
    utf8Encode: string -> seq<Byte>, utf8Decode: seq<Byte> -> Option<string>,
    isoFormat: int -> string, isoParse: string -> Option<int>,
    uuidText: Uuid -> string, uuidParse: string -> Option<Uuid>)

  /** What the feed relies on: each conversion reads back what it wrote, an ISO stamp
      contains no '|', and UTF-8 of a non-empty text is non-empty. */
  ghost predicate Faithful(lib: Library) {
    && (forall s :: lib.utf8Decode(lib.utf8Encode(s)) == Some(s))
    && (forall s :: s != "" ==> lib.utf8Encode(s) != [])
    && (forall t :: lib.isoParse(lib.isoFormat(t)) == Some(t))
    && (forall t :: '|' !in lib.isoFormat(t))
    && (forall u: Uuid :: lib.uuidParse(lib.uuidText(u)) == Some(u))
  }

  function RawCursor(lib: Library, key: Key): string {
    lib.isoFormat(key.time) + ['|'] + (key.kind.Text() + ['|'] + lib.uuidText(key.id))
  }

  function EncodeCursor(lib: Library, key: Key): string {
    RStripPad(B64Encode(lib.utf8Encode(RawCursor(lib, key))))
  }

  datatype ApiError = InvalidCursor

  function KindFromText(text: string): Option<Kind> {
    if text == "event" then Some(Event) else if text == "asset" then Some(Asset) else None
  }

  /** Reads `time|kind|uuid`; the third part may itself contain '|' (it then fails as a UUID). */
  function ParseRaw(lib: Library, raw: string): Result<Key, ApiError> {
    match SplitFirst(raw, '|')
    case None => Err(InvalidCursor)
    case Some((stamp, rest)) =>
      match SplitFirst(rest, '|')
      case None => Err(InvalidCursor)
      case Some((kindText, idText)) =>
        match (KindFromText(kindText), lib.isoParse(stamp), lib.uuidParse(idText))
        case (Some(kind), Some(time), Some(id)) => Ok(Key(time, kind, id))
        case _ => Err(InvalidCursor)
  }

  function DecodeCursor(lib: Library, cursor: string): Result<Key, ApiError> {
    match B64Decode(Repad(cursor))
    case None => Err(InvalidCursor)
    case Some(bytes) =>
      match lib.utf8Decode(bytes)
      case None => Err(InvalidCursor)
      case Some(raw) => ParseRaw(lib, raw)
  }

  /** Unpadded base64url gives the bytes back once the padding is restored. */
  lemma BytesRoundTrip(b: seq<Byte>)
    ensures B64Decode(Repad(RStripPad(B64Encode(b)))) == Some(b)
    ensures b != [] ==> RStripPad(B64Encode(b)) != ""
  {
    PaddingRestored(b);
    Base64RoundTrip(b);
    BodyShape(b);
    RStripEquals(Body(b), (3 - |b| % 3) % 3);
  }

  /** The split at '|' is unambiguous. */
  lemma RawRoundTrip(lib: Library, key: Key)
    requires Faithful(lib)
    ensures ParseRaw(lib, RawCursor(lib, key)) == Ok(key)
  {
    hide SplitFirst;
    SplitFirstAt(lib.isoFormat(key.time), '|', key.kind.Text() + ['|'] + lib.uuidText(key.id));
    SplitFirstAt(key.kind.Text(), '|', lib.uuidText(key.id));
  }

  /** Every key survives the trip through its cursor, and a cursor is never the empty text
      (which the endpoint reads as "no cursor"). */
  lemma CursorRoundTrip(lib: Library, key: Key)
    requires Faithful(lib)
    ensures DecodeCursor(lib, EncodeCursor(lib, key)) == Ok(key)
    ensures EncodeCursor(lib, key) != ""
  {
    BytesRoundTrip(lib.utf8Encode(RawCursor(lib, key)));
    RawRoundTrip(lib, key);
  }

  /** A cursor codec as the feed sees it. */
  datatype Codec = Codec(encode: Key -> string, decode: string -> Result<Key, ApiError>)

  /** Every key survives the trip through its cursor, and a cursor is never empty. */
  ghost predicate RoundTrips(codec: Codec) {
    forall k {:trigger codec.encode(k)} :: codec.decode(codec.encode(k)) == Ok(k) && codec.encode(k) != ""
  }

  function UnionCodec(lib: Library): Codec {
    Codec(key => EncodeCursor(lib, key), cursor => DecodeCursor(lib, cursor))
  }

  lemma UnionCodecRoundTrips(lib: Library)
    requires Faithful(lib)
    ensures RoundTrips(UnionCodec(lib))
  {
    forall k: Key
      ensures UnionCodec(lib).decode(UnionCodec(lib).encode(k)) == Ok(k) && UnionCodec(lib).encode(k) != ""
    {
      CursorRoundTrip(lib, k);
    }
  }
}
