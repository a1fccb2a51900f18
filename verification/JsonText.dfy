/** What json.dumps writes for a shard header, tools/make_st_fixture.py:40-56; strings are escaped
    as in section 7 of RFC 8259. */
module JsonText {
  import opened Bytes
  import opened Wrappers
  import opened Json

  function HexDigit(d: nat): Byte { if d < 10 then 0x30 + d else 0x57 + d }

  /** One ASCII character inside a string. */
  function Esc(c: Byte): (s: seq<Byte>)
    ensures 1 <= |s| <= 6
  {
    if c == Quote || c == Slash then [Slash, c]
    else if c == 0x0A then [Slash, 0x6E] else if c == 0x09 then [Slash, 0x74] else if c == 0x0D then [Slash, 0x72]
    else if c == 0x08 then [Slash, 0x62] else if c == 0x0C then [Slash, 0x66]
    else if 0 <= c < 0x20 || c == 0x7F then [Slash, 0x75, 0x30, 0x30, HexDigit(c / 16), HexDigit(c % 16)]
    else [c]
  }

  predicate Ascii(s: seq<Byte>) { forall i :: 0 <= i < |s| ==> 0 <= s[i] < 128 }

  function EscAll(s: seq<Byte>): seq<Byte> { if s == [] then [] else Esc(s[0]) + EscAll(s[1..]) }

  function Quoted(s: seq<Byte>): seq<Byte> { [Quote] + (EscAll(s) + [Quote]) }

  function Dec(n: nat): (s: seq<Byte>)
    ensures |s| >= 1
  {
    if n < 10 then [0x30 + n] else Dec(n / 10) + [0x30 + n % 10]
  }

  /** An integer. */
  function Num(n: int): (s: seq<Byte>)
    ensures |s| >= 1
  {
    if n < 0 then [0x2D] + Dec(-n) else Dec(n)
  }

  /** Numbers and the bracket that closes them. */
  function Commas(ns: seq<int>): seq<Byte>
    requires ns != []
  {
    if |ns| == 1 then Num(ns[0]) + [CloseList] else Num(ns[0]) + ([Comma, 0x20] + Commas(ns[1..]))
  }

  function List(ns: seq<int>): seq<Byte> { [OpenList] + if ns == [] then [CloseList] else Commas(ns) }

  /** A key, a colon, a value. */
  function KeyVal(key: seq<Byte>, val: seq<Byte>): seq<Byte> { Quoted(key) + ([Colon, 0x20] + val) }

  /** A tensor as the writer knows it: bytes from `start` to `stop` of the data section. */
  datatype Spec = Spec(name: seq<Byte>, dt: DType, shape: seq<int>, start: int, stop: int)

  function Object(K: Names, s: Spec): seq<Byte>
  {
    [Open] + (KeyVal(K.dtype, Quoted(K.typeName(s.dt)))
      + ([Comma, 0x20] + (KeyVal(K.shape, List(s.shape))
      + ([Comma, 0x20] + (KeyVal(K.offsets, List([s.start, s.stop])) + [Close])))))
  }

  function Line(K: Names, s: Spec): seq<Byte> { KeyVal(s.name, Object(K, s)) }

  /** Any JSON value, for the metadata. */
  datatype Value =
    | Text(s: seq<Byte>)
    | Number(t: seq<Byte>)
    | Array(vals: seq<Value>)
    | Dict(keys: seq<seq<Byte>>, vals: seq<Value>)

  /** Characters that mean nothing to a scanner outside strings. */
  predicate Plain(c: Byte) { c != Quote && c != Open && c != Close && c != OpenList && c != CloseList }

  predicate ValueOk(v: Value)
  {
    match v
    case Text(s) => Ascii(s)
    case Number(t) => t != [] && forall i :: 0 <= i < |t| ==> Plain(t[i]) && t[i] > 0x20 && t[i] != Comma
    case Array(vals) => forall i :: 0 <= i < |vals| ==> ValueOk(vals[i])
    case Dict(keys, vals) =>
      && |keys| == |vals| && (forall i :: 0 <= i < |keys| ==> Ascii(keys[i]))
      && forall i :: 0 <= i < |vals| ==> ValueOk(vals[i])
  }

  function Dump(v: Value): seq<Byte>
  {
    match v
    case Text(s) => Quoted(s)
    case Number(t) => t
    case Array(vals) => [OpenList] + (DumpAll(vals) + [CloseList])
    case Dict(keys, vals) => [Open] + (DumpPairs(keys, vals) + [Close])
  }

  function DumpAll(vals: seq<Value>): seq<Byte>
  {
    if vals == [] then []
    else if |vals| == 1 then Dump(vals[0])
    else Dump(vals[0]) + ([Comma, 0x20] + DumpAll(vals[1..]))
  }

  function DumpPairs(keys: seq<seq<Byte>>, vals: seq<Value>): seq<Byte>
    decreases vals
  {
    if keys == [] || vals == [] then []
    else if |vals| == 1 then KeyVal(keys[0], Dump(vals[0]))
    else KeyVal(keys[0], Dump(vals[0])) + ([Comma, 0x20] + DumpPairs(keys[1..], vals[1..]))
  }

  /** Lines separated by commas, then the closing brace. */
  function Lines(ls: seq<seq<Byte>>): seq<Byte>
  {
    if ls == [] then [Close]
    else if |ls| == 1 then ls[0] + [Close]
    else ls[0] + ([Comma, 0x20] + Lines(ls[1..]))
  }

  /** A line of the header: the metadata, or a tensor. */
  datatype Row = Meta(v: Value) | Of(s: Spec)

  function RowText(K: Names, r: Row): seq<Byte>
  {
    match r case Meta(v) => KeyVal(K.metadata, Dump(v)) case Of(s) => Line(K, s)
  }

  function RowTexts(K: Names, rs: seq<Row>): (r: seq<seq<Byte>>)
    ensures |r| == |rs|
  {
    seq(|rs|, i requires 0 <= i < |rs| => RowText(K, rs[i]))
  }

  function Rows(meta: Option<Value>, ss: seq<Spec>): seq<Row>
  {
    (if meta.Some? then [Meta(meta.value)] else []) + seq(|ss|, i requires 0 <= i < |ss| => Of(ss[i]))
  }

  /** The header text, metadata first if there is any. */
  function HeaderText(K: Names, rs: seq<Row>): seq<Byte> { [Open] + Lines(RowTexts(K, rs)) }
}
