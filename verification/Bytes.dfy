/** Octets, the element types stored in them, and where a run of them stands in a file. */
module Bytes {

  /** An octet: an integer of which only the low eight bits count. */
  type Byte = int

  datatype DType = U8 | BF16 | F16 | F32

  /** Text as the octets of its characters. */
  function Letters(text: string): (s: seq<Byte>)
    ensures |s| == |text|
  {
    seq(|text|, i requires 0 <= i < |text| => text[i] as int)
  }

  ghost predicate Has(b: seq<Byte>, p: nat, s: seq<Byte>)
  {
    p + |s| <= |b| && forall i :: 0 <= i < |s| ==> b[p + i] == s[i]
  }

  lemma HasSplit(b: seq<Byte>, p: nat, s: seq<Byte>, t: seq<Byte>)
    requires Has(b, p, s + t)
    ensures Has(b, p, s) && Has(b, p + |s|, t)
  {
    forall i | 0 <= i < |s| ensures b[p + i] == s[i] { assert (s + t)[i] == s[i]; }
    forall i | 0 <= i < |t| ensures b[p + |s| + i] == t[i] { assert (s + t)[|s| + i] == t[i]; }
  }
}
