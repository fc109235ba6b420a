/** The introspection arrays of the stub header read back. A reader of the
    writes that `generate_stub_introspection` makes recovers every document:
    its array is named `interfaceXml<i>` with its position `i`, and its
    bytes, one `0x<hh>, ` entry each, run up to the `0x00` terminator. */
module Introspection {
  import opened Wrappers
  import opened Text
  import opened Emission

  // ---------------------------------------------------------------- the reader

  const ArraySuffix: string := "[] = { "
  const Terminator: seq<string> := ["\n", "};", "\n"]

  /** The index in a `const char interfaceXml<i>[] = { ` head. */
  function ParseHead(t: string): Option<nat>
  {
    if |t| >= |XmlArrayName| + |ArraySuffix| && t[..|XmlArrayName|] == XmlArrayName
       && t[|t| - |ArraySuffix|..] == ArraySuffix
    then ParseDecimal(t[|XmlArrayName|..|t| - |ArraySuffix|])
    else None
  }

  /** The byte in a `0x<hh>, ` entry. */
  function ParseXmlByte(t: string): Option<Byte>
  {
    if |t| == 6 && t[..2] == "0x" && t[4..] == ", " then ParseHexByte(t[2..4]) else None
  }

  /** The byte entries up to the `0x00` terminator, and the writes after it. */
  function ReadBytes(ws: seq<string>): (r: Option<(seq<Byte>, seq<string>)>)
    ensures r.Some? ==> |r.value.1| < |ws|
    decreases |ws|
  {
    if |ws| == 0 then None
    else if ws[0] == "0x00" then Some(([], ws[1..]))
    else match ParseXmlByte(ws[0])
      case None => None
      case Some(b) =>
        match ReadBytes(ws[1..])
        case None => None
        case Some((bs, rest)) => Some(([b] + bs, rest))
  }

  /** One array: its index, its bytes, and the writes after its closing `};`. */
  function ReadArray(ws: seq<string>): (r: Option<(nat, seq<Byte>, seq<string>)>)
    ensures r.Some? ==> |r.value.2| < |ws|
  {
    if |ws| == 0 then None
    else match ParseHead(ws[0])
      case None => None
      case Some(i) =>
        match ReadBytes(ws[1..])
        case None => None
        case Some((bs, rest)) =>
          if |rest| >= 3 && rest[..3] == Terminator then Some((i, bs, rest[3..])) else None
  }

  /** Every array in the writes, in order, or None when they are not a
      sequence of arrays. */
  function ReadArrays(ws: seq<string>): Option<seq<(nat, seq<Byte>)>>
    decreases |ws|
  {
    if |ws| == 0 then Some([])
    else match ReadArray(ws)
      case None => None
      case Some((i, bs, rest)) =>
        match ReadArrays(rest)
        case None => None
        case Some(more) => Some([(i, bs)] + more)
  }

  /** The documents paired with their positions. */
  function Indexed(xmls: seq<seq<Byte>>): (r: seq<(nat, seq<Byte>)>)
    ensures |r| == |xmls|
  {
    if |xmls| == 0 then [] else Indexed(xmls[..|xmls| - 1]) + [(|xmls| - 1, xmls[|xmls| - 1])]
  }

  // ---------------------------------------------------------------- one array

  lemma ParseHeadRoundTrip(i: nat)
    ensures ParseHead(XmlArrayHead(i)) == Some(i)
  {
    var t := XmlArrayHead(i);
    assert t == XmlArrayName + Decimal(i) + ArraySuffix;
    assert t[..|XmlArrayName|] == XmlArrayName;
    assert t[|t| - |ArraySuffix|..] == ArraySuffix;
    assert t[|XmlArrayName|..|t| - |ArraySuffix|] == Decimal(i);
    DecimalRoundTrip(i);
  }

  /** Documents at different positions get arrays of different names. */
  lemma ArrayNamesDistinct(i: nat, j: nat)
    ensures XmlArrayHead(i) == XmlArrayHead(j) ==> i == j
  {
    ParseHeadRoundTrip(i);
    ParseHeadRoundTrip(j);
  }

  lemma ParseXmlByteRoundTrip(b: Byte)
    ensures ParseXmlByte(XmlByte(b)) == Some(b)
    ensures XmlByte(b) != "0x00"
  {
    var t := XmlByte(b);
    assert t[2..4] == HexByte(b);
    HexByteRoundTrip(b);
  }

  /** The writes of one array, in reading order. */
  function Block(i: nat, xml: seq<Byte>): seq<string>
  {
    [XmlArrayHead(i)] + Map(xml, XmlByte) + ["0x00"] + Terminator
  }

  lemma {:induction false} XmlBytesMap(w: seq<string>, xml: seq<Byte>)
    ensures XmlBytes(w, xml) == w + Map(xml, XmlByte)
    decreases |xml|
  {
    if |xml| > 0 {
      XmlBytesMap(w, xml[..|xml| - 1]);
    }
  }

  lemma EmbeddedXmlBlock(w: seq<string>, i: nat, xml: seq<Byte>)
    ensures EmbeddedXml(w, i, xml) == w + Block(i, xml)
  {
    XmlBytesMap(Put(w, XmlArrayHead(i)), xml);
  }

  lemma {:induction false} ReadBytesRoundTrip(xml: seq<Byte>, rest: seq<string>)
    ensures ReadBytes(Map(xml, XmlByte) + ["0x00"] + rest) == Some((xml, rest))
    decreases |xml|
  {
    var ws := Map(xml, XmlByte) + ["0x00"] + rest;
    if |xml| == 0 {
      assert ws == ["0x00"] + rest;
      assert ws[1..] == rest;
    } else {
      ParseXmlByteRoundTrip(xml[0]);
      assert ws[0] == XmlByte(xml[0]);
      assert ws[1..] == Map(xml[1..], XmlByte) + ["0x00"] + rest;
      ReadBytesRoundTrip(xml[1..], rest);
      assert [xml[0]] + xml[1..] == xml;
    }
  }

  lemma ReadArrayRoundTrip(i: nat, xml: seq<Byte>, rest: seq<string>)
    ensures ReadArray(Block(i, xml) + rest) == Some((i, xml, rest))
  {
    var ws := Block(i, xml) + rest;
    ParseHeadRoundTrip(i);
    assert ws[0] == XmlArrayHead(i);
    assert ws[1..] == Map(xml, XmlByte) + ["0x00"] + (Terminator + rest);
    ReadBytesRoundTrip(xml, Terminator + rest);
    assert (Terminator + rest)[..3] == Terminator;
    assert (Terminator + rest)[3..] == rest;
  }

  // ---------------------------------------------------------------- reading on

  /** A reader that has recognised an array ignores what follows it. */
  lemma {:induction false} ReadBytesExtend(ws: seq<string>, more: seq<string>)
    requires ReadBytes(ws).Some?
    ensures ReadBytes(ws + more) == Some((ReadBytes(ws).value.0, ReadBytes(ws).value.1 + more))
    decreases |ws|
  {
    assert (ws + more)[0] == ws[0];
    if ws[0] != "0x00" {
      assert (ws + more)[1..] == ws[1..] + more;
      ReadBytesExtend(ws[1..], more);
    } else {
      assert (ws + more)[1..] == ws[1..] + more;
    }
  }

  lemma ReadArrayExtend(ws: seq<string>, more: seq<string>)
    requires ReadArray(ws).Some?
    ensures ReadArray(ws + more) == Some((ReadArray(ws).value.0, ReadArray(ws).value.1, ReadArray(ws).value.2 + more))
  {
    assert (ws + more)[0] == ws[0];
    assert (ws + more)[1..] == ws[1..] + more;
    ReadBytesExtend(ws[1..], more);
    var rest := ReadBytes(ws[1..]).value.1;
    assert (rest + more)[..3] == rest[..3];
    assert (rest + more)[3..] == rest[3..] + more;
  }

  /** `ReadArrays` past one recognised array. */
  lemma ReadArraysStep(ws: seq<string>, i: nat, bs: seq<Byte>, rest: seq<string>)
    requires ReadArray(ws) == Some((i, bs, rest))
    ensures ReadArrays(ws) == if ReadArrays(rest).Some? then Some([(i, bs)] + ReadArrays(rest).value) else None
  {
  }

  lemma ReadArraysAppendStep(ab: seq<string>, i: nat, bs: seq<Byte>, rest: seq<string>, x: seq<(nat, seq<Byte>)>, y: seq<(nat, seq<Byte>)>)
    requires ReadArray(ab) == Some((i, bs, rest))
    requires ReadArrays(rest) == Some(x + y)
    ensures ReadArrays(ab) == Some([(i, bs)] + x + y)
  {
    ReadArraysStep(ab, i, bs, rest);
    assert [(i, bs)] + (x + y) == [(i, bs)] + x + y;
  }

  /** Reading two runs of arrays one after the other reads both. */
  lemma {:induction false} ReadArraysAppend(a: seq<string>, b: seq<string>)
    requires ReadArrays(a).Some? && ReadArrays(b).Some?
    ensures ReadArrays(a + b) == Some(ReadArrays(a).value + ReadArrays(b).value)
    decreases |a|
  {
    if |a| == 0 {
      assert a + b == b;
      assert ReadArrays(a).value + ReadArrays(b).value == ReadArrays(b).value;
    } else {
      var r := ReadArray(a).value;
      ReadArraysStep(a, r.0, r.1, r.2);
      ReadArraysAppend(r.2, b);
      ReadArrayExtend(a, b);
      ReadArraysAppendStep(a + b, r.0, r.1, r.2 + b, ReadArrays(r.2).value, ReadArrays(b).value);
    }
  }

  // ---------------------------------------------------------------- the round trip

  lemma ReadBlock(i: nat, xml: seq<Byte>)
    ensures ReadArrays(Block(i, xml)) == Some([(i, xml)])
  {
    ReadArrayRoundTrip(i, xml, []);
    assert Block(i, xml) + [] == Block(i, xml);
    assert ReadArrays([]) == Some([]);
    assert [(i, xml)] + [] == [(i, xml)];
  }

  /** The introspection writes of the stub header read back as the
      documents, each under the array named by its position. */
  lemma {:induction false} IntrospectionRoundTrip(xmls: seq<seq<Byte>>)
    ensures ReadArrays(StubIntrospection([], xmls)) == Some(Indexed(xmls))
    decreases |xmls|
  {
    if |xmls| > 0 {
      var n := |xmls| - 1;
      var prev := StubIntrospection([], xmls[..n]);
      IntrospectionRoundTrip(xmls[..n]);
      EmbeddedXmlBlock(prev, n, xmls[n]);
      ReadBlock(n, xmls[n]);
      assert StubIntrospection([], xmls) == prev + Block(n, xmls[n]);
      ReadArraysAppend(prev, Block(n, xmls[n]));
    }
  }
}
