/** The XML-like text `createPayload` posts to the host page (lines 147-155):
    a fixed header, one `<key>value</key>` element per message property in
    insertion order, and a closing tag. Nothing is escaped. The parser below
    is the reading a host page has to do; it recovers every property as long
    as no key contains `>` and no value contains `<`. */
module Payload {

  import opened Wrappers
  import opened Text
  import opened JsObject

  const Header := "<?xml version='1.0' encoding='utf-8' ?> <payload> "
  const Footer := "</payload>"

  /** The properties in the order `for ... in` visits them, by name. */
  type Properties = seq<(string, JsValue)>

  /** A property as text, as the host receives it. */
  type Fields = seq<(string, string)>

  function Element(k: string, v: string): string
  {
    "<" + k + ">" + v + "</" + k + ">"
  }

  function Elements(o: Properties): string
  {
    if |o| == 0 then "" else Element(o[0].0, AsText(o[0].1)) + Elements(o[1..])
  }

  /** The payload: header, elements, footer. */
  function Serialize(o: Properties): (r: string)
    ensures StartsWith(r, Header) && EndsWith(r, Footer)
    ensures |r| >= |Header| + |Footer|
    ensures r[|Header|..|r| - |Footer|] == Elements(o)
  {
    var r := Header + Elements(o) + Footer;
    assert r[..|Header|] == Header;
    assert r[|r| - |Footer|..] == Footer;
    assert r[|Header|..|r| - |Footer|] == Elements(o);
    r
  }

  /** Each property with its value as the text concatenation produces. */
  function Rendered(o: Properties): (f: Fields)
    ensures |f| == |o|
    ensures forall i :: 0 <= i < |o| ==> f[i] == (o[i].0, AsText(o[i].1))
  {
    if |o| == 0 then [] else [(o[0].0, AsText(o[0].1))] + Rendered(o[1..])
  }

  /** The condition under which the unescaped text can be read back. */
  predicate Decodable(o: Properties)
  {
    |o| == 0 || ('>' !in o[0].0 && '<' !in AsText(o[0].1) && Decodable(o[1..]))
  }

  /** Readable as long as no name holds `>` and no value `<`. */
  lemma {:induction false} DecodableWhenPlain(o: Properties)
    requires forall i :: 0 <= i < |o| ==> '>' !in o[i].0 && '<' !in AsText(o[i].1)
    ensures Decodable(o)
    decreases |o|
  {
    if |o| > 0 {
      assert forall i :: 0 <= i < |o[1..]| ==> o[1..][i] == o[i + 1];
      DecodableWhenPlain(o[1..]);
    }
  }

  /** The text before the first `c`. */
  function TakeUntil(s: string, c: char): (r: string)
    ensures |r| <= |s|
  {
    s[..FirstOf(s, {c})]
  }

  /** Reads a run of `<key>value</key>` elements. */
  function ParseElements(s: string): Option<Fields>
    decreases |s|
  {
    if |s| == 0 then Some([])
    else if s[0] != '<' then None
    else
      var k := TakeUntil(s[1..], '>');
      var r1 := s[1 + |k|..];
      if |r1| == 0 then None
      else
        var r2 := r1[1..];
        var v := TakeUntil(r2, '<');
        var r3 := r2[|v|..];
        var close := "</" + k + ">";
        if !StartsWith(r3, close) then None
        else
          match ParseElements(r3[|close|..])
          case None => None
          case Some(rest) => Some([(k, v)] + rest)
  }

  /** Reads a whole payload. */
  function Parse(s: string): Option<Fields>
  {
    if StartsWith(s, Header) && EndsWith(s, Footer) && |Header| + |Footer| <= |s| then
      ParseElements(s[|Header|..|s| - |Footer|])
    else None
  }

  /** Scanning stops at the first `c` after a `c`-free prefix. */
  lemma TakeUntilPrefix(p: string, tail: string, c: char)
    requires c !in p && |tail| > 0 && tail[0] == c
    ensures TakeUntil(p + tail, c) == p
  {
    FirstOfAt(p + tail, {c}, |p|);
    assert (p + tail)[..|p|] == p;
  }

  /** The parser's view of one element followed by more text: the name up
      to `>`, the value up to `<`, then the closing tag. */
  lemma ElementShape(k: string, v: string, rest: string)
    ensures var s := Element(k, v) + rest;
      var close := "</" + k + ">";
      && s[0] == '<'
      && s[1..] == k + (">" + (v + (close + rest)))
      && s[1 + |k|..] == ">" + (v + (close + rest))
      && (">" + (v + (close + rest)))[1..] == v + (close + rest)
      && (v + (close + rest))[|v|..] == close + rest
      && StartsWith(close + rest, close)
      && (close + rest)[|close|..] == rest
  {
    var close := "</" + k + ">";
    assert (close + rest)[..|close|] == close;
  }

  /** One element is read off the front of the text. */
  lemma ParseOneElement(k: string, v: string, rest: string)
    requires '>' !in k && '<' !in v
    ensures ParseElements(rest).None? ==> ParseElements(Element(k, v) + rest).None?
    ensures ParseElements(rest).Some? ==>
      ParseElements(Element(k, v) + rest) == Some([(k, v)] + ParseElements(rest).value)
  {
    var close := "</" + k + ">";
    ElementShape(k, v, rest);
    TakeUntilPrefix(k, ">" + (v + (close + rest)), '>');
    TakeUntilPrefix(v, close + rest, '<');
  }

  /** The elements of a message read back as its rendered properties. */
  lemma {:induction false} ParseElementsRoundTrip(o: Properties)
    requires Decodable(o)
    ensures ParseElements(Elements(o)) == Some(Rendered(o))
    decreases |o|
  {
    if |o| > 0 {
      ParseElementsRoundTrip(o[1..]);
      ParseOneElement(o[0].0, AsText(o[0].1), Elements(o[1..]));
    }
  }

  /** Reading a payload reads exactly its elements. */
  lemma ParseSerializedElements(o: Properties)
    ensures Parse(Serialize(o)) == ParseElements(Elements(o))
  {
  }

  /** Reading a payload back gives each property, in order, with its value's
      text, whenever keys hold no `>` and values no `<`. */
  lemma ParseSerialize(o: Properties)
    requires Decodable(o)
    ensures Parse(Serialize(o)) == Some(Rendered(o))
  {
    ParseSerializedElements(o);
    ParseElementsRoundTrip(o);
  }

  /** A value holding a closing and an opening tag of its own key splits
      into two elements around what lies between. */
  lemma SpliceElement(k: string, a: string, m: string, b: string)
    ensures Element(k, a + "</" + k + ">" + m + "<" + k + ">" + b) == Element(k, a) + (m + Element(k, b))
  {
    var l := Element(k, a + "</" + k + ">" + m + "<" + k + ">" + b);
    var r := Element(k, a) + (m + Element(k, b));
    assert |l| == |r|;
    forall i | 0 <= i < |l|
      ensures l[i] == r[i]
    {
    }
  }

  /** Three text properties, as elements, as rendered, and as readable. */
  lemma ThreeProperties(k: string, j: string, x: string, y: string, z: string)
    requires '>' !in k && '>' !in j
    requires '<' !in x && '<' !in y && '<' !in z
    ensures var three := [(k, Str(x)), (j, Str(y)), (k, Str(z))];
      && Elements(three) == Element(k, x) + (Element(j, y) + Element(k, z))
      && Rendered(three) == [(k, x), (j, y), (k, z)]
      && Decodable(three)
  {
    var three := [(k, Str(x)), (j, Str(y)), (k, Str(z))];
    var last := three[1..][1..];
    assert last[1..] == [];
    assert Elements(last) == Element(k, z);
    assert Decodable(last);
    assert Decodable(three[1..]);
  }

  /** Without escaping, a value holding markup is read back as different
      fields: a single property whose value is `x</k><j>y</j><k>z` comes back
      as three. */
  lemma MarkupInValueIsMisread(k: string, j: string, x: string, y: string, z: string)
    requires '>' !in k && '>' !in j
    requires '<' !in x && '<' !in y && '<' !in z
    ensures var o := [(k, Str(x + "</" + k + ">" + Element(j, y) + "<" + k + ">" + z))];
      Parse(Serialize(o)) == Some([(k, x), (j, y), (k, z)])
  {
    var value := x + "</" + k + ">" + Element(j, y) + "<" + k + ">" + z;
    var o := [(k, Str(value))];
    assert o[1..] == [];
    assert Elements(o) == Element(k, value);
    SpliceElement(k, x, Element(j, y), z);
    ThreeProperties(k, j, x, y, z);
    var three := [(k, Str(x)), (j, Str(y)), (k, Str(z))];
    ParseSerializedElements(o);
    ParseElementsRoundTrip(three);
  }
}
