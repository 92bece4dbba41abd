/** Decoded JSON values as the Python code sees them after `json.loads`, with
    the three ways it reads into them: subscripting (`v["k"]`, `v[0]`),
    `dict.get` with a default, and truthiness. */
module PyJson {

  import opened Wrappers

  datatype Json =
    | JNull
    | JBool(b: bool)
    | JNum(n: int)
    | JStr(s: string)
    | JArr(items: seq<Json>)
    | JObj(fields: map<string, Json>)

  /** The Python exceptions the modelled code can raise or catch. */
  datatype PyExc =
    | KeyError
    | IndexError
    | TypeError
    | AttributeError
    | ValueError(message: string)
    | RequestException
    | ClientError(status: int, message: string)

  /** The outcome of reading into a value: the value read, or the exception. */
  datatype Lookup = Found(value: Json) | Raised(error: PyExc)

  /** A subscript: a string key or an integer index. */
  datatype Subscript = Key(k: string) | Idx(i: int)

  /** Python truthiness of a decoded JSON value. */
  predicate Truthy(v: Json)
  {
    match v
    case JNull => false
    case JBool(b) => b
    case JNum(n) => n != 0
    case JStr(s) => s != ""
    case JArr(a) => |a| > 0
    case JObj(m) => |m| > 0
  }

  /** `v[sub]`. A dict raises KeyError for a missing key (an integer is never
      a key of a decoded dict); a list or string takes indices from -len to
      len - 1 and raises IndexError outside them; a list or string indexed by a
      string, and any scalar, raise TypeError. */
  function Subscripted(v: Json, sub: Subscript): (r: Lookup)
    ensures v.JObj? && sub.Key? && sub.k in v.fields ==> r == Found(v.fields[sub.k])
    ensures v.JObj? && !(sub.Key? && sub.k in v.fields) ==> r == Raised(KeyError)
    ensures v.JArr? && sub.Idx? && 0 <= sub.i < |v.items| ==> r == Found(v.items[sub.i])
    ensures v.JArr? && sub.Idx? && -|v.items| <= sub.i < 0 ==> r == Found(v.items[|v.items| + sub.i])
    ensures v.JArr? && sub.Idx? && !(-|v.items| <= sub.i < |v.items|) ==> r == Raised(IndexError)
    ensures v.JStr? && sub.Idx? && 0 <= sub.i < |v.s| ==> r == Found(JStr([v.s[sub.i]]))
    ensures v.JStr? && sub.Idx? && -|v.s| <= sub.i < 0 ==> r == Found(JStr([v.s[|v.s| + sub.i]]))
    ensures v.JStr? && sub.Idx? && !(-|v.s| <= sub.i < |v.s|) ==> r == Raised(IndexError)
    ensures (v.JArr? || v.JStr?) && sub.Key? ==> r == Raised(TypeError)
    ensures v.JNull? || v.JBool? || v.JNum? ==> r == Raised(TypeError)
    ensures r.Raised? ==> r.error in {KeyError, IndexError, TypeError}
  {
    match v
    case JObj(m) =>
      if sub.Key? && sub.k in m then Found(m[sub.k]) else Raised(KeyError)
    case JArr(a) =>
      if sub.Key? then Raised(TypeError)
      else if 0 <= sub.i < |a| then Found(a[sub.i])
      else if -|a| <= sub.i < 0 then Found(a[|a| + sub.i])
      else Raised(IndexError)
    case JStr(s) =>
      if sub.Key? then Raised(TypeError)
      else if 0 <= sub.i < |s| then Found(JStr([s[sub.i]]))
      else if -|s| <= sub.i < 0 then Found(JStr([s[|s| + sub.i]]))
      else Raised(IndexError)
    case _ => Raised(TypeError)
  }

  /** `v[s0][s1]...`: the subscripts applied left to right, stopping at the
      first exception. */
  function SubscriptPath(v: Json, path: seq<Subscript>): (r: Lookup)
    decreases |path|
  {
    if |path| == 0 then Found(v)
    else
      match Subscripted(v, path[0])
      case Found(w) => SubscriptPath(w, path[1..])
      case Raised(e) => Raised(e)
  }

  /** Every exception a subscript chain raises is one a single subscript can
      raise. */
  lemma {:induction false} SubscriptPathErrors(v: Json, path: seq<Subscript>)
    ensures var r := SubscriptPath(v, path);
      r.Raised? ==> r.error in {KeyError, IndexError, TypeError}
    decreases |path|
  {
    if |path| > 0 {
      match Subscripted(v, path[0])
      case Found(w) => SubscriptPathErrors(w, path[1..]);
      case Raised(e) =>
    }
  }

  /** `v.get(key, default)`: only a dict has `get`; anything else raises
      AttributeError. */
  function DictGet(v: Json, key: string, default: Json): (r: Lookup)
    ensures v.JObj? && key in v.fields ==> r == Found(v.fields[key])
    ensures v.JObj? && key !in v.fields ==> r == Found(default)
    ensures !v.JObj? ==> r == Raised(AttributeError)
  {
    match v
    case JObj(m) => Found(if key in m then m[key] else default)
    case _ => Raised(AttributeError)
  }

  /** `v.get(k0, {}).get(k1, {})....get(last, "")`: every intermediate
      missing key reads as an empty dict, the final one as the empty string. */
  function GetChain(v: Json, keys: seq<string>, last: string): Lookup
    decreases |keys|
  {
    if |keys| == 0 then DictGet(v, last, JStr(""))
    else
      match DictGet(v, keys[0], JObj(map[]))
      case Found(w) => GetChain(w, keys[1..], last)
      case Raised(e) => Raised(e)
  }

  /** The strict reading of a nested path: the value reached through dicts
      only, or None when a key is missing or a non-dict is in the way. */
  function NestedValue(v: Json, keys: seq<string>): Option<Json>
    decreases |keys|
  {
    if |keys| == 0 then Some(v)
    else if v.JObj? && keys[0] in v.fields then NestedValue(v.fields[keys[0]], keys[1..])
    else None
  }

  /** Once a missing key has produced the empty dict, every further `get` on
      the chain yields the final default, the empty string. */
  lemma {:induction false} GetChainOnEmpty(keys: seq<string>, last: string)
    ensures GetChain(JObj(map[]), keys, last) == Found(JStr(""))
    decreases |keys|
  {
    if |keys| > 0 {
      GetChainOnEmpty(keys[1..], last);
    }
  }

  /** A chain of `get`s reads the nested value when the full path exists
      through dicts, and the empty string when the first missing key sits
      below dicts only. */
  lemma {:induction false} GetChainAgreesWithNested(v: Json, keys: seq<string>, last: string)
    ensures NestedValue(v, keys + [last]).Some? ==>
      GetChain(v, keys, last) == Found(NestedValue(v, keys + [last]).value)
    ensures forall i :: 0 <= i <= |keys| ==>
      var above := NestedValue(v, keys[..i]);
      above.Some? && above.value.JObj? && (keys + [last])[i] !in above.value.fields ==>
        GetChain(v, keys, last) == Found(JStr(""))
    decreases |keys|
  {
    if |keys| == 0 {
      assert keys + [last] == [last];
      assert [last][1..] == [];
      forall i | 0 <= i <= |keys|
        ensures var above := NestedValue(v, keys[..i]);
          above.Some? && above.value.JObj? && (keys + [last])[i] !in above.value.fields ==>
            GetChain(v, keys, last) == Found(JStr(""))
      {
        assert keys[..i] == [];
      }
    } else {
      var k := keys[0];
      assert (keys + [last])[1..] == keys[1..] + [last];
      assert (keys + [last])[0] == k;
      if v.JObj? && k in v.fields {
        GetChainAgreesWithNested(v.fields[k], keys[1..], last);
      }
      forall i | 0 <= i <= |keys|
        ensures var above := NestedValue(v, keys[..i]);
          above.Some? && above.value.JObj? && (keys + [last])[i] !in above.value.fields ==>
            GetChain(v, keys, last) == Found(JStr(""))
      {
        var above := NestedValue(v, keys[..i]);
        if above.Some? && above.value.JObj? && (keys + [last])[i] !in above.value.fields {
          if i == 0 {
            assert keys[..0] == [];
            GetChainOnEmpty(keys[1..], last);
          } else {
            assert keys[..i][0] == k && keys[..i][1..] == keys[1..][..i - 1];
            assert v.JObj? && k in v.fields;
            assert (keys[1..] + [last])[i - 1] == (keys + [last])[i];
          }
        }
      }
    }
  }
}
