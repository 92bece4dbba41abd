/** The two kinds of JavaScript object `createPayload` works with: an
    insertion-ordered object whose properties keep the position of their first
    assignment (the message), and the name-to-value dictionary the contact
    attributes are flattened into. */
module JsObject {

  import opened Wrappers

  /** A property value: a string, or `undefined` (the value an absent
      property reads as, which assignment can still store). */
  datatype JsValue = Str(s: string) | Undefined

  /** JavaScript truthiness of a property value. */
  predicate Truthy(v: JsValue)
  {
    v.Str? && v.s != ""
  }

  /** The text `String(v)` gives, which is what `"..." + v` concatenates. */
  function AsText(v: JsValue): string
  {
    match v
    case Str(s) => s
    case Undefined => "undefined"
  }

  /** A plain object: its own property names in insertion order and the
      value of each. None of the property names used here is an array index,
      so `for ... in` visits them in this order. */
  datatype Object<K> = Object(keys: seq<K>, values: map<K, JsValue>)

  /** `{}` */
  function Empty<K>(): Object<K>
  {
    Object([], map[])
  }

  /** Every name is listed once, and exactly the names that hold a value are
      listed. */
  ghost predicate Valid<K(!new)>(o: Object<K>)
  {
    && (forall i, j :: 0 <= i < j < |o.keys| ==> o.keys[i] != o.keys[j])
    && (forall k :: k in o.values <==> k in o.keys)
  }

  /** The own property `k`, if the object has one. */
  function Get<K(==)>(o: Object<K>, k: K): Option<JsValue>
  {
    if k in o.values then Some(o.values[k]) else None
  }

  /** `o[k]`: an absent property reads as `undefined`. */
  function Read<K(==)>(o: Object<K>, k: K): JsValue
  {
    Get(o, k).GetOr(Undefined)
  }

  /** `o[k] = v`: the property takes the new value and every other property
      keeps its own; an existing name keeps its position and a new one is
      listed last. */
  function Set<K(==,!new)>(o: Object<K>, k: K, v: JsValue): (r: Object<K>)
    ensures Get(r, k) == Some(v)
    ensures forall k' {:trigger Get(r, k')} :: k' != k ==> Get(r, k') == Get(o, k')
    ensures Valid(o) ==> Valid(r)
    ensures Valid(o) && k in o.keys ==> r.keys == o.keys
    ensures Valid(o) && k !in o.keys ==> r.keys == o.keys + [k]
  {
    Object(if k in o.values then o.keys else o.keys + [k], o.values[k := v])
  }

  /** The names of `a` open the names of `b`, in the same order. */
  predicate KeysExtend<K(==)>(a: Object<K>, b: Object<K>)
  {
    |a.keys| <= |b.keys| && b.keys[..|a.keys|] == a.keys
  }

  lemma SetExtends<K(!new)>(o: Object<K>, k: K, v: JsValue)
    requires Valid(o)
    ensures KeysExtend(o, Set(o, k, v))
  {
    if k !in o.keys {
      assert (o.keys + [k])[..|o.keys|] == o.keys;
    }
  }

  /** In a valid object, the listed names are exactly those with a value. */
  lemma AbsentWhenNone<K(!new)>(o: Object<K>, k: K)
    requires Valid(o)
    ensures k in o.keys <==> Get(o, k).Some?
  {
  }

  lemma ExtendsTrans<K>(a: Object<K>, b: Object<K>, c: Object<K>)
    requires KeysExtend(a, b) && KeysExtend(b, c)
    ensures KeysExtend(a, c)
  {
    assert c.keys[..|a.keys|] == c.keys[..|b.keys|][..|a.keys|];
  }

  /** A contact attribute as Amazon Connect Streams hands it over. */
  datatype Attribute = Attribute(name: string, value: string)

  /** Lines 77-82: each attribute in turn is stored under its name. */
  function Flatten(attrs: seq<Attribute>): (m: map<string, string>)
    ensures forall i :: 0 <= i < |attrs| ==> attrs[i].name in m
    ensures forall n :: n in m ==> exists i :: 0 <= i < |attrs| && attrs[i].name == n
  {
    if |attrs| == 0 then map[]
    else
      var init := attrs[..|attrs| - 1];
      var last := attrs[|attrs| - 1];
      assert forall i :: 0 <= i < |init| ==> init[i] == attrs[i];
      Flatten(init)[last.name := last.value]
  }

  /** When two attributes share a name the later one wins: the value stored
      under a name is that of the last attribute carrying it. */
  lemma {:induction false} FlattenLastWins(attrs: seq<Attribute>, n: string)
    requires n in Flatten(attrs)
    ensures exists i :: LastWith(attrs, n, i) && attrs[i].value == Flatten(attrs)[n]
  {
    var init := attrs[..|attrs| - 1];
    var last := attrs[|attrs| - 1];
    if last.name == n {
      assert LastWith(attrs, n, |attrs| - 1);
    } else {
      FlattenLastWins(init, n);
      var i :| LastWith(init, n, i) && init[i].value == Flatten(init)[n];
      LastWithExtends(init, last, n, i);
      assert attrs == init + [last];
    }
  }

  /** Attribute `i` is the last one named `n`. */
  predicate LastWith(attrs: seq<Attribute>, n: string, i: int)
  {
    0 <= i < |attrs| && attrs[i].name == n && forall j :: i < j < |attrs| ==> attrs[j].name != n
  }

  lemma LastWithExtends(init: seq<Attribute>, last: Attribute, n: string, i: int)
    requires LastWith(init, n, i) && last.name != n
    ensures LastWith(init + [last], n, i) && (init + [last])[i] == init[i]
  {
    var attrs := init + [last];
    forall j | i < j < |attrs|
      ensures attrs[j].name != n
    {
      if j < |init| {
        assert attrs[j] == init[j];
      }
    }
  }

  /** `temp[k]` on the flattened attributes. */
  function Lookup(m: map<string, string>, k: string): JsValue
  {
    if k in m then Str(m[k]) else Undefined
  }
}
