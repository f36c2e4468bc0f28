/**
 * The Java object graph that Jackson builds from a JSON document (and that the
 * controller hands back to it): strings, boxed numbers, booleans, lists and
 * maps. A map is kept as its entries in iteration order; `Put` and `Get` give
 * it the behaviour of java.util.Map.
 */
module JsonValues {
  import opened JavaText
  import opened JavaNumbers

  datatype Value =
    | Null
    | Str(s: string)
    | Integer(n: int)        // java.lang.Integer
    | Long(n: int)           // java.lang.Long
    | BigInteger(n: int)     // java.math.BigInteger
    | Double(text: string)   // java.lang.Double, held as its Double.toString text
    | Boolean(b: bool)
    | List(items: seq<Value>)
    | Dict(entries: seq<(string, Value)>)

  /** The object Jackson makes of a JSON integer: the narrowest of Integer, Long and BigInteger that holds it. */
  function Decoded(n: int): (v: Value)
    ensures v.Integer? || v.Long? || v.BigInteger?
    ensures v.n == n
    ensures v.Integer? <==> InIntRange(n)
    ensures v.Long? <==> InLongRange(n) && !InIntRange(n)
  {
    if InIntRange(n) then Integer(n) else if InLongRange(n) then Long(n) else BigInteger(n)
  }

  /** `String.valueOf(v)`: the text Java's toString gives each kind of object. */
  function ToText(v: Value): string {
    match v
    case Null => "null"
    case Str(s) => s
    case Integer(n) => ToDecimal(n)
    case Long(n) => ToDecimal(n)
    case BigInteger(n) => ToDecimal(n)
    case Double(t) => t
    case Boolean(b) => if b then "true" else "false"
    case List(items) =>
      "[" + Join(seq(|items|, i requires 0 <= i < |items| => ToText(items[i])), ", ") + "]"
    case Dict(es) =>
      "{" + Join(seq(|es|, i requires 0 <= i < |es| => es[i].0 + "=" + ToText(es[i].1)), ", ") + "}"
  }

  /** The keys of a map's entries. */
  function Keys(es: seq<(string, Value)>): (ks: set<string>)
    ensures forall i :: 0 <= i < |es| ==> es[i].0 in ks
    ensures forall k :: k in ks ==> exists i :: 0 <= i < |es| && es[i].0 == k
  {
    if es == [] then {}
    else
      assert forall i :: 1 <= i < |es| ==> es[i] == es[1..][i - 1];
      {es[0].0} + Keys(es[1..])
  }

  /** `map.get(key)`: the value stored under `key`, or null when there is none. */
  function Get(es: seq<(string, Value)>, key: string): (v: Value)
    ensures key !in Keys(es) ==> v == Null
  {
    if es == [] then Null
    else if es[0].0 == key then es[0].1
    else Get(es[1..], key)
  }

  /** `map.put(key, v)`: replaces the value of an existing key in place, or adds a new entry at the end. */
  function Put(es: seq<(string, Value)>, key: string, v: Value): (r: seq<(string, Value)>)
    ensures Keys(r) == Keys(es) + {key}
    ensures Get(r, key) == v
    ensures forall k :: k != key ==> Get(r, k) == Get(es, k)
  {
    if es == [] then [(key, v)]
    else if es[0].0 == key then
      KeysCons(es[0], es[1..]);
      KeysCons((key, v), es[1..]);
      [(key, v)] + es[1..]
    else
      KeysCons(es[0], es[1..]);
      KeysCons(es[0], Put(es[1..], key, v));
      [es[0]] + Put(es[1..], key, v)
  }

  lemma KeysCons(h: (string, Value), t: seq<(string, Value)>)
    ensures Keys([h] + t) == {h.0} + Keys(t)
  {
    assert ([h] + t)[1..] == t;
  }

  /** A map of two distinct keys, built by two puts onto an empty map: its keys, and the value of each key. */
  lemma TwoEntries(a: (string, Value), b: (string, Value))
    requires a.0 != b.0
    ensures Keys([a, b]) == {a.0, b.0}
    ensures Get([a, b], a.0) == a.1 && Get([a, b], b.0) == b.1
  {
    KeysCons(b, []);
    KeysCons(a, [b]);
    assert [b] + [] == [b] && [a] + [b] == [a, b];
    assert [a, b][1..] == [b];
  }

  /** A map of three distinct keys, built by three puts onto an empty map: its keys, and the value of each key. */
  lemma ThreeEntries(a: (string, Value), b: (string, Value), c: (string, Value))
    requires a.0 != b.0 && a.0 != c.0 && b.0 != c.0
    ensures Keys([a, b, c]) == {a.0, b.0, c.0}
    ensures Get([a, b, c], a.0) == a.1 && Get([a, b, c], b.0) == b.1 && Get([a, b, c], c.0) == c.1
  {
    var es := [a, b, c];
    KeysCons(c, []);
    KeysCons(b, [c]);
    KeysCons(a, [b, c]);
    assert [c] + [] == [c] && [b] + [c] == [b, c] && [a] + [b, c] == es;
    assert es[1..] == [b, c] && es[1..][1..] == [c];
    assert Get([c], c.0) == c.1;
    assert Get([b, c], c.0) == c.1;
  }

  /** A map built by successive puts onto an empty map has each key once. */
  ghost predicate DistinctKeys(es: seq<(string, Value)>) {
    forall i, j :: 0 <= i < j < |es| ==> es[i].0 != es[j].0
  }

  lemma {:induction false} PutKeepsKeysDistinct(es: seq<(string, Value)>, key: string, v: Value)
    requires DistinctKeys(es)
    ensures DistinctKeys(Put(es, key, v))
  {
    if es != [] {
      var tail := es[1..];
      assert es == [es[0]] + tail;
      DistinctCons(es[0], tail);
      if es[0].0 == key {
        DistinctCons((key, v), tail);
      } else {
        PutKeepsKeysDistinct(tail, key, v);
        DistinctCons(es[0], Put(tail, key, v));
      }
    }
  }

  /** A map with one more entry in front has each key once exactly when the rest does and lacks the new key. */
  lemma DistinctCons(h: (string, Value), t: seq<(string, Value)>)
    ensures DistinctKeys([h] + t) <==> DistinctKeys(t) && h.0 !in Keys(t)
  {
    var es := [h] + t;
    if DistinctKeys(es) {
      forall i, j | 0 <= i < j < |t| ensures t[i].0 != t[j].0 {
        assert t[i] == es[i + 1] && t[j] == es[j + 1];
      }
      forall i | 0 <= i < |t| ensures t[i].0 != h.0 {
        assert t[i] == es[i + 1] && h == es[0];
      }
    }
    if DistinctKeys(t) && h.0 !in Keys(t) {
      forall i, j | 0 <= i < j < |es| ensures es[i].0 != es[j].0 {
        assert es[j] == t[j - 1];
        if i > 0 {
          assert es[i] == t[i - 1];
        }
      }
    }
  }

  /** With each key once, the size of the map is the number of distinct keys. */
  lemma {:induction false} DistinctKeysCount(es: seq<(string, Value)>)
    requires DistinctKeys(es)
    ensures |Keys(es)| == |es|
  {
    if es != [] {
      DistinctKeysCount(es[1..]);
      assert Keys(es) == Keys(es[1..]) + {es[0].0};
      assert es[0].0 !in Keys(es[1..]);
    }
  }

  /** Java's rendering of a small list: elements joined by ", " inside brackets. */
  lemma ListTextExample()
    ensures ToText(List([Integer(1), Str("a")])) == "[1, a]"
  {
    assert ToDecimal(1) == "1";
    var items := [Integer(1), Str("a")];
    assert seq(|items|, i requires 0 <= i < |items| => ToText(items[i])) == ["1", "a"];
  }

  /** Java's rendering of a small map: `key=value` entries inside braces; null prints as "null". */
  lemma MapTextExample()
    ensures ToText(Dict([("k", Boolean(true))])) == "{k=true}"
    ensures ToText(Null) == "null"
  {
    var es := [("k", Boolean(true))];
    assert es[0].0 + "=" + ToText(es[0].1) == "k=true";
    assert seq(|es|, i requires 0 <= i < |es| => es[i].0 + "=" + ToText(es[i].1)) == ["k=true"];
  }
}
