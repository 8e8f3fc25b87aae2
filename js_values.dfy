/** The part of JavaScript's value semantics that the session store relies on:
    values, truthiness (`if (x)`, `x ? a : b`), property lookup, the object
    spread `{ ...o }` and the string conversion used by `'a' + x + 'b'`. */
module JsValues {

  /** A JavaScript value as it can appear in a user record or in the
      provider's `user_metadata`. Numbers are modelled as integers. */
  datatype Value =
    | Undef
    | Null
    | Bool(b: bool)
    | Num(n: int)
    | Str(s: string)
    | Arr(items: seq<Value>)
    | Obj(props: Entries)

  /** The own properties of a plain object, in enumeration order. */
  type Entries = seq<(string, Value)>

  /** A plain object seen as its own properties, order forgotten. */
  type Object = map<string, Value>

  /** ECMAScript ToBoolean: the falsy values are `undefined`, `null`,
      `false`, `0` and the empty string; every object is truthy. */
  predicate Truthy(v: Value)
    ensures Truthy(v) <==> v !in {Undef, Null, Bool(false), Num(0), Str("")}
  {
    match v
    case Undef => false
    case Null => false
    case Bool(b) => b
    case Num(n) => n != 0
    case Str(s) => s != ""
    case Arr(_) => true
    case Obj(_) => true
  }

  /** Property access `o.k`: a missing own property reads as `undefined`. */
  function Get(o: Object, k: string): Value
  {
    if k in o then o[k] else Undef
  }

  /** The keys that occur in a list of entries. */
  function KeysOf(es: Entries): set<string>
  {
    set i | 0 <= i < |es| :: es[i].0
  }

  /** Entry `i` is the last one in `es` with its key. */
  ghost predicate IsLastWithKey(es: Entries, i: int)
  {
    0 <= i < |es| && forall j :: i < j < |es| ==> es[j].0 != es[i].0
  }

  /** `{ ...target, ...es }`: the properties of `es` are defined on a copy of
      `target` one after the other, so a later entry overwrites an earlier
      entry or a property of `target` with the same key. */
  function Spread(target: Object, es: Entries): (r: Object)
    ensures r.Keys == target.Keys + KeysOf(es)
    decreases |es|
  {
    if es == [] then target
    else
      var rest := Spread(target[es[0].0 := es[0].1], es[1..]);
      assert KeysOf(es) == {es[0].0} + KeysOf(es[1..]) by {
        forall k | k in KeysOf(es) ensures k in {es[0].0} + KeysOf(es[1..]) {
          var i :| 0 <= i < |es| && es[i].0 == k;
          if i > 0 { assert es[1..][i - 1].0 == k; }
        }
      }
      rest
  }

  /** A key that no entry mentions reads the same after the spread. */
  lemma {:induction false} SpreadKeeps(target: Object, es: Entries, k: string)
    requires forall j :: 0 <= j < |es| ==> es[j].0 != k
    ensures Get(Spread(target, es), k) == Get(target, k)
    decreases |es|
  {
    if es != [] {
      var next := target[es[0].0 := es[0].1];
      forall j | 0 <= j < |es[1..]| ensures es[1..][j].0 != k {
        assert es[1..][j] == es[j + 1];
      }
      SpreadKeeps(next, es[1..], k);
      assert Get(next, k) == Get(target, k);
    }
  }

  /** The last entry with a given key decides that key's value. */
  lemma {:induction false} SpreadLastWins(target: Object, es: Entries, i: int)
    requires IsLastWithKey(es, i)
    ensures es[i].0 in Spread(target, es) && Spread(target, es)[es[i].0] == es[i].1
    decreases |es|
  {
    var next := target[es[0].0 := es[0].1];
    var k := es[i].0;
    if i == 0 {
      forall j | 0 <= j < |es[1..]| ensures es[1..][j].0 != k {
        assert es[1..][j] == es[j + 1];
      }
      SpreadKeeps(next, es[1..], k);
    } else {
      assert es[1..][i - 1] == es[i];
      forall j | i - 1 < j < |es[1..]| ensures es[1..][j].0 != es[1..][i - 1].0 {
        assert es[1..][j] == es[j + 1];
      }
      SpreadLastWins(next, es[1..], i - 1);
    }
  }

  /** Every key that occurs in `es` has a last occurrence. */
  lemma LastOccurrence(es: Entries, k: string) returns (i: int)
    requires k in KeysOf(es)
    ensures IsLastWithKey(es, i) && es[i].0 == k
  {
    var first :| 0 <= first < |es| && es[first].0 == k;
    i := first;
    var j := i + 1;
    while j < |es|
      invariant i < j <= |es|
      invariant es[i].0 == k
      invariant forall m :: i < m < j ==> es[m].0 != k
    {
      if es[j].0 == k { i := j; }
      j := j + 1;
    }
  }

  /** The decimal digits of a natural number, most significant first. */
  function NatToDecimal(n: nat): string
    decreases n
  {
    var digit := ["0123456789"[n % 10]];
    if n < 10 then digit else NatToDecimal(n / 10) + digit
  }

  /** ECMAScript ToString, as `+` applies it to a non-string operand.
      Arrays join their elements with `,` (see JoinElements); every plain
      object prints as `[object Object]`. Integers are written out in full
      decimal, as JavaScript does below 10^21. */
  function ToJsString(v: Value): string
    decreases v, 1
  {
    match v
    case Undef => "undefined"
    case Null => "null"
    case Bool(b) => if b then "true" else "false"
    case Num(n) => if n < 0 then "-" + NatToDecimal(-n) else NatToDecimal(n)
    case Str(s) => s
    case Arr(items) => JoinElements(items)
    case Obj(_) => "[object Object]"
  }

  /** `Array.prototype.join(',')`: `null` and `undefined` elements print as
      the empty string. */
  function JoinElements(items: seq<Value>): string
    decreases items, 0
  {
    if items == [] then ""
    else
      var first := if items[0] == Undef || items[0] == Null then "" else ToJsString(items[0]);
      if |items| == 1 then first else first + "," + JoinElements(items[1..])
  }
}
