/** JavaScript values as the API layer sees them: parsed JSON bodies, plus
    `undefined`, with the truthiness and property-access rules the success
    handlers depend on. */
module Json {

  datatype Option<+T> = None | Some(value: T)

  /** A value a parsed JSON body can hold. Numbers are integers here: only
      whether a number is zero matters to the core. */
  datatype Json =
    | Null
    | Bool(b: bool)
    | Num(n: int)
    | Str(s: string)
    | Arr(items: seq<Json>)
    | Obj(fields: map<string, Json>)

  /** A JavaScript value: `None` is `undefined`. */
  type JsValue = Option<Json>

  /** JavaScript truthiness: `undefined`, `null`, `false`, `0` and `""` are
      falsy; every array and object, even an empty one, is truthy. */
  predicate Truthy(v: JsValue)
  {
    match v
    case None => false
    case Some(j) =>
      match j
      case Null => false
      case Bool(b) => b
      case Num(n) => n != 0
      case Str(s) => s != ""
      case Arr(_) => true
      case Obj(_) => true
  }

  /** Reading a property of these values throws a TypeError. */
  predicate Nullish(v: JsValue)
  {
    v.None? || v.value.Null?
  }

  /** `v.key` for a named (non-index) key on a value that is not nullish:
      an object's own field, or the `length` of an array or a string.
      Booleans, numbers, arrays and strings have no other own property, and
      none of the keys the core reads exists on a built-in prototype. */
  function Prop(v: JsValue, key: string): (r: JsValue)
    requires !Nullish(v)
    ensures v.value.Obj? ==> r == if key in v.value.fields then Some(v.value.fields[key]) else None
    ensures r.Some? ==> v.value.Obj? || key == "length"
  {
    match v.value
    case Obj(m) => if key in m then Some(m[key]) else None
    case Arr(items) => if key == "length" then Some(Num(|items|)) else None
    case Str(s) => if key == "length" then Some(Num(|s|)) else None
    case _ => None
  }

  /** `a || b`: the first operand if it is truthy, else the second. */
  function Or(a: JsValue, b: JsValue): (r: JsValue)
    ensures Truthy(r) <==> Truthy(a) || Truthy(b)
    ensures Truthy(a) ==> r == a
  {
    if Truthy(a) then a else b
  }

  // ---------------------------------------------------------------------
  // Object spread (`{ ...v }`): the own enumerable properties of `v`.

  function Digit(d: nat): (c: char)
    requires d < 10
    ensures '0' <= c <= '9'
  {
    ('0' as int + d) as char
  }

  /** The decimal spelling of an index, as used for array and string keys. */
  function Decimal(n: nat): (s: string)
    ensures |s| > 0
    ensures forall i :: 0 <= i < |s| ==> '0' <= s[i] <= '9'
  {
    if n < 10 then [Digit(n)] else Decimal(n / 10) + [Digit(n % 10)]
  }

  /** The number a string of decimal digits spells. */
  function Parse(s: string): nat
  {
    if s == [] then 0
    else
      var c := s[|s| - 1];
      Parse(s[..|s| - 1]) * 10 + (if '0' <= c <= '9' then c as int - '0' as int else 0)
  }

  /** Parsing undoes `Decimal`, so distinct indices have distinct keys. */
  lemma {:induction false} ParseDecimal(n: nat)
    ensures Parse(Decimal(n)) == n
  {
    var s := Decimal(n);
    if n < 10 {
      assert s[..|s| - 1] == [];
    } else {
      ParseDecimal(n / 10);
      assert s[..|s| - 1] == Decimal(n / 10);
    }
  }

  /** The keys "0", "1", ... bound to the elements of `xs`. */
  function Indexed(xs: seq<Json>): (m: map<string, Json>)
    ensures forall i :: 0 <= i < |xs| ==> Decimal(i) in m && m[Decimal(i)] == xs[i]
    ensures forall k :: k in m ==> Parse(k) < |xs| && k == Decimal(Parse(k))
  {
    if xs == [] then map[]
    else
      var n := |xs| - 1;
      var m := Indexed(xs[..n]);
      ParseDecimal(n);
      assert forall i :: 0 <= i < n ==> Decimal(i) != Decimal(n) by {
        forall i | 0 <= i < n
          ensures Decimal(i) != Decimal(n)
        {
          ParseDecimal(i);
        }
      }
      m[Decimal(n) := xs[n]]
  }

  /** No index key is spelled "task". */
  lemma NoIndexIsTask(n: nat)
    ensures Decimal(n) != "task"
  {
    assert '0' <= Decimal(n)[0] <= '9';
  }

  /** The own enumerable properties that `{ ...v }` copies: an object's
      fields, an array's elements and a string's characters under their
      indices, and nothing for `undefined`, `null`, booleans and numbers. */
  function Spread(v: JsValue): (m: map<string, Json>)
    ensures v.Some? && v.value.Obj? ==> m == v.value.fields
    ensures (Nullish(v) || v.value.Bool? || v.value.Num?) ==> m == map[]
    ensures v.Some? && v.value.Arr? ==>
      && (forall i :: 0 <= i < |v.value.items| ==> Decimal(i) in m && m[Decimal(i)] == v.value.items[i])
      && (forall k :: k in m ==> Parse(k) < |v.value.items| && k == Decimal(Parse(k)))
    ensures v.Some? && v.value.Str? ==>
      && (forall i :: 0 <= i < |v.value.s| ==> Decimal(i) in m && m[Decimal(i)] == Str([v.value.s[i]]))
      && (forall k :: k in m ==> Parse(k) < |v.value.s| && k == Decimal(Parse(k)))
    ensures "task" in m ==> v.Some? && v.value.Obj?
  {
    match v
    case None => map[]
    case Some(j) =>
      match j
      case Obj(fields) => fields
      case Arr(items) =>
        NoIndexIsTask(Parse("task"));
        Indexed(items)
      case Str(s) =>
        NoIndexIsTask(Parse("task"));
        Indexed(seq(|s|, i requires 0 <= i < |s| => Str([s[i]])))
      case _ => map[]
  }
}
