/**
 The loosely typed values the handler reads from the provider's replies, and the
 pieces of JavaScript semantics the handler relies on when it reads them:
 plain member access (`v.p`, `v[i]`), optional chaining (`v?.p`), nullish
 coalescing (`a ?? b`) and truthiness (`if (x)`, `!x`, `x ? a : b`).
 */
module JsonValue {

  /** A value as `JSON.parse` produces it, plus `undefined`, which is what a
      missing property reads as. Numbers are reals; NaN is not representable. */
  datatype Json =
    | Undefined
    | Null
    | Bool(b: bool)
    | Num(n: real)
    | Str(s: string)
    | Arr(elems: seq<Json>)
    | Obj(fields: map<string, Json>)

  /** One step of a member-access chain: `.name` or `[index]`. */
  datatype Step = Name(name: string) | Index(i: nat)

  /** The kinds of exception that reach the handler's catch branch. */
  datatype Fault =
    | TypeError      // reading a property of null or undefined
    | UpstreamError  // fetch rejected, or the reply body was not valid JSON

  /** The outcome of an expression that may throw. */
  datatype Result<+T> = Ok(value: T) | Throw(fault: Fault)

  /** `v === null || v === undefined`: the values `??` and `?.` react to. */
  predicate Nullish(v: Json) {
    v.Undefined? || v.Null?
  }

  /** JavaScript's truthiness (`if (x)`, `!x`, `x ? a : b`); a nullish value
      is never truthy. */
  predicate Truthy(v: Json)
    ensures Truthy(v) ==> !Nullish(v)
  {
    match v
    case Undefined => false
    case Null => false
    case Bool(b) => b
    case Num(n) => n != 0.0
    case Str(s) => s != ""
    case Arr(_) => true
    case Obj(_) => true
  }

  /** The falsy JSON values are exactly `undefined`, `null`, `false`, `0` and
      `""`; every array and object, even an empty one, is truthy. */
  lemma FalsyExactly(v: Json)
    ensures !Truthy(v) <==> v in {Undefined, Null, Bool(false), Num(0.0), Str("")}
  {
  }

  function DigitChar(d: nat): (c: char)
    requires d < 10
    ensures '0' <= c <= '9'
  {
    "0123456789"[d]
  }

  /** The number a string of decimal digits spells, most significant first. */
  function DigitsValue(s: string): nat
    requires forall k :: 0 <= k < |s| ==> '0' <= s[k] <= '9'
    decreases |s|
  {
    if |s| == 0 then 0 else DigitsValue(s[..|s| - 1]) * 10 + ((s[|s| - 1] - '0') as int)
  }

  /** The decimal spelling of a natural number, which is the property key an
      index `[i]` looks up on a plain object: digits only, no leading zero, and
      spelling `n`. */
  function Decimal(n: nat): (s: string)
    ensures |s| >= 1
    ensures forall k :: 0 <= k < |s| ==> '0' <= s[k] <= '9'
    ensures |s| == 1 || s[0] != '0'
    ensures DigitsValue(s) == n
    decreases n
  {
    if n < 10 then [DigitChar(n)]
    else
      var prefix := Decimal(n / 10);
      var s := prefix + [DigitChar(n % 10)];
      assert s[..|s| - 1] == prefix;
      s
  }

  /** The property key a step reads on an object. */
  function Key(s: Step): string {
    match s
    case Name(n) => n
    case Index(i) => Decimal(i)
  }

  /** Plain member access `v.name` / `v[i]`. It throws a TypeError exactly on
      `null` and `undefined`; on any other value it never throws, and yields
      `undefined` unless the value carries that property: an object its own
      key, an array or string its elements and `length`. */
  function Get(v: Json, s: Step): (r: Result<Json>)
    ensures r.Throw? <==> Nullish(v)
    ensures r.Throw? ==> r.fault == TypeError
    ensures (v.Bool? || v.Num?) ==> r == Ok(Undefined)
    ensures v.Obj? && Key(s) !in v.fields ==> r == Ok(Undefined)
    ensures v.Obj? && Key(s) in v.fields ==> r == Ok(v.fields[Key(s)])
    ensures v.Arr? && s.Index? ==> r == Ok(if s.i < |v.elems| then v.elems[s.i] else Undefined)
  {
    match v
    case Undefined => Throw(TypeError)
    case Null => Throw(TypeError)
    case Bool(_) => Ok(Undefined)
    case Num(_) => Ok(Undefined)
    case Str(chars) =>
      (match s
       case Name(n) => if n == "length" then Ok(Num(|chars| as real)) else Ok(Undefined)
       case Index(i) => if i < |chars| then Ok(Str([chars[i]])) else Ok(Undefined))
    case Arr(xs) =>
      (match s
       case Name(n) => if n == "length" then Ok(Num(|xs| as real)) else Ok(Undefined)
       case Index(i) => if i < |xs| then Ok(xs[i]) else Ok(Undefined))
    case Obj(m) => if Key(s) in m then Ok(m[Key(s)]) else Ok(Undefined)
  }

  /** `v.name` where the caller already knows `v` is not nullish, so the read
      cannot throw. */
  function Prop(v: Json, name: string): Json
    requires !Nullish(v)
  {
    Get(v, Name(name)).value
  }

  /** What `v.name` reads on a non-nullish value when `name` is an ordinary
      identifier: the object's own key, and nothing on any other kind. */
  function Own(v: Json, name: string): Json {
    if v.Obj? && name in v.fields then v.fields[name] else Undefined
  }

  /** For any name other than `length`, a read through `Prop` is a lookup of the
      object's own key: arrays, strings, booleans and numbers carry no such property. */
  lemma PropIsOwn(v: Json, name: string)
    requires !Nullish(v)
    requires name != "length"
    ensures Prop(v, name) == Own(v, name)
  {
  }

  /** A plain read `v.name` of an identifier other than `length`, the shape of
      `userIdData.UserID` and `postsData.items`: it throws exactly on a nullish
      value and otherwise yields the object's own key, `undefined` on other kinds. */
  function Member(v: Json, name: string): (r: Result<Json>)
    requires name != "length"
    ensures r.Throw? <==> Nullish(v)
    ensures r.Throw? ==> r.fault == TypeError
    ensures r.Ok? ==> r.value == Own(v, name)
  {
    var r := Get(v, Name(name));
    if r.Ok? then PropIsOwn(v, name); r else r
  }

  /** Optional member access `v?.p`: `undefined` on a nullish value, the plain
      read otherwise; it never throws. */
  function OptGet(v: Json, s: Step): (r: Json)
    ensures Nullish(v) ==> r == Undefined
    ensures !Nullish(v) ==> Get(v, s) == Ok(r)
  {
    if Nullish(v) then Undefined else Get(v, s).value
  }

  /** An optional chain `v?.p0?.p1 … ?.pn`, read one `?.` step at a time. A
      one-step chain is `OptGet`, and a chain that starts on a nullish value is
      `undefined` however long it is: JavaScript's short-circuit of the whole
      remaining chain. */
  function Dig(v: Json, path: seq<Step>): (r: Json)
    ensures |path| == 1 ==> r == OptGet(v, path[0])
    ensures Nullish(v) && |path| > 0 ==> r == Undefined
    decreases |path|
  {
    if |path| == 0 then v
    else Dig(OptGet(v, path[0]), path[1..])
  }

  /** Whether JavaScript's string conversion of `v` throws; `encodeURIComponent`
      converts its argument to a string first. An object whose own `toString`
      key shadows the inherited method holds no function there (JSON holds no
      functions), and its `valueOf`, own or inherited, yields no primitive, so
      the conversion throws a TypeError. An array converts by joining its
      elements, so it throws exactly when one of them does. Every other value
      converts. */
  predicate ToStringThrows(v: Json)
    ensures ToStringThrows(v) ==> v.Obj? || v.Arr?
    ensures v.Arr? && ToStringThrows(v) ==> |v.elems| > 0
    decreases v
  {
    match v
    case Obj(m) => "toString" in m
    case Arr(xs) => exists i :: 0 <= i < |xs| && ToStringThrows(xs[i])
    case _ => false
  }

  /** Nullish coalescing `a ?? b`: only `null` and `undefined` are replaced, so
      falsy values such as `0`, `false` and `""` are kept. */
  function Coalesce(a: Json, b: Json): (r: Json)
    ensures !Nullish(a) ==> r == a
    ensures Nullish(a) ==> r == b
    ensures !Nullish(b) ==> !Nullish(r)
  {
    if Nullish(a) then b else a
  }

  /** `??` is associative, so `a ?? b ?? null`, which JavaScript groups to the
      left, keeps the first non-nullish operand. */
  lemma CoalesceAssociative(a: Json, b: Json, c: Json)
    ensures Coalesce(Coalesce(a, b), c) == Coalesce(a, Coalesce(b, c))
    ensures Coalesce(Coalesce(a, b), c) ==
      (if !Nullish(a) then a else if !Nullish(b) then b else c)
  {
  }

  /** Optional chains compose: reading `p + q` is reading `q` from where `p` ends. */
  lemma {:induction false} DigAppend(v: Json, p: seq<Step>, q: seq<Step>)
    ensures Dig(v, p + q) == Dig(Dig(v, p), q)
    decreases |p|
  {
    if |p| == 0 {
      assert p + q == q;
    } else {
      assert (p + q)[0] == p[0];
      assert (p + q)[1..] == p[1..] + q;
      DigAppend(OptGet(v, p[0]), p[1..], q);
    }
  }

  /** A chain yields a non-nullish value only when every intermediate value it
      passes through was non-nullish: `?.` never skips a missing level. */
  lemma {:induction false} DigPrefixesPresent(v: Json, path: seq<Step>, k: nat)
    requires k < |path|
    requires !Nullish(Dig(v, path))
    ensures !Nullish(Dig(v, path[..k]))
  {
    assert path == path[..k] + path[k..];
    DigAppend(v, path[..k], path[k..]);
  }

  /** On a non-nullish value, the leading plain read followed by optional steps
      (`v.p?.q …`) reads the same as the optional chain from `v`. */
  lemma PlainThenOptional(v: Json, s: Step, rest: seq<Step>)
    requires !Nullish(v)
    ensures Dig(Get(v, s).value, rest) == Dig(v, [s] + rest)
  {
    assert ([s] + rest)[0] == s;
    assert ([s] + rest)[1..] == rest;
  }
}
