/**
 * The hash router of the cluster client: the `hasher` closure and the default
 * mapper that turns (key, method, broker ids) into the broker(s) a call goes to.
 *
 * The pure functions below are the specification; `Hasher`, `HashEach` and
 * `Route` are the loops of the implementation, proved equal to it.
 */
module Hashing {
  import opened Common

  const TWO_31: int := 0x8000_0000
  const TWO_32: int := 0x1_0000_0000

  /** A UTF-16 code unit, what `String.prototype.charCodeAt` returns. */
  type CodeUnit = c: int | 0 <= c < 0x1_0000

  /** A JavaScript string: a sequence of UTF-16 code units. */
  type JsString = seq<CodeUnit>

  /** The string "*" that asks for every broker. */
  const STAR: JsString := [42]

  /**
   * The JavaScript values a routing key can be. An object is reduced to the one
   * property the mapper reads from it, `mapIndex` (`Undefined` when absent).
   * Numbers are integers: fractional keys are outside this model.
   */
  datatype Value =
    | Undefined
    | Null
    | Bool(b: bool)
    | Num(n: int)
    | Str(s: JsString)
    | Arr(items: seq<Value>)
    | Obj(mapIndex: Value)

  /**
   * `JSON.stringify`, which this model does not define: `None` stands for both
   * a thrown exception and an `undefined` result.
   */
  type Serializer = Value -> Option<JsString>

  predicate IsInt32(x: int)
  {
    -TWO_31 <= x < TWO_31
  }

  /** ECMAScript's ToInt32 on an integral number: wrap-around modulo 2^32. */
  function ToInt32(x: int): (r: int)
    ensures IsInt32(r)
    ensures (x - r) % TWO_32 == 0
  {
    var m := x % TWO_32;
    if m < TWO_31 then m else m - TWO_32
  }

  function Abs(x: int): nat
  {
    if x < 0 then -x else x
  }

  /** Two integers that differ by a multiple of 2^32 have the same ToInt32. */
  lemma ToInt32Congruent(x: int, k: int)
    ensures ToInt32(x + k * TWO_32) == ToInt32(x)
  {
    assert (x + k * TWO_32) % TWO_32 == x % TWO_32;
  }

  lemma ToInt32OfInt32(x: int)
    requires IsInt32(x)
    ensures ToInt32(x) == x
  {
    if x < 0 {
      ToInt32Congruent(x, 1);
      assert ToInt32(x + TWO_32) == x;
    }
  }

  /**
   * One step of the loop as written: `(h << 5) - h + ch`, and then `h & h`.
   * `<<` wraps its result to 32 bits; `-` and `+` are exact on these
   * magnitudes; `h & h` wraps the sum to 32 bits.
   */
  function ShiftStep(h: int, ch: CodeUnit): int
  {
    ToInt32(ToInt32(h * 32) - h + ch)
  }

  /** One step of Java's String.hashCode: h := ToInt32(31 * h + ch). */
  function JavaStep(h: int, ch: CodeUnit): int
  {
    ToInt32(31 * h + ch)
  }

  /** The shift-and-subtract step is Java's multiply-by-31 step. */
  lemma ShiftStepIsJavaStep(h: int, ch: CodeUnit)
    ensures ShiftStep(h, ch) == JavaStep(h, ch)
  {
    var w := ToInt32(h * 32);
    var q := (h * 32 - w) / TWO_32;
    assert h * 32 - w == q * TWO_32;
    assert w - h + ch == (31 * h + ch) + (-q) * TWO_32;
    ToInt32Congruent(31 * h + ch, -q);
  }

  /** The string hash: Java's fold from 0, left to right. */
  function StringHash(s: JsString): (h: int)
    ensures IsInt32(h)
  {
    if s == [] then 0 else JavaStep(StringHash(s[..|s| - 1]), s[|s| - 1])
  }

  /** The polynomial s[0]*31^(n-1) + ... + s[n-1], without wrap-around. */
  function Poly(s: JsString): int
  {
    if s == [] then 0 else 31 * Poly(s[..|s| - 1]) + s[|s| - 1]
  }

  /**
   * The hash the loop computes is the polynomial reduced to 32 bits: the
   * 32-bit overflow in every step does not change the final value.
   */
  lemma {:induction false} StringHashIsWrappedPoly(s: JsString)
    ensures StringHash(s) == ToInt32(Poly(s))
  {
    if s == [] {
      ToInt32OfInt32(0);
    } else {
      var p := s[..|s| - 1];
      var c := s[|s| - 1];
      StringHashIsWrappedPoly(p);
      var w := ToInt32(Poly(p));
      var q := (Poly(p) - w) / TWO_32;
      assert Poly(p) - w == q * TWO_32;
      assert 31 * w + c == 31 * Poly(p) + c + (-31 * q) * TWO_32;
      ToInt32Congruent(31 * Poly(p) + c, -31 * q);
    }
  }

  /** JavaScript truthiness. */
  predicate Truthy(v: Value)
  {
    match v
    case Undefined => false
    case Null => false
    case Bool(b) => b
    case Num(n) => n != 0
    case Str(s) => s != []
    case Arr(_) => true
    case Obj(_) => true
  }

  /** `v == null` with JavaScript's loose equality. */
  predicate Nullish(v: Value)
  {
    v.Undefined? || v.Null?
  }

  /**
   * `v == '*'` with JavaScript's loose equality: the string itself, or an
   * array whose `toString()` is "*", which is a one-element array whose
   * element is again such a value.
   */
  predicate LooselyStar(v: Value): (b: bool)
    ensures v.Str? ==> (b <==> v.s == STAR)
    ensures b ==> Truthy(v) && (v.Str? || v.Arr?)
  {
    match v
    case Str(s) => s == STAR
    case Arr(items) => |items| == 1 && LooselyStar(items[0])
    case _ => false
  }

  /**
   * The string the hasher folds over, or `None` when it returns 0 without
   * folding: an array stands for its first element, a non-string is
   * serialised, and `JSON.stringify(undefined)` is `undefined`.
   */
  function KeyString(ser: Serializer, key: Value): (r: Option<JsString>)
    requires !key.Num?
    ensures key.Str? ==> r == Some(key.s)
    ensures key == Undefined ==> r == None
    ensures key.Arr? && key.items == [] ==> r == None
    ensures key.Arr? && key.items != [] && key.items[0].Str? ==> r == Some(key.items[0].s)
    ensures key.Arr? && key.items != [] && !key.items[0].Str? && !key.items[0].Undefined? ==> r == ser(key.items[0])
    ensures !key.Arr? && !key.Str? && !key.Undefined? ==> r == ser(key)
  {
    var k := if key.Arr? then (if key.items != [] then key.items[0] else Undefined) else key;
    match k
    case Str(s) => Some(s)
    case Undefined => None
    case _ => ser(k)
  }

  /**
   * The hasher: the absolute value of a numeric key, or of the string hash of
   * the key's string, modulo the broker count; 0 when there is no string or it
   * is empty.
   */
  function Hash(ser: Serializer, key: Value, n: nat): (r: nat)
    requires n > 0
    ensures r < n
    ensures key.Num? ==> r == Abs(key.n) % n
    ensures !key.Num? && (KeyString(ser, key).None? || KeyString(ser, key) == Some([])) ==> r == 0
  {
    if key.Num? then Abs(key.n) % n
    else match KeyString(ser, key)
      case None => 0
      case Some(s) => if s == [] then 0 else Abs(StringHash(s)) % n
  }

  /** The hash of a string key is the Java hash of its code units, made non-negative and reduced. */
  lemma StringKeyHash(ser: Serializer, s: JsString, n: nat)
    requires n > 0
    ensures Hash(ser, Str(s), n) == Abs(ToInt32(Poly(s))) % n
  {
    assert KeyString(ser, Str(s)) == Some(s);
    StringHashIsWrappedPoly(s);
    if s == [] {
      assert StringHash(s) == 0;
    }
  }

  /**
   * An array is hashed as its first element only when that element is neither
   * a number (a number inside an array is serialised, not taken as a number)
   * nor another array (only one level is unwrapped); an empty array hashes to 0.
   */
  lemma ArrayHashesFirstElement(ser: Serializer, items: seq<Value>, n: nat)
    requires n > 0
    ensures items == [] ==> Hash(ser, Arr(items), n) == 0
    ensures items != [] && !items[0].Num? && !items[0].Arr? ==>
      Hash(ser, Arr(items), n) == Hash(ser, items[0], n)
  {
  }

  /**
   * The hasher as written: a loop over the code units with the shift step.
   * It is the specification function `Hash`.
   */
  method Hasher(ser: Serializer, key: Value, n: nat) returns (r: nat)
    requires n > 0
    ensures r == Hash(ser, key, n)
  {
    if key.Num? {
      return Abs(key.n) % n;
    }
    var s := KeyString(ser, key);
    if s.None? || s.value == [] {
      return 0;
    }
    var str := s.value;
    var h := 0;
    var i := 0;
    while i < |str|
      invariant 0 <= i <= |str|
      invariant h == StringHash(str[..i])
    {
      ShiftStepIsJavaStep(h, str[i]);
      assert str[..i + 1][..i] == str[..i];
      h := ShiftStep(h, str[i]);
      i := i + 1;
    }
    assert str[..i] == str;
    r := Abs(h) % n;
  }

  /**
   * The operations a mapper is asked about; `OtherMethod` carries any name
   * other than the eight named here.
   */
  datatype Method =
    | Publish
    | Subscribe
    | Unsubscribe
    | IsSubscribed
    | Query
    | Run
    | Send
    | RemoveAll
    | OtherMethod(name: string)

  /**
   * The names a plain object inherits from `Object.prototype`: looking one of
   * them up in a plain-object table finds a truthy value.
   */
  const OBJECT_PROTOTYPE_NAMES: set<string> :=
    {"constructor", "hasOwnProperty", "isPrototypeOf", "propertyIsEnumerable", "toLocaleString",
     "toString", "valueOf", "__defineGetter__", "__defineSetter__", "__lookupGetter__",
     "__lookupSetter__", "__proto__"}

  /**
   * The operations for which `channelMethods[method]` is truthy: the four
   * channel operations of the table, and any name the table inherits.
   */
  predicate IsChannelMethod(m: Method): (r: bool)
    ensures m.Publish? || m.Subscribe? || m.Unsubscribe? || m.IsSubscribed? ==> r
    ensures m.OtherMethod? ==> (r <==> m.name in OBJECT_PROTOTYPE_NAMES)
    ensures r ==> !IsHintedMethod(m) && !m.RemoveAll?
  {
    || m.Publish? || m.Subscribe? || m.Unsubscribe? || m.IsSubscribed?
    || (m.OtherMethod? && m.name in OBJECT_PROTOTYPE_NAMES)
  }

  /** The keyed data operations that carry a `mapIndex` hint. */
  predicate IsHintedMethod(m: Method)
  {
    m.Query? || m.Run? || m.Send?
  }

  /**
   * What a mapper returns: one broker index, a list of them, or the TypeError
   * that reading `key.mapIndex` throws on a null or undefined key.
   */
  datatype Target = Index(i: nat) | Indices(ids: seq<nat>) | Throws

  /** The property `mapIndex` of a key; only objects have it. */
  function MapIndexOf(key: Value): Value
  {
    if key.Obj? then key.mapIndex else Undefined
  }

  /** Every index the target names is below `n`. */
  predicate WithinBrokers(t: Target, n: nat)
  {
    match t
    case Index(i) => i < n
    case Indices(ids) => forall k | 0 <= k < |ids| :: ids[k] < n
    case Throws => true
  }

  /** The hashes of the elements of `items`, in order. */
  function HashAll(ser: Serializer, items: seq<Value>, n: nat): (ids: seq<nat>)
    requires n > 0
    ensures |ids| == |items|
    ensures forall k | 0 <= k < |items| :: ids[k] == Hash(ser, items[k], n)
  {
    seq(|items|, k requires 0 <= k < |items| => Hash(ser, items[k], n))
  }

  /** The default mapper, for `n` brokers whose ids are `clientIds`. */
  function DefaultMapper(ser: Serializer, key: Value, m: Method, clientIds: seq<nat>, n: nat): (t: Target)
    requires n > 0
    ensures t.Throws? <==> IsHintedMethod(m) && Nullish(key)
    ensures t.Index? ==> t.i < n
    ensures t.Indices? && t.ids != clientIds ==> IsHintedMethod(m) && MapIndexOf(key).Arr?
  {
    if IsChannelMethod(m) then
      if Nullish(key) then Indices(clientIds) else Index(Hash(ser, key, n))
    else if IsHintedMethod(m) then
      if Nullish(key) then Throws
      else
        var mapIndex := MapIndexOf(key);
        if !Truthy(mapIndex) then Index(0)
        else if LooselyStar(mapIndex) then Indices(clientIds)
        else if mapIndex.Arr? then Indices(HashAll(ser, mapIndex.items, n))
        else Index(Hash(ser, mapIndex, n))
    else if m.RemoveAll? then Indices(clientIds)
    else Index(Hash(ser, key, n))
  }

  /** When the broker ids are below `n`, every index the mapper returns is a broker. */
  lemma MapperWithinBrokers(ser: Serializer, key: Value, m: Method, clientIds: seq<nat>, n: nat)
    requires n > 0
    requires forall k | 0 <= k < |clientIds| :: clientIds[k] < n
    ensures WithinBrokers(DefaultMapper(ser, key, m, clientIds, n), n)
  {
  }

  /**
   * The routing table of the default mapper: channel operations broadcast a
   * null key and hash any other; removeAll broadcasts; query, run and send
   * broadcast on a hint loosely equal to '*', hash each element of an array
   * hint in order, hash any other truthy hint and go to broker 0 without one;
   * any other operation hashes the key.
   */
  lemma MapperRoutes(ser: Serializer, key: Value, m: Method, clientIds: seq<nat>, n: nat)
    requires n > 0
    ensures var t := DefaultMapper(ser, key, m, clientIds, n);
      && (IsChannelMethod(m) ==> t == if Nullish(key) then Indices(clientIds) else Index(Hash(ser, key, n)))
      && (m.RemoveAll? ==> t == Indices(clientIds))
      && (IsHintedMethod(m) && Nullish(key) ==> t == Throws)
      && (IsHintedMethod(m) && !Nullish(key) && !Truthy(MapIndexOf(key)) ==> t == Index(0))
      && (IsHintedMethod(m) && !Nullish(key) && LooselyStar(MapIndexOf(key)) ==> t == Indices(clientIds))
      && (IsHintedMethod(m) && !Nullish(key) && MapIndexOf(key).Arr? && !LooselyStar(MapIndexOf(key)) ==>
            t.Indices? && |t.ids| == |MapIndexOf(key).items|
            && forall k | 0 <= k < |t.ids| :: t.ids[k] == Hash(ser, MapIndexOf(key).items[k], n))
      && (IsHintedMethod(m) && !Nullish(key) && Truthy(MapIndexOf(key)) && !MapIndexOf(key).Arr? && !LooselyStar(MapIndexOf(key)) ==>
            t == Index(Hash(ser, MapIndexOf(key), n)))
      && (!IsChannelMethod(m) && !IsHintedMethod(m) && !m.RemoveAll? ==> t == Index(Hash(ser, key, n)))
  {
  }

  /** The loop that builds `hashedIndexes`, one hash per element of the hint, in order. */
  method HashEach(ser: Serializer, items: seq<Value>, n: nat) returns (ids: seq<nat>)
    requires n > 0
    ensures ids == HashAll(ser, items, n)
  {
    ids := [];
    var i := 0;
    while i < |items|
      invariant 0 <= i <= |items|
      invariant |ids| == i
      invariant forall k | 0 <= k < i :: ids[k] == Hash(ser, items[k], n)
    {
      var h := Hasher(ser, items[i], n);
      ids := ids + [h];
      i := i + 1;
    }
  }

  /** `_defaultMapper` as written, with its loops; it computes `DefaultMapper`. */
  method Route(ser: Serializer, key: Value, m: Method, clientIds: seq<nat>, n: nat) returns (t: Target)
    requires n > 0
    ensures t == DefaultMapper(ser, key, m, clientIds, n)
  {
    if IsChannelMethod(m) {
      if Nullish(key) {
        return Indices(clientIds);
      }
      var h := Hasher(ser, key, n);
      return Index(h);
    } else if IsHintedMethod(m) {
      if Nullish(key) {
        return Throws;
      }
      var mapIndex := MapIndexOf(key);
      if Truthy(mapIndex) {
        if LooselyStar(mapIndex) {
          return Indices(clientIds);
        } else if mapIndex.Arr? {
          var ids := HashEach(ser, mapIndex.items, n);
          return Indices(ids);
        } else {
          var h := Hasher(ser, mapIndex, n);
          return Index(h);
        }
      }
      return Index(0);
    } else if m.RemoveAll? {
      return Indices(clientIds);
    }
    var h := Hasher(ser, key, n);
    return Index(h);
  }
}
