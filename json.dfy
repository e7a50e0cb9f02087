/** JavaScript values as produced by `JSON.parse`, with property access, assignment,
    `delete`, `typeof`, truthiness and the `String()` / `Number()` coercions. */
module Json {
  import opened Wrappers
  import opened Strings

  /** A JavaScript value. `JUndef` is `undefined`: what reading a missing property gives,
      and what a `delete`d array element leaves behind. Objects keep their keys in
      insertion order. */
  datatype Json =
    | JUndef
    | JNull
    | JBool(b: bool)
    | JNum(n: real)
    | JStr(s: string)
    | JArr(items: seq<Json>)
    | JObj(fields: seq<(string, Json)>)

  // ---------------------------------------------------------------- field lists

  /** The value of the first field named `k`, or `undefined`. */
  function Lookup(fs: seq<(string, Json)>, k: string): Json
  {
    if fs == [] then JUndef
    else if fs[0].0 == k then fs[0].1
    else Lookup(fs[1..], k)
  }

  /** The keys, in order. */
  function Keys(fs: seq<(string, Json)>): (r: seq<string>)
    ensures |r| == |fs|
    ensures forall i :: 0 <= i < |fs| ==> r[i] == fs[i].0
  {
    if fs == [] then [] else [fs[0].0] + Keys(fs[1..])
  }

  /** Assignment `o[k] = v`: an existing key keeps its position, a new key goes last. */
  function Put(fs: seq<(string, Json)>, k: string, v: Json): (r: seq<(string, Json)>)
    ensures Lookup(r, k) == v
    ensures forall k' :: k' != k ==> Lookup(r, k') == Lookup(fs, k')
  {
    if fs == [] then [(k, v)]
    else if fs[0].0 == k then [(k, v)] + fs[1..]
    else [fs[0]] + Put(fs[1..], k, v)
  }

  /** `Put` read at one key. */
  lemma PutAt(fs: seq<(string, Json)>, k: string, v: Json, k': string)
    ensures Lookup(Put(fs, k, v), k') == if k' == k then v else Lookup(fs, k')
  {
  }

  /** An existing key keeps its place; a new key is appended. */
  lemma {:induction false} PutKeys(fs: seq<(string, Json)>, k: string, v: Json)
    ensures k in Keys(fs) ==> Keys(Put(fs, k, v)) == Keys(fs)
    ensures k !in Keys(fs) ==> Keys(Put(fs, k, v)) == Keys(fs) + [k]
  {
    if fs != [] {
      assert Keys(fs) == [fs[0].0] + Keys(fs[1..]);
      if fs[0].0 != k {
        PutKeys(fs[1..], k, v);
        assert Keys(Put(fs, k, v)) == [fs[0].0] + Keys(Put(fs[1..], k, v));
      } else {
        assert Keys(Put(fs, k, v)) == [k] + Keys(fs[1..]);
      }
    }
  }

  /** `delete o[k]`. */
  function Remove(fs: seq<(string, Json)>, k: string): (r: seq<(string, Json)>)
    ensures Lookup(r, k) == JUndef
    ensures forall k' :: k' != k ==> Lookup(r, k') == Lookup(fs, k')
  {
    if fs == [] then []
    else if fs[0].0 == k then Remove(fs[1..], k)
    else [fs[0]] + Remove(fs[1..], k)
  }

  /** `delete` takes exactly the deleted key out of the key list. */
  lemma {:induction false} RemoveKeys(fs: seq<(string, Json)>, k: string)
    ensures forall k' :: k' in Keys(Remove(fs, k)) <==> k' in Keys(fs) && k' != k
  {
    if fs != [] {
      assert Keys(fs) == [fs[0].0] + Keys(fs[1..]);
      RemoveKeys(fs[1..], k);
      if fs[0].0 != k {
        assert Keys(Remove(fs, k)) == [fs[0].0] + Keys(Remove(fs[1..], k));
      }
    }
  }

  /** Re-assigning a key its own current value changes nothing. */
  lemma {:induction false} PutLookup(fs: seq<(string, Json)>, k: string)
    requires k in Keys(fs)
    ensures Put(fs, k, Lookup(fs, k)) == fs
  {
    if fs[0].0 != k {
      assert Keys(fs) == [fs[0].0] + Keys(fs[1..]);
      PutLookup(fs[1..], k);
    }
  }

  /** A key whose value is not `undefined` is one of the keys. */
  lemma {:induction false} LookupDefinedIsKey(fs: seq<(string, Json)>, k: string)
    requires Lookup(fs, k) != JUndef
    ensures k in Keys(fs)
  {
    if fs[0].0 != k {
      LookupDefinedIsKey(fs[1..], k);
      assert Keys(fs) == [fs[0].0] + Keys(fs[1..]);
    }
  }

  // ---------------------------------------------------------------- typeof and truthiness

  /** `typeof v`. */
  function TypeOf(v: Json): string
  {
    match v
    case JUndef => "undefined"
    case JBool(_) => "boolean"
    case JNum(_) => "number"
    case JStr(_) => "string"
    case _ => "object"
  }

  /** `typeof v === "object"`: true of `null`, arrays and objects. */
  predicate IsObject(v: Json)
  {
    v.JNull? || v.JArr? || v.JObj?
  }

  /** JavaScript truthiness. */
  predicate Truthy(v: Json)
  {
    match v
    case JUndef => false
    case JNull => false
    case JBool(b) => b
    case JNum(n) => n != 0.0
    case JStr(s) => s != ""
    case _ => true
  }

  // ---------------------------------------------------------------- property access

  /** The message of the TypeError thrown when reading or writing a property of
      `null` / `undefined`. */
  function TypeErrorMessage(k: string): string
  {
    "Cannot read properties of null or undefined (reading '" + k + "')"
  }

  /** `v[k]` for a string key: `null` and `undefined` throw, arrays and strings
      answer `length`, objects look the key up, everything else gives `undefined`. */
  function Prop(v: Json, k: string): (r: Result<Json>)
    ensures r.Err? <==> (v.JNull? || v.JUndef?)
    ensures v.JObj? ==> r == Ok(Lookup(v.fields, k))
  {
    match v
    case JUndef => Err(TypeErrorMessage(k))
    case JNull => Err(TypeErrorMessage(k))
    case JObj(fs) => Ok(Lookup(fs, k))
    case JArr(items) => Ok(if k == "length" then JNum(|items| as real) else JUndef)
    case JStr(s) => Ok(if k == "length" then JNum(|s| as real) else JUndef)
    case _ => Ok(JUndef)
  }

  /** `v[i]` for an integer index: array elements, or the key `String(i)` of an object. */
  function Index(v: Json, i: nat): (r: Result<Json>)
    ensures r.Err? <==> (v.JNull? || v.JUndef?)
    ensures v.JArr? && i < |v.items| ==> r == Ok(v.items[i])
  {
    match v
    case JUndef => Err(TypeErrorMessage(NatToString(i)))
    case JNull => Err(TypeErrorMessage(NatToString(i)))
    case JArr(items) => Ok(if i < |items| then items[i] else JUndef)
    case JObj(fs) => Ok(Lookup(fs, NatToString(i)))
    case _ => Ok(JUndef)
  }

  /** `v[k] = x` in strict-mode code: only objects accept new properties (an array here
      only ever gets its `length` re-assigned to its own value); assigning to a property of
      a primitive, `null` or `undefined` throws. */
  function SetProp(v: Json, k: string, x: Json): (r: Result<Json>)
    ensures v.JObj? ==> r == Ok(JObj(Put(v.fields, k, x)))
    ensures !v.JObj? && !v.JArr? ==> r.Err?
  {
    match v
    case JObj(fs) => Ok(JObj(Put(fs, k, x)))
    case JArr(_) => Ok(v)
    case _ => Err("Cannot create property '" + k + "'")
  }

  /** `delete v[k]` on an object (other values are left as they are). */
  function DeleteProp(v: Json, k: string): (r: Json)
    ensures v.JObj? ==> r == JObj(Remove(v.fields, k))
    ensures !v.JObj? ==> r == v
  {
    match v
    case JObj(fs) => JObj(Remove(fs, k))
    case _ => v
  }

  /** The (key, value) pairs `Object.keys(v)` lists with their values: an object's fields
      in order, an array's or a string's indices with their elements; numbers and
      booleans have none, and `null` / `undefined` throw. */
  function OwnEntries(v: Json): (r: Result<seq<(string, Json)>>)
    ensures r.Err? <==> (v.JNull? || v.JUndef?)
    ensures v.JObj? ==> r == Ok(v.fields)
    ensures v.JArr? ==> (r.Ok? && |r.value| == |v.items| &&
                         forall i :: 0 <= i < |v.items| ==> r.value[i] == (NatToString(i), v.items[i]))
    ensures (v.JNum? || v.JBool?) ==> r == Ok([])
  {
    match v
    case JUndef => Err("Cannot convert undefined or null to object")
    case JNull => Err("Cannot convert undefined or null to object")
    case JObj(fs) => Ok(fs)
    case JArr(items) => Ok(seq(|items|, i requires 0 <= i < |items| => (NatToString(i), items[i])))
    case JStr(s) => Ok(seq(|s|, i requires 0 <= i < |s| => (NatToString(i), JStr([s[i]]))))
    case _ => Ok([])
  }

  /** `Enum[key]` for a TypeScript numeric enum whose members are `names` in order: a
      member name gives its number, the decimal string of a number gives the member
      name back (the reverse mapping), anything else gives `undefined`. */
  function EnumMember(names: seq<string>, key: string): (r: Json)
    ensures key in names ==> r == JNum(IndexOf(names, key) as real)
    ensures r.JNum? ==> key in names
    ensures key !in names && (forall i :: 0 <= i < |names| ==> key != NatToString(i)) ==> r == JUndef
  {
    var k := IndexOf(names, key);
    if k < |names| then JNum(k as real) else ReverseFrom(names, key, 0)
  }

  /** The index of the first `key` in `names`, or |names|. */
  function IndexOf(names: seq<string>, key: string): (k: nat)
    ensures k <= |names|
    ensures k < |names| ==> names[k] == key
    ensures forall j :: 0 <= j < k ==> names[j] != key
  {
    if names == [] then 0 else if names[0] == key then 0 else 1 + IndexOf(names[1..], key)
  }

  function ReverseFrom(names: seq<string>, key: string, i: nat): (r: Json)
    requires i <= |names|
    ensures !r.JNum?
    ensures (forall j :: i <= j < |names| ==> key != NatToString(j)) ==> r == JUndef
    decreases |names| - i
  {
    if i == |names| then JUndef
    else if key == NatToString(i) then JStr(names[i])
    else ReverseFrom(names, key, i + 1)
  }

  /** The elements a `for (i = 0; i < v.length; i++)` loop visits: an array's items;
      any other value has no numeric `length` and is visited as empty. */
  function Elements(v: Json): (r: seq<Json>)
    ensures v.JArr? ==> r == v.items
    ensures !v.JArr? ==> r == []
  {
    if v.JArr? then v.items else []
  }

  // ---------------------------------------------------------------- coercions

  /** Decimal digits of an integer, with a leading '-' when negative. */
  function IntToString(i: int): string
  {
    if i < 0 then "-" + NatToString(-i) else NatToString(i)
  }

  /** `String(n)` for a number: integers print exactly; other numbers print as their
      integer part, '.', and six truncated decimals. */
  function NumToString(n: real): string
  {
    if n == n.Floor as real then IntToString(n.Floor)
    else
      var sign := if n < 0.0 then "-" else "";
      var a := if n < 0.0 then -n else n;
      var scaled := (a * 1000000.0).Floor;
      var ip := a.Floor;
      var frac := scaled - ip * 1000000;
      sign + IntToString(ip) + "." + Pad6(if frac < 0 then 0 else frac)
  }

  /** Six digits with leading zeros. */
  function Pad6(n: nat): string
  {
    var s := NatToString(n);
    if |s| >= 6 then s else seq(6 - |s|, _ => '0') + s
  }

  /** `String(v)`. Arrays join their elements' strings with "," (holes, `null` and
      `undefined` giving ""); objects print as "[object Object]". */
  function ToStr(v: Json): string
  {
    match v
    case JUndef => "undefined"
    case JNull => "null"
    case JBool(b) => if b then "true" else "false"
    case JNum(n) => NumToString(n)
    case JStr(s) => s
    case JArr(items) => JoinElements(items)
    case JObj(_) => "[object Object]"
  }

  function JoinElements(items: seq<Json>): string
    decreases items
  {
    if items == [] then ""
    else
      var first := if items[0].JUndef? || items[0].JNull? then "" else ToStr(items[0]);
      if |items| == 1 then first else first + "," + JoinElements(items[1..])
  }

  /** `String(v)` of a string is the string itself. */
  lemma ToStrOfString(s: string)
    ensures ToStr(JStr(s)) == s
  {
  }

  /** The value of a decimal digit character. */
  function DigitValue(c: char): nat
  {
    if '0' <= c <= '9' then (c as int - '0' as int) else 0
  }

  predicate AllDigits(s: string)
  {
    forall i :: 0 <= i < |s| ==> '0' <= s[i] <= '9'
  }

  /** The natural number a non-empty digit string denotes. */
  function DigitsValue(s: string): nat
    decreases |s|
  {
    if s == [] then 0 else DigitsValue(s[..|s| - 1]) * 10 + DigitValue(s[|s| - 1])
  }

  /** `10^k`. */
  function Pow10(k: nat): (r: nat)
    ensures r >= 1
  {
    if k == 0 then 1 else 10 * Pow10(k - 1)
  }

  /** An unsigned decimal literal: digits, optionally followed by '.' and digits. */
  function ParseUnsigned(s: string): (r: Option<real>)
    ensures r.Some? ==> r.value >= 0.0
  {
    if s == [] then None
    else if AllDigits(s) then Some(DigitsValue(s) as real)
    else
      var dot := Find(s, ".");
      if dot <= 0 || dot == |s| - 1 then None
      else
        var ip := s[..dot];
        var fp := s[dot + 1..];
        if AllDigits(ip) && AllDigits(fp) then
          Some(DigitsValue(ip) as real + (DigitsValue(fp) as real) / (Pow10(|fp|) as real))
        else None
  }

  /** `Number(s)` for a string: the empty string is 0; an optionally signed decimal
      literal is its value; anything else is NaN (`None`). */
  function ParseNumber(s: string): Option<real>
  {
    if s == "" then Some(0.0)
    else if s[0] == '-' then
      match ParseUnsigned(s[1..])
      case Some(x) => Some(-x)
      case None => None
    else if s[0] == '+' then ParseUnsigned(s[1..])
    else ParseUnsigned(s)
  }

  /** `Number(v)`; `None` stands for NaN. Arrays and objects convert through their
      string form, as `ToPrimitive` does. */
  function ToNum(v: Json): Option<real>
  {
    match v
    case JUndef => None
    case JNull => Some(0.0)
    case JBool(b) => Some(if b then 1.0 else 0.0)
    case JNum(n) => Some(n)
    case JStr(s) => ParseNumber(s)
    case _ => ParseNumber(ToStr(v))
  }

  /** A string that starts with a character that is no digit, sign or '.' is NaN. */
  lemma NonNumericStartIsNaN(s: string)
    requires |s| > 0 && !('0' <= s[0] <= '9') && s[0] != '-' && s[0] != '+' && s[0] != '.'
    ensures ParseNumber(s).None?
  {
    assert !AllDigits(s);
    var dot := Find(s, ".");
    if 0 < dot < |s| - 1 {
      assert s[..dot][0] == s[0];
    }
  }

  /** A number converts to itself, and `undefined` and plain objects are NaN. */
  lemma ToNumCases(n: real, fs: seq<(string, Json)>)
    ensures ToNum(JNum(n)) == Some(n)
    ensures ToNum(JUndef).None?
    ensures ToNum(JObj(fs)).None?
  {
    assert ToStr(JObj(fs)) == "[object Object]";
    NonNumericStartIsNaN("[object Object]");
  }
}
