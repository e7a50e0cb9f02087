/** The field checks both JSON validators repeat for every record: a required field, a
    field coerced to a string or a number, a field that must hold an object, a default
    for a missing field, and the `try { … } catch (e) { throw Error(prefix + e.message) }`
    wrapping of every nested validator. */
module Validation {
  import opened Wrappers
  import opened Strings
  import opened Json

  /** A record field as a property read sees it (`undefined` when absent or when the
      value is no object). */
  function Field(v: Json, k: string): Json
  {
    if v.JObj? then Lookup(v.fields, k) else JUndef
  }

  /** A failing validator's message, re-thrown with `prefix` in front. */
  function Wrap<T>(prefix: string, r: Result<T>): (w: Result<T>)
    ensures w.Ok? <==> r.Ok?
    ensures r.Ok? ==> w == r
    ensures r.Err? ==> w.error == prefix + r.error
  {
    if r.Ok? then r else Err(prefix + r.error)
  }

  /** The value a "not a string" branch stores: `String(v)`, or `v` itself when it is
      a string already. */
  function AsString(v: Json): (r: Json)
    ensures r.JStr?
    ensures v.JStr? ==> r == v
  {
    if v.JStr? then v else JStr(ToStr(v))
  }

  /** `v <= 0` as JavaScript compares: false when `v` converts to NaN. */
  predicate AtMostZero(v: Json)
  {
    ToNum(v).Some? && ToNum(v).value <= 0.0
  }

  /** `if (o.k === undefined) throw missing;
       if (typeof o.k !== "string") o.k = String(o.k);` */
  function RequireString(o: Json, k: string, missing: string): (r: Result<Json>)
    requires k != "length"
    ensures r.Ok? <==> o.JObj? && Lookup(o.fields, k) != JUndef
    ensures o.JObj? && r.Err? ==> r.error == missing
    ensures r.Ok? ==> (r.value.JObj? && Lookup(r.value.fields, k) == AsString(Lookup(o.fields, k)) &&
                       forall k' :: k' != k ==> Lookup(r.value.fields, k') == Lookup(o.fields, k'))
  {
    var v :- Prop(o, k);
    if v.JUndef? then Err(missing)
    else if v.JStr? then Ok(o)
    else SetProp(o, k, AsString(v))
  }

  /** `RequireString` leaves the field `k'` as it was (one field at a time). */
  lemma RequireStringKeeps(o: Json, k: string, missing: string, k': string)
    requires k != "length" && RequireString(o, k, missing).Ok? && k' != k
    ensures Lookup(RequireString(o, k, missing).value.fields, k') == Lookup(o.fields, k')
  {
  }

  /** Two `RequireString` checks in a row coerce both fields and leave the others. */
  lemma RequireTwoStrings(o: Json, k1: string, m1: string, k2: string, m2: string)
    requires k1 != "length" && k2 != "length" && k1 != k2
    requires RequireString(o, k1, m1).Ok? && RequireString(RequireString(o, k1, m1).value, k2, m2).Ok?
    ensures var r := RequireString(RequireString(o, k1, m1).value, k2, m2).value;
      r.JObj? && Lookup(r.fields, k1) == AsString(Lookup(o.fields, k1)) &&
      Lookup(r.fields, k2) == AsString(Lookup(o.fields, k2)) &&
      forall k :: k != k1 && k != k2 ==> Lookup(r.fields, k) == Lookup(o.fields, k)
  {
  }

  /** A coerced field keeps its place: the keys and their order are unchanged. */
  lemma RequireStringKeepsKeys(o: Json, k: string, missing: string)
    requires k != "length" && RequireString(o, k, missing).Ok?
    ensures Keys(RequireString(o, k, missing).value.fields) == Keys(o.fields)
  {
    LookupDefinedIsKey(o.fields, k);
    PutKeys(o.fields, k, AsString(Lookup(o.fields, k)));
    if Lookup(o.fields, k).JStr? {
      PutLookup(o.fields, k);
    }
  }

  /** `if (o.k === undefined) throw missing;
       if (typeof o.k !== "number") { o.k = Number(o.k); if (isNaN(o.k)) throw nan; }` */
  function RequireNumber(o: Json, k: string, missing: string, nan: string): (r: Result<Json>)
    requires k != "length"
    ensures r.Ok? <==> o.JObj? && Lookup(o.fields, k) != JUndef && ToNum(Lookup(o.fields, k)).Some?
    ensures o.JObj? && Lookup(o.fields, k) == JUndef ==> r == Err(missing)
    ensures o.JObj? && Lookup(o.fields, k) != JUndef && ToNum(Lookup(o.fields, k)).None? ==> r == Err(nan)
    ensures r.Ok? ==> (r.value.JObj? && Lookup(r.value.fields, k) == JNum(ToNum(Lookup(o.fields, k)).value) &&
                       forall k' :: k' != k ==> Lookup(r.value.fields, k') == Lookup(o.fields, k'))
  {
    var v :- Prop(o, k);
    if v.JUndef? then Err(missing)
    else if v.JNum? then
      assert ToNum(v) == Some(v.n);
      Ok(o)
    else
      match ToNum(v)
      case None => Err(nan)
      case Some(n) => SetProp(o, k, JNum(n))
  }

  /** `if (o.k === undefined) throw missing;
       if (typeof o.k !== "object") throw notObject;` — gives the field's value. */
  function RequireObject(o: Json, k: string, missing: string, notObject: string): (r: Result<Json>)
    requires k != "length"
    ensures r.Ok? <==> o.JObj? && IsObject(Lookup(o.fields, k))
    ensures r.Ok? ==> r.value == Lookup(o.fields, k)
    ensures o.JObj? && Lookup(o.fields, k) == JUndef ==> r == Err(missing)
    ensures o.JObj? && Lookup(o.fields, k) != JUndef && !IsObject(Lookup(o.fields, k)) ==> r == Err(notObject)
  {
    var v :- Prop(o, k);
    if v.JUndef? then Err(missing)
    else if !IsObject(v) then Err(notObject)
    else Ok(v)
  }

  /** `if (o.k === undefined) o.k = d;` */
  function Default(o: Json, k: string, d: Json): (r: Result<Json>)
    requires k != "length"
    ensures r.Ok? <==> o.JObj? || o.JArr?
    ensures o.JObj? ==> (r.Ok? && r.value.JObj? &&
                         Lookup(r.value.fields, k) == (if Lookup(o.fields, k) == JUndef then d else Lookup(o.fields, k)) &&
                         forall k' :: k' != k ==> Lookup(r.value.fields, k') == Lookup(o.fields, k'))
  {
    var v :- Prop(o, k);
    if v.JUndef? then
      if o.JObj? || o.JArr? then SetProp(o, k, d)
      else Err("Cannot create property '" + k + "'")
    else Ok(o)
  }

  /** `o.to = o.from; delete o.from;`: the value moves to the key `to` (appended when it
      is new) and `from` disappears. */
  function Move(fs: seq<(string, Json)>, from: string, to: string): (r: seq<(string, Json)>)
    requires from != to
    ensures Lookup(r, to) == Lookup(fs, from) && Lookup(r, from) == JUndef
    ensures forall k :: k != from && k != to ==> Lookup(r, k) == Lookup(fs, k)
  {
    Remove(Put(fs, to, Lookup(fs, from)), from)
  }

  /** The elements `for (i = 0; i < v.length; i++)` visits: reading `length` of `null`
      throws; an array's elements; any other value is visited as empty. */
  function Loopable(v: Json): (r: Result<seq<Json>>)
    ensures r.Err? <==> v.JNull? || v.JUndef?
    ensures r.Ok? ==> r.value == Elements(v)
  {
    if v.JNull? || v.JUndef? then Err(TypeErrorMessage("length")) else Ok(Elements(v))
  }

  /** `o.k` after `o.k[i] = items[i]` for every visited index: the array held at `k`
      gets the new elements; a non-array was not visited and is left as it was. */
  function WriteBack(o: Json, k: string, v: Json, items: seq<Json>): (r: Json)
    requires o.JObj?
    ensures r.JObj?
    ensures v.JArr? ==> r == JObj(Put(o.fields, k, JArr(items)))
    ensures !v.JArr? ==> r == o
  {
    if v.JArr? then JObj(Put(o.fields, k, JArr(items))) else o
  }

  /** A write-back read at one key: the collection's own key holds what it was staged to,
      every other key is as it was. */
  lemma WriteBackAt(o: Json, k: string, v: Json, items: seq<Json>, k': string)
    requires o.JObj? && Lookup(o.fields, k) == v
    ensures Lookup(WriteBack(o, k, v, items).fields, k') == if k' == k then Staged(v, items) else Lookup(o.fields, k')
  {
  }

  /** `for (i = 0; i < items.length; i++) items[i] = f(items[i]);` where `f` may throw:
      the first failure is reported, otherwise every element is replaced by its image. */
  function MapResult(items: seq<Json>, f: Json -> Result<Json>): (r: Result<seq<Json>>)
    ensures r.Ok? <==> forall i :: 0 <= i < |items| ==> f(items[i]).Ok?
    ensures r.Ok? ==> |r.value| == |items| && forall i :: 0 <= i < |items| ==> r.value[i] == f(items[i]).value
  {
    if items == [] then Ok([])
    else
      var first :- f(items[0]);
      var rest :- MapResult(items[1..], f);
      Ok([first] + rest)
  }

  /** The loop of `MapResult`, run in place on the element sequence. */
  method MapEach(items: seq<Json>, f: Json -> Result<Json>) returns (r: Result<seq<Json>>)
    ensures r == MapResult(items, f)
  {
    var out := items;
    var i := 0;
    while i < |items|
      invariant 0 <= i <= |items| && |out| == |items|
      invariant out[i..] == items[i..]
      invariant forall j :: 0 <= j < i ==> f(items[j]).Ok? && out[j] == f(items[j]).value
    {
      var v := f(out[i]);
      if v.Err? {
        MapResultFirstError(items, f, i);
        return Err(v.error);
      }
      out := out[i := v.value];
      i := i + 1;
    }
    assert MapResult(items, f).Ok?;
    assert MapResult(items, f).value == out;
    return Ok(out);
  }

  /** One more step of the loop of `MapResult`: the prefix grows by the image of the next
      element, or the whole map fails with that element's failure. */
  lemma MapResultStep(items: seq<Json>, f: Json -> Result<Json>, i: nat)
    requires i < |items| && MapResult(items[..i], f).Ok?
    ensures f(items[i]).Ok? ==>
      MapResult(items[..i + 1], f) == Ok(MapResult(items[..i], f).value + [f(items[i]).value])
    ensures f(items[i]).Err? ==> MapResult(items, f) == Err(f(items[i]).error)
  {
    if f(items[i]).Ok? {
      MapResultSnoc(items, f, i);
    } else {
      assert forall j :: 0 <= j < i ==> items[..i][j] == items[j];
      MapResultFirstError(items, f, i);
    }
  }

  /** The image of a longer prefix extends the image of the shorter one. */
  lemma MapResultSnoc(items: seq<Json>, f: Json -> Result<Json>, i: nat)
    requires i < |items| && MapResult(items[..i], f).Ok? && f(items[i]).Ok?
    ensures MapResult(items[..i + 1], f) == Ok(MapResult(items[..i], f).value + [f(items[i]).value])
  {
    var p := items[..i];
    var q := items[..i + 1];
    assert forall j :: 0 <= j < i ==> q[j] == p[j];
    assert q[i] == items[i];
    var m := MapResult(q, f);
    assert m.Ok?;
    assert m.value == MapResult(p, f).value + [f(items[i]).value];
  }

  /** A collection of a file after its loop `for (i = 0; i < v.length; i++) v[i] = f(v[i])`. */
  function Stage(v: Json, f: Json -> Result<Json>): Result<seq<Json>>
  {
    var xs :- Loopable(v);
    MapResult(xs, f)
  }

  method StageLoop(v: Json, f: Json -> Result<Json>) returns (r: Result<seq<Json>>)
    ensures r == Stage(v, f)
  {
    if v.JNull? || v.JUndef? {
      return Err(TypeErrorMessage("length"));
    }
    r := MapEach(Elements(v), f);
  }

  /** A required field: its key, the message when it is missing and the message when it
      holds no object. */
  datatype ObjectCheck = ObjectCheck(key: string, missing: string, notObject: string)

  /** `RequireObject` for every check in turn; the first failure is reported. */
  function CheckObjects(o: Json, checks: seq<ObjectCheck>): (r: Result<Json>)
    requires forall i :: 0 <= i < |checks| ==> checks[i].key != "length"
    ensures r.Ok? ==> r.value == o
    ensures |checks| > 0 ==>
      (r.Ok? <==> o.JObj? && forall i :: 0 <= i < |checks| ==> IsObject(Lookup(o.fields, checks[i].key)))
  {
    if checks == [] then Ok(o)
    else
      var _ :- RequireObject(o, checks[0].key, checks[0].missing, checks[0].notObject);
      CheckObjects(o, checks[1..])
  }

  method CheckEach(o: Json, checks: seq<ObjectCheck>) returns (r: Result<Json>)
    requires forall i :: 0 <= i < |checks| ==> checks[i].key != "length"
    ensures r == CheckObjects(o, checks)
  {
    var i := 0;
    while i < |checks|
      invariant 0 <= i <= |checks|
      invariant CheckObjects(o, checks) == CheckObjects(o, checks[i..])
    {
      var c := RequireObject(o, checks[i].key, checks[i].missing, checks[i].notObject);
      if c.Err? {
        return Err(c.error);
      }
      assert checks[i..][1..] == checks[i + 1..];
      i := i + 1;
    }
    return Ok(o);
  }

  /** The loops `for (i = 0; i < o.k.length; i++) o.k[i] = f(o.k[i])`, one per stage
      `(k, f)`, run in order; each one reads the file as the previous loops left it. */
  function RunStages(o: Json, stages: seq<(string, Json -> Result<Json>)>): (r: Result<Json>)
    requires o.JObj?
    ensures r.Ok? ==> r.value.JObj?
    decreases |stages|
  {
    if stages == [] then Ok(o)
    else
      var v := Lookup(o.fields, stages[0].0);
      var xs :- Stage(v, stages[0].1);
      RunStages(WriteBack(o, stages[0].0, v, xs), stages[1..])
  }

  method RunEach(o: Json, stages: seq<(string, Json -> Result<Json>)>) returns (r: Result<Json>)
    requires o.JObj?
    ensures r == RunStages(o, stages)
  {
    var cur := o;
    var i := 0;
    while i < |stages|
      invariant 0 <= i <= |stages| && cur.JObj?
      invariant RunStages(o, stages) == RunStages(cur, stages[i..])
    {
      var v := Lookup(cur.fields, stages[i].0);
      var xs := StageLoop(v, stages[i].1);
      if xs.Err? {
        return Err(xs.error);
      }
      assert stages[i..][1..] == stages[i + 1..];
      cur := WriteBack(cur, stages[i].0, v, xs.value);
      i := i + 1;
    }
    return Ok(cur);
  }

  /** What a collection `v` holds once its loop produced `items`: an array holds the new
      elements, anything else was not visited. */
  function Staged(v: Json, items: seq<Json>): (r: Json)
    ensures v.JArr? ==> r == JArr(items)
    ensures !v.JArr? ==> r == v
  {
    if v.JArr? then JArr(items) else v
  }

  /** No two stages loop over the same key. */
  predicate DistinctStages(stages: seq<(string, Json -> Result<Json>)>)
  {
    forall i, j :: 0 <= i < j < |stages| ==> stages[i].0 != stages[j].0
  }

  /** No stage loops over `k`. */
  predicate Unstaged(stages: seq<(string, Json -> Result<Json>)>, k: string)
  {
    forall i :: 0 <= i < |stages| ==> stages[i].0 != k
  }

  /** The stages after the first keep distinct keys, none of them the first one's. */
  lemma DistinctRest(stages: seq<(string, Json -> Result<Json>)>)
    requires stages != [] && DistinctStages(stages)
    ensures DistinctStages(stages[1..]) && Unstaged(stages[1..], stages[0].0)
  {
    var rest := stages[1..];
    forall i, j | 0 <= i < j < |rest| ensures rest[i].0 != rest[j].0 {
      assert rest[i] == stages[i + 1] && rest[j] == stages[j + 1];
    }
    forall i | 0 <= i < |rest| ensures rest[i].0 != stages[0].0 {
      assert rest[i] == stages[i + 1];
    }
  }

  /** With distinct keys every loop reads the collection as the file gave it: the stages
      succeed exactly when each succeeds on its own collection, each collection then holds
      its loop's result, and every other field is left as it was. */
  lemma {:induction false} RunStagesSpec(o: Json, stages: seq<(string, Json -> Result<Json>)>)
    requires o.JObj? && DistinctStages(stages)
    ensures RunStages(o, stages).Ok? <==>
      forall i :: 0 <= i < |stages| ==> Stage(Lookup(o.fields, stages[i].0), stages[i].1).Ok?
    ensures RunStages(o, stages).Ok? ==> forall i :: 0 <= i < |stages| ==>
      Lookup(RunStages(o, stages).value.fields, stages[i].0) ==
        Staged(Lookup(o.fields, stages[i].0), Stage(Lookup(o.fields, stages[i].0), stages[i].1).value)
    ensures RunStages(o, stages).Ok? ==> forall k :: Unstaged(stages, k) ==>
      Lookup(RunStages(o, stages).value.fields, k) == Lookup(o.fields, k)
    decreases |stages|
  {
    if stages != [] {
      var k0 := stages[0].0;
      var v := Lookup(o.fields, k0);
      var s0 := Stage(v, stages[0].1);
      if s0.Ok? {
        var o' := WriteBack(o, k0, v, s0.value);
        var rest := stages[1..];
        DistinctRest(stages);
        RunStagesSpec(o', rest);
        assert RunStages(o, stages) == RunStages(o', rest);
        StagesOnRest(o, o', stages, k0, s0.value);
      }
    }
  }

  /** The step of `RunStagesSpec`: what holds of the later stages on the file after the
      first one carries over to all the stages on the file before it. */
  lemma StagesOnRest(o: Json, o': Json, stages: seq<(string, Json -> Result<Json>)>, k0: string, xs: seq<Json>)
    requires o.JObj? && stages != [] && k0 == stages[0].0 && Unstaged(stages[1..], k0)
    requires Stage(Lookup(o.fields, k0), stages[0].1) == Ok(xs)
    requires o' == WriteBack(o, k0, Lookup(o.fields, k0), xs)
    requires RunStages(o, stages) == RunStages(o', stages[1..])
    requires RunStages(o', stages[1..]).Ok? <==>
      forall i :: 0 <= i < |stages[1..]| ==> Stage(Lookup(o'.fields, stages[1..][i].0), stages[1..][i].1).Ok?
    requires RunStages(o', stages[1..]).Ok? ==> forall i :: 0 <= i < |stages[1..]| ==>
      Lookup(RunStages(o', stages[1..]).value.fields, stages[1..][i].0) ==
        Staged(Lookup(o'.fields, stages[1..][i].0), Stage(Lookup(o'.fields, stages[1..][i].0), stages[1..][i].1).value)
    requires RunStages(o', stages[1..]).Ok? ==> forall k :: Unstaged(stages[1..], k) ==>
      Lookup(RunStages(o', stages[1..]).value.fields, k) == Lookup(o'.fields, k)
    ensures RunStages(o, stages).Ok? <==>
      forall i :: 0 <= i < |stages| ==> Stage(Lookup(o.fields, stages[i].0), stages[i].1).Ok?
    ensures RunStages(o, stages).Ok? ==> forall i :: 0 <= i < |stages| ==>
      Lookup(RunStages(o, stages).value.fields, stages[i].0) ==
        Staged(Lookup(o.fields, stages[i].0), Stage(Lookup(o.fields, stages[i].0), stages[i].1).value)
    ensures RunStages(o, stages).Ok? ==> forall k :: Unstaged(stages, k) ==>
      Lookup(RunStages(o, stages).value.fields, k) == Lookup(o.fields, k)
  {
    var rest := stages[1..];
    assert Lookup(o'.fields, k0) == Staged(Lookup(o.fields, k0), xs);
    forall i | 0 <= i < |rest|
      ensures Lookup(o'.fields, rest[i].0) == Lookup(o.fields, rest[i].0) && rest[i] == stages[i + 1]
    {
      assert rest[i].0 != k0;
    }
    forall k | Unstaged(stages, k)
      ensures Unstaged(rest, k) && Lookup(o'.fields, k) == Lookup(o.fields, k)
    {
      assert stages[0].0 != k;
      forall i | 0 <= i < |rest| ensures rest[i].0 != k {
        assert rest[i] == stages[i + 1];
      }
    }
    if RunStages(o, stages).Ok? {
      forall i | 0 <= i < |stages|
        ensures Stage(Lookup(o.fields, stages[i].0), stages[i].1).Ok? &&
          Lookup(RunStages(o, stages).value.fields, stages[i].0) ==
            Staged(Lookup(o.fields, stages[i].0), Stage(Lookup(o.fields, stages[i].0), stages[i].1).value)
      {
        if i > 0 {
          assert stages[i] == rest[i - 1];
        }
      }
    }
    if forall i :: 0 <= i < |stages| ==> Stage(Lookup(o.fields, stages[i].0), stages[i].1).Ok? {
      forall i | 0 <= i < |rest| ensures Stage(Lookup(o'.fields, rest[i].0), rest[i].1).Ok? {
        assert rest[i] == stages[i + 1];
      }
    }
  }

  /** The failure `MapResult` reports is that of the first failing element. */
  lemma {:induction false} MapResultFirstError(items: seq<Json>, f: Json -> Result<Json>, i: nat)
    requires i < |items| && f(items[i]).Err?
    requires forall j :: 0 <= j < i ==> f(items[j]).Ok?
    ensures MapResult(items, f) == Err(f(items[i]).error)
  {
    if i > 0 {
      MapResultFirstError(items[1..], f, i - 1);
    }
  }

  // ---------------------------------------------------------------- field tables

  /** A key a field check may name: `length` is left out, since on an array it is no
      field of its own. */
  type Key = k: string | k != "length" witness "id"

  /** One required field of a record and what its validator does with it: coerce it to a
      string, coerce it to a number (refusing NaN), or insist that it holds an object.
      The messages are those thrown when the field is missing or has the wrong kind. */
  datatype FieldCheck =
    | StringField(key: Key, missing: string)
    | NumberField(key: Key, missing: string, nan: string)
    | ObjectField(key: Key, missing: string, notObject: string)

  /** The value `v` of a field passes the check `c`. */
  predicate Passes(v: Json, c: FieldCheck)
  {
    v != JUndef &&
    match c
    case StringField(_, _) => true
    case NumberField(_, _, _) => ToNum(v).Some?
    case ObjectField(_, _, _) => IsObject(v)
  }

  /** The value a passing field holds after the check. */
  function Coerced(v: Json, c: FieldCheck): Json
  {
    match c
    case StringField(_, _) => AsString(v)
    case NumberField(_, _, _) => if ToNum(v).Some? then JNum(ToNum(v).value) else v
    case ObjectField(_, _, _) => v
  }

  /** The message thrown for a failing field value `v`. */
  function Failure(v: Json, c: FieldCheck): string
  {
    if v == JUndef then c.missing
    else match c
      case StringField(_, m) => m
      case NumberField(_, _, nan) => nan
      case ObjectField(_, _, no) => no
  }

  /** One check, applied to the record `o`: a record passes exactly when it is an object
      whose field passes; the field is then coerced and nothing else changes, and a
      refused object gets the message for that field's value. */
  function ApplyCheck(o: Json, c: FieldCheck): (r: Result<Json>)
    ensures r.Ok? <==> o.JObj? && Passes(Lookup(o.fields, c.key), c)
    ensures r.Ok? ==> r.value.JObj? && Lookup(r.value.fields, c.key) == Coerced(Lookup(o.fields, c.key), c) &&
                      forall k' :: k' != c.key ==> Lookup(r.value.fields, k') == Lookup(o.fields, k')
    ensures o.JObj? && r.Err? ==> r.error == Failure(Lookup(o.fields, c.key), c)
    ensures c.ObjectField? && r.Ok? ==> r.value == o
  {
    match c
    case StringField(k, m) => RequireString(o, k, m)
    case NumberField(k, m, nan) => RequireNumber(o, k, m, nan)
    case ObjectField(k, m, no) =>
      var _ :- RequireObject(o, k, m, no);
      Ok(o)
  }

  /** A passing check read at one key. */
  lemma ApplyCheckAt(o: Json, c: FieldCheck, k: string)
    requires ApplyCheck(o, c).Ok?
    ensures ApplyCheck(o, c).value.JObj? && o.JObj?
    ensures Lookup(ApplyCheck(o, c).value.fields, k) ==
      if k == c.key then Coerced(Lookup(o.fields, k), c) else Lookup(o.fields, k)
  {
  }

  /** The checks of a record, in the order its validator makes them. */
  datatype Checks = Done | Then(check: FieldCheck, rest: Checks)

  /** The checks applied in order, each to the record as the previous ones left it; the
      first failure is thrown. */
  function CheckFields(o: Json, cs: Checks): (r: Result<Json>)
    ensures cs.Then? ==> (r.Ok? ==> o.JObj? && r.value.JObj?)
    decreases cs
  {
    match cs
    case Done => Ok(o)
    case Then(c, rest) =>
      var o1 :- ApplyCheck(o, c);
      CheckFields(o1, rest)
  }
}
