/** The translation fallback merge: every key the default translation has and a new
    translation lacks is filled in from the default, down to the third level. */
module CTranslation {
  import opened Wrappers
  import opened AssocMaps

  /** A translation file: words at the leaves, objects of keys above them. */
  datatype Tree = Text(s: string) | Branch(fields: seq<(string, Tree)>)

  /** `t[k]`: a key of an object, or `undefined` (a word has no translation keys). */
  function Lookup(t: Tree, k: string): Option<Tree>
  {
    if t.Branch? then Get(t.fields, k) else None
  }

  /** `t[k] = v` in strict-mode code: an object takes the key (an existing key keeps its
      place); a string primitive refuses the assignment with a TypeError. */
  function Write(t: Tree, k: string, v: Tree): (r: Result<Tree>)
    ensures t.Branch? <==> r.Ok?
    ensures r.Ok? ==> r.value.Branch?
  {
    if t.Branch? then Ok(Branch(Set(t.fields, k, v)))
    else Err("Cannot create property '" + k + "' on string '" + t.s + "'")
  }

  /** The loop over the default's keys at nesting level `depth` (1 for the top level):
      the keys of `fs`, in order, are filled into `n`. */
  function Fill(n: Tree, fs: seq<(string, Tree)>, depth: nat): (r: Result<Tree>)
    requires 1 <= depth <= 3
    ensures r.Ok? && n.Branch? ==> r.value.Branch?
    decreases 3 - depth, |fs|
  {
    if fs == [] then Ok(n)
    else
      var m :- Fill(n, fs[..|fs| - 1], depth);
      Step(m, fs[|fs| - 1].0, fs[|fs| - 1].1, depth)
  }

  /** One iteration for key `k` whose default value is `dv`: a missing key takes the
      default; a present key whose default is an object is filled one level deeper, up to
      the third level; any other present key is left alone. */
  function Step(n: Tree, k: string, dv: Tree, depth: nat): (r: Result<Tree>)
    requires 1 <= depth <= 3
    ensures r.Ok? && n.Branch? ==> r.value.Branch?
    decreases 3 - depth, 0
  {
    match Lookup(n, k)
    case None => Write(n, k, dv)
    case Some(c) =>
      if depth < 3 && dv.Branch? then
        var c' :- Fill(c, dv.fields, depth + 1);
        Write(n, k, c')
      else Ok(n)
  }

  /** An iteration changes at most its own key. */
  lemma StepFrame(n: Tree, k: string, dv: Tree, depth: nat, k': string)
    requires 1 <= depth <= 3 && k' != k && Step(n, k, dv, depth).Ok?
    ensures Lookup(Step(n, k, dv, depth).value, k') == Lookup(n, k')
  {
  }

  /** Once an iteration throws, the rest of the loop never runs. */
  lemma {:induction false} FillErrSticks(n: Tree, fs: seq<(string, Tree)>, j: nat, depth: nat)
    requires 1 <= depth <= 3 && j <= |fs|
    requires Fill(n, fs[..j], depth).Err?
    ensures Fill(n, fs, depth) == Fill(n, fs[..j], depth)
    decreases |fs| - j
  {
    if j < |fs| {
      assert fs[..j + 1][..j] == fs[..j];
      FillErrSticks(n, fs, j + 1, depth);
    } else {
      assert fs[..j] == fs;
    }
  }

  /** One more iteration of the loop after the first `i` succeeded with `cur`. */
  lemma FillSnoc(n: Tree, fs: seq<(string, Tree)>, i: nat, depth: nat, cur: Tree)
    requires 1 <= depth <= 3 && i < |fs| && Fill(n, fs[..i], depth) == Ok(cur)
    ensures Fill(n, fs[..i + 1], depth) == Step(cur, fs[i].0, fs[i].1, depth)
  {
    assert fs[..i + 1][..i] == fs[..i];
  }

  /** The innermost loop (third level): only missing keys are written. */
  method FillThirdLevel(n: Tree, d: Tree) returns (r: Result<Tree>)
    requires d.Branch?
    ensures r == Fill(n, d.fields, 3)
  {
    var fs := d.fields;
    var cur := n;
    for i := 0 to |fs|
      invariant Fill(n, fs[..i], 3) == Ok(cur)
    {
      FillSnoc(n, fs, i, 3, cur);
      var (subsubkey, value) := fs[i];
      if Lookup(cur, subsubkey).None? {
        var w := Write(cur, subsubkey, value);
        if w.Err? {
          FillErrSticks(n, fs, i + 1, 3);
          return w;
        }
        cur := w.value;
      }
    }
    assert fs[..|fs|] == fs;
    return Ok(cur);
  }

  /** The middle loop (second level). */
  method FillSecondLevel(n: Tree, d: Tree) returns (r: Result<Tree>)
    requires d.Branch?
    ensures r == Fill(n, d.fields, 2)
  {
    var fs := d.fields;
    var cur := n;
    for i := 0 to |fs|
      invariant Fill(n, fs[..i], 2) == Ok(cur)
    {
      FillSnoc(n, fs, i, 2, cur);
      var (subkey, value) := fs[i];
      var present := Lookup(cur, subkey);
      var w: Result<Tree>;
      if present.Some? {
        if value.Branch? {
          var filled := FillThirdLevel(present.value, value);
          if filled.Err? {
            FillErrSticks(n, fs, i + 1, 2);
            return filled.PropagateFailure();
          }
          w := Write(cur, subkey, filled.value);
        } else {
          w := Ok(cur);
        }
      } else {
        w := Write(cur, subkey, value);
      }
      if w.Err? {
        FillErrSticks(n, fs, i + 1, 2);
        return w;
      }
      cur := w.value;
    }
    assert fs[..|fs|] == fs;
    return Ok(cur);
  }

  /** `validateTranslation`: `undefined` gives the default translation; otherwise the
      outer loop fills the new translation's top level. */
  method ValidateTranslation(newT: Option<Tree>, defaultT: Tree) returns (r: Result<Tree>)
    requires defaultT.Branch?
    ensures newT.None? ==> r == Ok(defaultT)
    ensures newT.Some? ==> r == Fill(newT.value, defaultT.fields, 1)
  {
    if newT.None? {
      return Ok(defaultT);
    }
    var fs := defaultT.fields;
    var cur := newT.value;
    for i := 0 to |fs|
      invariant Fill(newT.value, fs[..i], 1) == Ok(cur)
    {
      FillSnoc(newT.value, fs, i, 1, cur);
      var (key, value) := fs[i];
      var present := Lookup(cur, key);
      var w: Result<Tree>;
      if present.Some? {
        if value.Branch? {
          var filled := FillSecondLevel(present.value, value);
          if filled.Err? {
            FillErrSticks(newT.value, fs, i + 1, 1);
            return filled.PropagateFailure();
          }
          w := Write(cur, key, filled.value);
        } else {
          w := Ok(cur);
        }
      } else {
        w := Write(cur, key, value);
      }
      if w.Err? {
        FillErrSticks(newT.value, fs, i + 1, 1);
        return w;
      }
      cur := w.value;
    }
    assert fs[..|fs|] == fs;
    return Ok(cur);
  }

  // ---------------------------------------------------------------------------
  // What the merge does to each key

  /** What key `k` of `n` holds after the loop at level `depth`, given its default `dv`. */
  ghost function KeyOutcome(n: Tree, k: string, dv: Option<Tree>, depth: nat): Option<Tree>
    requires 1 <= depth <= 3
  {
    match Lookup(n, k)
    case None => dv
    case Some(c) =>
      if depth < 3 && dv.Some? && dv.value.Branch? && Fill(c, dv.value.fields, depth + 1).Ok? then
        Some(Fill(c, dv.value.fields, depth + 1).value)
      else Some(c)
  }

  /** Every key ends as `KeyOutcome` says: a key the default lacks keeps its value (or
      stays missing), a missing key takes the default's value, a present key whose default
      is an object is filled one level deeper (only up to the third level), and every other
      present value stays as it was. Object keys are unique, as `JSON.parse` makes them. */
  lemma {:induction false} FillAt(n: Tree, fs: seq<(string, Tree)>, depth: nat, k: string)
    requires 1 <= depth <= 3 && UniqueKeys(fs)
    requires Fill(n, fs, depth).Ok?
    ensures Lookup(Fill(n, fs, depth).value, k) == KeyOutcome(n, k, Get(fs, k), depth)
    ensures Lookup(n, k).Some? && depth < 3 && Get(fs, k).Some? && Get(fs, k).value.Branch? ==>
      Fill(Lookup(n, k).value, Get(fs, k).value.fields, depth + 1).Ok?
  {
    if fs != [] {
      var init, last := fs[..|fs| - 1], fs[|fs| - 1];
      assert fs == init + [last];
      FillAt(n, init, depth, k);
      if last.0 != k {
        FillAtOtherKey(n, init, last, depth, k);
      } else {
        KeysPrefix(fs, |fs| - 1);
        assert k !in Keys(init) by {
          forall i | 0 <= i < |init| ensures Keys(init)[i] != k {
            assert init[i].0 == fs[i].0;
          }
        }
        FillAtLastKey(n, init, last, depth);
      }
    }
  }

  /** The step of `FillAt` for a key other than the last one filled. */
  lemma FillAtOtherKey(n: Tree, init: seq<(string, Tree)>, last: (string, Tree), depth: nat, k: string)
    requires 1 <= depth <= 3 && last.0 != k
    requires Fill(n, init + [last], depth).Ok? && Fill(n, init, depth).Ok?
    requires Lookup(Fill(n, init, depth).value, k) == KeyOutcome(n, k, Get(init, k), depth)
    requires Lookup(n, k).Some? && depth < 3 && Get(init, k).Some? && Get(init, k).value.Branch? ==>
      Fill(Lookup(n, k).value, Get(init, k).value.fields, depth + 1).Ok?
    ensures Lookup(Fill(n, init + [last], depth).value, k) == KeyOutcome(n, k, Get(init + [last], k), depth)
    ensures Lookup(n, k).Some? && depth < 3 && Get(init + [last], k).Some? && Get(init + [last], k).value.Branch? ==>
      Fill(Lookup(n, k).value, Get(init + [last], k).value.fields, depth + 1).Ok?
  {
    var m := Fill(n, init, depth).value;
    assert (init + [last])[..|init|] == init;
    assert Fill(n, init + [last], depth) == Step(m, last.0, last.1, depth);
    GetSnoc(init, last.0, last.1, k);
    GetIsKey(init, k);
    StepFrame(m, last.0, last.1, depth, k);
  }

  /** The step of `FillAt` for the last key filled, which the earlier keys do not repeat. */
  lemma FillAtLastKey(n: Tree, init: seq<(string, Tree)>, last: (string, Tree), depth: nat)
    requires 1 <= depth <= 3 && last.0 !in Keys(init)
    requires Fill(n, init + [last], depth).Ok? && Fill(n, init, depth).Ok?
    requires Lookup(Fill(n, init, depth).value, last.0) == KeyOutcome(n, last.0, Get(init, last.0), depth)
    ensures Lookup(Fill(n, init + [last], depth).value, last.0) == KeyOutcome(n, last.0, Some(last.1), depth)
    ensures Get(init + [last], last.0) == Some(last.1)
    ensures Lookup(n, last.0).Some? && depth < 3 && last.1.Branch? ==>
      Fill(Lookup(n, last.0).value, last.1.fields, depth + 1).Ok?
  {
    var m := Fill(n, init, depth).value;
    assert (init + [last])[..|init|] == init;
    assert Fill(n, init + [last], depth) == Step(m, last.0, last.1, depth);
    GetSnoc(init, last.0, last.1, last.0);
    GetIsKey(init, last.0);
  }

  /** The keys of a prefix of a map with unique keys are unique. */
  lemma UniquePrefix(fs: seq<(string, Tree)>, j: nat)
    requires UniqueKeys(fs) && j <= |fs|
    ensures UniqueKeys(fs[..j])
  {
  }

  /** A translation with no keys at all comes back as the default translation. */
  lemma {:induction false} FillEmpty(fs: seq<(string, Tree)>, depth: nat)
    requires 1 <= depth <= 3 && UniqueKeys(fs)
    ensures Fill(Branch([]), fs, depth) == Ok(Branch(fs))
  {
    if fs != [] {
      var init, last := fs[..|fs| - 1], fs[|fs| - 1];
      FillEmpty(init, depth);
      assert last.0 !in Keys(init) by {
        forall i | 0 <= i < |init| ensures Keys(init)[i] != last.0 {
          assert init[i].0 == fs[i].0;
        }
      }
      GetIsKey(init, last.0);
      SetAbsentAppends(init, last.0, last.1);
      assert fs == init + [last];
    }
  }

  /** The properties of a successful merge, key by key: missing top-level keys are
      copied; under a key whose default is an object, missing second- and third-level
      keys are copied; keys the default lacks and words already present are kept; and
      the fourth level is never touched. */
  lemma MergeTopLevel(newT: Tree, defaultT: Tree, key: string)
    requires newT.Branch? && defaultT.Branch? && UniqueKeys(defaultT.fields)
    requires Fill(newT, defaultT.fields, 1).Ok?
    ensures var r := Fill(newT, defaultT.fields, 1).value;
      (Lookup(newT, key).None? ==> Lookup(r, key) == Lookup(defaultT, key)) &&
      (Lookup(defaultT, key).None? ==> Lookup(r, key) == Lookup(newT, key)) &&
      (Lookup(newT, key).Some? && Lookup(newT, key).value.Text? ==> Lookup(r, key) == Lookup(newT, key)) &&
      (Lookup(defaultT, key).Some? && Lookup(defaultT, key).value.Text? && Lookup(newT, key).Some? ==>
        Lookup(r, key) == Lookup(newT, key))
  {
    FillAt(newT, defaultT.fields, 1, key);
    var c := Lookup(newT, key);
    var dv := Lookup(defaultT, key);
    if c.Some? && c.value.Text? && dv.Some? && dv.value.Branch? {
      TextStaysText(c.value, dv.value.fields, 2);
    }
  }

  /** Filling inside a word either throws or leaves the word as it is. */
  lemma TextStaysText(t: Tree, fs: seq<(string, Tree)>, depth: nat)
    requires t.Text? && 1 <= depth <= 3 && Fill(t, fs, depth).Ok?
    ensures Fill(t, fs, depth).value == t
  {
    if fs != [] {
      TextStaysText(t, fs[..|fs| - 1], depth);
    }
  }

  /** One level down: under a top-level key present in both as objects, the second
      level is filled the same way, by the second-level loop. */
  lemma MergeSecondLevel(newT: Tree, defaultT: Tree, key: string, subkey: string)
    requires newT.Branch? && defaultT.Branch? && UniqueKeys(defaultT.fields)
    requires Fill(newT, defaultT.fields, 1).Ok?
    requires Lookup(newT, key).Some? && Lookup(newT, key).value.Branch?
    requires Lookup(defaultT, key).Some? && Lookup(defaultT, key).value.Branch?
    requires UniqueKeys(Lookup(defaultT, key).value.fields)
    ensures var r := Fill(newT, defaultT.fields, 1).value;
      var c, d := Lookup(newT, key).value, Lookup(defaultT, key).value;
      Lookup(r, key).Some? && Fill(c, d.fields, 2).Ok? && Lookup(r, key).value == Fill(c, d.fields, 2).value &&
      (Lookup(c, subkey).None? ==> Lookup(Lookup(r, key).value, subkey) == Lookup(d, subkey)) &&
      (Lookup(d, subkey).None? ==> Lookup(Lookup(r, key).value, subkey) == Lookup(c, subkey))
  {
    FillAt(newT, defaultT.fields, 1, key);
    var c, d := Lookup(newT, key).value, Lookup(defaultT, key).value;
    FillAt(c, d.fields, 2, subkey);
  }

  /** Two levels down: a missing third-level key is copied, and every third-level value
      already present (and so everything below it) is left exactly as it was. */
  lemma MergeThirdLevel(c: Tree, d: Tree, subkey: string, subsubkey: string)
    requires c.Branch? && d.Branch? && UniqueKeys(d.fields)
    requires Fill(c, d.fields, 2).Ok?
    requires Lookup(c, subkey).Some? && Lookup(c, subkey).value.Branch?
    requires Lookup(d, subkey).Some? && Lookup(d, subkey).value.Branch?
    requires UniqueKeys(Lookup(d, subkey).value.fields)
    ensures var r := Lookup(Fill(c, d.fields, 2).value, subkey);
      var cc, dd := Lookup(c, subkey).value, Lookup(d, subkey).value;
      r.Some? &&
      (Lookup(cc, subsubkey).None? ==> Lookup(r.value, subsubkey) == Lookup(dd, subsubkey)) &&
      (Lookup(cc, subsubkey).Some? ==> Lookup(r.value, subsubkey) == Lookup(cc, subsubkey))
  {
    FillAt(c, d.fields, 2, subkey);
    var cc, dd := Lookup(c, subkey).value, Lookup(d, subkey).value;
    FillAt(cc, dd.fields, 3, subsubkey);
  }

  /** A word where the default has a non-empty object makes the merge throw. */
  lemma WordWhereObjectExpectedThrows()
    ensures Fill(Branch([("menu", Text("x"))]), [("menu", Branch([("open", Text("Open"))]))], 1).Err?
  {
    var inner := [("open", Text("Open"))];
    assert inner[..0] == [];
    assert Fill(Text("x"), inner, 2).Err?;
  }
}
