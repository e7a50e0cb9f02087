/** The index builder: every directory entry whose name contains ".json" yields one
    `{id, name}` record, both equal to the name with every ".json" removed.
    The directory listing is an input; writing `dataList.json` is left out. */
module DataList {
  import opened Strings

  const Extension: string := ".json"

  /** One record of the emitted list. */
  datatype Entry = Entry(id: string, name: string)

  /** The name of an entry with the extension stripped (global replace). */
  function StripExtension(file: string): string
  {
    ReplaceAll(file, Extension, "")
  }

  /** Whether the loop keeps this entry. */
  predicate Kept(file: string)
  {
    Contains(file, Extension)
  }

  /** The kept entries, in listing order. */
  function KeptFiles(listing: seq<string>): (r: seq<string>)
    ensures |r| <= |listing|
    ensures forall f :: f in r <==> f in listing && Kept(f)
  {
    if listing == [] then []
    else if Kept(listing[0]) then [listing[0]] + KeptFiles(listing[1..])
    else KeptFiles(listing[1..])
  }

  /** Filtering a listing split in two filters each part and keeps the parts in order, and
      a single entry is kept alone or dropped: the kept entries are those of the listing in
      listing order. */
  lemma {:induction false} KeptFilesAppend(a: seq<string>, b: seq<string>)
    ensures KeptFiles(a + b) == KeptFiles(a) + KeptFiles(b)
    ensures forall f :: KeptFiles([f]) == if Kept(f) then [f] else []
  {
    if a == [] {
      assert a + b == b;
    } else {
      assert (a + b)[0] == a[0];
      assert (a + b)[1..] == a[1..] + b;
      KeptFilesAppend(a[1..], b);
    }
    forall f
      ensures KeptFiles([f]) == if Kept(f) then [f] else []
    {
      KeptFilesOne(f);
    }
  }

  /** A single entry is kept alone or dropped. */
  lemma KeptFilesOne(f: string)
    ensures KeptFiles([f]) == if Kept(f) then [f] else []
  {
    assert [f][1..] == [];
  }

  /** The list the builder writes, as a function of the listing. */
  function DataListOf(listing: seq<string>): seq<Entry>
  {
    if listing == [] then []
    else
      var rest := DataListOf(listing[1..]);
      if Kept(listing[0]) then
        var id := StripExtension(listing[0]);
        [Entry(id, id)] + rest
      else rest
  }

  /** Extending the listing by one entry extends the list by at most one record. */
  lemma {:induction false} DataListOfSnoc(listing: seq<string>, file: string)
    ensures DataListOf(listing + [file]) ==
      DataListOf(listing) + (if Kept(file) then [Entry(StripExtension(file), StripExtension(file))] else [])
  {
    if listing == [] {
      assert [file][1..] == [];
    } else {
      assert (listing + [file])[1..] == listing[1..] + [file];
      DataListOfSnoc(listing[1..], file);
    }
  }

  /** There is exactly one record per kept entry, in listing order; each record's id is
      that entry with ".json" removed, and every record has `name == id`. */
  lemma {:induction false} DataListMatchesKept(listing: seq<string>)
    ensures |DataListOf(listing)| == |KeptFiles(listing)|
    ensures forall k :: 0 <= k < |KeptFiles(listing)| ==>
      DataListOf(listing)[k] == Entry(StripExtension(KeptFiles(listing)[k]), StripExtension(KeptFiles(listing)[k]))
  {
    if listing != [] {
      DataListMatchesKept(listing[1..]);
    }
  }

  /** An entry whose name does not contain ".json" contributes no record. */
  lemma {:induction false} UnkeptContributesNothing(listing: seq<string>, file: string)
    requires !Kept(file)
    ensures DataListOf(listing + [file]) == DataListOf(listing)
  {
    DataListOfSnoc(listing, file);
  }

  /** The emitted ids are exactly the stripped names of the kept entries. */
  lemma IdsAreStrippedKeptNames(listing: seq<string>, e: Entry)
    ensures e in DataListOf(listing) <==>
      exists f :: f in listing && Kept(f) && e == Entry(StripExtension(f), StripExtension(f))
  {
    DataListMatchesKept(listing);
    var kept := KeptFiles(listing);
    if e in DataListOf(listing) {
      var k :| 0 <= k < |DataListOf(listing)| && DataListOf(listing)[k] == e;
      assert kept[k] in kept;
    } else {
      forall f | f in listing && Kept(f) ensures e != Entry(StripExtension(f), StripExtension(f)) {
        var k :| 0 <= k < |kept| && kept[k] == f;
        assert DataListOf(listing)[k] in DataListOf(listing);
      }
    }
  }

  /** The loop of the builder: filter, strip and append, in listing order. */
  method BuildDataList(listing: seq<string>) returns (res: seq<Entry>)
    ensures res == DataListOf(listing)
    ensures |res| == |KeptFiles(listing)|
    ensures forall k :: 0 <= k < |res| ==> res[k].id == res[k].name
  {
    res := [];
    var i := 0;
    while i < |listing|
      invariant 0 <= i <= |listing|
      invariant res == DataListOf(listing[..i])
    {
      var file := listing[i];
      if Find(file, Extension) != -1 {
        var filename := ReplaceAll(file, Extension, "");
        res := res + [Entry(filename, filename)];
      }
      DataListOfSnoc(listing[..i], file);
      assert listing[..i + 1] == listing[..i] + [file];
      i := i + 1;
    }
    assert listing[..i] == listing;
    DataListMatchesKept(listing);
  }

  /** Substring test: a name with ".json" in the middle is kept too. */
  lemma MiddleExtensionIsKept()
    ensures Kept("a.json.bak")
  {
    assert OccursAt("a.json.bak", Extension, 1);
  }

  /** The replace is global: "a.json.json" becomes "a". */
  lemma GlobalStrip()
    ensures StripExtension("a.json.json") == "a"
  {
    assert OccursAt("a.json.json", Extension, 1);
    assert "a.json.json"[1..] == ".json.json";
    assert OccursAt(".json.json", Extension, 0);
    assert ".json.json"[5..] == ".json";
    assert OccursAt(".json", Extension, 0);
    assert "a.json.json"[0] != Extension[0];
  }

  /** On a second run the builder's own output file is listed and becomes a record. */
  lemma RerunListsItsOwnOutput(listing: seq<string>)
    requires "dataList.json" in listing
    ensures Entry("dataList", "dataList") in DataListOf(listing)
  {
    var f := "dataList.json";
    assert OccursAt(f, Extension, 8);
    assert StripExtension(f) == "dataList" by {
      forall i | 0 <= i < 8 ensures !OccursAt(f[i..], Extension, 0) {
        assert f[i..][0] == f[i] != Extension[0];
      }
      assert f[8..] == Extension;
      assert OccursAt(f[8..], Extension, 0);
      assert ReplaceAll(f[8..], Extension, "") == "";
      ReplaceUnrolled(f, 8);
    }
    IdsAreStrippedKeptNames(listing, Entry("dataList", "dataList"));
  }

  /** Unfolds `ReplaceAll` over a prefix that has no match starting in it. */
  lemma {:induction false} ReplaceUnrolled(s: string, n: nat)
    requires n <= |s|
    requires forall i :: 0 <= i < n ==> !OccursAt(s[i..], Extension, 0)
    ensures ReplaceAll(s, Extension, "") == s[..n] + ReplaceAll(s[n..], Extension, "")
    decreases n
  {
    if n > 0 {
      assert !OccursAt(s[0..], Extension, 0);
      assert s[0..] == s;
      if |s| >= |Extension| {
        forall i | 0 <= i < n - 1 ensures !OccursAt(s[1..][i..], Extension, 0) {
          assert s[1..][i..] == s[i + 1..];
        }
        ReplaceUnrolled(s[1..], n - 1);
        assert s[1..][n - 1..] == s[n..];
        assert s[..n] == [s[0]] + s[1..][..n - 1];
      } else {
        ReplaceAllAbsent(s, Extension, "");
        ReplaceAllAbsent(s[n..], Extension, "");
      }
    }
  }
}
