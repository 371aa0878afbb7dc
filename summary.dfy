/** The high-level summary rollup (`scan_for_errors`), as the code behaves:
    the loop over the high-level names visits the characters of
    `AvailableTests`, the branch that would lower a result holds only a string
    literal, so every summary entry is written with result 1. */
module Summary {
  import opened Dicts
  import opened RawResults

  /** The object types the rollup scans; `continuous` is not one of them. */
  const ScannedTypes: seq<string> := ["projects", "studies", "expressions"]

  /** The summary after the character loop has passed over `names`, starting
      from `d`: each character `c` sets key `[c]` to result 1, name `[c]`. */
  function SummaryPass(d: HighLevelSummary, names: string): HighLevelSummary
  {
    if names == [] then d
    else
      var c := names[|names| - 1];
      Put(SummaryPass(d, names[..|names| - 1]), [c], SummaryEntry(1, [c]))
  }

  /** The summary one object id leaves behind. */
  function FullSummary(): HighLevelSummary
  {
    SummaryPass([], AvailableTests)
  }

  /** The characters of `s` in order of first occurrence. */
  function Distinct(s: string): string
  {
    if s == [] then []
    else
      var d := Distinct(s[..|s| - 1]);
      var c := s[|s| - 1];
      if c in d then d else d + [c]
  }

  /** `Distinct(s)` holds each character of `s` exactly once. */
  lemma {:induction false} DistinctSpec(s: string)
    ensures forall c :: c in Distinct(s) <==> c in s
    ensures forall i, j :: 0 <= i < j < |Distinct(s)| ==> Distinct(s)[i] != Distinct(s)[j]
  {
    if s != [] {
      DistinctSpec(s[..|s| - 1]);
      assert forall x :: x in s <==> x in s[..|s| - 1] || x == s[|s| - 1];
    }
  }

  /** The one-character keys for the characters of `s`. */
  function CharKeys(s: string): (r: seq<string>)
    ensures |r| == |s|
    ensures forall i :: 0 <= i < |s| ==> r[i] == [s[i]]
  {
    if s == [] then [] else CharKeys(s[..|s| - 1]) + [[s[|s| - 1]]]
  }

  /** Every entry's result is 1 and its name equals its key. */
  ghost predicate AllPass(d: HighLevelSummary)
  {
    forall i :: 0 <= i < |d| ==> d[i].1 == SummaryEntry(1, d[i].0)
  }

  /** Starting from an empty summary, the keys are the distinct characters
      of the names, as one-character strings, in order of first occurrence. */
  lemma {:induction false} SummaryPassKeys(names: string)
    ensures Keys(SummaryPass([], names)) == CharKeys(Distinct(names))
  {
    if names != [] {
      var front := names[..|names| - 1];
      var c := names[|names| - 1];
      SummaryPassKeys(front);
      PutSpec(SummaryPass([], front), [c], SummaryEntry(1, [c]));
      var before := Distinct(front);
      if c in before {
        assert [c] in CharKeys(before) by {
          var i :| 0 <= i < |before| && before[i] == c;
          assert CharKeys(before)[i] == [c];
        }
      } else {
        assert CharKeys(before + [c])[..|before|] == CharKeys(before);
      }
    }
  }

  /** The pass keeps every entry at result 1 with its name equal to its key. */
  lemma {:induction false} SummaryPassAllPass(d: HighLevelSummary, names: string)
    requires AllPass(d)
    ensures AllPass(SummaryPass(d, names))
  {
    if names != [] {
      var front := names[..|names| - 1];
      var c := names[|names| - 1];
      SummaryPassAllPass(d, front);
      PutPairs(SummaryPass(d, front), [c], SummaryEntry(1, [c]));
    }
  }

  /** After the pass, every character of the names has its entry. */
  lemma {:induction false} SummaryPassLookup(d: HighLevelSummary, names: string, c: char)
    requires c in names
    ensures Lookup(SummaryPass(d, names), [c]) == Some(SummaryEntry(1, [c]))
  {
    var front := names[..|names| - 1];
    var last := names[|names| - 1];
    if c != last {
      var i :| 0 <= i < |names| && names[i] == c;
      assert i != |names| - 1;
      assert front[i] == c;
      SummaryPassLookup(d, front, c);
    }
    PutSpec(SummaryPass(d, front), [last], SummaryEntry(1, [last]));
    assert [c] != [last] <== c != last;
  }

  /** A pass over names whose entries are all in place changes nothing. */
  lemma {:induction false} SummaryPassStable(d: HighLevelSummary, names: string)
    requires forall c :: c in names ==> Lookup(d, [c]) == Some(SummaryEntry(1, [c]))
    ensures SummaryPass(d, names) == d
  {
    if names != [] {
      var front := names[..|names| - 1];
      var c := names[|names| - 1];
      assert forall x :: x in front ==> x in names;
      SummaryPassStable(d, front);
      PutExisting(d, [c], SummaryEntry(1, [c]));
    }
  }

  /** The summary that results has one key per distinct character of
      `'project_get'` (p, r, o, j, e, c, t, _ and g), in order of first
      occurrence, as one-character strings. */
  lemma FullSummaryKeys()
    ensures Keys(FullSummary()) == CharKeys(Distinct(AvailableTests))
    ensures forall c :: [c] in Keys(FullSummary()) <==> c in AvailableTests
  {
    SummaryPassKeys(AvailableTests);
    DistinctSpec(AvailableTests);
    var d := Distinct(AvailableTests);
    forall c ensures [c] in CharKeys(d) <==> c in d {
      if [c] in CharKeys(d) {
        var i :| 0 <= i < |d| && CharKeys(d)[i] == [c];
        assert d[i] == c;
      }
      if c in d {
        var i :| 0 <= i < |d| && d[i] == c;
        assert CharKeys(d)[i] == [c];
      }
    }
  }

  /** Every entry of the summary that results has result 1 and its own key as
      its name, whatever the test results were. */
  lemma FullSummaryAllPass()
    ensures forall i :: 0 <= i < |FullSummary()| ==>
              FullSummary()[i].1.result == 1 && FullSummary()[i].1.name == FullSummary()[i].0
  {
    SummaryPassAllPass([], AvailableTests);
  }

  /** The pass of a further object id leaves the summary as it is. */
  lemma FullSummaryStable()
    ensures SummaryPass(FullSummary(), AvailableTests) == FullSummary()
  {
    forall c | c in AvailableTests
      ensures Lookup(FullSummary(), [c]) == Some(SummaryEntry(1, [c]))
    {
      SummaryPassLookup([], AvailableTests, c);
    }
    SummaryPassStable(FullSummary(), AvailableTests);
  }

  /** How far the scan over the object types gets: the type whose lookup
      failed, if any, and whether an object id was visited before that. */
  datatype ScanState = ScanState(error: Option<string>, sawIds: bool)

  /** The scan over `types`, stopping at the first type the tree lacks. */
  function ScanOf(results: TestResults, types: seq<string>): ScanState
  {
    if types == [] then ScanState(None, false)
    else
      var st := ScanOf(results, types[..|types| - 1]);
      var objType := types[|types| - 1];
      if st.error.Some? then st
      else
        match Lookup(results, objType)
        case None => ScanState(Some(objType), st.sawIds)
        case Some(ids) => ScanState(None, st.sawIds || |ids| > 0)
  }

  /** The number of object ids the tree holds under a type. */
  function IdCount(results: TestResults, objType: string): nat
  {
    match Lookup(results, objType)
    case None => 0
    case Some(ids) => |ids|
  }

  /** Some type among the first `m` of `types` has an object id. */
  ghost predicate IdsAmong(results: TestResults, types: seq<string>, m: nat)
    requires m <= |types|
  {
    exists i :: 0 <= i < m && IdCount(results, types[i]) > 0
  }

  /** `IdsAmong` over a prefix of the types that ends at or after `m`. */
  lemma IdsAmongPrefix(results: TestResults, types: seq<string>, n: nat, m: nat)
    requires m <= n <= |types|
    ensures IdsAmong(results, types[..n], m) <==> IdsAmong(results, types, m)
  {
    if IdsAmong(results, types, m) {
      var i :| 0 <= i < m && IdCount(results, types[i]) > 0;
      assert types[..n][i] == types[i];
    }
    if IdsAmong(results, types[..n], m) {
      var i :| 0 <= i < m && IdCount(results, types[..n][i]) > 0;
      assert types[..n][i] == types[i];
    }
  }

  /** `IdsAmong` over one more type. */
  lemma IdsAmongSnoc(results: TestResults, types: seq<string>, m: nat)
    requires 0 < m <= |types|
    ensures IdsAmong(results, types, m) <==>
              IdsAmong(results, types, m - 1) || IdCount(results, types[m - 1]) > 0
  {
    if IdsAmong(results, types, m) && IdCount(results, types[m - 1]) == 0 {
      var i :| 0 <= i < m && IdCount(results, types[i]) > 0;
      assert i < m - 1;
    }
  }

  /** The scan fails on the first type the tree lacks, and it has seen an
      object id exactly when one of the types before that has one. */
  lemma {:induction false} ScanOfSpec(results: TestResults, types: seq<string>)
    ensures var m := FirstMissing(results, types);
      ScanOf(results, types).error == (if m < |types| then Some(types[m]) else None) &&
      (ScanOf(results, types).sawIds <==> IdsAmong(results, types, m))
  {
    if types != [] {
      var n := |types| - 1;
      var front := types[..n];
      ScanOfSpec(results, front);
      FirstMissingSnoc(results, types);
      var m := FirstMissing(results, types);
      var m' := FirstMissing(results, front);
      IdsAmongPrefix(results, types, n, m');
      if m == |types| {
        IdsAmongSnoc(results, types, m);
      }
    }
  }

  /** Once the scan has failed, scanning further types changes nothing. */
  lemma {:induction false} ScanOfStops(results: TestResults, types: seq<string>, n: nat)
    requires n <= |types| && ScanOf(results, types[..n]).error.Some?
    ensures ScanOf(results, types) == ScanOf(results, types[..n])
  {
    if n < |types| {
      assert types[..|types| - 1][..n] == types[..n];
      ScanOfStops(results, types[..|types| - 1], n);
    } else {
      assert types[..n] == types;
    }
  }

  /** The scan reads the tree only through the lookups of the scanned
      types. */
  lemma {:induction false} ScanOfLookups(results: TestResults, other: TestResults, types: seq<string>)
    requires forall t :: t in types ==> Lookup(results, t) == Lookup(other, t)
    ensures ScanOf(results, types) == ScanOf(other, types)
  {
    if types != [] {
      var front := types[..|types| - 1];
      assert forall t :: t in front ==> t in types;
      ScanOfLookups(results, other, front);
      assert types[|types| - 1] in types;
    }
  }

  /** The rollup reads only the scanned types: whatever the tree holds under
      `continuous` has no effect on it. */
  lemma ScanIgnoresContinuous(results: TestResults, ids: ObjectTests)
    ensures ScanOf(Put(results, "continuous", ids), ScannedTypes) == ScanOf(results, ScannedTypes)
  {
    PutSpec(results, "continuous", ids);
    ScanOfLookups(Put(results, "continuous", ids), results, ScannedTypes);
  }

  /** One more type whose object ids the tree has extends the scan of the
      types before it. */
  lemma ScanOfStep(results: TestResults, types: seq<string>, i: nat)
    requires i < |types| && ScanOf(results, types[..i]).error == None
    requires Lookup(results, types[i]).Some?
    ensures ScanOf(results, types[..i + 1]) ==
              ScanState(None, ScanOf(results, types[..i]).sawIds || |Lookup(results, types[i]).value| > 0)
  {
    assert types[..i + 1][..i] == types[..i];
  }

  /** A type the tree lacks, after types it has, ends the scan with its
      KeyError. */
  lemma ScanOfStop(results: TestResults, types: seq<string>, i: nat)
    requires i < |types| && ScanOf(results, types[..i]).error == None
    requires Lookup(results, types[i]).None?
    ensures ScanOf(results, types) ==
              ScanState(Some(types[i]), ScanOf(results, types[..i]).sawIds)
  {
    assert types[..i + 1][..i] == types[..i];
    ScanOfStops(results, types, i + 1);
  }

  /** The loop over the characters of `'project_get'` for one object id: it
      assigns each character's summary entry, as `SummaryPass` does. The
      parents check inside it has no effect. */
  method SummarizeIds(summary: HighLevelSummary, serverTests: seq<TestRecord>)
      returns (r: HighLevelSummary)
    ensures r == SummaryPass(summary, AvailableTests)
  {
    r := summary;
    for k := 0 to |AvailableTests|
      invariant r == SummaryPass(summary, AvailableTests[..k])
    {
      var highLevelName := [AvailableTests[k]];
      // we are successful unless proven otherwise
      var result := 1;
      for t := 0 to |serverTests| {
        if highLevelName in serverTests[t].parents {
          // the source's branch body is a bare string literal: no effect
        }
      }
      assert AvailableTests[..k + 1][..k] == AvailableTests[..k];
      r := Put(r, highLevelName, SummaryEntry(result, highLevelName));
    }
    assert AvailableTests[..|AvailableTests|] == AvailableTests;
  }

  /** `scan_for_errors`: writes the full summary into the results dictionary
      once it has visited an object id of the scanned types before the first
      type it lacks (where it raises KeyError), and otherwise leaves the
      dictionary's summary as it was; the rest of the dictionary is not
      touched. */
  method ScanForErrors(json: ResultsJson) returns (error: Option<string>)
    modifies json`highLevelSummary
    ensures error == ScanOf(json.testResults, ScannedTypes).error
    ensures json.highLevelSummary ==
              if ScanOf(json.testResults, ScannedTypes).sawIds then Some(FullSummary())
              else old(json.highLevelSummary)
    ensures json.serverName == old(json.serverName) && json.baseUrl == old(json.baseUrl)
    ensures json.testResults == old(json.testResults)
  {
    var highLevelSummary: HighLevelSummary := [];
    FullSummaryStable();
    for i := 0 to |ScannedTypes|
      invariant ScanOf(json.testResults, ScannedTypes[..i]).error == None
      invariant highLevelSummary ==
                  if ScanOf(json.testResults, ScannedTypes[..i]).sawIds then FullSummary() else []
      invariant json.highLevelSummary ==
                  if ScanOf(json.testResults, ScannedTypes[..i]).sawIds then Some(FullSummary())
                  else old(json.highLevelSummary)
    {
      var objType := ScannedTypes[i];
      ghost var seen := ScanOf(json.testResults, ScannedTypes[..i]).sawIds;
      var found := Lookup(json.testResults, objType);
      if found.None? {
        ScanOfStop(json.testResults, ScannedTypes, i);
        return Some(objType);
      }
      var ids := found.value;
      ScanOfStep(json.testResults, ScannedTypes, i);
      for j := 0 to |ids|
        invariant highLevelSummary == if seen || j > 0 then FullSummary() else []
        invariant json.highLevelSummary ==
                    if seen || j > 0 then Some(FullSummary()) else old(json.highLevelSummary)
      {
        highLevelSummary := SummarizeIds(highLevelSummary, ids[j].1);
        json.highLevelSummary := Some(highLevelSummary);
      }
    }
    assert ScannedTypes[..|ScannedTypes|] == ScannedTypes;
    return None;
  }
}
