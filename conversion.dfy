/** The conversion of the raw result tree into a GA4GH testbed report
    (`convert_report_format`). The functions state what the report is; the
    methods build it step by step, as the source does, and are proved to
    produce exactly that report. */
module Conversion {
  import opened Dicts
  import opened RawResults
  import opened Testbed

  /** A value, or the missing dictionary key on which Python raises KeyError. */
  datatype Result<T> = Ok(value: T) | KeyError(key: string)

  const TestbedName: string := "rnaget-compliance-suite"

  /** The object types, in the order of the report's phases. */
  const PhaseTypes: seq<string> := ["projects", "studies", "expressions", "continuous"]

  /** The terminal status a case status code sets; None for any other code,
      which calls no status setter. */
  function StatusOf(code: int): (s: Option<Status>)
    ensures s.Some? <==> code in {-1, 0, 1, 2}
  {
    if code == 1 then Some(Pass)
    else if code == 0 then Some(Skip)
    else if code == -1 then Some(Fail)
    else if code == 2 then Some(Unknown)
    else None
  }

  /** The status code that stands for each terminal status. */
  function StatusCode(s: Status): (code: int)
    ensures code in {-1, 0, 1, 2}
  {
    match s
    case Pass => 1
    case Skip => 0
    case Fail => -1
    case Unknown => 2
  }

  /** The status mapping is a bijection between the four codes and the four
      statuses. */
  lemma StatusRoundTrip(code: int, s: Status)
    ensures StatusOf(StatusCode(s)) == Some(s)
    ensures StatusOf(code) == Some(s) ==> StatusCode(s) == code
  {
  }

  /** The report case made from one case record. */
  function CaseOf(c: CaseRecord): Case
  {
    Case(c.name, c.description, c.summary, c.audit, StatusOf(c.status))
  }

  /** The report cases made from a list of case records. */
  function CasesOf(cs: seq<CaseRecord>): (r: seq<Case>)
    ensures |r| == |cs|
    ensures forall i :: 0 <= i < |cs| ==> r[i] == CaseOf(cs[i])
  {
    if cs == [] then [] else CasesOf(cs[..|cs| - 1]) + [CaseOf(cs[|cs| - 1])]
  }

  /** The report test made from one test record: cases are added unless the
      record's result is 0. */
  function TestOf(t: TestRecord): Test
  {
    Test(t.name, t.description, t.text, if t.result != 0 then CasesOf(t.cases) else [])
  }

  /** One pass over an object's test records: one test per record. */
  function RecordTests(rs: seq<TestRecord>): (r: seq<Test>)
    ensures |r| == |rs|
    ensures forall i :: 0 <= i < |rs| ==> r[i] == TestOf(rs[i])
  {
    if rs == [] then [] else RecordTests(rs[..|rs| - 1]) + [TestOf(rs[|rs| - 1])]
  }

  /** `n` passes of the same tests, one after the other. */
  function Repeat(s: seq<Test>, n: nat): seq<Test>
  {
    if n == 0 then [] else Repeat(s, n - 1) + s
  }

  /** `n` passes hold `n` times as many tests as one. */
  lemma {:induction false} RepeatLength(s: seq<Test>, n: nat)
    ensures |Repeat(s, n)| == n * |s|
  {
    if n > 0 {
      RepeatLength(s, n - 1);
      assert (n - 1) * |s| + |s| == n * |s|;
    }
  }

  /** The number of test records of all objects of one type. */
  function RecordCount(ids: ObjectTests): nat
  {
    if ids == [] then 0 else RecordCount(ids[..|ids| - 1]) + |ids[|ids| - 1].1|
  }

  /** The tests of one object id: one pass over its records per character
      of `AvailableTests`. */
  function ObjectTestsOf(rs: seq<TestRecord>): (r: seq<Test>)
    ensures |r| == 11 * |rs|
  {
    RepeatLength(RecordTests(rs), |AvailableTests|);
    Repeat(RecordTests(rs), |AvailableTests|)
  }

  /** The tests of one phase: the tests of each object id, in key order. */
  function PhaseTests(ids: ObjectTests): (r: seq<Test>)
    ensures |r| == 11 * RecordCount(ids)
  {
    if ids == [] then [] else PhaseTests(ids[..|ids| - 1]) + ObjectTestsOf(ids[|ids| - 1].1)
  }

  /** The phases for the given object types, or KeyError on the first type
      the tree lacks. */
  function PhasesOf(results: TestResults, types: seq<string>): Result<seq<Phase>>
  {
    if types == [] then Ok([])
    else
      var objType := types[|types| - 1];
      match PhasesOf(results, types[..|types| - 1])
      case KeyError(k) => KeyError(k)
      case Ok(ps) =>
        match Lookup(results, objType)
        case None => KeyError(objType)
        case Some(ids) => Ok(ps + [Phase(objType, PhaseTests(ids))])
  }

  /** The finalized report `convert_report_format` returns, timestamps aside. */
  function Convert(serverName: string, baseUrl: string, results: TestResults): Result<ReportValue>
  {
    match PhasesOf(results, PhaseTypes)
    case KeyError(k) => KeyError(k)
    case Ok(ps) => Ok(ReportValue(TestbedName, serverName, [("base_url", baseUrl)], ps, true))
  }

  /** Pass `p` of `Repeat(s, n)` holds `s` in order. */
  lemma {:induction false} RepeatAt(s: seq<Test>, n: nat, p: nat, r: nat)
    requires p < n && r < |s|
    ensures p * |s| + r < |Repeat(s, n)|
    ensures Repeat(s, n)[p * |s| + r] == s[r]
  {
    RepeatLength(s, n);
    RepeatLength(s, n - 1);
    assert (n - 1) * |s| + |s| == n * |s|;
    if p < n - 1 {
      RepeatAt(s, n - 1, p, r);
      assert p * |s| + r < (n - 1) * |s|;
    } else {
      assert p * |s| + r == |Repeat(s, n - 1)| + r;
    }
  }

  /** Record `r` on pass `p` comes before the end of `n` passes. */
  lemma PassBound(p: nat, n: nat, len: nat, r: nat)
    requires p < n && r < len
    ensures p * len + r < n * len
  {
    assert p * len <= (n - 1) * len;
    assert (n - 1) * len + len == n * len;
  }

  /** The eleven passes over the `j`-th object id's records start right
      after those of the ids before it. */
  lemma {:induction false} PhaseTestsAt(ids: ObjectTests, j: nat, q: nat)
    requires j < |ids| && q < |ObjectTestsOf(ids[j].1)|
    ensures 11 * RecordCount(ids[..j]) + q < |PhaseTests(ids)|
    ensures PhaseTests(ids)[11 * RecordCount(ids[..j]) + q] == ObjectTestsOf(ids[j].1)[q]
  {
    var n := |ids|;
    var front := ids[..n - 1];
    assert PhaseTests(ids) == PhaseTests(front) + ObjectTestsOf(ids[n - 1].1);
    if j == n - 1 {
      assert ids[..j] == front;
    } else {
      assert front[..j] == ids[..j] && front[j] == ids[j];
      PhaseTestsAt(front, j, q);
    }
  }

  /** Where a test sits within its phase: the `r`-th record of the `j`-th
      object id, on pass `p`, is the test at index
      `11 * (records of the earlier ids) + p * (records of this id) + r`. */
  lemma PhaseTestAt(ids: ObjectTests, j: nat, p: nat, r: nat)
    requires j < |ids| && p < 11 && r < |ids[j].1|
    ensures 11 * RecordCount(ids[..j]) + p * |ids[j].1| + r < |PhaseTests(ids)|
    ensures PhaseTests(ids)[11 * RecordCount(ids[..j]) + p * |ids[j].1| + r]
            == TestOf(ids[j].1[r])
  {
    PassBound(p, 11, |ids[j].1|, r);
    RepeatAt(RecordTests(ids[j].1), 11, p, r);
    PhaseTestsAt(ids, j, p * |ids[j].1| + r);
  }

  /** When the tree lacks one of the types, the KeyError names the first
      type it lacks. */
  lemma {:induction false} PhasesOfMissing(results: TestResults, types: seq<string>)
    requires FirstMissing(results, types) < |types|
    ensures PhasesOf(results, types) == KeyError(types[FirstMissing(results, types)])
  {
    var n := |types| - 1;
    var front := types[..n];
    FirstMissingSnoc(results, types);
    var m := FirstMissing(results, front);
    if m < n {
      PhasesOfMissing(results, front);
      assert front[m] == types[m];
    } else {
      PhasesOfPresent(results, front);
    }
  }

  /** When the tree has every one of the types, there is one phase per type,
      in the given order, named after its type. */
  lemma {:induction false} PhasesOfPresent(results: TestResults, types: seq<string>)
    requires FirstMissing(results, types) == |types|
    ensures PhasesOf(results, types).Ok?
    ensures |PhasesOf(results, types).value| == |types|
    ensures forall i :: 0 <= i < |types| ==>
              PhasesOf(results, types).value[i] ==
                Phase(types[i], PhaseTests(Lookup(results, types[i]).value))
  {
    if types != [] {
      var n := |types| - 1;
      var front := types[..n];
      var last := types[n];
      FirstMissingSnoc(results, types);
      assert FirstMissing(results, front) == n && last in Keys(results);
      PhasesOfPresent(results, front);
      var ps := PhasesOf(results, front).value;
      var ids := Lookup(results, last).value;
      var all := ps + [Phase(last, PhaseTests(ids))];
      assert PhasesOf(results, types) == Ok(all);
      forall i | 0 <= i < |types|
        ensures all[i] == Phase(types[i], PhaseTests(Lookup(results, types[i]).value))
      {
        if i < n {
          assert all[i] == ps[i] && front[i] == types[i];
        }
      }
    }
  }

  /** The phases exist exactly when the tree has every one of the types; then
      there is one phase per type, in the given order, named after its type;
      otherwise the KeyError names the first type the tree lacks. */
  lemma {:induction false} PhasesOfSpec(results: TestResults, types: seq<string>)
    ensures var m := FirstMissing(results, types);
      if m < |types| then PhasesOf(results, types) == KeyError(types[m])
      else
        PhasesOf(results, types).Ok? &&
        |PhasesOf(results, types).value| == |types| &&
        forall i :: 0 <= i < |types| ==>
          PhasesOf(results, types).value[i] ==
            Phase(types[i], PhaseTests(Lookup(results, types[i]).value))
  {
    if FirstMissing(results, types) < |types| {
      PhasesOfMissing(results, types);
    } else {
      PhasesOfPresent(results, types);
    }
  }

  /** The converted report: its metadata, and its four phases `projects`,
      `studies`, `expressions`, `continuous` in that order, each holding the
      tests of its object type; or the KeyError of the first of those types
      the tree lacks. */
  lemma ConvertSpec(serverName: string, baseUrl: string, results: TestResults)
    ensures Convert(serverName, baseUrl, results).Ok? <==>
              forall t :: t in PhaseTypes ==> t in Keys(results)
    ensures Convert(serverName, baseUrl, results).KeyError? ==>
              Convert(serverName, baseUrl, results).key == PhaseTypes[FirstMissing(results, PhaseTypes)]
    ensures Convert(serverName, baseUrl, results).Ok? ==>
              var report := Convert(serverName, baseUrl, results).value;
              report.testbedName == "rnaget-compliance-suite" &&
              report.platformName == serverName &&
              report.inputParameters == [("base_url", baseUrl)] &&
              report.finalized &&
              |report.phases| == 4 &&
              report.phases[0].name == "projects" &&
              report.phases[1].name == "studies" &&
              report.phases[2].name == "expressions" &&
              report.phases[3].name == "continuous" &&
              forall i :: 0 <= i < 4 ==>
                report.phases[i].tests == PhaseTests(Lookup(results, PhaseTypes[i]).value)
  {
    PhasesOfSpec(results, PhaseTypes);
    var m := FirstMissing(results, PhaseTypes);
    if m < |PhaseTypes| {
      assert PhaseTypes[m] in PhaseTypes;
    } else {
      forall t | t in PhaseTypes ensures t in Keys(results) {
        var i :| 0 <= i < |PhaseTypes| && PhaseTypes[i] == t;
      }
    }
  }

  /** Builds one case: setters for name, description and message, one
      `add_log_message` per audit string, then at most one status setter. */
  method BuildCase(c: CaseRecord) returns (k: Case)
    ensures k == CaseOf(c)
    ensures k.name == c.name && k.description == c.description && k.message == c.summary
    ensures k.logs == c.audit
    ensures c.status in {-1, 0, 1, 2} ==> k.status.Some? && StatusCode(k.status.value) == c.status
    ensures c.status !in {-1, 0, 1, 2} ==> k.status == NewCase().status
  {
    k := NewCase();
    k := k.(name := c.name);
    k := k.(description := c.description);
    k := k.(message := c.summary);
    for i := 0 to |c.audit|
      invariant k == Case(c.name, c.description, c.summary, c.audit[..i], None)
    {
      k := k.(logs := k.logs + [c.audit[i]]);
    }
    assert c.audit[..|c.audit|] == c.audit;
    if c.status == 1 {
      k := k.(status := Some(Pass));
    } else if c.status == 0 {
      k := k.(status := Some(Skip));
    } else if c.status == -1 {
      k := k.(status := Some(Fail));
    } else if c.status == 2 {
      k := k.(status := Some(Unknown));
    }
  }

  /** Builds one test from one record: name, description and message are
      copied, and the record's cases are added in order unless its result
      is 0. */
  method BuildTest(t: TestRecord) returns (x: Test)
    ensures x == TestOf(t)
    ensures x.name == t.name && x.description == t.description && x.message == t.text
    ensures t.result == 0 ==> x.cases == []
    ensures t.result != 0 ==>
              (|x.cases| == |t.cases| &&
               forall i :: 0 <= i < |t.cases| ==> x.cases[i] == CaseOf(t.cases[i]))
  {
    x := NewTest();
    x := x.(name := t.name);
    x := x.(description := t.description);
    x := x.(message := t.text);
    if t.result != 0 {
      for i := 0 to |t.cases|
        invariant x == Test(t.name, t.description, t.text, CasesOf(t.cases[..i]))
      {
        var k := BuildCase(t.cases[i]);
        assert t.cases[..i + 1][..i] == t.cases[..i];
        x := x.(cases := x.cases + [k]);
      }
      assert t.cases[..|t.cases|] == t.cases;
    }
  }

  /** One pass over an object's test records, adding one test per record. */
  method BuildPass(serverTests: seq<TestRecord>) returns (tests: seq<Test>)
    ensures tests == RecordTests(serverTests)
    ensures |tests| == |serverTests|
    ensures forall r :: 0 <= r < |serverTests| ==> tests[r] == TestOf(serverTests[r])
  {
    tests := [];
    for r := 0 to |serverTests|
      invariant tests == RecordTests(serverTests[..r])
    {
      var test := BuildTest(serverTests[r]);
      assert serverTests[..r + 1][..r] == serverTests[..r];
      tests := tests + [test];
    }
    assert serverTests[..|serverTests|] == serverTests;
  }

  /** The tests of one object id: one pass over its records per character
      of `AvailableTests`; the character itself is not used. */
  method BuildObjectTests(serverTests: seq<TestRecord>) returns (tests: seq<Test>)
    ensures tests == ObjectTestsOf(serverTests)
  {
    tests := [];
    for p := 0 to |AvailableTests|
      invariant tests == Repeat(RecordTests(serverTests), p)
    {
      var pass := BuildPass(serverTests);
      tests := tests + pass;
    }
  }

  /** Builds the phase of one object type: for each object id in key order,
      eleven passes over its test records, one test per record per pass. */
  method BuildPhase(objType: string, ids: ObjectTests) returns (phase: Phase)
    ensures phase == Phase(objType, PhaseTests(ids))
    ensures |phase.tests| == 11 * RecordCount(ids)
  {
    phase := NewPhase();
    phase := phase.(name := objType);
    var tests: seq<Test> := [];
    for j := 0 to |ids|
      invariant tests == PhaseTests(ids[..j])
    {
      var objectTests := BuildObjectTests(ids[j].1);
      tests := tests + objectTests;
      assert ids[..j + 1][..j] == ids[..j];
    }
    assert ids[..|ids|] == ids;
    phase := phase.(tests := tests);
  }

  /** One more type whose object ids the tree has adds its phase to the
      phases of the types before it. */
  lemma PhasesOfStep(results: TestResults, types: seq<string>, i: nat, ps: seq<Phase>)
    requires i < |types| && PhasesOf(results, types[..i]) == Ok(ps)
    requires Lookup(results, types[i]).Some?
    ensures PhasesOf(results, types[..i + 1]) ==
              Ok(ps + [Phase(types[i], PhaseTests(Lookup(results, types[i]).value))])
  {
    assert types[..i + 1][..i] == types[..i];
  }

  /** Once the types before some point raise KeyError, the later types are
      never looked at. */
  lemma {:induction false} PhasesOfStops(results: TestResults, types: seq<string>, n: nat)
    requires n <= |types| && PhasesOf(results, types[..n]).KeyError?
    ensures PhasesOf(results, types) == PhasesOf(results, types[..n])
    decreases |types|
  {
    if n == |types| {
      assert types[..n] == types;
    } else {
      var front := types[..|types| - 1];
      assert front[..n] == types[..n];
      PhasesOfStops(results, front, n);
    }
  }

  /** A type the tree lacks, after types it has, raises KeyError for the
      whole list. */
  lemma PhasesOfStop(results: TestResults, types: seq<string>, i: nat, ps: seq<Phase>)
    requires i < |types| && PhasesOf(results, types[..i]) == Ok(ps)
    requires Lookup(results, types[i]).None?
    ensures PhasesOf(results, types) == KeyError(types[i])
  {
    assert types[..i + 1][..i] == types[..i];
    PhasesOfStops(results, types, i + 1);
  }

  /** The loop over the object types: it appends one phase per type, in
      order, to a report still being built, and stops with the KeyError of the
      first type the tree lacks. The report's other fields are left alone. */
  method AddPhases(report: Report, results: TestResults, types: seq<string>)
      returns (missing: Option<string>)
    requires !report.finalized
    modifies report`phases
    ensures PhasesOf(results, types).Ok? ==>
              missing == None && report.phases == old(report.phases) + PhasesOf(results, types).value
    ensures PhasesOf(results, types).KeyError? ==> missing == Some(PhasesOf(results, types).key)
  {
    ghost var start := report.phases;
    ghost var ps: seq<Phase> := [];
    for i := 0 to |types|
      invariant PhasesOf(results, types[..i]) == Ok(ps)
      invariant report.phases == start + ps
    {
      var objType := types[i];
      var found := Lookup(results, objType);
      if found.None? {
        PhasesOfStop(results, types, i, ps);
        return Some(objType);
      }
      var phase := BuildPhase(objType, found.value);
      PhasesOfStep(results, types, i, ps);
      ps := ps + [phase];
      report.AddPhase(phase);
    }
    assert types[..|types|] == types;
    return None;
  }

  /** `convert_report_format`: the report it returns is, timestamps aside,
      exactly `Convert` of the tree's server name, base URL and test results,
      finalized as its last step; a tree without one of the four object types
      raises KeyError on the first such type. */
  method ConvertReportFormat(json: ResultsJson) returns (result: Result<Report>)
    ensures match Convert(json.serverName, json.baseUrl, json.testResults)
      case Ok(v) => result.Ok? && fresh(result.value) && result.value.Value() == v
      case KeyError(k) => result == KeyError(k)
  {
    var report := new Report();
    report.SetTestbedName(TestbedName);
    report.SetPlatformName(json.serverName);
    report.AddInputParameter("base_url", json.baseUrl);
    var missing := AddPhases(report, json.testResults, PhaseTypes);
    if missing.Some? {
      return KeyError(missing.value);
    }
    report.Finalize();
    return Ok(report);
  }
}
