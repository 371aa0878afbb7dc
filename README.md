# RNAGet compliance suite: report shaping

A Dafny model of the report-shaping core of the RNAGet compliance suite,
`compliance_suite/cli.py`:

- `convert_report_format` turns the runner's raw result tree into a GA4GH
  testbed report. The raw tree runs object type → object ids → test records →
  case records → audit strings. The report runs Report → Phases → Tests →
  Cases → log messages.
- `scan_for_errors` writes the high-level summary into the raw tree.

Both are modelled as the code behaves, quirks included:

- `available_tests = ('project_get')` is a string, not a tuple. Every loop
  over it visits its eleven characters.
- So a phase holds each test record eleven times per object id.
- The summary is keyed by the nine distinct characters `p r o j e c t _ g`,
  each as a one-character string.
- The branch that would lower a summary result holds only a string literal.
  So every summary entry has result 1.

Modules:

- `Dicts` (`dicts.dfy`): Python dicts as insertion-ordered lists of
  (key, value) pairs. A missing key is the `None` of `Lookup`, where Python
  raises KeyError.
- `RawResults` (`raw_results.dfy`): test and case records, the raw tree, and
  the class `ResultsJson`. It is a class because `scan_for_errors` updates it
  in place.
- `Testbed` (`testbed.dfy`): the testbed report. Its phases, tests and cases
  are values. `Report` is a class whose setters are refused once `Finalize`
  has run.
- `Conversion` (`conversion.dfy`): functions stating the report
  (`CaseOf`, `TestOf`, `RecordTests`, `ObjectTestsOf`, `PhaseTests`,
  `PhasesOf`, `Convert`), lemmas about them, and methods whose loops follow
  the source's nested `for` loops. Each method is proved to build exactly
  the report those functions describe.
- `Summary` (`summary.dfy`): the summary functions (`SummaryPass`,
  `FullSummary`, `ScanOf`), lemmas about them, and the looping method
  `ScanForErrors`.

Where the code and the design description disagree, the model follows the
code:

- A test gets its cases when its record's result is not 0. The design says
  "not pass", but a passing record (1) gets its cases too.
- A case status outside {-1, 0, 1, 2} calls no status setter. The case keeps
  the report library's default, modelled as `None`. The design asks for a
  conversion error instead.
- Every summary entry has result 1. The design asks for a worst-of rollup.
- The summary has one entry per character of `'project_get'`, not one per
  capability and object type.
- A phase holds eleven copies of each record's test, not one.
- The rollup scans `projects`, `studies` and `expressions`, not
  `continuous`.

Determinism follows from `ConvertReportFormat`'s contract. The report's
value, timestamps aside, is the function `Convert` of the tree's server name,
base URL and test results. So two conversions of the same tree give equal
reports.

## Model

| member | source | states |
|---|---|---|
| `Conversion.StatusOf` | compliance_suite/cli.py:293-300 | the case status mapping sets a status exactly for codes 1, 0, -1 and 2; any other code sets none |
| `Conversion.StatusRoundTrip` | compliance_suite/cli.py:293-300 | the mapping is a bijection between those four codes and pass, skip, fail, unknown: 1 → pass, 0 → skip, -1 → fail, 2 → unknown |
| `Conversion.BuildCase` | compliance_suite/cli.py:280-302 | a case is built with the record's name and description and its `summary` as message; each audit string becomes a log message, in order; the mapped status is set, or the library default kept for any other code |
| `Conversion.CasesOf` | compliance_suite/cli.py:278 | one report case per case record, in the records' order |
| `Conversion.BuildTest` | compliance_suite/cli.py:271-290 | a test copies the record's name, description and `text` as message; a result of 0 gives no cases; any other result gives one case per case record, in order |
| `Conversion.RecordTests` | compliance_suite/cli.py:269-275 | one pass over an object's records yields one test per record, in list order |
| `Conversion.BuildPass` | compliance_suite/cli.py:269-304 | the loop over one object's records appends exactly that pass's tests |
| `Conversion.ObjectTestsOf` | compliance_suite/cli.py:267-275 | one object id yields 11 tests per record: one pass per character of `'project_get'` |
| `Conversion.BuildObjectTests` | compliance_suite/cli.py:265-304 | the loop over the characters of `'project_get'` builds the eleven passes over one object's records |
| `Conversion.RepeatLength` | compliance_suite/cli.py:267 | `n` passes hold `n` times as many tests as one |
| `Conversion.RepeatAt` | compliance_suite/cli.py:267-269 | pass `p` holds the record list's tests in order |
| `Conversion.PhaseTests` | compliance_suite/cli.py:263-275 | a phase's test count is 11 times the sum of its object ids' record-list lengths |
| `Conversion.PhaseTestsAt` | compliance_suite/cli.py:263-267 | the tests of each object id follow those of the ids before it, in the dict's key order |
| `Conversion.PhaseTestAt` | compliance_suite/cli.py:263-275 | record `r` of object id `j` on pass `p` is at index 11 × (records of earlier ids) + p × (records of id `j`) + r, i.e. ordered by object id, then by pass, then by record |
| `Conversion.BuildPhase` | compliance_suite/cli.py:256-306 | a phase is named after its object type and holds exactly `PhaseTests` of that type's ids |
| `Conversion.PhasesOfMissing` | compliance_suite/cli.py:256-265 | when the tree lacks one of the types, the KeyError names the first type it lacks |
| `Conversion.PhasesOfPresent` | compliance_suite/cli.py:256-265 | when the tree has every type, there is one phase per type, in order, named after it and holding that type's tests |
| `Conversion.PhasesOfStops` | compliance_suite/cli.py:256-263 | once a type raises KeyError, no later type is looked at |
| `Conversion.PhasesOfSpec` | compliance_suite/cli.py:256-265 | the phases exist exactly when the tree has every listed type; then there is one phase per type, in order, named after it; otherwise the KeyError names the first missing type |
| `Conversion.ConvertSpec` | compliance_suite/cli.py:246-310 | the report's testbed name is `rnaget-compliance-suite`; its platform name is the server name; its only input parameter is `base_url`, set to the tree's base URL; it is finalized; it has four phases `projects`, `studies`, `expressions`, `continuous`, in that order, each with its type's tests; this holds exactly when all four types are present, and otherwise the first missing type raises KeyError |
| `Conversion.AddPhases` | compliance_suite/cli.py:256-306 | the loop over the object types appends exactly the phases `PhasesOf` describes, after the report's existing phases; a missing type stops it with that type's KeyError |
| `Conversion.ConvertReportFormat` | compliance_suite/cli.py:243-310 | the returned report is fresh and its value, finalized, equals `Convert` of the tree; a missing object type gives the same KeyError and no report |
| `Testbed.Report.constructor` | compliance_suite/cli.py:246 | a new report is empty and not finalized |
| `Testbed.Report.SetTestbedName` | compliance_suite/cli.py:248 | sets the testbed name; refused after finalize |
| `Testbed.Report.SetPlatformName` | compliance_suite/cli.py:253 | sets the platform name; refused after finalize |
| `Testbed.Report.AddInputParameter` | compliance_suite/cli.py:254 | assigns one key of the input-parameter dict; refused after finalize |
| `Testbed.Report.AddPhase` | compliance_suite/cli.py:259 | appends a phase after the existing ones; refused after finalize |
| `Testbed.Report.Finalize` | compliance_suite/cli.py:309 | marks the report finalized, after which no setter can be called |
| `Dicts.Lookup` | compliance_suite/cli.py:263 | indexing a dict fails (KeyError) exactly when the key is absent |
| `Dicts.PutSpec` | compliance_suite/cli.py:63-66 | assigning a dict key keeps the key order, appends a new key at the end, maps the key to the new value and leaves every other key alone |
| `Dicts.PutExisting` | compliance_suite/cli.py:63-66 | reassigning a key the value it already has leaves the dict unchanged |
| `Summary.DistinctSpec` | compliance_suite/cli.py:47-53 | the distinct characters of a string hold each of its characters exactly once |
| `Summary.SummaryPassKeys` | compliance_suite/cli.py:53-66 | starting from an empty summary, the keys are the distinct characters of the names, in order of first occurrence |
| `Summary.SummaryPassAllPass` | compliance_suite/cli.py:53-66 | the character loop writes only entries with result 1 whose name equals their key |
| `Summary.SummaryPassLookup` | compliance_suite/cli.py:53-66 | after the loop, every character `c` of the names has the entry `{result: 1, name: c}` |
| `Summary.SummaryPassStable` | compliance_suite/cli.py:53-66 | rerunning the loop over names whose entries are all in place changes nothing |
| `Summary.FullSummaryKeys` | compliance_suite/cli.py:47-66 | the summary's keys are exactly the distinct characters of `'project_get'`, in order of first occurrence |
| `Summary.FullSummaryAllPass` | compliance_suite/cli.py:53-66 | every summary entry has result 1 and its key as its name, whatever the test results |
| `Summary.FullSummaryStable` | compliance_suite/cli.py:49-66 | the passes for later object ids leave the summary as the first id left it |
| `Summary.SummarizeIds` | compliance_suite/cli.py:53-66 | the loop over the characters of `'project_get'` for one object id leaves the summary as `SummaryPass` of it, whatever the server tests' parents |
| `Summary.ScanOfSpec` | compliance_suite/cli.py:49-68 | the scan raises KeyError on the first of `projects`, `studies`, `expressions` that the tree lacks; it has written the summary exactly when an earlier type has an object id |
| `Summary.ScanOfStops` | compliance_suite/cli.py:49-50 | after the KeyError no later type is looked at |
| `Summary.ScanOfLookups` | compliance_suite/cli.py:49-51 | the scan reads the tree only through the lookups of the scanned types |
| `Summary.ScanIgnoresContinuous` | compliance_suite/cli.py:49 | whatever the tree holds under `continuous` does not change the scan |
| `Summary.ScanForErrors` | compliance_suite/cli.py:33-68 | `scan_for_errors` sets `high_level_summary` to the full summary exactly when it visited an object id of the scanned types; otherwise the old value stays; on a missing type it raises KeyError, keeping any summary already written; server name, base URL and test results are unchanged |

## Left out

- `report()` and `main()` (compliance_suite/cli.py:70-216) are left out. They parse arguments, check the filesystem, copy files, build a tarball, write the report and serve it over HTTP. All of this is I/O and process control.
- `test_report` (compliance_suite/cli.py:218-239) is left out. It runs the runner over the network through code that is not part of this model. Its last step is `ConvertReportFormat`. Setting the bearer header is a side effect on that runner.
- Timestamps (`set_start_time_now`, `set_end_time_now`) read the wall clock and are not modelled. Serialisation (`to_json`) is not modelled either.
- The testbed library (`ga4gh.testbed`) is not part of this model. Its default case status is the `None` of `Case.status`. Its default texts are modelled as empty strings. Any status rollup it does in `finalize` is not modelled.
- Conversion.BuildPhase: `add_phase`, `add_test` and `add_case` return objects already attached to their parent, and the source mutates them afterwards. The model builds each phase, test and case as a value and attaches it when done. The result is the same because nothing reads the report while it is being built.
- Summary.ScanForErrors: the source assigns one dict object to `json["high_level_summary"]` and keeps mutating it, so the two alias. The model reassigns the value after each object id. No exception can happen inside the character loop, so every state that can be observed is the same.
- Test and case records are datatypes with fixed fields. A record missing `parents`, `message.api_component.cases`, `summary` or `audit` would raise KeyError in Python, and that is not modelled. `message.api_component.cases` is the flattened field `cases`. The tree's top-level `server_name`, `base_url` and `test_results` are fields too.
- The position of the `high_level_summary` key among the results dict's other keys is not modelled.
- `unittests/test_json/test_json.py` compares the normalised report with a fixture file (`expected.json`) that is not part of this model. The determinism it checks is `ConvertReportFormat`'s contract.
