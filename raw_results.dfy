/** The raw result tree the runner produces and the summary rollup writes
    into: object type -> object id -> ordered test records -> case records ->
    audit strings. */
module RawResults {
  import opened Dicts

  /** The high-level test names. Written `('project_get')`, this is a string
      and not a tuple, so every loop over it makes one pass per character:
      eleven passes, over nine distinct one-character names. */
  const AvailableTests: string := "project_get"

  /** One fine-grained assertion of a test (`message.api_component.cases[i]`). */
  datatype CaseRecord = CaseRecord(
    name: string,
    description: string,
    summary: string,
    status: int,
    audit: seq<string>)

  /** One executed test against one object instance; `cases` is the record's
      `message.api_component.cases` list. */
  datatype TestRecord = TestRecord(
    name: string,
    description: string,
    text: string,
    result: int,
    parents: seq<string>,
    cases: seq<CaseRecord>)

  /** Object id -> the test records run against that object, in run order. */
  type ObjectTests = Dict<seq<TestRecord>>

  /** Object type -> its object ids (`json["test_results"]`). */
  type TestResults = Dict<ObjectTests>

  /** One value of `json["high_level_summary"]`. */
  datatype SummaryEntry = SummaryEntry(result: int, name: string)

  type HighLevelSummary = Dict<SummaryEntry>

  /** The results JSON dictionary, which the summary rollup updates in place. */
  class ResultsJson {
    var serverName: string
    var baseUrl: string
    var testResults: TestResults
    /** None while the dictionary has no "high_level_summary" key. */
    var highLevelSummary: Option<HighLevelSummary>

    constructor (serverName: string, baseUrl: string, testResults: TestResults)
      ensures this.serverName == serverName && this.baseUrl == baseUrl
      ensures this.testResults == testResults && highLevelSummary == None
    {
      this.serverName := serverName;
      this.baseUrl := baseUrl;
      this.testResults := testResults;
      highLevelSummary := None;
    }
  }
}
