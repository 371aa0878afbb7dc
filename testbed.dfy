/** The GA4GH testbed report shape that the converter fills in:
    Report -> Phases -> Tests -> Cases -> log messages. Timestamps are not
    modelled. */
module Testbed {
  import opened Dicts

  datatype Status = Pass | Skip | Fail | Unknown

  /** `status` is None while no setter has been called, leaving the report
      library's own default in place. */
  datatype Case = Case(
    name: string,
    description: string,
    message: string,
    logs: seq<string>,
    status: Option<Status>)

  datatype Test = Test(
    name: string,
    description: string,
    message: string,
    cases: seq<Case>)

  datatype Phase = Phase(name: string, tests: seq<Test>)

  /** The report's contents as a value. */
  datatype ReportValue = ReportValue(
    testbedName: string,
    platformName: string,
    inputParameters: Dict<string>,
    phases: seq<Phase>,
    finalized: bool)

  /** A case as `add_case` creates it: empty texts, no logs, no status. */
  function NewCase(): Case { Case("", "", "", [], None) }

  /** A test as `add_test` creates it. */
  function NewTest(): Test { Test("", "", "", []) }

  /** A phase as `add_phase` creates it. */
  function NewPhase(): Phase { Phase("", []) }

  /** A report that is mutated by setters until `Finalize`, after which no
      setter may be called. */
  class Report {
    var testbedName: string
    var platformName: string
    var inputParameters: Dict<string>
    var phases: seq<Phase>
    var finalized: bool

    function Value(): ReportValue
      reads this
    {
      ReportValue(testbedName, platformName, inputParameters, phases, finalized)
    }

    constructor ()
      ensures Value() == ReportValue("", "", [], [], false)
    {
      testbedName := "";
      platformName := "";
      inputParameters := [];
      phases := [];
      finalized := false;
    }

    method SetTestbedName(name: string)
      requires !finalized
      modifies this`testbedName
      ensures testbedName == name
    {
      testbedName := name;
    }

    method SetPlatformName(name: string)
      requires !finalized
      modifies this`platformName
      ensures platformName == name
    {
      platformName := name;
    }

    method AddInputParameter(key: string, value: string)
      requires !finalized
      modifies this`inputParameters
      ensures inputParameters == Put(old(inputParameters), key, value)
    {
      inputParameters := Put(inputParameters, key, value);
    }

    method AddPhase(phase: Phase)
      requires !finalized
      modifies this`phases
      ensures phases == old(phases) + [phase]
    {
      phases := phases + [phase];
    }

    method Finalize()
      requires !finalized
      modifies this`finalized
      ensures finalized
    {
      finalized := true;
    }
  }
}
