/**
 * The advisory eligibility reports that the submission forms ask for before
 * submitting: a list of named pass/fail entries and `allPassed`, their
 * conjunction (`results.All(r => r.passed == true)`).
 */
module Checks {
  import opened Linq

  /** One entry of a report. */
  datatype Check = Check(check: string, passed: bool, message: string)

  datatype Report = Report(allPassed: bool, results: seq<Check>)

  /** The report over its entries: `allPassed` holds exactly when every entry passed. */
  function Conclude(results: seq<Check>): (r: Report)
    ensures r.results == results
    ensures r.allPassed <==> forall i | 0 <= i < |results| :: results[i].passed
  {
    Report(All(results, (c: Check) => c.passed), results)
  }
}
