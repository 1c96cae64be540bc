/**
 * The three-way verdict every probe prints after its loop, and that `displaySummary`
 * prints again for each result: success when nothing failed, an error when something
 * critical failed, a warning otherwise.
 */
module Severity {
  datatype Verdict = AllOk | Warnings | Critical

  /** The verdict for `failed` failures of which `critical` are critical. */
  function Classify(failed: nat, critical: nat): (v: Verdict)
    ensures v == AllOk <==> failed == 0
    ensures v == Critical <==> failed > 0 && critical > 0
    ensures v == Warnings <==> failed > 0 && critical == 0
  {
    if failed == 0 then AllOk
    else if critical > 0 then Critical
    else Warnings
  }
}
