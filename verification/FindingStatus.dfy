/** The stored statuses of a finding, shared by the status history and the report. */
module FindingStatus {
  datatype Status = New | Reviewing | InProgress | Remediated | AcceptedRisk | FalsePositive
}
