/** Execution statuses and the report an execution leaves behind. */
module Reports {

  datatype Status = Queued | Running | Ok | Empty | Error
  {
    predicate Finished() {
      Ok? || Empty? || Error?
    }
  }

  datatype ReportError = ReportError(kind: string, primitive: string, position: nat,
                                     message: string, callable: string)

  /** The duration field is a clock reading and is not modelled. */
  datatype Report = Report(workflow: string, version: string, status: Status,
                           itemsIn: nat, itemsOut: nat, errors: seq<ReportError>)

  function ErrorReport(name: string, version: string, kind: string, message: string): Report {
    Report(name, version, Error, 0, 0, [ReportError(kind, "", 0, message, "")])
  }
}
