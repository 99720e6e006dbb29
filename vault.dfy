/** The audit log of the vault (`SheilaVault.log_action`), as an append-only sink.
    The timestamp and the SQL storage are not modelled. */
module Vault {

  datatype LogEntry = LogEntry(spoke: string, action: string, details: string)

  class AuditLog {
    var entries: seq<LogEntry>

    constructor ()
      ensures entries == []
    {
      entries := [];
    }

    /** `log_action(spoke, action, details)`: one row appended, nothing else changed. */
    method LogAction(spoke: string, action: string, details: string)
      modifies this
      ensures entries == old(entries) + [LogEntry(spoke, action, details)]
    {
      entries := entries + [LogEntry(spoke, action, details)];
    }
  }
}
