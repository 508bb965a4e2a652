/** The two shared application contexts the views write through: the baggage
    data context (the record store) and the settings context (audit log, staff
    roster, integration config). Their implementation is not part of this
    model; they are modelled as a record store updated by the same keyed
    shallow merge as the gateway cache, an append-only audit log and an
    append-only roster. The ghost `calls` trace records, in order, every write
    made through them, so that the order of a handler's writes can be stated. */
module Contexts {
  import opened Records
  import opened WorldTracer

  /** Where the record store gets its data: an uploaded spreadsheet, or the
      gateway. */
  datatype DataSource = Excel | Live

  datatype Role = Staff | Manager | Admin

  datatype UserStatus = Active | Inactive

  datatype User = User(
    id: string,
    name: string,
    employeeId: string,
    role: Role,
    status: UserStatus,
    jobTitle: string)

  /** One write made through a context. */
  datatype Call =
    | StoreUpdate(pir: string, updates: Patch)
    | AuditAppend(entry: AuditEntry)
    | UserAdd(user: User)
    | ConfigUpdate(config: Config)

  class Contexts {
    /** `baggageData` of the data context. */
    var records: seq<Record>
    var dataSource: DataSource
    /** `auditLogs` of the settings context. */
    var auditLogs: seq<AuditEntry>
    var users: seq<User>
    var wtConfig: Config
    ghost var calls: seq<Call>

    constructor (records: seq<Record>, dataSource: DataSource, config: Config)
      ensures this.records == records && this.dataSource == dataSource
      ensures auditLogs == [] && users == [] && wtConfig == config && calls == []
    {
      this.records := records;
      this.dataSource := dataSource;
      auditLogs := [];
      users := [];
      wtConfig := config;
      calls := [];
    }

    /** `updateBaggageRecord(pir, updates)`. */
    method UpdateBaggageRecord(pir: string, updates: Patch)
      modifies this
      ensures records == UpdateFirst(old(records), pir, updates)
      ensures calls == old(calls) + [StoreUpdate(pir, updates)]
      ensures auditLogs == old(auditLogs) && users == old(users) && wtConfig == old(wtConfig)
      ensures dataSource == old(dataSource)
    {
      records := UpdateFirst(records, pir, updates);
      calls := calls + [StoreUpdate(pir, updates)];
    }

    /** `addAuditLog(entry)`: entries are only ever appended. */
    method AddAuditLog(entry: AuditEntry)
      modifies this
      ensures auditLogs == old(auditLogs) + [entry]
      ensures calls == old(calls) + [AuditAppend(entry)]
      ensures records == old(records) && users == old(users) && wtConfig == old(wtConfig)
      ensures dataSource == old(dataSource)
    {
      auditLogs := auditLogs + [entry];
      calls := calls + [AuditAppend(entry)];
    }

    /** `addUser(user)`. */
    method AddUser(user: User)
      modifies this
      ensures users == old(users) + [user]
      ensures calls == old(calls) + [UserAdd(user)]
      ensures records == old(records) && auditLogs == old(auditLogs) && wtConfig == old(wtConfig)
      ensures dataSource == old(dataSource)
    {
      users := users + [user];
      calls := calls + [UserAdd(user)];
    }

    /** `updateWtConfig`, given the config that results. */
    method UpdateWtConfig(config: Config)
      modifies this
      ensures wtConfig == config
      ensures calls == old(calls) + [ConfigUpdate(config)]
      ensures records == old(records) && auditLogs == old(auditLogs) && users == old(users)
      ensures dataSource == old(dataSource)
    {
      wtConfig := config;
      calls := calls + [ConfigUpdate(config)];
    }
  }
}
