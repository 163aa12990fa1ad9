/**
 * The records the escalation component exchanges (Escalation/services/types.ts and the
 * OptionType interface of the dropdown). Dynamics field names are given next to each field.
 * A raw string field that the source tests for truthiness uses "" for "absent".
 */
module Types {
  import opened Wrappers

  /** One entry of the picker's `selected` or `availableOptions` state (OptionType). */
  datatype OptionType = OptionType(
    id: string,                      // nfcu_causeofescalationid
    name: string,                    // label (nfcu_name); `label` is a Dafny keyword
    bridgeRecordId: Option<string>,  // nfcu_casecauseofescalationid, when attached
    owner: Option<string>)           // display name of the owner

  /** A cause of escalation with its owner's name and its bridge row id (Tag). */
  datatype Tag = Tag(id: string, name: string, owner: string, bridgeRecordId: string)

  /** A row of the nfcu_casecauseofescalation bridge table as the service returns it (BridgeRecord). */
  datatype BridgeRecord = BridgeRecord(
    caseCauseOfEscalationId: string,  // nfcu_casecauseofescalationid
    causeOfEscalationValue: string,   // _nfcu_causeofescalation_value
    ownerId: string)                  // ownerid

  /** The same row as the Web API delivers it (BridgeRecordEntity). */
  datatype BridgeRecordEntity = BridgeRecordEntity(
    caseCauseOfEscalationId: string,
    causeOfEscalationValue: string,
    ownerId: string)

  /** A systemuser record, as far as the component reads it. */
  datatype SystemUser = SystemUser(fullname: string)

  /** A nfcu_causeofescalation record as the Web API delivers it. */
  datatype EscalationEntity = EscalationEntity(
    causeOfEscalationId: string,  // nfcu_causeofescalationid
    name: string,                 // nfcu_name
    ownerIdValue: string)         // _ownerid_value

  /** A cause of escalation with its owner resolved (EscalationRecord). */
  datatype EscalationRecord = EscalationRecord(
    causeOfEscalationId: string,
    name: string,
    ownerIdValue: string,
    ownerSystemUser: Option<SystemUser>)  // ownerid_systemuser

  /** An item the TagPicker shows or reports (ITag). */
  datatype PickerTag = PickerTag(key: string, name: string)

  /** JavaScript truthiness of an optional string: defined and not empty. */
  predicate Truthy(s: Option<string>) {
    s.Some? && s.value != ""
  }
}
