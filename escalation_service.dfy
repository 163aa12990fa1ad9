/**
 * The service layer (Escalation/services/escalationService.ts). Every Xrm.WebApi call is
 * replaced by its outcome, given as a parameter: a `Fetch` says whether the awaited call
 * threw or what (possibly null) response it resolved to. Calls made per id take a map of
 * outcomes keyed by the id asked for; an id missing from the map stands for a call that threw.
 */
module EscalationService {
  import opened Wrappers
  import opened Strings
  import opened Types

  const NO_OWNER_ASSIGNED: string := "No Owner Assigned"

  /** The outcome of one awaited Web API call. */
  datatype Fetch<T> = Threw | Resolved(response: Option<T>) {
    /** The call resolved to a response that is not null. */
    predicate Found() {
      Resolved? && response.Some?
    }
  }

  function Lookup<T>(outcomes: map<string, Fetch<T>>, key: string): Fetch<T> {
    if key in outcomes then outcomes[key] else Threw
  }

  /** `getCurrentUserId`: the session's user id (userSettings.userId) without braces. */
  function GetCurrentUserId(userSettingsUserId: string): (userId: string)
    ensures userId == StripBraces(userSettingsUserId)
    ensures BraceFree(userId)
    ensures |userId| <= |userSettingsUserId|
    ensures BraceFree(userSettingsUserId) ==> userId == userSettingsUserId
  {
    StripBraces(userSettingsUserId)
  }

  /** The platform's `{GUID}` form of the user id yields the bare GUID. */
  lemma GetCurrentUserIdUnwrapsGuid(guid: string)
    requires BraceFree(guid)
    ensures GetCurrentUserId("{" + guid + "}") == guid
  {
    StripBracesUnwrapsGuid(guid);
  }

  /** An `@odata.bind` reference `/<entitySet>(<id>)`. */
  datatype ODataBind = ODataBind(entitySet: string, id: string)

  function BindPath(b: ODataBind): string {
    "/" + b.entitySet + "(" + b.id + ")"
  }

  /** The record `addEscalationToBridgeTable` asks the Web API to create. */
  datatype NewBridgeRecord = NewBridgeRecord(
    causeOfEscalation: ODataBind,  // nfcu_CauseofEscalation@odata.bind
    concernComplaint: ODataBind,   // nfcu_concerncomplaint@odata.bind
    name: string,                  // nfcu_name
    owner: ODataBind)              // ownerid@odata.bind

  /** The `newRecord` literal of `addEscalationToBridgeTable`. */
  function BuildBridgeRecord(concernComplaintId: string, escalationId: string, escalationName: string, ownerId: string): (r: NewBridgeRecord)
    ensures r.causeOfEscalation == ODataBind("nfcu_causeofescalations", escalationId)
    ensures r.concernComplaint.entitySet == "nfcu_concerncomplaints"
    ensures r.concernComplaint.id == StripBraces(concernComplaintId)
    ensures BraceFree(r.concernComplaint.id)
    ensures BraceFree(concernComplaintId) ==> r.concernComplaint.id == concernComplaintId
    ensures r.name == escalationName
    ensures r.owner == ODataBind("systemusers", ownerId)
  {
    NewBridgeRecord(
      ODataBind("nfcu_causeofescalations", escalationId),
      ODataBind("nfcu_concerncomplaints", StripBraces(concernComplaintId)),
      escalationName,
      ODataBind("systemusers", ownerId))
  }

  /** A case id in `{GUID}` form is bound as `/nfcu_concerncomplaints(GUID)`. */
  lemma BridgeRecordBindsBareCaseId(guid: string, escalationId: string, escalationName: string, ownerId: string)
    requires BraceFree(guid)
    ensures BindPath(BuildBridgeRecord("{" + guid + "}", escalationId, escalationName, ownerId).concernComplaint)
            == "/nfcu_concerncomplaints(" + guid + ")"
  {
    StripBracesUnwrapsGuid(guid);
  }

  /**
   * `addEscalationToBridgeTable`: sends the record built from its arguments; `created` maps
   * each record the store accepts to the id it assigns (a record missing from it makes
   * createRecord throw). Returns the new row id, or null (None) on failure.
   */
  function AddEscalationToBridgeTable(
    concernComplaintId: string, escalationId: string, escalationName: string, ownerId: string,
    created: map<NewBridgeRecord, string>): (rowId: Option<string>)
    ensures var sent := BuildBridgeRecord(concernComplaintId, escalationId, escalationName, ownerId);
      && (rowId.Some? <==> sent in created)
      && (rowId.Some? ==> rowId.value == created[sent])
  {
    var newRecord := BuildBridgeRecord(concernComplaintId, escalationId, escalationName, ownerId);
    if newRecord in created then Some(created[newRecord]) else None
  }

  /**
   * `removeEscalationFromBridgeTable`: `deletable` holds the row ids whose deleteRecord
   * call resolves; the result is true exactly when the call did not throw.
   */
  function RemoveEscalationFromBridgeTable(bridgeRecordId: string, deletable: set<string>): (ok: bool)
    ensures ok <==> bridgeRecordId in deletable
  {
    bridgeRecordId in deletable
  }

  function ToBridgeRecord(e: BridgeRecordEntity): BridgeRecord {
    BridgeRecord(e.caseCauseOfEscalationId, e.causeOfEscalationValue, e.ownerId)
  }

  /**
   * `fetchBridgeTable`: the bridge rows of one case, field for field and in the order
   * delivered; no rows when the call throws or the response has no entities.
   */
  function FetchBridgeTable(response: Fetch<seq<BridgeRecordEntity>>): (records: seq<BridgeRecord>)
    ensures !response.Found() ==> records == []
    ensures response.Found() ==> |records| == |response.response.value|
    ensures response.Found() ==> forall i :: 0 <= i < |records| ==>
      && records[i].caseCauseOfEscalationId == response.response.value[i].caseCauseOfEscalationId
      && records[i].causeOfEscalationValue == response.response.value[i].causeOfEscalationValue
      && records[i].ownerId == response.response.value[i].ownerId
  {
    if !response.Found() || |response.response.value| == 0 then []
    else
      var entities := response.response.value;
      seq(|entities|, i requires 0 <= i < |entities| => ToBridgeRecord(entities[i]))
  }

  /** The owner lookup of `fetchEscalationDetails` is made, and it throws. */
  predicate OwnerLookupThrows(e: EscalationEntity, owners: map<string, Fetch<SystemUser>>) {
    e.ownerIdValue != "" && Lookup(owners, e.ownerIdValue).Threw?
  }

  /**
   * `fetchEscalationDetails`: looks the cause of escalation up, then (when it names an owner)
   * the owning user. `escalations` and `owners` hold the outcomes of these lookups.
   */
  function FetchEscalationDetails(
    escalationId: string,
    escalations: map<string, Fetch<EscalationEntity>>,
    owners: map<string, Fetch<SystemUser>>): (r: Option<EscalationRecord>)
    ensures var f := Lookup(escalations, escalationId);
      r.Some? <==> f.Found() && f.response.value.name != "" && !OwnerLookupThrows(f.response.value, owners)
    ensures r.Some? ==>
      var e := Lookup(escalations, escalationId).response.value;
      && r.value.causeOfEscalationId == e.causeOfEscalationId
      && r.value.name == e.name
      && r.value.ownerIdValue == e.ownerIdValue
    ensures r.Some? ==>
      var e := Lookup(escalations, escalationId).response.value;
      var u := Lookup(owners, e.ownerIdValue);
      (r.value.ownerSystemUser.Some? <==> e.ownerIdValue != "" && u.Found() && u.response.value.fullname != "")
    ensures r.Some? && r.value.ownerSystemUser.Some? ==>
      var e := Lookup(escalations, escalationId).response.value;
      r.value.ownerSystemUser == Lookup(owners, e.ownerIdValue).response
  {
    match Lookup(escalations, escalationId)
    case Threw => None
    case Resolved(None) => None
    case Resolved(Some(e)) =>
      if e.name == "" then None
      else
        var escalationRecord := EscalationRecord(e.causeOfEscalationId, e.name, e.ownerIdValue, None);
        if escalationRecord.ownerIdValue == "" then Some(escalationRecord)
        else
          match Lookup(owners, escalationRecord.ownerIdValue)
          case Threw => None
          case Resolved(None) => Some(escalationRecord)
          case Resolved(Some(u)) =>
            if u.fullname == "" then Some(escalationRecord)
            else Some(escalationRecord.(ownerSystemUser := Some(u)))
  }

  /** `user?.fullname || 'No Owner Assigned'`. */
  function FullnameOrDefault(user: Option<SystemUser>): string {
    if user.Some? && user.value.fullname != "" then user.value.fullname else NO_OWNER_ASSIGNED
  }

  /** The tag `fetchEscalationTags` pushes for a bridge row whose details resolved. */
  function TagOf(escalation: EscalationRecord, record: BridgeRecord): (tag: Tag)
    ensures tag.id == escalation.causeOfEscalationId && tag.name == escalation.name
    ensures escalation.ownerSystemUser.None? ==> tag.owner == NO_OWNER_ASSIGNED
    ensures tag.bridgeRecordId == record.caseCauseOfEscalationId
  {
    Tag(escalation.causeOfEscalationId, escalation.name,
        FullnameOrDefault(escalation.ownerSystemUser), record.caseCauseOfEscalationId)
  }

  /** The tag one bridge row contributes to `fetchEscalationTags`, if its details resolve. */
  function RowTag(
    record: BridgeRecord,
    escalations: map<string, Fetch<EscalationEntity>>,
    owners: map<string, Fetch<SystemUser>>): (tag: Option<Tag>)
    ensures tag.Some? <==> FetchEscalationDetails(record.causeOfEscalationValue, escalations, owners).Some?
    ensures tag.Some? ==> tag.value.name != "" && tag.value.owner != ""
    ensures tag.Some? ==> tag.value.bridgeRecordId == record.caseCauseOfEscalationId
  {
    match FetchEscalationDetails(record.causeOfEscalationValue, escalations, owners)
    case None => None
    case Some(escalation) => Some(TagOf(escalation, record))
  }

  /**
   * The tag of a row whose details resolve: the cause's id and label, the owner's full
   * name or `No Owner Assigned`, and the row's own id.
   */
  lemma RowTagContents(
    record: BridgeRecord,
    escalations: map<string, Fetch<EscalationEntity>>,
    owners: map<string, Fetch<SystemUser>>)
    requires RowTag(record, escalations, owners).Some?
    ensures var d := FetchEscalationDetails(record.causeOfEscalationValue, escalations, owners).value;
      var tag := RowTag(record, escalations, owners).value;
      && tag.id == d.causeOfEscalationId
      && tag.name == d.name
      && tag.owner == (if d.ownerSystemUser.Some? then d.ownerSystemUser.value.fullname else NO_OWNER_ASSIGNED)
      && tag.bridgeRecordId == record.caseCauseOfEscalationId
  {
  }

  /** What `fetchEscalationTags` returns for the given bridge rows, in their order. */
  function EscalationTags(
    records: seq<BridgeRecord>,
    escalations: map<string, Fetch<EscalationEntity>>,
    owners: map<string, Fetch<SystemUser>>): (tags: seq<Tag>)
    ensures |tags| <= |records|
    ensures forall t :: t in tags ==> t.name != "" && t.owner != ""
    decreases |records|
  {
    if records == [] then []
    else
      var n := |records| - 1;
      var before := EscalationTags(records[..n], escalations, owners);
      match RowTag(records[n], escalations, owners)
      case None => before
      case Some(tag) => before + [tag]
  }

  /** One bridge row gives its tag when its details resolve, and nothing otherwise. */
  lemma EscalationTagsOfOneRow(
    record: BridgeRecord,
    escalations: map<string, Fetch<EscalationEntity>>,
    owners: map<string, Fetch<SystemUser>>)
    ensures var tag := RowTag(record, escalations, owners);
      EscalationTags([record], escalations, owners) == if tag.Some? then [tag.value] else []
  {
    assert [record][..0] == [];
  }

  /**
   * Rows are handled one at a time and in order: the tags of two runs of rows are the tags
   * of the first followed by the tags of the second, whatever the other rows do.
   */
  lemma {:induction false} EscalationTagsAppend(
    a: seq<BridgeRecord>,
    b: seq<BridgeRecord>,
    escalations: map<string, Fetch<EscalationEntity>>,
    owners: map<string, Fetch<SystemUser>>)
    ensures EscalationTags(a + b, escalations, owners)
            == EscalationTags(a, escalations, owners) + EscalationTags(b, escalations, owners)
    decreases |b|
  {
    if b == [] {
      assert a + b == a;
    } else {
      var n := |b| - 1;
      assert (a + b)[..|a + b| - 1] == a + b[..n];
      assert (a + b)[|a + b| - 1] == b[n];
      EscalationTagsAppend(a, b[..n], escalations, owners);
    }
  }

  /** Every tag is the one some bridge row contributes, so it carries that row's id. */
  lemma {:induction false} EscalationTagsComeFromRows(
    records: seq<BridgeRecord>,
    escalations: map<string, Fetch<EscalationEntity>>,
    owners: map<string, Fetch<SystemUser>>,
    t: Tag)
    requires t in EscalationTags(records, escalations, owners)
    ensures exists k :: 0 <= k < |records| && RowTag(records[k], escalations, owners) == Some(t)
    ensures exists k :: 0 <= k < |records| && t.bridgeRecordId == records[k].caseCauseOfEscalationId
    decreases |records|
  {
    var n := |records| - 1;
    var prefix := records[..n];
    if t in EscalationTags(prefix, escalations, owners) {
      EscalationTagsComeFromRows(prefix, escalations, owners, t);
      var k :| 0 <= k < n && RowTag(prefix[k], escalations, owners) == Some(t);
      assert prefix[k] == records[k];
    } else {
      assert RowTag(records[n], escalations, owners) == Some(t);
    }
  }

  /** When every row's details resolve, there is one tag per row, carrying that row's id. */
  lemma {:induction false} EscalationTagsAllResolve(
    records: seq<BridgeRecord>,
    escalations: map<string, Fetch<EscalationEntity>>,
    owners: map<string, Fetch<SystemUser>>)
    requires forall k :: 0 <= k < |records| ==> RowTag(records[k], escalations, owners).Some?
    ensures var tags := EscalationTags(records, escalations, owners);
      && |tags| == |records|
      && forall i :: 0 <= i < |records| ==> Some(tags[i]) == RowTag(records[i], escalations, owners)
    decreases |records|
  {
    if records != [] {
      var n := |records| - 1;
      var prefix := records[..n];
      assert forall k :: 0 <= k < n ==> prefix[k] == records[k];
      EscalationTagsAllResolve(prefix, escalations, owners);
      var before := EscalationTags(prefix, escalations, owners);
      var last := RowTag(records[n], escalations, owners).value;
      var tags := EscalationTags(records, escalations, owners);
      assert tags == before + [last];
      assert forall i :: 0 <= i < n ==> tags[i] == before[i];
      assert forall i :: 0 <= i < n ==> Some(before[i]) == RowTag(records[i], escalations, owners);
    }
  }

  /** When no row's details resolve, there are no tags. */
  lemma {:induction false} EscalationTagsNoneResolve(
    records: seq<BridgeRecord>,
    escalations: map<string, Fetch<EscalationEntity>>,
    owners: map<string, Fetch<SystemUser>>)
    requires forall k :: 0 <= k < |records| ==>
      RowTag(records[k], escalations, owners).None?
    ensures EscalationTags(records, escalations, owners) == []
    decreases |records|
  {
    if records != [] {
      var n := |records| - 1;
      assert forall k :: 0 <= k < n ==> records[..n][k] == records[k];
      EscalationTagsNoneResolve(records[..n], escalations, owners);
    }
  }

  /**
   * `fetchEscalationTags`: the bridge rows of the case, each combined with its
   * escalation details; rows whose details do not resolve are skipped.
   */
  method FetchEscalationTags(
    bridgeResponse: Fetch<seq<BridgeRecordEntity>>,
    escalations: map<string, Fetch<EscalationEntity>>,
    owners: map<string, Fetch<SystemUser>>) returns (tags: seq<Tag>)
    ensures tags == EscalationTags(FetchBridgeTable(bridgeResponse), escalations, owners)
  {
    var bridgeRecords := FetchBridgeTable(bridgeResponse);
    if |bridgeRecords| == 0 {
      return [];
    }
    tags := [];
    for i := 0 to |bridgeRecords|
      invariant tags == EscalationTags(bridgeRecords[..i], escalations, owners)
    {
      assert bridgeRecords[..i + 1][..i] == bridgeRecords[..i];
      var escalation := FetchEscalationDetails(bridgeRecords[i].causeOfEscalationValue, escalations, owners);
      if escalation.Some? {
        tags := tags + [TagOf(escalation.value, bridgeRecords[i])];
      }
      assert tags == EscalationTags(bridgeRecords[..i + 1], escalations, owners);
    }
    assert bridgeRecords[..|bridgeRecords|] == bridgeRecords;
  }

  /** One of the owner lookups of `fetchAvailableEscalationOptions` throws. */
  predicate AnyOwnerLookupThrows(entities: seq<EscalationEntity>, owners: map<string, Fetch<SystemUser>>) {
    exists i :: 0 <= i < |entities| && Lookup(owners, entities[i].ownerIdValue).Threw?
  }

  /** The option `fetchAvailableEscalationOptions` pushes for one entity. */
  function OptionTag(entity: EscalationEntity, ownerResponse: Option<SystemUser>): Tag {
    Tag(entity.causeOfEscalationId, entity.name, FullnameOrDefault(ownerResponse), "")
  }

  /**
   * What `fetchAvailableEscalationOptions` returns: one tag per entity, in order, with no
   * bridge row id; nothing when the list call fails or is empty, and nothing at all as soon
   * as one owner lookup throws (the whole loop sits in one try block).
   */
  function EscalationOptions(response: Fetch<seq<EscalationEntity>>, owners: map<string, Fetch<SystemUser>>): (tags: seq<Tag>)
    ensures !response.Found() ==> tags == []
    ensures response.Found() && AnyOwnerLookupThrows(response.response.value, owners) ==> tags == []
    ensures response.Found() && !AnyOwnerLookupThrows(response.response.value, owners) ==>
      var entities := response.response.value;
      && |tags| == |entities|
      && forall i :: 0 <= i < |entities| ==>
        var u := Lookup(owners, entities[i].ownerIdValue);
        && tags[i].id == entities[i].causeOfEscalationId
        && tags[i].name == entities[i].name
        && tags[i].bridgeRecordId == ""
        && tags[i].owner != ""
        && (u.Found() && u.response.value.fullname != "" ==> tags[i].owner == u.response.value.fullname)
        && (!(u.Found() && u.response.value.fullname != "") ==> tags[i].owner == NO_OWNER_ASSIGNED)
  {
    if !response.Found() then []
    else
      var entities := response.response.value;
      if AnyOwnerLookupThrows(entities, owners) then []
      else seq(|entities|, i requires 0 <= i < |entities| =>
             OptionTag(entities[i], Lookup(owners, entities[i].ownerIdValue).response))
  }

  /** `fetchAvailableEscalationOptions`, loop for loop. */
  method FetchAvailableEscalationOptions(response: Fetch<seq<EscalationEntity>>, owners: map<string, Fetch<SystemUser>>)
    returns (tags: seq<Tag>)
    ensures tags == EscalationOptions(response, owners)
  {
    if !response.Found() || |response.response.value| == 0 {
      return [];
    }
    var entities := response.response.value;
    tags := [];
    for i := 0 to |entities|
      invariant |tags| == i
      invariant forall k :: 0 <= k < i ==> !Lookup(owners, entities[k].ownerIdValue).Threw?
      invariant forall k :: 0 <= k < i ==>
        tags[k] == OptionTag(entities[k], Lookup(owners, entities[k].ownerIdValue).response)
    {
      var ownerResponse := Lookup(owners, entities[i].ownerIdValue);
      if ownerResponse.Threw? {
        return [];
      }
      tags := tags + [OptionTag(entities[i], ownerResponse.response)];
    }
  }
}
