/**
 * The picker component (Escalation/components/MultiSelectDropdown.tsx): its state is the
 * list of selected causes of escalation and the list still offered. Loading joins the
 * case's bridge rows with all causes; `handleChange` reconciles the picker's new item list
 * with the bridge table, one remote create or delete at a time, whose outcomes are given
 * as parameters. The spec functions below describe each step on a `Selection` value; the
 * class `MultiSelectDropdown` holds the state and is proved to follow them.
 */
module Dropdown {
  import opened Wrappers
  import opened Strings
  import opened Types
  import opened EscalationService

  const UNKNOWN_ESCALATION: string := "Unknown Escalation"

  /** The two state lists of the component. */
  datatype Selection = Selection(selected: seq<OptionType>, available: seq<OptionType>)

  function Ids(s: seq<OptionType>): set<string> {
    set o | o in s :: o.id
  }

  /** No entry of `xs` shares its id with an entry of `ys`. */
  predicate IdDisjoint(xs: seq<OptionType>, ys: seq<OptionType>) {
    forall x, y :: x in xs && y in ys ==> x.id != y.id
  }

  /** `s.filter((o) => !ids.has(o.id))`: the entries whose id is not in `ids`, in order. */
  function ExcludeIds(s: seq<OptionType>, ids: set<string>): (r: seq<OptionType>)
    ensures |r| <= |s|
    ensures forall o :: o in r <==> o in s && o.id !in ids
    decreases |s|
  {
    if s == [] then []
    else (if s[0].id in ids then [] else [s[0]]) + ExcludeIds(s[1..], ids)
  }

  /** The filter works entry by entry, so it keeps the order of what it keeps. */
  lemma {:induction false} ExcludeIdsAppend(a: seq<OptionType>, b: seq<OptionType>, ids: set<string>)
    ensures ExcludeIds(a + b, ids) == ExcludeIds(a, ids) + ExcludeIds(b, ids)
    decreases |a|
  {
    if a == [] {
      assert a + b == b;
    } else {
      assert (a + b)[0] == a[0];
      assert (a + b)[1..] == a[1..] + b;
      ExcludeIdsAppend(a[1..], b, ids);
    }
  }

  lemma IdsOfExcludeIds(s: seq<OptionType>, ids: set<string>)
    ensures Ids(ExcludeIds(s, ids)) == Ids(s) - ids
  {
  }

  lemma IdsOfAppend(s: seq<OptionType>, e: OptionType)
    ensures Ids(s + [e]) == Ids(s) + {e.id}
  {
  }

  lemma SplitLast<T>(s: seq<T>)
    requires s != []
    ensures s == s[..|s| - 1] + [s[|s| - 1]]
  {
  }

  lemma IdsOfCons(s: seq<OptionType>)
    requires s != []
    ensures Ids(s) == {s[0].id} + Ids(s[1..])
  {
    assert s == [s[0]] + s[1..];
    forall x | x in Ids(s) ensures x in {s[0].id} + Ids(s[1..]) {
      var o :| o in s && o.id == x;
      if o != s[0] {
        var i :| 0 <= i < |s| && s[i] == o;
        assert s[1..][i - 1] == o;
      }
    }
  }

  /** `k` is the first position of `s` holding `id`. */
  predicate FirstWithId(s: seq<OptionType>, id: string, k: int) {
    0 <= k < |s| && s[k].id == id && forall j :: 0 <= j < k ==> s[j].id != id
  }

  /** `s.find((o) => o.id === id)`: the first entry holding `id`, if any. */
  function FindById(s: seq<OptionType>, id: string): (r: Option<OptionType>)
    ensures r.None? <==> id !in Ids(s)
    ensures r.Some? ==> exists k :: FirstWithId(s, id, k) && s[k] == r.value
    decreases |s|
  {
    if s == [] then None
    else if s[0].id == id then
      assert FirstWithId(s, id, 0);
      Some(s[0])
    else
      var r := FindById(s[1..], id);
      IdsOfCons(s);
      if r.Some? then
        var k :| FirstWithId(s[1..], id, k) && s[1..][k] == r.value;
        assert FirstWithId(s, id, k + 1);
        r
      else r
  }

  /** The tags fetched on load, as entries of `availableOptions`. */
  function TagOptions(tags: seq<Tag>): (options: seq<OptionType>)
    ensures |options| == |tags|
    ensures forall i :: 0 <= i < |tags| ==>
      && options[i].id == tags[i].id
      && options[i].name == tags[i].name
      && options[i].bridgeRecordId == Some(tags[i].bridgeRecordId)
      && options[i].owner == Some(tags[i].owner)
  {
    seq(|tags|, i requires 0 <= i < |tags| =>
      OptionType(tags[i].id, tags[i].name, Some(tags[i].bridgeRecordId), Some(tags[i].owner)))
  }

  /** The selected entry built on load for one bridge row. */
  function SelectedEntry(record: BridgeRecord, escalations: seq<OptionType>): OptionType {
    var escalation := FindById(escalations, record.causeOfEscalationValue);
    OptionType(
      record.causeOfEscalationValue,
      if escalation.Some? then escalation.value.name else UNKNOWN_ESCALATION,
      Some(record.caseCauseOfEscalationId),
      if escalation.Some? then escalation.value.owner else Some(NO_OWNER_ASSIGNED))
  }

  /** An entry's label and owner are those of the first escalation with its id, or the defaults. */
  ghost predicate LabelledFrom(entry: OptionType, escalations: seq<OptionType>) {
    || (exists k :: FirstWithId(escalations, entry.id, k)
          && entry.name == escalations[k].name && entry.owner == escalations[k].owner)
    || (entry.id !in Ids(escalations)
          && entry.name == UNKNOWN_ESCALATION && entry.owner == Some(NO_OWNER_ASSIGNED))
  }

  /**
   * The state `fetchData` sets: one selected entry per bridge row, in row order, and as
   * available the fetched escalations whose id is not selected, in fetched order.
   */
  function LoadState(records: seq<BridgeRecord>, escalations: seq<OptionType>): (st: Selection)
    ensures |st.selected| == |records|
    ensures forall i :: 0 <= i < |records| ==>
      && st.selected[i].id == records[i].causeOfEscalationValue
      && st.selected[i].bridgeRecordId == Some(records[i].caseCauseOfEscalationId)
      && LabelledFrom(st.selected[i], escalations)
    ensures forall o :: o in st.available <==> o in escalations && o.id !in Ids(st.selected)
    ensures st.available == ExcludeIds(escalations, Ids(st.selected))
    ensures IdDisjoint(st.selected, st.available)
  {
    var selected := seq(|records|, i requires 0 <= i < |records| => SelectedEntry(records[i], escalations));
    Selection(selected, ExcludeIds(escalations, Ids(selected)))
  }

  /** The picker's items as `handleChange` maps them: `{ id: key, label: name }`. */
  function ItemsToOptions(items: seq<PickerTag>): (options: seq<OptionType>)
    ensures |options| == |items|
    ensures forall i :: 0 <= i < |items| ==>
      && options[i].id == items[i].key
      && options[i].name == items[i].name
      && options[i].bridgeRecordId.None?
      && options[i].owner.None?
  {
    seq(|items|, i requires 0 <= i < |items| => OptionType(items[i].key, items[i].name, None, None))
  }

  /** The items of `incoming` whose id was not selected before. */
  function Added(incoming: seq<OptionType>, previous: seq<OptionType>): seq<OptionType> {
    ExcludeIds(incoming, Ids(previous))
  }

  /** The previously selected entries whose id is no longer among the incoming items. */
  function Removed(previous: seq<OptionType>, incoming: seq<OptionType>): seq<OptionType> {
    ExcludeIds(previous, Ids(incoming))
  }

  /**
   * The diff is a partition: the added and removed ids are disjoint, and taking the removed
   * ids from the previous ids and adding the added ones gives exactly the incoming ids.
   */
  lemma DiffIsPartition(incoming: seq<OptionType>, previous: seq<OptionType>)
    ensures forall o :: o in Added(incoming, previous) <==> o in incoming && o.id !in Ids(previous)
    ensures forall o :: o in Removed(previous, incoming) <==> o in previous && o.id !in Ids(incoming)
    ensures Ids(Added(incoming, previous)) !! Ids(Removed(previous, incoming))
    ensures Ids(previous) - Ids(Removed(previous, incoming)) + Ids(Added(incoming, previous)) == Ids(incoming)
  {
  }

  /** What the create call returned for a tag id; a missing outcome stands for null. */
  function CreateOutcome(creates: map<string, Option<string>>, id: string): Option<string> {
    if id in creates then creates[id] else None
  }

  /** Whether the delete call succeeded for a bridge row id; a missing outcome stands for false. */
  function DeleteOutcome(deletes: map<string, bool>, bridgeRecordId: string): bool {
    bridgeRecordId in deletes && deletes[bridgeRecordId]
  }

  /** The delete outcome `handleChange` sees is `removeEscalationFromBridgeTable`'s result. */
  lemma DeleteOutcomeIsRemoveResult(deletable: set<string>, bridgeRecordId: string)
    ensures DeleteOutcome(map x | x in deletable :: true, bridgeRecordId)
            == RemoveEscalationFromBridgeTable(bridgeRecordId, deletable)
  {
  }

  /**
   * One iteration of the add loop: the tag is looked up in the `availableOptions` snapshot
   * taken when `handleChange` started; on a truthy new row id the entry is appended to
   * `selected` and its id filtered out of `availableOptions`.
   */
  function AddStep(st: Selection, item: OptionType, snapshot: seq<OptionType>, creates: map<string, Option<string>>): Selection {
    match FindById(snapshot, item.id)
    case None => st
    case Some(escalation) =>
      var newBridgeRecordId := CreateOutcome(creates, item.id);
      if Truthy(newBridgeRecordId) then
        Selection(
          st.selected + [OptionType(escalation.id, escalation.name, newBridgeRecordId, escalation.owner)],
          ExcludeIds(st.available, {escalation.id}))
      else st
  }

  /**
   * The create outcomes `handleChange` sees: for each tag id of the snapshot, the result of
   * `addEscalationToBridgeTable` for the case, that id, the snapshot entry's label and the user.
   */
  function CreatesFor(
    concernComplaintId: string, userId: string, snapshot: seq<OptionType>,
    created: map<NewBridgeRecord, string>): map<string, Option<string>>
  {
    map id | id in Ids(snapshot) ::
      AddEscalationToBridgeTable(concernComplaintId, id, FindById(snapshot, id).value.name, userId, created)
  }

  /**
   * With the outcomes of the real create calls, an add step appends the snapshot entry with the
   * new row id exactly when `addEscalationToBridgeTable` returned a truthy id, and changes
   * nothing otherwise.
   */
  lemma AddStepWithCreateCall(
    st: Selection, item: OptionType, snapshot: seq<OptionType>,
    concernComplaintId: string, sessionUserId: string, created: map<NewBridgeRecord, string>)
    requires item.id in Ids(snapshot)
    ensures var escalation := FindById(snapshot, item.id).value;
      var rowId := AddEscalationToBridgeTable(
        concernComplaintId, item.id, escalation.name, GetCurrentUserId(sessionUserId), created);
      var creates := CreatesFor(concernComplaintId, GetCurrentUserId(sessionUserId), snapshot, created);
      AddStep(st, item, snapshot, creates)
      == if Truthy(rowId)
         then Selection(
           st.selected + [OptionType(escalation.id, escalation.name, rowId, escalation.owner)],
           ExcludeIds(st.available, {escalation.id}))
         else st
  {
  }

  /** The add loop over `added`, in order. */
  function ApplyAdds(st: Selection, added: seq<OptionType>, snapshot: seq<OptionType>, creates: map<string, Option<string>>): Selection
    decreases |added|
  {
    if added == [] then st
    else AddStep(ApplyAdds(st, added[..|added| - 1], snapshot, creates), added[|added| - 1], snapshot, creates)
  }

  /**
   * One iteration of the remove loop: only an entry with a truthy bridge row id is deleted;
   * on success its id is filtered out of `selected` and `{id, label, owner}` appended to
   * `availableOptions`.
   */
  function RemoveStep(st: Selection, item: OptionType, deletes: map<string, bool>): Selection {
    if Truthy(item.bridgeRecordId) && DeleteOutcome(deletes, item.bridgeRecordId.value) then
      Selection(
        ExcludeIds(st.selected, {item.id}),
        st.available + [OptionType(item.id, item.name, None, item.owner)])
    else st
  }

  /** The remove loop over `removed`, in order. */
  function ApplyRemoves(st: Selection, removed: seq<OptionType>, deletes: map<string, bool>): Selection
    decreases |removed|
  {
    if removed == [] then st
    else RemoveStep(ApplyRemoves(st, removed[..|removed| - 1], deletes), removed[|removed| - 1], deletes)
  }

  /**
   * The list `handleChange` reports: the incoming items themselves, each with the bridge row
   * id and owner of the first entry with its id in `selected` as it was before the call.
   */
  function Report(incoming: seq<OptionType>, previous: seq<OptionType>): (r: seq<OptionType>)
    ensures |r| == |incoming|
    ensures forall i :: 0 <= i < |r| ==> r[i].id == incoming[i].id && r[i].name == incoming[i].name
    ensures forall i :: 0 <= i < |r| && incoming[i].id !in Ids(previous) ==>
      r[i].bridgeRecordId == None && r[i].owner == None
    ensures forall i :: 0 <= i < |r| && incoming[i].id in Ids(previous) ==>
      exists k :: FirstWithId(previous, incoming[i].id, k)
        && r[i].bridgeRecordId == previous[k].bridgeRecordId && r[i].owner == previous[k].owner
  {
    seq(|incoming|, i requires 0 <= i < |incoming| =>
      var found := FindById(previous, incoming[i].id);
      OptionType(incoming[i].id, incoming[i].name,
        if found.Some? then found.value.bridgeRecordId else None,
        if found.Some? then found.value.owner else None))
  }

  // ---------------------------------------------------------------------------------------
  // Properties of one reconciliation step

  /** A successful create selects the entry with its new row id and withdraws the id from offer. */
  lemma AddStepOnSuccess(st: Selection, item: OptionType, snapshot: seq<OptionType>, creates: map<string, Option<string>>)
    requires item.id in Ids(snapshot) && Truthy(CreateOutcome(creates, item.id))
    ensures var escalation := FindById(snapshot, item.id).value;
      var next := AddStep(st, item, snapshot, creates);
      && escalation in snapshot && escalation.id == item.id
      && next.selected == st.selected + [OptionType(item.id, escalation.name, CreateOutcome(creates, item.id), escalation.owner)]
      && (forall o :: o in next.available <==> o in st.available && o.id != item.id)
  {
  }

  /** An id missing from the snapshot, or a create returning null or an empty id, changes nothing. */
  lemma AddStepOnFailure(st: Selection, item: OptionType, snapshot: seq<OptionType>, creates: map<string, Option<string>>)
    requires item.id !in Ids(snapshot) || !Truthy(CreateOutcome(creates, item.id))
    ensures AddStep(st, item, snapshot, creates) == st
  {
  }

  /** A successful delete drops the id from `selected` and re-offers the entry at the end. */
  lemma RemoveStepOnSuccess(st: Selection, item: OptionType, deletes: map<string, bool>)
    requires Truthy(item.bridgeRecordId) && DeleteOutcome(deletes, item.bridgeRecordId.value)
    ensures var next := RemoveStep(st, item, deletes);
      && (forall o :: o in next.selected <==> o in st.selected && o.id != item.id)
      && next.available == st.available + [OptionType(item.id, item.name, None, item.owner)]
  {
  }

  /** An entry without a bridge row id, or whose delete fails, stays selected; nothing changes. */
  lemma RemoveStepOnFailure(st: Selection, item: OptionType, deletes: map<string, bool>)
    requires !Truthy(item.bridgeRecordId) || !DeleteOutcome(deletes, item.bridgeRecordId.value)
    ensures RemoveStep(st, item, deletes) == st
  {
  }

  lemma AddStepKeepsDisjoint(st: Selection, item: OptionType, snapshot: seq<OptionType>, creates: map<string, Option<string>>)
    requires IdDisjoint(st.selected, st.available)
    ensures var next := AddStep(st, item, snapshot, creates); IdDisjoint(next.selected, next.available)
  {
  }

  lemma RemoveStepKeepsDisjoint(st: Selection, item: OptionType, deletes: map<string, bool>)
    requires IdDisjoint(st.selected, st.available)
    ensures var next := RemoveStep(st, item, deletes); IdDisjoint(next.selected, next.available)
  {
  }

  // ---------------------------------------------------------------------------------------
  // Properties of the two loops

  /** The add loop keeps `selected` and `availableOptions` disjoint by id. */
  lemma {:induction false} ApplyAddsKeepsDisjoint(st: Selection, added: seq<OptionType>, snapshot: seq<OptionType>, creates: map<string, Option<string>>)
    requires IdDisjoint(st.selected, st.available)
    ensures var next := ApplyAdds(st, added, snapshot, creates); IdDisjoint(next.selected, next.available)
    decreases |added|
  {
    if added != [] {
      var n := |added| - 1;
      ApplyAddsKeepsDisjoint(st, added[..n], snapshot, creates);
      AddStepKeepsDisjoint(ApplyAdds(st, added[..n], snapshot, creates), added[n], snapshot, creates);
    }
  }

  /** The remove loop keeps `selected` and `availableOptions` disjoint by id. */
  lemma {:induction false} ApplyRemovesKeepsDisjoint(st: Selection, removed: seq<OptionType>, deletes: map<string, bool>)
    requires IdDisjoint(st.selected, st.available)
    ensures var next := ApplyRemoves(st, removed, deletes); IdDisjoint(next.selected, next.available)
    decreases |removed|
  {
    if removed != [] {
      var n := |removed| - 1;
      ApplyRemovesKeepsDisjoint(st, removed[..n], deletes);
      RemoveStepKeepsDisjoint(ApplyRemoves(st, removed[..n], deletes), removed[n], deletes);
    }
  }

  /** If no added id is on offer or no create yields a row id, the add loop changes nothing. */
  lemma {:induction false} ApplyAddsWithoutCreatesIsIdentity(st: Selection, added: seq<OptionType>, snapshot: seq<OptionType>, creates: map<string, Option<string>>)
    requires forall o :: o in added ==> o.id !in Ids(snapshot) || !Truthy(CreateOutcome(creates, o.id))
    ensures ApplyAdds(st, added, snapshot, creates) == st
    decreases |added|
  {
    if added != [] {
      var n := |added| - 1;
      assert forall o :: o in added[..n] ==> o in added;
      ApplyAddsWithoutCreatesIsIdentity(st, added[..n], snapshot, creates);
      assert added[n] in added;
      AddStepOnFailure(st, added[n], snapshot, creates);
    }
  }

  /** If no removed entry is both persisted and successfully deleted, the remove loop changes nothing. */
  lemma {:induction false} ApplyRemovesWithoutDeletesIsIdentity(st: Selection, removed: seq<OptionType>, deletes: map<string, bool>)
    requires forall o :: o in removed ==> !Truthy(o.bridgeRecordId) || !DeleteOutcome(deletes, o.bridgeRecordId.value)
    ensures ApplyRemoves(st, removed, deletes) == st
    decreases |removed|
  {
    if removed != [] {
      var n := |removed| - 1;
      assert forall o :: o in removed[..n] ==> o in removed;
      ApplyRemovesWithoutDeletesIsIdentity(st, removed[..n], deletes);
      assert removed[n] in removed;
      RemoveStepOnFailure(st, removed[n], deletes);
    }
  }

  /** Every create succeeds for an id on offer. */
  predicate AllCreatesSucceed(added: seq<OptionType>, snapshot: seq<OptionType>, creates: map<string, Option<string>>) {
    forall o :: o in added ==> o.id in Ids(snapshot) && Truthy(CreateOutcome(creates, o.id))
  }

  /** Every removed entry is persisted and its delete succeeds. */
  predicate AllDeletesSucceed(removed: seq<OptionType>, deletes: map<string, bool>) {
    forall o :: o in removed ==> Truthy(o.bridgeRecordId) && DeleteOutcome(deletes, o.bridgeRecordId.value)
  }

  /** A successful add step selects exactly one more id, the item's. */
  lemma AddStepSelectsItem(st: Selection, item: OptionType, snapshot: seq<OptionType>, creates: map<string, Option<string>>)
    requires item.id in Ids(snapshot) && Truthy(CreateOutcome(creates, item.id))
    ensures Ids(AddStep(st, item, snapshot, creates).selected) == Ids(st.selected) + {item.id}
  {
    var escalation := FindById(snapshot, item.id).value;
    IdsOfAppend(st.selected, OptionType(escalation.id, escalation.name, CreateOutcome(creates, item.id), escalation.owner));
  }

  /** When every create succeeds, the add loop selects exactly the added ids besides the old ones. */
  lemma {:induction false} ApplyAddsSelectsAdded(st: Selection, added: seq<OptionType>, snapshot: seq<OptionType>, creates: map<string, Option<string>>)
    requires AllCreatesSucceed(added, snapshot, creates)
    ensures Ids(ApplyAdds(st, added, snapshot, creates).selected) == Ids(st.selected) + Ids(added)
    decreases |added|
  {
    if added != [] {
      var n := |added| - 1;
      var prefix := added[..n];
      assert forall o :: o in prefix ==> o in added;
      ApplyAddsSelectsAdded(st, prefix, snapshot, creates);
      assert added[n] in added;
      AddStepSelectsItem(ApplyAdds(st, prefix, snapshot, creates), added[n], snapshot, creates);
      SplitLast(added);
      IdsOfAppend(prefix, added[n]);
    }
  }

  /** When every delete succeeds, the remove loop drops exactly the removed ids. */
  lemma {:induction false} ApplyRemovesDropsRemoved(st: Selection, removed: seq<OptionType>, deletes: map<string, bool>)
    requires AllDeletesSucceed(removed, deletes)
    ensures Ids(ApplyRemoves(st, removed, deletes).selected) == Ids(st.selected) - Ids(removed)
    decreases |removed|
  {
    if removed != [] {
      var n := |removed| - 1;
      var prefix := removed[..n];
      assert forall o :: o in prefix ==> o in removed;
      ApplyRemovesDropsRemoved(st, prefix, deletes);
      var mid := ApplyRemoves(st, prefix, deletes);
      assert removed[n] in removed;
      IdsOfExcludeIds(mid.selected, {removed[n].id});
      SplitLast(removed);
      IdsOfAppend(prefix, removed[n]);
    }
  }

  /**
   * When every remote call succeeds, `handleChange` leaves `selected` holding exactly the ids
   * of the picker's new item list.
   */
  lemma ReconcileReachesIncoming(st: Selection, incoming: seq<OptionType>, creates: map<string, Option<string>>, deletes: map<string, bool>)
    requires AllCreatesSucceed(Added(incoming, st.selected), st.available, creates)
    requires AllDeletesSucceed(Removed(st.selected, incoming), deletes)
    ensures
      var afterAdds := ApplyAdds(st, Added(incoming, st.selected), st.available, creates);
      Ids(ApplyRemoves(afterAdds, Removed(st.selected, incoming), deletes).selected) == Ids(incoming)
  {
    var added := Added(incoming, st.selected);
    var removed := Removed(st.selected, incoming);
    DiffIsPartition(incoming, st.selected);
    ApplyAddsSelectsAdded(st, added, st.available, creates);
    var afterAdds := ApplyAdds(st, added, st.available, creates);
    ApplyRemovesDropsRemoved(afterAdds, removed, deletes);
  }

  // ---------------------------------------------------------------------------------------
  // The component

  class MultiSelectDropdown {
    var selected: seq<OptionType>
    var availableOptions: seq<OptionType>
    var showAllSuggestions: bool

    function State(): Selection
      reads this
    {
      Selection(selected, availableOptions)
    }

    /** `useState(selectedValues)`, `useState([])`, `useState(false)`. */
    constructor (selectedValues: seq<OptionType>)
      ensures selected == selectedValues && availableOptions == [] && !showAllSuggestions
    {
      selected := selectedValues;
      availableOptions := [];
      showAllSuggestions := false;
    }

    /**
     * `fetchData`: fetches the case's bridge rows and all causes of escalation, then sets
     * both state lists; afterwards they are disjoint by id.
     */
    method Load(
      bridgeResponse: Fetch<seq<BridgeRecordEntity>>,
      escalationsResponse: Fetch<seq<EscalationEntity>>,
      owners: map<string, Fetch<SystemUser>>)
      modifies this
      ensures State() == LoadState(FetchBridgeTable(bridgeResponse), TagOptions(EscalationOptions(escalationsResponse, owners)))
      ensures IdDisjoint(selected, availableOptions)
      ensures showAllSuggestions == old(showAllSuggestions)
    {
      var fetchedBridgeRecords := FetchBridgeTable(bridgeResponse);
      var fetchedEscalations := FetchAvailableEscalationOptions(escalationsResponse, owners);
      var escalations := TagOptions(fetchedEscalations);
      var mappedSelected := seq(|fetchedBridgeRecords|, i requires 0 <= i < |fetchedBridgeRecords| =>
        SelectedEntry(fetchedBridgeRecords[i], escalations));
      selected := mappedSelected;
      availableOptions := ExcludeIds(escalations, Ids(mappedSelected));
    }

    /**
     * `handleChange`: `items` is the picker's complete new list (None when it reports none).
     * `creates` holds what `addEscalationToBridgeTable` returns per tag id and `deletes`
     * what `removeEscalationFromBridgeTable` returns per bridge row id.
     */
    method HandleChange(items: Option<seq<PickerTag>>, creates: map<string, Option<string>>, deletes: map<string, bool>)
      returns (report: Option<seq<OptionType>>)
      modifies this
      ensures items.None? ==> report.None? && State() == old(State())
      ensures items.Some? ==>
        var incoming := ItemsToOptions(items.value);
        && State() == ApplyRemoves(
             ApplyAdds(old(State()), Added(incoming, old(selected)), old(availableOptions), creates),
             Removed(old(selected), incoming), deletes)
        && report == Some(Report(incoming, old(selected)))
      ensures IdDisjoint(old(selected), old(availableOptions)) ==> IdDisjoint(selected, availableOptions)
      ensures showAllSuggestions == old(showAllSuggestions)
    {
      if items.None? {
        return None;
      }
      var selectedItems := ItemsToOptions(items.value);
      var previousSelected := selected;
      var snapshot := availableOptions;
      var added := Added(selectedItems, selected);
      var removed := Removed(selected, selectedItems);
      ghost var start := State();
      CreateAdded(added, snapshot, creates);
      ghost var afterAdds := State();
      DeleteRemoved(removed, deletes);
      if IdDisjoint(start.selected, start.available) {
        ApplyAddsKeepsDisjoint(start, added, snapshot, creates);
        ApplyRemovesKeepsDisjoint(afterAdds, removed, deletes);
      }
      report := Some(Report(selectedItems, previousSelected));
    }

    /**
     * The add loop of `handleChange`: each added tag found in the `availableOptions`
     * snapshot is created in the bridge table and, on a truthy row id, selected.
     */
    method CreateAdded(added: seq<OptionType>, snapshot: seq<OptionType>, creates: map<string, Option<string>>)
      modifies this
      ensures State() == ApplyAdds(old(State()), added, snapshot, creates)
      ensures showAllSuggestions == old(showAllSuggestions)
    {
      for i := 0 to |added|
        invariant State() == ApplyAdds(old(State()), added[..i], snapshot, creates)
        invariant showAllSuggestions == old(showAllSuggestions)
      {
        assert added[..i + 1][..i] == added[..i];
        ghost var before := State();
        var item := added[i];
        var escalation := FindById(snapshot, item.id);
        if escalation.Some? {
          var newBridgeRecordId := CreateOutcome(creates, item.id);
          if Truthy(newBridgeRecordId) {
            selected := selected + [OptionType(escalation.value.id, escalation.value.name, newBridgeRecordId, escalation.value.owner)];
            availableOptions := ExcludeIds(availableOptions, {escalation.value.id});
          }
        }
        assert State() == AddStep(before, item, snapshot, creates);
      }
      assert added[..|added|] == added;
    }

    /**
     * The remove loop of `handleChange`: each removed entry with a truthy bridge row id is
     * deleted and, on success, moved back to the offered options.
     */
    method DeleteRemoved(removed: seq<OptionType>, deletes: map<string, bool>)
      modifies this
      ensures State() == ApplyRemoves(old(State()), removed, deletes)
      ensures showAllSuggestions == old(showAllSuggestions)
    {
      for i := 0 to |removed|
        invariant State() == ApplyRemoves(old(State()), removed[..i], deletes)
        invariant showAllSuggestions == old(showAllSuggestions)
      {
        assert removed[..i + 1][..i] == removed[..i];
        ghost var before := State();
        var item := removed[i];
        if Truthy(item.bridgeRecordId) {
          var success := DeleteOutcome(deletes, item.bridgeRecordId.value);
          if success {
            selected := ExcludeIds(selected, {item.id});
            availableOptions := availableOptions + [OptionType(item.id, item.name, None, item.owner)];
          }
        }
        assert State() == RemoveStep(before, item, deletes);
      }
      assert removed[..|removed|] == removed;
    }

    /** `setShowAllSuggestions((prev) => !prev)` of the toggle button. */
    method ToggleShowAllSuggestions()
      modifies this
      ensures showAllSuggestions == !old(showAllSuggestions)
      ensures State() == old(State())
    {
      showAllSuggestions := !showAllSuggestions;
    }

    /** `availableOptions.map((o) => ({ key: o.id, name: o.label }))`. */
    function OfferedTags(): seq<PickerTag>
      reads this
    {
      var options := availableOptions;
      seq(|options|, i requires 0 <= i < |options| => PickerTag(options[i].id, options[i].name))
    }

    /**
     * `getSuggestions`: with a filter text, the offered tags whose label contains it,
     * ignoring case, in order; without one, all offered tags or none, by `showAllSuggestions`.
     */
    function GetSuggestions(filterText: string): (suggestions: seq<PickerTag>)
      reads this
      ensures filterText != "" ==>
        forall t :: t in suggestions <==> t in OfferedTags() && Occurs(Lower(t.name), Lower(filterText))
      ensures filterText != "" ==> suggestions == FilterByText(OfferedTags(), filterText)
      ensures filterText == "" && showAllSuggestions ==> suggestions == OfferedTags()
      ensures filterText == "" && !showAllSuggestions ==> suggestions == []
      ensures |suggestions| <= |availableOptions|
    {
      var suggestions := OfferedTags();
      if filterText != "" then FilterByText(suggestions, filterText)
      else if !showAllSuggestions then []
      else suggestions
    }

    /** `onEmptyInputFocus`: all offered tags or none, by `showAllSuggestions`, as for an empty filter. */
    function OnEmptyInputFocus(): (suggestions: seq<PickerTag>)
      reads this
      ensures showAllSuggestions ==> suggestions == OfferedTags()
      ensures !showAllSuggestions ==> suggestions == []
      ensures suggestions == GetSuggestions("")
    {
      if showAllSuggestions then OfferedTags() else []
    }
  }

  /** `tags.filter((t) => t.name.toLowerCase().includes(filterText.toLowerCase()))`. */
  function FilterByText(tags: seq<PickerTag>, filterText: string): (r: seq<PickerTag>)
    ensures |r| <= |tags|
    ensures forall t :: t in r <==> t in tags && Occurs(Lower(t.name), Lower(filterText))
    decreases |tags|
  {
    if tags == [] then []
    else
      (if MatchesIgnoringCase(tags[0].name, filterText) then [tags[0]] else [])
      + FilterByText(tags[1..], filterText)
  }

  /** The suggestion filter works tag by tag, so suggestions keep the order of the offered tags. */
  lemma {:induction false} FilterByTextAppend(a: seq<PickerTag>, b: seq<PickerTag>, filterText: string)
    ensures FilterByText(a + b, filterText) == FilterByText(a, filterText) + FilterByText(b, filterText)
    decreases |a|
  {
    if a == [] {
      assert a + b == b;
    } else {
      assert (a + b)[0] == a[0];
      assert (a + b)[1..] == a[1..] + b;
      FilterByTextAppend(a[1..], b, filterText);
    }
  }
}
