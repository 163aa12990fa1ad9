# Cause-of-escalation picker, modelled in Dafny

The component lets a user attach "cause of escalation" tags to a concern/complaint record
in Dynamics. Each attachment is a row of the `nfcu_casecauseofescalation` bridge table.
This project models the component's two pieces of sequential logic:

- **The picker's state** (`Escalation/components/MultiSelectDropdown.tsx`), in module
  `Dropdown`. Class `MultiSelectDropdown` holds `selected` and `availableOptions` (and the
  `showAllSuggestions` flag).
  - `Load` models `fetchData`. It joins the case's bridge rows with all causes of escalation.
    Label and owner come from the first cause with the row's id, with defaults when none matches.
    The causes whose id is not selected are offered.
  - `HandleChange` models `handleChange`. It diffs the picker's complete new item list against
    `selected`, then runs two loops: creates for the added ids (looked up in the
    `availableOptions` snapshot taken when the call starts), then deletes for the removed
    entries that carry a bridge row id. It then reports the incoming items.
  - Each loop is proved equal to a fold (`ApplyAdds`, `ApplyRemoves`) of a one-step function
    (`AddStep`, `RemoveStep`) over `Selection` values. The lemmas about those functions state
    what the component promises: selected and offered stay disjoint by id; failed or skipped
    calls change nothing; when every call succeeds, the selected ids are exactly the picker's ids.
  - `GetSuggestions` and `OnEmptyInputFocus` model the suggestion lists.
- **The service layer** (`Escalation/services/escalationService.ts`), in module
  `EscalationService`. It covers brace stripping of GUIDs, the record sent to create a bridge
  row, and the mapping and filtering of Web API responses into `BridgeRecord`,
  `EscalationRecord` and `Tag` values.

Every `Xrm.WebApi` call is replaced by its outcome, passed in as a parameter. A `Fetch<T>`
says whether the awaited call threw or what (possibly null) response it resolved to. Calls
made per id take a map keyed by the id asked for, and an id missing from the map stands for
a call that threw. So within one pass, repeated lookups of the same id share one outcome. This covers
two bridge rows with the same cause in `FetchEscalationTags` and two causes with the same owner
in `EscalationOptions`. A transient failure of only one of two such calls cannot be represented. `handleChange` takes the results of `addEscalationToBridgeTable` per tag id
(a missing id stands for `null`) and of `removeEscalationFromBridgeTable` per bridge row id
(a missing id stands for `false`). The session's user id is a parameter of `GetCurrentUserId`.

The model uses `""` for an absent raw string field (names, owner ids, full names). JavaScript
treats both as falsy, so every truthiness test takes the same branch. A cause's name is the
exception. `fetchAvailableEscalationOptions` copies it without a test, and `getSuggestions`
later lower-cases it. For a null name that call throws, while the model filters `""`.

Behaviours of the component worth knowing, all modelled as the code has them:
- There is no ownership/team visibility filter.
- Bridge rows that point to a missing cause are not repaired. They load as
  "Unknown Escalation" entries.
- There is no in-flight de-duplication set and no sorting by label.
- A removed entry without a bridge row id stays selected.
- A deleted entry is always re-offered, appended at the end.
- The reported list echoes the picker's items rather than the resulting state. After a failed
  create the tag is still reported, with no bridge row id.

Modules: `Wrappers` (Option), `Types` (the records of `types.ts` and `OptionType`), `Strings`
(brace stripping, ASCII lower-casing, substring search), `EscalationService`, `Dropdown`.

## Model

| member | source | states |
|---|---|---|
| `Strings.StripBraces` | Escalation/services/escalationService.ts:290-293 | the result has no `{`/`}`, is no longer than the input, and is the input itself when the input has no braces |
| `Strings.StripBracesIdempotent` | Escalation/services/escalationService.ts:292 | stripping twice is stripping once |
| `Strings.StripBracesAppend` | Escalation/services/escalationService.ts:292 | stripping distributes over concatenation, so the kept characters stay in order |
| `Strings.StripBracesKeepsOthers` | Escalation/services/escalationService.ts:292 | every character other than a brace occurs in the result as often as in the input |
| `Strings.StripBracesUnwrapsGuid` | Escalation/services/escalationService.ts:253-256 | `{g}` with brace-free `g` strips to `g` |
| `Strings.Lower` | Escalation/components/MultiSelectDropdown.tsx:215 | lower-casing keeps the length and maps each character (ASCII letters only) |
| `Strings.LowerIdempotent` | Escalation/components/MultiSelectDropdown.tsx:215 | lower-casing a lower-cased string changes nothing |
| `Strings.ContainsIffOccurs` | Escalation/components/MultiSelectDropdown.tsx:215 | the recursive `includes` is true exactly when the needle occurs at some position of the text |
| `Strings.MatchesIgnoringCase` | Escalation/components/MultiSelectDropdown.tsx:214-216 | the label filter holds exactly when the lower-cased filter text occurs in the lower-cased label |
| `EscalationService.GetCurrentUserId` | Escalation/services/escalationService.ts:290-293 | the user id comes back with no braces, no longer, and unchanged when it had none |
| `EscalationService.GetCurrentUserIdUnwrapsGuid` | Escalation/services/escalationService.ts:290-293 | the platform's `{GUID}` user id yields the bare GUID |
| `EscalationService.BuildBridgeRecord` | Escalation/services/escalationService.ts:251-259 | the record binds the cause of escalation and the owner by the ids given unchanged, binds the case by the given case id with every brace removed (so a `{GUID}` id binds as the bare GUID), and is named by the escalation name |
| `EscalationService.BridgeRecordBindsBareCaseId` | Escalation/services/escalationService.ts:252-256 | a case id `{g}` is bound as `/nfcu_concerncomplaints(g)` |
| `EscalationService.AddEscalationToBridgeTable` | Escalation/services/escalationService.ts:245-272 | the built record is sent, and the result is the id the store assigns to it, or null exactly when the create fails |
| `EscalationService.RemoveEscalationFromBridgeTable` | Escalation/services/escalationService.ts:274-285 | true exactly when the delete of that row does not throw |
| `EscalationService.FetchBridgeTable` | Escalation/services/escalationService.ts:13-55 | no rows on a thrown call or missing entities; otherwise one record per entity, in order, field for field |
| `EscalationService.FetchEscalationDetails` | Escalation/services/escalationService.ts:57-124 | null exactly when the lookup throws or is null, the name is empty, or the owner lookup (made only for a non-empty owner id) throws; otherwise the entity's id, name and owner id, with `ownerid_systemuser` set exactly when a user with a non-empty full name is found |
| `EscalationService.TagOf` | Escalation/services/escalationService.ts:162-167 | the pushed tag has the cause's id and label and the row's id, and `No Owner Assigned` as owner when the owning user was not found |
| `EscalationService.RowTag` | Escalation/services/escalationService.ts:154-167 | a bridge row gives a tag exactly when its details resolve; that tag has a non-empty label and owner and carries the row's id |
| `EscalationService.RowTagContents` | Escalation/services/escalationService.ts:154-167 | a resolving row's tag has the cause's id and label, the owner's full name or else `No Owner Assigned`, and the row's id |
| `EscalationService.EscalationTags` | Escalation/services/escalationService.ts:141-175 | at most one tag per bridge row, each with a non-empty label and owner |
| `EscalationService.EscalationTagsOfOneRow` | Escalation/services/escalationService.ts:154-172 | one row yields its tag when its details resolve and nothing otherwise |
| `EscalationService.EscalationTagsAppend` | Escalation/services/escalationService.ts:150-173 | rows are handled one at a time and in order: the tags of two runs of rows are the first run's tags followed by the second's, so a failing row drops only its own tag |
| `EscalationService.EscalationTagsComeFromRows` | Escalation/services/escalationService.ts:150-173 | every tag is the one some bridge row contributes and carries that row's id |
| `EscalationService.EscalationTagsAllResolve` | Escalation/services/escalationService.ts:150-173 | when every row's details resolve there is exactly one tag per row, in row order |
| `EscalationService.EscalationTagsNoneResolve` | Escalation/services/escalationService.ts:150-173 | when no row's details resolve the result is empty |
| `EscalationService.FetchEscalationTags` | Escalation/services/escalationService.ts:131-180 | the push loop returns the tags of the fetched bridge rows, as `EscalationTags` describes |
| `EscalationService.EscalationOptions` | Escalation/services/escalationService.ts:186-243 | empty on a thrown or empty list call and as soon as one owner lookup throws; otherwise one tag per entity, in order, with bridge row id `''` and owner the user's full name or `No Owner Assigned` |
| `EscalationService.FetchAvailableEscalationOptions` | Escalation/services/escalationService.ts:203-231 | the push loop, which returns early when an owner lookup throws, yields `EscalationOptions` |
| `Dropdown.ExcludeIds` | Escalation/components/MultiSelectDropdown.tsx:70-73 | the filter keeps exactly the entries whose id is not excluded, never more than there were |
| `Dropdown.ExcludeIdsAppend` | Escalation/components/MultiSelectDropdown.tsx:71-73 | the filter distributes over concatenation, so it keeps the input order |
| `Dropdown.FindById` | Escalation/components/MultiSelectDropdown.tsx:118 | `find` returns the entry at the first position holding the id, and nothing exactly when no entry holds it |
| `Dropdown.TagOptions` | Escalation/components/MultiSelectDropdown.tsx:50-51 | one option per fetched tag, in order, with its id, label, row id and owner |
| `Dropdown.LoadState` | Escalation/components/MultiSelectDropdown.tsx:55-74 | one selected entry per bridge row in row order, with the row's cause id and row id; label/owner from the first cause with that id, else `Unknown Escalation`/`No Owner Assigned`; offered are exactly the fetched causes whose id is not selected, in fetched order (`ExcludeIds` with `ExcludeIdsAppend`); selected and offered are disjoint by id |
| `Dropdown.ItemsToOptions` | Escalation/components/MultiSelectDropdown.tsx:101-104 | one entry per picker item, in order, whose id is the item's key and whose label is its name, with no row id and no owner |
| `Dropdown.AddStepWithCreateCall` | Escalation/components/MultiSelectDropdown.tsx:117-143 | when the create outcomes are the results of `addEscalationToBridgeTable` for the case, the snapshot entry's id and label and the current user, an add step appends that entry with the returned row id exactly when the id is truthy, and otherwise leaves the state unchanged |
| `Dropdown.DeleteOutcomeIsRemoveResult` | Escalation/components/MultiSelectDropdown.tsx:152-159 | the delete outcome seen for a row id is the result of `removeEscalationFromBridgeTable` for that row |
| `Dropdown.DiffIsPartition` | Escalation/components/MultiSelectDropdown.tsx:107-114 | added are the incoming items whose id was not selected, removed the selected entries whose id is not incoming; their ids are disjoint, and previous ids minus removed plus added are the incoming ids |
| `Dropdown.AddStepOnSuccess` | Escalation/components/MultiSelectDropdown.tsx:117-143 | for an id on offer in the snapshot with a truthy new row id, the entry with that row id is appended to selected and the id leaves the offered list |
| `Dropdown.AddStepOnFailure` | Escalation/components/MultiSelectDropdown.tsx:117-149 | an id missing from the snapshot, or a create that returns null or an empty id, changes nothing |
| `Dropdown.RemoveStepOnSuccess` | Escalation/components/MultiSelectDropdown.tsx:152-173 | a successful delete drops the id from selected and appends `{id, label, owner}` without a row id to the offered list |
| `Dropdown.RemoveStepOnFailure` | Escalation/components/MultiSelectDropdown.tsx:152-178 | an entry without a truthy row id, or whose delete fails, stays selected and nothing changes |
| `Dropdown.AddStepKeepsDisjoint` | Escalation/components/MultiSelectDropdown.tsx:129-143 | one add step keeps selected and offered disjoint by id |
| `Dropdown.RemoveStepKeepsDisjoint` | Escalation/components/MultiSelectDropdown.tsx:160-173 | one remove step keeps selected and offered disjoint by id |
| `Dropdown.ApplyAddsKeepsDisjoint` | Escalation/components/MultiSelectDropdown.tsx:117-149 | the whole add loop keeps selected and offered disjoint by id |
| `Dropdown.ApplyRemovesKeepsDisjoint` | Escalation/components/MultiSelectDropdown.tsx:152-179 | the whole remove loop keeps selected and offered disjoint by id |
| `Dropdown.ApplyAddsWithoutCreatesIsIdentity` | Escalation/components/MultiSelectDropdown.tsx:117-149 | when no added id is on offer with a successful create, the add loop changes nothing |
| `Dropdown.ApplyRemovesWithoutDeletesIsIdentity` | Escalation/components/MultiSelectDropdown.tsx:152-179 | when no removed entry is persisted and successfully deleted, the remove loop changes nothing |
| `Dropdown.AddStepSelectsItem` | Escalation/components/MultiSelectDropdown.tsx:129-138 | a successful create of a known tag adds exactly that tag's id to the selected ids |
| `Dropdown.ApplyAddsSelectsAdded` | Escalation/components/MultiSelectDropdown.tsx:117-149 | when every create succeeds, the selected ids grow by exactly the added ids |
| `Dropdown.ApplyRemovesDropsRemoved` | Escalation/components/MultiSelectDropdown.tsx:152-179 | when every delete succeeds, the selected ids shrink by exactly the removed ids |
| `Dropdown.ReconcileReachesIncoming` | Escalation/components/MultiSelectDropdown.tsx:98-179 | when every create and delete succeeds, the selected ids after `handleChange` are exactly the picker's ids |
| `Dropdown.Report` | Escalation/components/MultiSelectDropdown.tsx:182-192 | one reported entry per incoming item with its id and label; row id and owner from the first previously selected entry with that id, none when there was none |
| `Dropdown.FilterByText` | Escalation/components/MultiSelectDropdown.tsx:213-216 | keeps exactly the tags whose lower-cased name contains the lower-cased text, never more than there were |
| `Dropdown.FilterByTextAppend` | Escalation/components/MultiSelectDropdown.tsx:213-216 | the suggestion filter distributes over concatenation, so suggestions keep the order of the offered tags |
| `Dropdown.MultiSelectDropdown.constructor` | Escalation/components/MultiSelectDropdown.tsx:36-38 | selected starts as the given values, nothing is offered, suggestions start hidden |
| `Dropdown.MultiSelectDropdown.Load` | Escalation/components/MultiSelectDropdown.tsx:48-74 | the state becomes `LoadState` of the fetched bridge rows and causes; selected and offered are disjoint |
| `Dropdown.MultiSelectDropdown.HandleChange` | Escalation/components/MultiSelectDropdown.tsx:98-193 | no items: nothing changes and nothing is reported; otherwise the new state is the add fold (against the snapshot) followed by the remove fold, the report is `Report` of the items against the pre-call selection, and disjointness is preserved |
| `Dropdown.MultiSelectDropdown.CreateAdded` | Escalation/components/MultiSelectDropdown.tsx:116-149 | the add loop's final state is `ApplyAdds` of the state it started from |
| `Dropdown.MultiSelectDropdown.DeleteRemoved` | Escalation/components/MultiSelectDropdown.tsx:151-179 | the remove loop's final state is `ApplyRemoves` of the state it started from |
| `Dropdown.MultiSelectDropdown.ToggleShowAllSuggestions` | Escalation/components/MultiSelectDropdown.tsx:196 | the flag flips and both lists stay as they were |
| `Dropdown.MultiSelectDropdown.GetSuggestions` | Escalation/components/MultiSelectDropdown.tsx:207-222 | with text: exactly the offered tags whose label contains the text ignoring case, in offered order (`FilterByText` with `FilterByTextAppend`); without text: all offered tags when the flag is set, none otherwise |
| `Dropdown.MultiSelectDropdown.OnEmptyInputFocus` | Escalation/components/MultiSelectDropdown.tsx:224-232 | all offered tags when the flag is set, none otherwise, the same as suggestions for an empty text |

## Left out

- Rendering and widget plumbing are not modelled: the TagPicker and IconButton markup, the callout-width resize listener, `renderSuggestion`, CSS, and `itemLimit` (enforced by the third-party picker).
- Of `showAllOptions`, only the flag flip is modelled. The `pickerKey` bump, the input reset and the deferred focus are widget plumbing.
- The input's `onChange`, which clears `showAllSuggestions` while typing, is widget plumbing and not modelled.
- `Xrm.WebApi` and `Xrm.Utility` are platform I/O. Their results are parameters. OData query strings and `console` logging are not modelled.
- Async interleaving and React's batched state updates are not modelled. `handleChange` runs sequentially: all adds, then all removes, each step on the latest state, as the functional updaters do.
- Dropdown.MultiSelectDropdown.HandleChange: the create outcome is keyed by tag id only. The arguments the source also passes (case id, label, user id from `getCurrentUserId`) are abstracted away, so two creates for the same id in one call see the same outcome. `Dropdown.CreatesFor` builds that map from `AddEscalationToBridgeTable`, and `Dropdown.AddStepWithCreateCall` and `Dropdown.DeleteOutcomeIsRemoveResult` relate the outcome maps to the service functions.
- The `catch` blocks of `fetchData` and of `fetchEscalationTags` are not modelled. Every call inside them catches its own errors, so they cannot be reached.
- Strings.Lower: lower-cases ASCII letters only, not the full Unicode mapping of `toLowerCase`.
- `ownerid_team` of `EscalationRecord` is not modelled, because no code sets or reads it.
- Absent raw string fields are represented by `""`. Both are falsy in JavaScript, so truthiness tests take the same branch, but a copied `undefined` becomes `""`.
- Dropdown.MultiSelectDropdown.GetSuggestions: a cause whose `nfcu_name` is null is offered with its name copied unchecked (escalationService.ts:225). With a non-empty filter text, the source's `tag.name.toLowerCase()` (MultiSelectDropdown.tsx:215) then throws and no suggestions are returned. The model holds the name as `""`, so `GetSuggestions` and `FilterByText` drop that tag and return the other matches. The thrown outcome is not modelled.
- Escalation/index.ts is lifecycle glue (`init`/`updateView`/`getOutputs`/`destroy`). Its one mapping repeats the load mapping modelled by `Dropdown.LoadState`.
- webpack.config.js is build configuration and is not modelled.
