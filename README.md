# Identify outcome, team tab memory and phone search — a Dafny model

This project models three pieces of the Keybase client.

- **The identify outcome** (`go/libkb/identify_outcome.go`). Identifying a user produces a list of remote proof checks. Each check may carry an error, a local track diff and a remote track diff. Identifying also produces key diffs, deleted proofs, an optional hard error and an optional track statement. From these the outcome derives:
  - counts of proof failures, proof successes, track failures and track changes;
  - a `TrackStatus` verdict;
  - an error and a list of warnings, split strictly or laxly;
  - a canonical order of the proof checks: grouped by service, then sorted by display string.
- **The team screen container** (`shared/teams/team/container.tsx`). It maps the store and the route to the screen's props and fails when the team ID is missing. It builds the section list. It also keeps a session-wide memory of the tab last selected, which a new `TabsState` and a route change read from.
- **The phone search** (`shared/team-building/phone-search/index.tsx`). A form holds a typed number, its validity and an input key. It resolves the number against a contact map, shows a confirmation box or a progress indicator, and on continue emits the resolved user and resets itself.

Files:

- `wrappers.dfy`: `Option` and `Result`.
- `keybase1.dfy`: the protocol's `ProofType` and `TrackStatus`.
- `identify.dfy`: module `Identify`, for the counters, the track status and the error routing.
- `proof_order.dfy`: module `ProofOrder`, for `byDisplayString`, the bucket sort and `ProofChecksSorted`.
- `team_container.dfy`: module `TeamContainer`.
- `phone_search.dfy`: module `PhoneSearch`.

Modelling choices:

- The Go counters are loops in the source, so here they are methods with loop invariants. Each is proved equal to a count function (`CountWhere`), and the properties are lemmas about that function.
- A `TrackDiff` is a value that has only its two observers, `BreaksTracking` and `IsSameAsTracked`. A nil diff or a nil error is `None`.
- The problem messages are kept structured, as the `Problem` datatype. The printf formats, `GiveMeAnS` and `ToDisplayString` are not part of this model.
- The error text is given by `ErrorText`. It is the rendered problems joined with `";"`, and the rendering is taken as a parameter.
- `RemoteServiceOrder` is defined outside the file, so `ProofChecksSorted` takes the service list as a parameter. The grouping and contents properties are proved for a list without duplicates. That the real constant has none is assumed, since it is defined elsewhere.
- Go's `sort.Sort` is not stable and its algorithm is not shown. The model sorts each bucket in place with an insertion sort built from `byDisplayString`'s `Less` and `Swap`. It promises only what `sort.Sort` promises: a sorted permutation.
- Go compares strings byte by byte. The model compares code points lexicographically, which gives the same order as comparing their UTF-8 bytes.
- In the container, the store lookups (`getTeamDetails`, `getCanPerformByID`) and `makeRows` are uninterpreted function parameters. The store's username is a plain value.
- The module-level `lastSelectedTabs` object is the class `Session`. The component is the class `TabsState`, which holds its props and its `selectedTab`.
- The phone search component is a class with its three state cells. It also records the calls it makes to its parent: `numberChanges` for `onChangeNumber` and `continued` for `onContinue`.

## Model

| member | source | states |
|---|---|---|
| `Identify.NewIdentifyOutcome` | go/libkb/identify_outcome.go:27-31 | a new outcome has MeSet as given and every other field at its zero value: empty username, no error, no track statement, no proofs, diffs, deletions or warnings, and TrackEqual, LocalOnly and ApproveRemote false |
| `Identify.NumDeleted` | go/libkb/identify_outcome.go:75-77 | the deletion count is zero exactly when there are no deletions |
| `Identify.NumProofFailures` | go/libkb/identify_outcome.go:79-87 | the loop counts exactly the proof checks whose error is non-nil |
| `Identify.NumProofSuccesses` | go/libkb/identify_outcome.go:89-97 | the loop counts exactly the proof checks whose error is nil |
| `Identify.NumTrackFailures` | go/libkb/identify_outcome.go:99-120 | the two loops count the proof checks with a breaking diff or remote diff, each once, plus the breaking key diffs |
| `Identify.NumTrackChanges` | go/libkb/identify_outcome.go:122-138 | the two loops count the proof checks with a diff or remote diff that differs from the track, each once, plus such key diffs |
| `Identify.NewStatus` | go/libkb/identify_outcome.go:152-158 | without a track statement the verdict is one of the NEW_* values, and NEW_OK only when some proof succeeded and none failed |
| `Identify.TrackStatus` | go/libkb/identify_outcome.go:140-159 | UPDATE_BROKEN exactly when a track component failed or a proof was deleted; with a track statement only UPDATE_* values, without one only UPDATE_BROKEN or NEW_* values |
| `Identify.ProofCountsPartition` | go/libkb/identify_outcome.go:79-97 | failures plus successes equal the number of proof checks: every check is counted exactly once |
| `Identify.TrackFailureBounds` | go/libkb/identify_outcome.go:99-120 | track failures are at most the checks plus the key diffs; they are positive exactly when some check or key diff breaks tracking; nil diffs never count |
| `Identify.TrackChangeBounds` | go/libkb/identify_outcome.go:122-138 | the same bound, positivity and nil rule for track changes |
| `Identify.TrackStatusBroken` | go/libkb/identify_outcome.go:140-143 | UPDATE_BROKEN is returned exactly when a check or key diff breaks tracking or a proof was deleted, whatever else holds |
| `Identify.TrackStatusWithTrack` | go/libkb/identify_outcome.go:144-151 | with a track statement only UPDATE_* values occur; if nothing is broken, UPDATE_NEW_PROOFS is returned exactly when some diff differs from the track |
| `Identify.TrackStatusWithoutTrack` | go/libkb/identify_outcome.go:152-158 | with no track statement and nothing broken: NEW_ZERO_PROOFS iff no proof succeeded; NEW_FAIL_PROOFS iff some succeeded and some failed; NEW_OK iff there are checks and all succeeded |
| `Identify.NewOutcomeStatus` | go/libkb/identify_outcome.go:140-159 | a freshly made outcome has status NEW_ZERO_PROOFS |
| `Identify.DeletionProblems` | go/libkb/identify_outcome.go:182-184 | one problem per deletion, carrying its display string, in order |
| `Identify.SoftProblems` | go/libkb/identify_outcome.go:182-189 | one problem per deletion, first and in order, plus one more exactly when some proof failed |
| `Identify.HardProblems` | go/libkb/identify_outcome.go:191-195 | a track-failure problem is added exactly when some track component failed |
| `Identify.ErrorAndWarnings` | go/libkb/identify_outcome.go:165-202 | a set Error is returned alone; strict returns no warnings; a problem list error is never empty and comes only without a set Error; a track failure always yields an error |
| `Identify.GetErrorAndWarnings` | go/libkb/identify_outcome.go:165-202 | the loop and the soft-error routing return exactly the routing specified by `ErrorAndWarnings` |
| `Identify.GivenErrorWins` | go/libkb/identify_outcome.go:167-170 | a set Error is returned alone, with no warnings, for either value of strict |
| `Identify.StrictRouting` | go/libkb/identify_outcome.go:172-201 | strict: no warnings; the error lists the deletions, then the proof failures, then the track failures; the error is nil exactly when there are no deletions, no failed proofs and no breaking diffs |
| `Identify.LaxRouting` | go/libkb/identify_outcome.go:172-201 | lax: deletions and proof failures are the warnings; the error is only the track-failure problem, nil exactly when nothing breaks tracking |
| `Identify.NothingLost` | go/libkb/identify_outcome.go:174-195 | every problem appears exactly once, either among the warnings or in the error |
| `Identify.JoinSeparators` | go/libkb/identify_outcome.go:197-199 | parts that contain no ';' are joined with exactly one ';' between each two neighbours |
| `Identify.Join` | go/libkb/identify_outcome.go:197-199 | no parts give the empty text; otherwise the text starts with the first part and is at least as long as that part plus one separator per further part |
| `Identify.ErrorText` | go/libkb/identify_outcome.go:197-199 | a set Error keeps its own message; a problem list's text starts with the rendering of its first problem |
| `Identify.ErrorTextSeparators` | go/libkb/identify_outcome.go:172-199 | with renderings free of ';', the strict error's text has one ';' fewer than there are soft and hard problems |
| `Identify.GetError` | go/libkb/identify_outcome.go:204-207 | the error is the strict error |
| `Identify.GetErrorLax` | go/libkb/identify_outcome.go:209-211 | as written: the same result as the strict call, so its error equals GetError's error and its warnings are always empty |
| `Identify.LaxAsWrittenIsStrict` | go/libkb/identify_outcome.go:209-211 | for an outcome with one deletion, the strict call returns an error and no warning, while the lax call returns a warning and no error |
| `Identify.GetErrorLaxIntended` | go/libkb/identify_outcome.go:209-211 | corrected: the lax result, whose routing `LaxRouting` states |
| `ProofOrder.DisplayLessAsymmetric` | go/libkb/identify_outcome.go:217-219 | the display-string order is asymmetric |
| `ProofOrder.DisplayNotLessTransitive` | go/libkb/identify_outcome.go:217-219 | "not less" is transitive, so a sorted list is sorted pairwise |
| `ProofOrder.DisplayLess` | go/libkb/identify_outcome.go:217-219 | a string is never less than itself, and a proper prefix is less than the string it begins |
| `ProofOrder.Less` | go/libkb/identify_outcome.go:217-219 | two checks are never less than each other both ways, and checks with equal display strings are not less |
| `ProofOrder.Swap` | go/libkb/identify_outcome.go:216 | exchanges two elements, leaves the rest alone and preserves the multiset |
| `ProofOrder.SortByDisplayString` | go/libkb/identify_outcome.go:69 | after sorting in place, no later check has a smaller display string than an earlier one, and the array is a permutation of the input |
| `ProofOrder.OfType` | go/libkb/identify_outcome.go:58-61 | a bucket holds only checks of its proof type, each taken from the input |
| `ProofOrder.GroupByProofType` | go/libkb/identify_outcome.go:57-61 | the map has a key exactly for each proof type that occurs, and maps it to the checks of that type in input order |
| `ProofOrder.ArrangedContents` | go/libkb/identify_outcome.go:63-72 | the result holds exactly the checks whose proof type is in the service list, with multiplicity; others are dropped |
| `ProofOrder.ArrangedGrouped` | go/libkb/identify_outcome.go:64-71 | a check of a later-listed service never precedes a check of an earlier-listed one |
| `ProofOrder.ProofChecksSorted` | go/libkb/identify_outcome.go:56-73 | the result is one block per listed service, in list order; each block is the checks of that type, sorted by display string; given a list without duplicates, the contents and grouping above hold |
| `TeamContainer.TabOrMembers` | shared/teams/team/container.tsx:28 | a present, non-empty tab is kept; an absent or empty one becomes 'members'; the result is never empty |
| `TeamContainer.RouteTeamID` | shared/teams/team/container.tsx:23 | a present team ID is read as it is; the result is empty exactly when the ID is absent or empty |
| `TeamContainer.MapStateToProps` | shared/teams/team/container.tsx:22-38 | fails with the load error exactly when the route's team ID is missing or empty; otherwise carries that ID, the team's details, name and operations, the username, and the given tab or 'members' |
| `TeamContainer.Sections` | shared/teams/team/container.tsx:57-60 | two sections on mobile (header first) and one otherwise; the last is the 'body' section with a 'tabs' header holding the rows; keys are distinct |
| `TeamContainer.MergeProps` | shared/teams/team/container.tsx:50-73 | the rows come from makeRows over the state props; the sections are built around those rows; load and setSelectedTab use the team name |
| `TeamContainer.BodyHoldsRows` | shared/teams/team/container.tsx:57-60 | the screen's body section has key 'body' and is the last one; its data is the screen's rows; any section before it is the header section |
| `TeamContainer.RememberedTab` | shared/teams/team/container.tsx:92 | the tab stored for the team ID if it is non-empty, 'members' if none or an empty one is stored; never empty |
| `TeamContainer.Session.constructor` | shared/teams/team/container.tsx:20 | the session memory starts empty |
| `TeamContainer.TabsState.constructor` | shared/teams/team/container.tsx:92 | a new TabsState starts with the tab remembered for its route's team ID, else 'members' |
| `TeamContainer.TabsState.SetSelectedTab` | shared/teams/team/container.tsx:93-95 | the selected tab becomes the given tab |
| `TeamContainer.TabsState.ComponentDidUpdate` | shared/teams/team/container.tsx:96-101 | a changed team ID resets the tab to the one remembered for the new ID, else 'members'; an unchanged ID leaves the tab as it was |
| `TeamContainer.TabsState.ReceiveProps` | shared/teams/team/container.tsx:96-101 | after new route props, the same reset rule holds against the previous props |
| `TeamContainer.DispatchSetSelectedTab` | shared/teams/team/container.tsx:42-45 | stores the tab under the given key, leaving every other entry alone, and selects it in the component |
| `TeamContainer.ScreenSetSelectedTab` | shared/teams/team/container.tsx:69-70 | the screen's setSelectedTab stores the tab under the key chosen by the merge function |
| `TeamContainer.SelectionIgnoredOnRemount` | shared/teams/team/container.tsx:69-70 | as written, when a team's name differs from its ID, selecting a tab does not change the tab its next TabsState starts with |
| `TeamContainer.ChannelsForgottenOnRemount` | shared/teams/team/container.tsx:92 | team 't_1' named 'acme': after 'channels' is selected in a fresh session, the remounted screen starts on 'members' |
| `TeamContainer.MergePropsIntended` | shared/teams/team/container.tsx:69-70 | corrected: the tab is stored under the screen's team ID; with that key put back to the team name, the props are exactly the as-written ones |
| `TeamContainer.SelectionRestoredOnRemount` | shared/teams/team/container.tsx:92 | corrected: after a non-empty tab is selected, the next TabsState for that team ID starts on it |
| `TeamContainer.SelectionIsolated` | shared/teams/team/container.tsx:43 | storing a tab under one key never changes what another team ID restores |
| `PhoneSearch.Lookup` | shared/team-building/phone-search/index.tsx:20 | a user is resolved exactly when the number is in the contact map, and it is that contact |
| `PhoneSearch.ContinueUser` | shared/team-building/phone-search/index.tsx:24 | the emitted user has id = username, prettyName = full name, and a service map with only 'phone', set to the number |
| `PhoneSearch.ContinueUserResolves` | shared/team-building/phone-search/index.tsx:20-24 | the phone of an emitted user resolves back to the contact it came from |
| `PhoneSearch.ShowsConfirmation` | shared/team-building/phone-search/index.tsx:49-50 | whenever the confirmation box shows, the Continue button is disabled |
| `PhoneSearch.ShowsProgress` | shared/team-building/phone-search/index.tsx:65 | the progress indicator shows exactly when the Continue button is enabled, and never with the confirmation box |
| `PhoneSearch.ContinueDisabled` | shared/team-building/phone-search/index.tsx:75 | an enabled button has no resolved user, and an invalid number disables it |
| `PhoneSearch.PhoneSearch.CurrentUser` | shared/team-building/phone-search/index.tsx:20 | a user is resolved exactly when the typed number is in the contact map |
| `PhoneSearch.IndicatorsExclusive` | shared/team-building/phone-search/index.tsx:49-50 | the confirmation box and the progress indicator are never both shown; with a valid number, one of them is |
| `PhoneSearch.EnabledButtonHasNoUser` | shared/team-building/phone-search/index.tsx:75 | the Continue button is enabled exactly while the progress indicator shows, and then no user is resolved |
| `PhoneSearch.ContinueButtonNeverContinues` | shared/team-building/phone-search/index.tsx:73-75 | as written, an enabled button never comes with a confirmable user, e.g. a valid number resolving to 'alice' leaves it disabled; with the corrected rule it is enabled exactly when the confirmation box shows |
| `PhoneSearch.PhoneSearch.constructor` | shared/team-building/phone-search/index.tsx:16-18 | state starts invalid, with an empty number and key 0, and no calls made to the parent |
| `PhoneSearch.PhoneSearch.OnChangeNumber` | shared/team-building/phone-search/index.tsx:42-45 | forwards the number to the parent once and stores it; validity, key and emitted users are unchanged |
| `PhoneSearch.PhoneSearch.OnChangeValidity` | shared/team-building/phone-search/index.tsx:46 | sets only the validity |
| `PhoneSearch.PhoneSearch.OnContinue` | shared/team-building/phone-search/index.tsx:22-29 | with a resolved user: emits exactly one user built from it and the pre-reset number, then clears the number and validity and bumps the key by 1, leaving nothing shown and the button disabled; with none: changes nothing |
| `PhoneSearch.PhoneSearch.ClickContinueButton` | shared/team-building/phone-search/index.tsx:70-76 | as written, clicking Continue never emits a user and never changes the state |
| `PhoneSearch.PhoneSearch.ClickContinueButtonIntended` | shared/team-building/phone-search/index.tsx:70-76 | corrected: an enabled click finds a user and emits it with the reset; a disabled one changes nothing |

## Left out

- `remoteProofLinks` and its memoisation, `ActiveProofs`, `AddProofsToSet`, `TrackSet` and `TrackingStatement`: they delegate to `RemoteProofLinks`, `ProofSet`, `TrackSet` and a JSON wrapper, which are not part of this model.
- The `fmt.Printf` debugging output in `NumTrackFailures`: console I/O.
- The exact text of the problems: `GiveMeAnS` and `ToDisplayString` are not part of this model. The printf formats are kept only as the `Problem` cases, and `ErrorText` takes the rendering as a parameter.
- `RemoteServiceOrder` and the values of `keybase1.ProofType` and `TrackStatus`: they live in other files. The service list is a parameter.
- The algorithm of `sort.Sort`: only its contract (a sorted permutation) is modelled, so the model does not fix the order of checks with equal display strings.
- ProofOrder.ProofChecksSorted: the Go buckets alias the map's slices, so a service listed twice re-sorts an already sorted slice. The model sorts a fresh copy each time; both satisfy the stated contract.
- Go's `int` counters are unbounded `nat` here, since no count can come near overflow.
- `shared/chat/conversation/messages/text.desktop.js`: pure rendering, a style choice by delivery state, with nothing beyond a case split.
- React and JSX rendering, styles, `navigationOptions` header slots, the `HeaderHoc` and `connect` composition, the `CustomTitle` element, and the dispatched actions (`createGetDetails`, `createNavigateUp`, `onBack`): UI and framework glue. `load` is kept only as the team name it would pass.
- `makeRows`, `Constants.getTeamDetails`, `getCanPerformByID` and `PhoneInput`'s validity: not shown, so they are uninterpreted inputs.
- TeamContainer.RememberedTab: it models `lastSelectedTabs` as a map, so it does not capture that a plain JavaScript object also answers keys inherited from its prototype (such as `constructor`).
- React's batching of `setState` calls and closures that see a stale render: each handler is modelled as running on the current state.
- The phone input key is an unbounded integer. JavaScript numbers lose precision past 2^53, which no user can reach.

## Findings

| source | as written | input that shows it | evidently intended | confidence | as-written member | corrected member |
|---|---|---|---|---|---|---|
| shared/teams/team/container.tsx:69-70 | the tab is stored under the team name (line 43) but read under the team ID (lines 92, 99) | team ID 't_1' named 'acme': select 'channels', remount the screen, and it shows 'members' | store and read the tab under the same key, the team ID; the team name reaches the merge function only as `_teamnameTodoRemove` (line 31), a name that marks it as due for removal | medium, not executed | `TeamContainer.SelectionIgnoredOnRemount`, `TeamContainer.ChannelsForgottenOnRemount` | `TeamContainer.MergePropsIntended`, `TeamContainer.SelectionRestoredOnRemount` |
| go/libkb/identify_outcome.go:209-211 | `GetErrorLax` passes strict = true, so it equals the strict call and its warnings are always empty | an outcome whose only problem is one deletion: GetErrorLax returns an error and no warning | pass strict = false, so deletions and proof failures become warnings | medium, not executed | `Identify.LaxAsWrittenIsStrict`, `Identify.GetErrorLax` | `Identify.GetErrorLaxIntended` |
| shared/team-building/phone-search/index.tsx:73-75 | the Continue button is disabled unless the number is valid and resolves to no user, so a click can never continue | a valid number that resolves to 'alice': the confirmation box shows but the button is disabled; with no user the button is enabled but does nothing | enable the button when the number is valid and a user is resolved (`disabled={!(validity && !!user)}`) | medium, not executed | `PhoneSearch.ContinueButtonNeverContinues`, `PhoneSearch.PhoneSearch.ClickContinueButton` | `PhoneSearch.PhoneSearch.ClickContinueButtonIntended` |
