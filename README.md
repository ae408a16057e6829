# gh-dependabot core, modelled in Dafny

gh-dependabot is a terminal user interface, a `gh` extension, that lists open
Dependabot pull requests and lets the user merge, rebase, recreate, close,
open, view or copy a checkout command for the selected one. This project
models two parts of it:

- The list view's **in-progress tracker** and its `Update` reducer
  (`tui_list.go`). The tracker is a map from `repository/number` to the
  number of background operations running for that pull request.
  `markInProgress` increments an entry. `markDone` decrements it and deletes
  it at zero. `Update` turns one message into the next view state and a list
  of commands. Key presses act on the selected pull request. Completion
  messages stop the spinner, settle the tracker and set a status message.
- The **duplicate filter** (`dupefilter.go`). It groups pull requests by the
  package name captured from the title with `[bB]ump ([a-zA-Z@/-]+)`, with
  the repository appended. It keeps only the members of groups with more
  than one member.

Modules:

- `PullRequests` (`pull_requests.dfy`): the pull-request record and the
  tracker key.
- `Tracker` (`tracker.dfy`): pure functions for one tracker update each, and
  the class `OperationTracker`, which performs the same updates in place.
- `ListViews` (`list_view.dfy`): messages, commands, the pure reducer `Step`,
  and the class `ListView`. Its `Update` method is proved equal to `Step`.
- `PackageNames` (`package_names.dfy`): the title pattern, written out as
  functions and checked against a reference definition of the match.
- `DupeFilter` (`dupe_filter.dfy`): the reference definition of the output,
  and the two loops of `filterDuplicatePullRequests` as methods.

Behaviours of the Go code worth knowing, each stated by a lemma:

- The name class `[a-zA-Z@/-]` contains no digits. A digit ends the captured
  name (`DigitEndsName`).
- An `errorMessage` names no pull request and does not call `markDone`. A
  failed operation therefore stays counted (`MergeThenErrorKeepsEntry`).
- Every completion message stops the spinner unconditionally. It does so
  even while other operations are still running. `hasWorkInProgress` is not
  called from `Update`.
- A recreate leaves the pull request in the list. Only the four merge keys
  and close remove it.
- The grouping key joins name and repository without a separator. So
  `lib/co` in `reorg/r` and `lib/core` in `org/r` share a group
  (`GroupKeyCollision`).

## Model

| member | source | states |
|---|---|---|
| PullRequests.OperationKey | tui_list.go:126 | the key is the repository, one `/`, then the number, in its exact layout |
| PullRequests.KeyInjective | tui_list.go:126 | when numbers contain no `/`, equal keys mean the same repository and number |
| PullRequests.KeyCollidesWithSlashInNumber | tui_list.go:126 | without that condition two different pairs share a key |
| Tracker.MarkedInProgress | tui_list.go:123-131 | the key becomes present, its count grows by one (starting from 1 when absent), other keys keep their counts, and the positive-count invariant is preserved |
| Tracker.MarkedDone | tui_list.go:133-144 | an absent key leaves the map unchanged; a count of 1 or less deletes the key; a larger count is decremented; other keys keep their counts; the invariant is preserved |
| Tracker.DoneUndoesInProgress | tui_list.go:123-144 | markDone after markInProgress restores the map exactly |
| Tracker.InProgressTimesCount | tui_list.go:123-131 | n starts raise the count by n, keep the invariant and leave other keys alone |
| Tracker.DoneTimesUndoesInProgressTimes | tui_list.go:123-144 | n starts followed by n completions restore the map |
| Tracker.BalancedStartsAndCompletionsClear | tui_list.go:123-144 | an idle key is idle again after n starts and n completions; one more completion changes nothing |
| Tracker.RunCount | tui_list.go:123-144 | under any interleaving where no completion comes before its start, the count is the initial count plus starts minus completions, the invariant holds and other keys are untouched |
| Tracker.BalancedRunClears | tui_list.go:123-144 | an interleaving with as many completions as starts leaves an idle key absent |
| Tracker.OperationTracker.constructor | tui_list.go:108 | the tracker starts empty and valid |
| Tracker.OperationTracker.HasWorkInProgress | tui_list.go:117-121 | true exactly when the map is non-empty |
| Tracker.NonEmptyMeansRunning | tui_list.go:117-121 | under the invariant, the map is non-empty exactly when some key has a count of at least one |
| Tracker.OperationTracker.MarkInProgress | tui_list.go:123-131 | the in-place update yields MarkedInProgress of the old map and keeps the invariant |
| Tracker.OperationTracker.MarkDone | tui_list.go:133-144 | the in-place update yields MarkedDone of the old map and keeps the invariant |
| PackageNames.IsNameChar | dupefilter.go:11 | defines the class `[a-zA-Z@/-]`: letters of either case, `@`, `/` and `-`, and no digits |
| PackageNames.MatchesAt | dupefilter.go:11 | defines a whole-pattern match at a position: `b` or `B`, then `ump `, then at least one name character |
| PackageNames.RunEnd | dupefilter.go:11 | the greedy `+`: every character up to the end is a name character, and the end is the string's end or a non-name character |
| PackageNames.FindMatch | dupefilter.go:14 | returns the leftmost start of a whole-pattern match at or after `from`, or None when there is none |
| PackageNames.PackageName | dupefilter.go:11-16 | None exactly when the pattern matches nowhere; otherwise a non-empty name that satisfies the reference definition of the capture |
| PackageNames.NameMatchUnique | dupefilter.go:14 | at most one position and one name satisfy the reference definition |
| PackageNames.PackageNameIsNameMatch | dupefilter.go:14 | PackageName returns a name exactly when that name is the leftmost, maximal capture (both directions) |
| PackageNames.BumpName | dupefilter.go:11-14 | a title `Bump `/`bump ` + name + text that does not start with a name character captures exactly that name |
| PackageNames.MatchNotAnchored | dupefilter.go:11 | the pattern may match in the middle of a title (`chore: bump foo` captures `foo`) |
| PackageNames.UpperCaseBumpDoesNotMatch | dupefilter.go:11 | only the first letter's case is free (`BUMP foo` has no match) |
| PackageNames.DigitEndsName | dupefilter.go:11 | a digit after the name ends the capture |
| PackageNames.ScopedName | dupefilter.go:11 | `@scope/package` names keep their `@` and `/`, and a space ends them |
| DupeFilter.GroupKey | dupefilter.go:14-16 | a key exists exactly when the title matches, and it is the captured name followed by the repository |
| DupeFilter.Group | dupefilter.go:13-17 | defines one entry of the package map: the input pull requests with key k, in input order |
| DupeFilter.Lookup | dupefilter.go:17 | defines Go's map indexing: the stored slice, or the empty slice for a missing key |
| DupeFilter.GroupAppend | dupefilter.go:17 | appending one pull request extends only its own group, at the end |
| DupeFilter.GroupCount | dupefilter.go:13-21 | a group holds each pull request with its key as often as the input does, and no others |
| DupeFilter.GroupMembers | dupefilter.go:13-21 | a pull request is in group k exactly when it is in the input and its key is k |
| DupeFilter.ConcatGroupsCount | dupefilter.go:22-27 | concatenating distinct groups holds each pull request as often as the input does when its group is among them, and not at all otherwise |
| DupeFilter.DuplicatesCount | dupefilter.go:8-29 | the reference output holds every duplicate as often as the input, and nothing else |
| DupeFilter.DuplicatesWithinInput | dupefilter.go:8-29 | the output is a sub-multiset of the input, never longer, and each output element has a matching title and a group of at least two |
| DupeFilter.UnmatchedDropped | dupefilter.go:18-20 | a title without a match never reaches the output |
| DupeFilter.BumpGroupKey | dupefilter.go:14-16 | a plain bump title groups under name + repository |
| DupeFilter.SameNameOtherRepository | dupefilter.go:16 | two pull requests with the same captured name in different repositories get different group keys |
| DupeFilter.GroupKeyCollision | dupefilter.go:16 | different repositories and names can share a group when the concatenations coincide |
| DupeFilter.GroupOfThree | dupefilter.go:13-21 | the groups of a three-element input, spelled out |
| DupeFilter.PairOfThree | dupefilter.go:8-29 | of three pull requests, the two that share a key are exactly the output |
| DupeFilter.TwoBumpsOfOnePackage | dupefilter.go:8-29 | `Bump x` and `bump x` in one repository are kept; a lone bump of another package is dropped |
| DupeFilter.GroupByPackage | dupefilter.go:12-21 | the package map's entry for each key is that key's group in input order, and no entry is empty |
| DupeFilter.FilterDuplicatePullRequests | dupefilter.go:8-29 | the result concatenates the groups with more than one member, each once, in an unspecified order; it is a permutation of the reference output; the error is always nil |
| ListViews.BindingKey | tui_list.go:30-73 | defines the key string bound to each action by `newKeyMap` |
| ListViews.ActionFor | tui_list.go:170-247 | the action of a key press, the first binding in switch order; an action it returns is bound to that key |
| ListViews.Completed | tui_list.go:152-163 | defines a merge, rebase or recreate completion: markDone on its key, spinner stopped, status set to verb + url and emitted |
| ListViews.StartMerge | tui_list.go:172-211 | defines a merge key on the selected pull request: markInProgress, removal of the element under the cursor, spinner started, merge command with its method |
| ListViews.Dispatch | tui_list.go:171-247 | defines the key switch for a bound action with the cursor on a pull request |
| ListViews.Step | tui_list.go:146-248 | defines one call of `Update`: the next view state and the commands, for every message |
| ListViews.ActionForIsBinding | tui_list.go:30-73 | a key selects an action exactly when it is that action's binding; an unbound key selects none |
| ListViews.Selected | tui_list.go:173 | there is a selection exactly when the cursor is within the list, and it is the element under the cursor |
| ListViews.RemoveAt | tui_list.go:175 | removes exactly the element at the index, and the rest keep their order; out of range the list is unchanged |
| ListViews.RemoveAtMultiset | tui_list.go:175 | the removal takes out exactly one occurrence of the removed pull request |
| ListViews.MergeKeyEffect | tui_list.go:172-211 | each merge key increments the selected pull request's count, removes it from the list, starts the spinner, and emits the merge command with its own method |
| ListViews.RebaseRecreateKeyEffect | tui_list.go:212-229 | rebase and recreate increment the count, keep the list and the status, start the spinner, and emit the spinner and their command |
| ListViews.CloseKeyEffect | tui_list.go:234-238 | close removes the selected pull request, leaves the tracker, the spinner and the status alone, and emits the close command |
| ListViews.PassiveKeyEffect | tui_list.go:230-233 | browse, view and copy change no state and emit their one command |
| ListViews.KeyWithoutSelectionIsNoOp | tui_list.go:170-247 | with no selection, or with an unbound key, a key press changes nothing and emits nothing |
| ListViews.CompletionEffect | tui_list.go:152-163 | merged, rebased and recreated messages settle their pull request's entry, stop the spinner, and set and emit the status text |
| ListViews.ErrorAndOpenedKeepTracker | tui_list.go:149-151 | the error message (and the opened-in-browser message of tui_list.go:164-166) stop the spinner, set the status to the error text or `Opened ` + url and emit it, and leave the tracker and the list unchanged |
| ListViews.OnlyKeysChangeList | tui_list.go:146-169 | only key presses change the list; resize and unhandled messages change nothing |
| ListViews.DispatchInvariant | tui_list.go:170-247 | every bound key keeps the tracker invariant, never adds to the list, and keeps the cursor |
| ListViews.StepInvariant | tui_list.go:146-248 | every message keeps the tracker invariant and never adds to the list |
| ListViews.MergeThenMerged | tui_list.go:152-155 | a merge followed by its success message restores the tracker, and the pull request stays removed |
| ListViews.MergeThenErrorKeepsEntry | tui_list.go:149-151 | a merge followed by an error leaves the pull request counted as in progress |
| ListViews.ListView.constructor | tui_list.go:97-111 | a new view holds the given pull requests, has the cursor at 0 and an empty tracker |
| ListViews.ListView.RemoveItem | tui_list.go:175 | the list loses exactly the element under the index; nothing else changes |
| ListViews.ListView.NewStatusMessage | tui_list.go:151 | the status becomes the text and the returned command carries it |
| ListViews.ListView.Update | tui_list.go:146-252 | the new state and the commands are exactly those of `Step`, and the tracker invariant is kept |
| ListViews.ListView.CompleteOperation | tui_list.go:152-163 | a completion performed in place equals `Completed` |
| ListViews.ListView.DispatchSelected | tui_list.go:171-247 | the key switch performed in place equals `Dispatch` |
| ListViews.ListView.MergeSelected | tui_list.go:172-181 | the shared merge-key body performed in place equals `StartMerge` |

## Left out

- The integer width of the counts: Go's `int` is 32 or 64 bits, depending on the platform, and the model's counts are unbounded. Overflow would need at least 2^31 concurrent operations.
- The mutex (`mapMutex`) and the goroutines that deliver completion messages. Calls are modelled one at a time, in any order.
- The internals of `list.Model`. The trailing `listModel.Update` at tui_list.go:249 is left out: cursor movement, filtering, pagination and where the cursor lands after `RemoveItem`. The model keeps the cursor index, and a message the switch does not handle changes nothing.
- The resize arithmetic at tui_list.go:167-169. The padding and the list's size are presentation, with no effect on the modelled state.
- The commander's work behind each command (merge, rebase, recreate, browse, close, details, copy). Commands are opaque values. `tea.Batch`, the nil command it drops, and the spinner and status timers are not modelled.
- `log.Printf` at dupefilter.go:19 (output only).
- main.go: flag parsing, the GitHub query, sorting and program start-up. `View`, the help text and `Bindings` are also left out, since they only render.
- The `pullRequest` struct definition is not part of this model. Its fields (repository, number, title, url) are inferred from their uses. The update timestamp, which only the sort reads, is omitted.
- Go's map iteration order. It is represented by the ghost out-parameter `order` of `FilterDuplicatePullRequests`, and every order is allowed.
- `Update` has a value receiver in Go, and the tracker map is shared between copies. The model updates one view in place. The tracker is a separate object, as the shared map is.
- How the terminal library names key presses. `ctrl+m` and `enter` send the same byte (a carriage return), so a terminal cannot tell them apart. The library reports that byte under one key name, and when that name is `enter` the `mergeDefault` branch at tui_list.go:182 is never reached through it. Keys are modelled as the strings the bindings list, the first binding in switch order wins, and the model still lets `ctrl+m` reach `MergeDefault`.
- PullRequests.KeyInjective: holds only for numbers without `/`. Numbers are decimal strings in practice, and `KeyCollidesWithSlashInNumber` shows why the condition is needed.
