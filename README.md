# A verified model of a terminal dashboard for AI providers

The program is a terminal user interface (ratatui over crossterm). It has two versions.

- **The shell** (`src/app.rs`) has two tabs. The context tab (`src/context_view.rs`) is a cursor over three files and shows the text of the file under it. The provider tab (`src/provider_view.rs`) is an in-memory registry of AI provider instances plus a key-driven wizard that adds to it. The shell also keeps a command line: it captures keys while its text starts with `:`. Esc quits, Tab and (outside a command) `1` and `2` switch tabs, `:` always goes to the command line, and only the remaining keys reach the active tab (`Shell.ForwardedKeys`).
- **The earlier standalone draft** (`src/main.rs`) has five tabs. Its provider registry `AppState` has add, edit and remove operations. A single key `match` drives that registry, a context file list and the same command line.
- **The db layer** (`src/db`) has three parts:
  - a storage facade that maps names to files or sub-directories of a data directory;
  - chat sessions stored as JSON through that facade;
  - prompt patterns: a per-pattern system file, plus a history file of pattern names.

The Dafny project models these as follows.

- **Modules.** There is one module per source file:
  - `Shell`, `ContextBrowser` and `ProviderWizard`;
  - `Draft` for `src/main.rs`;
  - `DbStorage`, `DbSessions` and `DbPatterns`.

  They share `Wrappers` (Option, Result), `Keys` (the key codes), `Decimal` (how `{}` prints a number), `Providers` (the provider types and generated names) and `Files` (the file system as a value).
- **Mutable objects become classes.** Each object the program updates in place is a class with the same fields: `ProviderView`, `ContextView`, `App`, `AppState`, the loop of `main`, `Session` and `Sessions`. Each key handler is a method, and its postcondition ties the new state to a pure step function of the old state (`Transition`, `Step`, `RouteKey`/`Apply`, `DraftStep`). Lemmas about those functions state what the program promises: invariants kept by every key, clamped cursors, what a commit adds, that nothing else changes, and whole key scenarios.
- **The db layer** works on a `Files.FileSystem` value: a set of directories and a map from paths to bytes. The facade's operations are proved against each other: save then load, delete, rename, and `exists` against `load`. `get_names` is the source's loop, proved equal to a specification function. The pattern history selection is proved to return the last `min(k, n)` lines, most recent first.
- **Parameters.** Everything the program gets from outside is a parameter: file reads (`read`, `utf8`), JSON encoding and decoding (`encode`, `decode`), the directory listing, and the order in which a `HashMap` yields its keys (`names`, required to list every key exactly once).

Where the code and the design description of the program disagree, the model follows the code:

- In the provider wizard, `e` followed by Enter inserts a new `Provider<N+1>`. It does not overwrite the edited entry.
- `d` only records which entry was picked. Nothing ever removes an entry.
- `get_or_create_session` drops the history it loads, so a session always starts empty (`DbSessions.SavedHistoryNotRestored`).
- A storage configured with the extension ".json" lists no file at all. The extension is compared without its dot, while the configured text has one (`DbStorage.DottedExtensionMatchesNothing`).
- In the draft, adding after a delete can reuse a name and so replace an entry (`Draft.AddAfterDeleteOverwrites`).
- A failed JSON decode surfaces as an I/O error, not as a distinct error kind.
- Through the shell, the wizard never sees Tab or Esc, and a settings field never receives `:`, `1` or `2`: the shell consumes those keys first. The wizard's Tab field cycling and its two Esc cancels can fire only when its key handler is called directly. The wizard lemmas below are about that handler (`Shell.ForwardedKeys`).

## Model

| member | source | states |
|---|---|---|
| Providers.TypeFromName | src/provider_view.rs:202-213 | a name gives a provider type exactly when it is one of the six listed names |
| Providers.DebugName | src/main.rs:411 | the `{:?}` text of a type decodes back to that same type |
| Providers.TypeNamesAgree | src/main.rs:386-394 | the index match of the draft and the name list of the wizard (src/provider_view.rs:85-94 with 205-213) pick the same type for every position 0..5 |
| Providers.ProviderNameInjective | src/provider_view.rs:242 | different counts give different `Provider{n}` names |
| Providers.GeneratedNamesMembers | src/provider_view.rs:242 | `Provider{m}` is among Provider1..ProviderN exactly when 1 <= m <= N |
| Providers.FreshGeneratedName | src/provider_view.rs:242 | the name for count N+1 is never among Provider1..ProviderN |
| Providers.GeneratedNamesCount | src/provider_view.rs:242 | Provider1..ProviderN are N distinct names |
| Providers.EnumerationLength | src/provider_view.rs:283 | the collected key list is as long as the map has keys |
| Decimal.NatToString | src/provider_view.rs:242 | the decimal text of a count is non-empty, all digits, and starts with '0' only for zero |
| Decimal.ParseNatToString | src/provider_view.rs:242 | reading the decimal text back gives the number |
| Decimal.NatToStringInjective | src/provider_view.rs:242 | different numbers print differently |
| ProviderWizard.Initial | src/provider_view.rs:59-83 | a new view has empty registries, is on the list, and satisfies the invariant |
| ProviderWizard.CommitRegistered | src/provider_view.rs:241-260 | a commit inserts a fresh name into both maps, grows the count by one and keeps the keys exactly Provider1..ProviderN+1 |
| ProviderWizard.RegisteredInsert | src/provider_view.rs:253-254 | inserting the next generated name into both maps keeps them co-keyed with keys Provider1..ProviderN+1 |
| ProviderWizard.TransitionPreservesInv | src/provider_view.rs:183-325 | every key keeps the invariant: field index in {0,1,2}, cursors in range, co-keyed maps named Provider1..N, and a type is chosen whenever the commit's `unwrap` needs one |
| ProviderWizard.SelectTypeKeepsInv | src/provider_view.rs:185-225 | every key on the type list keeps the invariant |
| ProviderWizard.ConfigureKeepsInv | src/provider_view.rs:226-272 | every key on the settings form other than Enter keeps the invariant |
| ProviderWizard.IdleKeepsInv | src/provider_view.rs:273-323 | every key on the provider list keeps the invariant |
| ProviderWizard.CommitKeepsInv | src/provider_view.rs:241-260 | Enter on the form keeps the invariant |
| ProviderWizard.KeptInv | src/provider_view.rs:183-325 | a step that leaves both maps alone and keeps the form and cursors in range keeps the invariant |
| ProviderWizard.SelectTypeFrame | src/provider_view.rs:185-225 | keys on the type list change neither the registry, the form nor the list cursor; the type cursor stays on a type |
| ProviderWizard.ConfigureFrame | src/provider_view.rs:226-272 | keys on the form other than Enter change neither the registry, the cursors nor the chosen type |
| ProviderWizard.IdleFrame | src/provider_view.rs:273-323 | keys on the list never change the registry; the form opens only when there is an entry |
| ProviderWizard.RegistryOnlyGrows | src/provider_view.rs:183-325 | no key removes or changes an existing entry of either map |
| ProviderWizard.ActiveFieldCycles | src/provider_view.rs:228-237 | Tab moves the field index to (i+1) mod 3; BackTab wraps 0 to 2 and otherwise subtracts one; nothing else changes |
| ProviderWizard.TypeCursorClamped | src/provider_view.rs:187-201 | the type cursor moves by one within [0,5]; Down at 5 and Up at 0 do nothing |
| ProviderWizard.EnterPicksType | src/provider_view.rs:202-217 | Enter picks the type under the cursor, opens the form and sets the info line |
| ProviderWizard.TypingEditsActiveField | src/provider_view.rs:238-265 | a character is appended to the active field only; Backspace drops its last character, does nothing on an empty field, and leaves the other two fields alone |
| ProviderWizard.CommitAddsProvider | src/provider_view.rs:241-260 | Enter inserts `Provider{N+1}` into both maps with the chosen type and the three fields, grows the count by one, clears the fields, returns to the list and reports success, even when the form was opened by `e` |
| ProviderWizard.EscCancels | src/provider_view.rs:219-222 | Esc on either step (also 266-269) returns to the list and clears the info line, keeping the registry and the fields |
| ProviderWizard.EditSeedsFields | src/provider_view.rs:281-295 | `e` on an entry records it, seeds the fields from its settings (None becomes "") and opens the form; past the end it changes nothing |
| ProviderWizard.DeleteOnlyMarks | src/provider_view.rs:296-305 | `d` only records the entry under the cursor and reports it; the registry is untouched |
| ProviderWizard.AddStartsWizard | src/provider_view.rs:275-280 | `a` starts the wizard on the type list |
| ProviderWizard.ListCursorClamped | src/provider_view.rs:306-320 | Up and Down on the list move by one without wrapping and stay on an entry (or on 0) |
| ProviderWizard.ScenarioChooseType | src/provider_view.rs:202-217 | keys given to the view's handler directly: `a` then Enter from a new view opens the form for an OpenAI provider |
| ProviderWizard.ScenarioTyping | src/provider_view.rs:228-240 | keys given to the view's handler directly (the shell would take Tab and `1`): typing "k1", Tab, "e1" on an empty form fills the first two fields |
| ProviderWizard.AddScenario | src/provider_view.rs:183-325 | keys given to the view's handler directly (the shell would take Tab and `1`): a, Enter, "k1", Tab, "e1", Enter from a new view leaves exactly Provider1 (OpenAI) with settings k1/e1/"" |
| ProviderWizard.ProviderView.constructor | src/provider_view.rs:59-83 | the fields start as the initial state |
| ProviderWizard.ProviderView.HandleInput | src/provider_view.rs:183-325 | the fields and the info line after a key are exactly what `Transition` gives, and the invariant is kept |
| ProviderWizard.ProviderView.HandleSelectType | src/provider_view.rs:185-225 | the type-list arm updates the fields as `SelectTypeStep` says |
| ProviderWizard.ProviderView.HandleConfigureSettings | src/provider_view.rs:226-272 | the form arm updates the fields as `ConfigureStep` says |
| ProviderWizard.ProviderView.HandleIdle | src/provider_view.rs:273-323 | the list arm updates the fields as `IdleStep` says |
| ProviderWizard.ProviderView.CommitForm | src/provider_view.rs:241-260 | the commit updates the fields as `Commit` says |
| ProviderWizard.ProviderView.SetFields | src/provider_view.rs:287-289 | the three fields are overwritten in place |
| ContextBrowser.Initial | src/context_view.rs:20-32 | the first file is selected and shown, and the cursor invariant holds |
| ContextBrowser.StepKeepsInv | src/context_view.rs:68-86 | every key keeps the cursor on one of the three files and the list selection equal to it |
| ContextBrowser.RunKeepsInv | src/context_view.rs:68-86 | so does every sequence of keys |
| ContextBrowser.DownMoves | src/context_view.rs:70-76 | Down moves by one exactly when the cursor is above the last file, then shows the new file's text; otherwise nothing changes |
| ContextBrowser.UpMoves | src/context_view.rs:77-83 | Up moves back by one exactly when the cursor is past the first file; otherwise nothing changes |
| ContextBrowser.OtherKeysIgnored | src/context_view.rs:84 | keys other than Up and Down change nothing |
| ContextBrowser.ContentFollowsCursor | src/context_view.rs:68-86 | after any keys, the text shown is what reading the selected file gives |
| ContextBrowser.ContextView.constructor | src/context_view.rs:20-32 | the fields start as the initial state |
| ContextBrowser.ContextView.HandleInput | src/context_view.rs:68-86 | the fields after a key are exactly what `Step` gives |
| Shell.RouteKey | src/app.rs:71-99 | Esc quits and Tab cycles, each exactly for that key; `:` always starts a command; in a command every character is appended and Enter clears; `1`/`2` jump outside a command only; only the remaining keys are forwarded |
| Shell.ApplyKeepsInv | src/app.rs:81-96 | every key keeps the active index on a view and the header tag in step with it |
| Shell.RunKeepsInv | src/app.rs:69-99 | so does every sequence of keys |
| Shell.TabCycles | src/app.rs:81-88 | Tab moves to the next view modulo two, the tag follows, and two Tabs come back |
| Shell.ForwardedKeys | src/app.rs:71-96 | a key reaches the active view exactly when it is neither Esc nor Tab, not a character while a command is open, not `:`, `1` or `2`, and not Enter during a command |
| Shell.DigitsJump | src/app.rs:89-96 | `1` and `2` outside a command select the first and second view |
| Shell.CommandCapture | src/app.rs:72-80 | in a command, characters are appended to it and Enter clears it |
| Shell.CommandStaysOpen | src/app.rs:75-77 | once a command is started, any typed text is appended whole and nothing else changes |
| Shell.App.constructor | src/app.rs:26-37 | both views are fresh, the first is active, and the command and info lines are empty |
| Shell.App.HandleKey | src/app.rs:71-99 | the shell's fields follow `RouteKey`/`Apply`; a forwarded key reaches the active view only, and the other view is untouched |
| Shell.App.Dispatch | src/app.rs:98 | the key goes to the active view, which changes as its own handler says |
| Draft.EmptyRegistry | src/main.rs:53-62 | a new `AppState` is empty, co-keyed and not adding |
| Draft.AddKeepsCoKeyed | src/main.rs:64-68 | adding keeps the maps co-keyed; the entry is present afterwards, and the count grows by one exactly when it was new |
| Draft.RemoveKeepsCoKeyed | src/main.rs:74-77 | removing keeps the maps co-keyed and takes exactly that name out of both |
| Draft.EditKeepsCoKeyed | src/main.rs:79-82 | editing an entry under its own name keeps the maps co-keyed and the key set unchanged |
| Draft.RemoveUndoesAdd | src/main.rs:64-77 | removing a freshly added name gives back the registry before the add |
| Draft.InitialDraft | src/main.rs:94-123 | the loop starts with SampleProvider1 only, on the first tab, the first file (whose text is shown) and the first list entry, with no command or info text and the invariant holding |
| Draft.DraftStepKeepsInv | src/main.rs:293-474 | every key the loop can handle keeps the invariant, or leaves the loop |
| Draft.CharStepKeepsInv | src/main.rs:294-342 | character keys keep the invariant |
| Draft.EnterStepKeepsInv | src/main.rs:302-447 | Enter keeps the invariant |
| Draft.DownStepKeepsInv | src/main.rs:344-458 | Down keeps the invariant |
| Draft.TabCyclesFive | src/main.rs:306-309 | Tab moves to the next of the five tabs, wrapping after the last, and changes nothing else |
| Draft.DigitsSelectTabs | src/main.rs:298-314 | outside a command `1`..`5` select tabs 0..4; inside a command they are typed into it |
| Draft.AddCommit | src/main.rs:383-413 | Enter while adding stores `Provider{len+1}` with the type under the cursor and placeholder settings; it replaces an entry when the name is taken, and otherwise grows the count by one |
| Draft.EditCommit | src/main.rs:415-438 | Enter while editing keeps the entry's name and type and stores the fixed updated settings; an absent name changes nothing |
| Draft.DeleteCommit | src/main.rs:440-447 | Enter while deleting removes the name from both maps and reports it |
| Draft.AddCursorClamped | src/main.rs:344-382 | while adding, the cursor stays on one of the six types |
| Draft.ContextCursor | src/main.rs:449-468 | on the Contexts tab the file cursor moves within [0,2]; the text changes only when the new file can be read |
| Draft.EscQuits | src/main.rs:469-472 | Esc leaves the loop in any state |
| Draft.AddAfterDeleteOverwrites | src/main.rs:383-447 | add, delete, add computes Provider2 twice, so the second add replaces the first |
| Draft.AppState.constructor | src/main.rs:53-62 | the fields start as the empty registry |
| Draft.AppState.AddProvider | src/main.rs:64-68 | the fields change as `RegistryAdd` says |
| Draft.AppState.GetProviderNames | src/main.rs:70-72 | every key is returned exactly once |
| Draft.AppState.RemoveProvider | src/main.rs:74-77 | the fields change as `RegistryRemove` says |
| Draft.AppState.EditProvider | src/main.rs:79-82 | the fields change as `RegistryEdit` says |
| Draft.DraftLoop.constructor | src/main.rs:94-123 | the loop's variables and registry start as `InitialDraft` |
| Draft.DraftLoop.HandleKey | src/main.rs:293-474 | one pass of the loop follows `DraftStep`, quits exactly on Esc, and keeps the invariant |
| Draft.DraftLoop.HandleChar | src/main.rs:294-342 | the character arms follow `CharStep` |
| Draft.DraftLoop.HandleEnter | src/main.rs:302-447 | the Enter arms follow `EnterStep` |
| Draft.DraftLoop.AddSelected | src/main.rs:383-413 | the add commit follows `CommitAdd` |
| Draft.DraftLoop.EditMarked | src/main.rs:415-438 | the edit commit follows `CommitEdit` |
| Draft.DraftLoop.DeleteMarked | src/main.rs:440-447 | the delete commit follows `CommitDelete` |
| Draft.DraftLoop.HandleDown | src/main.rs:344-458 | the Down arms follow `DownStep` |
| Draft.DraftLoop.HandleUp | src/main.rs:366-468 | the Up arms follow `UpStep` |
| Draft.DraftLoop.ShowFile | src/main.rs:451-466 | the file cursor moves and the text is replaced only by a successful read |
| Draft.DraftLoop.Run | src/main.rs:125-477 | the loop handles keys until Esc or the underflow panic: no Esc among the handled keys, quit only at an Esc, and a panic only on Down over an empty list |
| DbStorage.BuildFilePathInjective | src/db/storage.rs:59-69 | in the model, where a name is one path component: different names map to different paths |
| DbStorage.BuildFilePathParent | src/db/storage.rs:59-61 | in the model, where a name is one path component: every name's path lies directly in the storage directory |
| DbStorage.ExistsIffFound | src/db/storage.rs:71-73 | `exists` holds exactly when loading does not fail with NotFound |
| DbStorage.SaveThenLoad | src/db/storage.rs:83-94 | save succeeds exactly when the directory exists and the path is not a directory; loading then gives the bytes back, and every other name is unchanged |
| DbStorage.DeleteRemoves | src/db/storage.rs:75-77 | delete succeeds exactly when the path is a file; afterwards the name is gone and the other names are unchanged |
| DbStorage.RenameMoves | src/db/storage.rs:79-81 | rename succeeds exactly when the old path is a file and the new one can be written; the new name then holds the old content, the old name is gone, and third names are unchanged |
| DbStorage.LastDot | src/db/storage.rs:33 | finds the last '.' of a file name, with no '.' after it, or reports that there is none |
| DbStorage.Extension | src/db/storage.rs:33 | a path extension never contains a '.' |
| DbStorage.ExtensionOfDotted | src/db/storage.rs:33 | "stem.ext" with a non-empty stem and a dot-free ext has extension ext |
| DbStorage.GetNames | src/db/storage.rs:23-44 | the loop returns exactly `Names`: the listing's error, the first entry or metadata error, or the kept names in order |
| DbStorage.CleanListing | src/db/storage.rs:23-44 | without errors, the result is the kept names in listing order |
| DbStorage.FilterMembers | src/db/storage.rs:26-41 | a name is returned exactly when some entry has it and passes the filter |
| DbStorage.DirModeListsDirectories | src/db/storage.rs:29-30 | in directory mode, a name is returned exactly when a directory entry has it, and an all-directory listing comes back whole, in order |
| DbStorage.DottedExtensionMatchesNothing | src/db/storage.rs:31-35 | in file mode with an extension that contains a '.' (".json"), nothing is returned |
| DbStorage.SavedJsonNeverListed | src/db/storage.rs:31-35 | a file written by `save` under ".json" never passes the filter |
| DbStorage.DotFreeExtensionMatches | src/db/storage.rs:32-35 | with a dot-free extension, a regular file "stem.ext" passes the filter |
| DbStorage.FirstErrorWins | src/db/storage.rs:24-28 | the first failing entry or metadata read decides the result, whatever follows it |
| DbSessions.OpenedHistoryIsEmpty | src/db/sessions.rs:15-28 | opening fails exactly when the file exists and loading or decoding fails, with that error; otherwise the history is empty |
| DbSessions.StoreThenLoad | src/db/sessions.rs:30-32 | saving stores the encoded messages under the session's name, they decode back, and other names are unchanged |
| DbSessions.SavedHistoryNotRestored | src/db/sessions.rs:15-32 | after a non-empty history is saved, opening the same name gives an empty history, not the saved one |
| DbSessions.Session.constructor | src/db/sessions.rs:16-19 | a session starts with its name and no messages |
| DbSessions.Session.Append | src/db/sessions.rs:42-48 | the messages are extended by the slice in order and the name is kept; `is_empty` afterwards holds exactly when it held before and the slice was empty |
| DbSessions.Sessions.constructor | src/db/sessions.rs:11-13 | keeps the given storage |
| DbSessions.Sessions.GetOrCreateSession | src/db/sessions.rs:15-28 | returns a fresh session with the requested name and empty messages, or the loading error, as `OpenedMessages` says |
| DbSessions.Sessions.SaveSession | src/db/sessions.rs:30-32 | writes only the encoded messages, under the session's name |
| DbPatterns.GetPatternOutcome | src/db/patterns.rs:24-34 | a pattern is found exactly when `dir/name/system_file` is a file that decodes, and carries the name, an empty description and the text; a missing path gives NotFound, a directory gives IsADirectory, bad bytes give InvalidData |
| DbPatterns.Split | src/db/patterns.rs:38 | splitting always yields at least one piece |
| DbPatterns.SplitCount | src/db/patterns.rs:38 | a text with n line breaks splits into n+1 pieces, none containing a line break |
| DbPatterns.JoinSplit | src/db/patterns.rs:38 | joining the pieces with line breaks gives the text back |
| DbPatterns.NoNewlineOnePiece | src/db/patterns.rs:38 | a text without line breaks, the empty text included, is one piece |
| DbPatterns.CountNoNewlines | src/db/patterns.rs:38 | a text without line breaks counts zero of them |
| DbPatterns.ReverseIndex | src/db/patterns.rs:40 | reversal keeps the length and puts line i at position n-1-i |
| DbPatterns.LatestLinesShape | src/db/patterns.rs:39-40 | exactly min(k, n) lines are selected, output line i is input line n-1-i, k = 0 selects nothing, and k >= n selects all lines reversed |
| DbPatterns.SingleLineHistory | src/db/patterns.rs:37-41 | a history without line breaks prints as itself when k > 0, and nothing when k = 0 |
| DbPatterns.PrintLatestPatterns | src/db/patterns.rs:36-44 | prints exactly the latest lines of the decoded history in that order, or fails with the read error |

## Left out

- Rendering: the `render` methods, layouts and styles of all views and of `main`. The views render copies of their list selections, so for them this is presentation only.
- Draft.DraftLoop.HandleKey: `main` renders its two lists with `&mut context_list_state` and `&mut provider_list_state`, so the list library may rewrite a selection before each key. The model assumes rendering leaves both selections unchanged. The library version is not part of this model, and a release that clamps the selection to the item count would avoid the underflow that `Draft.DraftLoop.Run` reports as `panicked`.
- Terminal setup and teardown, and the 100 ms event poll. The key sequence is the input of the model, and there is no concurrency.
- `Storage::configure` and `Patterns::configure` (`create_dir_all`), `list_names` (printing only), `src/db/db.rs` (directory wiring and `.env` writing) and `src/db/contexts.rs` (load plus a UTF-8 decode).
- `src/traits.rs`: the `View` interface. The shell holds its two concrete views and dispatches on the active index.
- serde_json: `save_as_json` and `load_as_json` appear only through the `encode` and `decode` parameters of `DbSessions`.
  - Serialisation is modelled as never failing.
  - The decoder's error arrives already converted to an I/O error.
- File-system semantics beyond one level of names:
  - A path is a sequence of components. A name that contains a path separator, "." or ".." is not given its real meaning.
  - DbStorage.BuildFilePathInjective, DbStorage.BuildFilePathParent and the "other names load as before" parts of `DbStorage.SaveThenLoad`, `DbStorage.DeleteRemoves`, `DbStorage.RenameMoves` and `DbSessions.StoreThenLoad` hold because a name is one component. In the program, `x` and `x/` reach the same file, `a/b` lies one level deeper, and an absolute name replaces the directory.
  - Permissions and I/O errors other than the ones listed in `Files.IoError` are not modelled.
  - Renaming a directory yields `Unsupported` instead of moving the directory.
- Non-UTF-8 file names, for which `into_string().unwrap()` in `get_names` panics. Names in the model are strings.
- `HashMap` iteration order. It is a parameter listing every key exactly once, not a particular order.
- ProviderWizard.ProviderView.HandleInput: `len() - 1` underflows (and panics in a debug build) on Down over an empty provider list. This is a precondition (`CanHandle`) here and in `Shell.App.HandleKey`. `Draft.DraftLoop.Run` reports it as its `panicked` outcome.
- ContextBrowser.ContextView.HandleInput: file reads are a function of the file name, so the files do not change while the view runs.
- Printing: `print_latest_patterns` returns the lines it would print, and the "Creating new session" note is not modelled.
- Draft.DraftLoop.Run: its contract covers where the loop stops and keeps the invariant. It does not fold the state over all the keys, because each pass lists the names in a fresh, unspecified order. The effect of each single key is `Draft.DraftLoop.HandleKey`'s contract.
