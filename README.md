# Cloud Sync dialog — a Dafny model

This project models the core of the Obsidian "Cloud Sync" plugin's `main.ts`: the sync dialog
(`SyncModal`) that starts one `rclone bisync` run through `flatpak-spawn --host`, shows its
progress, and lets the user cancel it or close the dialog. Three pieces are modelled and proved:

- the **stdout line buffer** of `startSync`: each chunk is added to a residual string; once that
  holds a newline it is split, the last fragment becomes the new residual and the displayed text is
  overwritten with the complete lines of that batch (`LineBuffer`, on the string functions of `Text`);
- the **dialog's state machine**: `isSyncing`, the process handle, the progress text, the start
  button's disabled flag and label and the cancel button's label, changed by start, stdout and stderr
  chunks, the process's exit, a launch that throws, the cancel/close button and `onClose`
  (`ModalState` as transitions on a value, `Modal.SyncModal` as a class whose methods update the
  fields in place and are proved to follow those transitions);
- two pure helpers: the rclone **command string** (`Command`) and the **settings merge**
  `Object.assign({}, DEFAULT_SETTINGS, loaded)` (`Settings`).

The child process is an abstract handle `Process(command, killed)`. Its output chunks, its exit
(error message or none, stderr text) and a throwing launch are explicit inputs, and a run of the
dialog is a sequence of such events (`ModalState.Run`).

Files: `wrappers.dfy` (Option), `text.dfy` (`split("\n")`/`join("\n")`), `line_buffer.dfy`,
`settings.dfy`, `command.dfy`, `modal_state.dfy`, `modal.dfy`.

## Specification and code

The design description of this system covers far more than `main.ts` does: push and pull modes,
outcome classification, lock-file clean-up with retry and conflict resolution. None of these exist
in `main.ts`, which always runs `bisync` and reports only success or the error it got, so none is
modelled. Where the two differ the model follows the code:

- The command is one shell string, not an argument vector, and the paths are not quoted
  (`Command.UnquotedPathsAmbiguous`).
- Cancelling is not a terminal state that stops all further reporting. The exit callback of a
  killed process still runs and appends its error line after "Sync cancelled."
  (`ModalState.CancelThenExit`).
- `onClose` kills a running process but leaves `isSyncing` set until the exit callback arrives.
- After the exit callback the process handle is not cleared. A launch that throws leaves the
  previous handle in place.

## Model

| member | source | states |
|---|---|---|
| `Text.Split` | main.ts:199 | `split("\n")` gives at least one piece and no piece holds a newline |
| `Text.JoinSplit` | main.ts:199-203 | joining the pieces of a split with newlines gives back the text |
| `Text.SplitJoin` | main.ts:199-203 | splitting the join of at least one newline-free piece gives back the pieces |
| `Text.SplitSingleIff` | main.ts:198-199 | the split has a single piece exactly when the text has no newline |
| `LineBuffer.Feed` | main.ts:194-205 | a chunk displays lines exactly when residual plus chunk holds a newline; otherwise the residual is just residual plus chunk; the new residual never holds a newline |
| `LineBuffer.FeedRoundTrip` | main.ts:195-203 | after a split, the displayed lines joined by newlines, a newline and the new residual equal the old residual followed by the chunk; at least one line is displayed, all newline-free |
| `LineBuffer.FeedConserves` | main.ts:195-200 | the text a chunk moves out of the buffer plus the new residual is the old residual plus the chunk, split or not |
| `LineBuffer.ReplayReconstructs` | main.ts:192-205 | over any stream of chunks, all lines emitted followed by the final residual reconstruct the stream; the emitted text is complete lines and the residual is newline-free |
| `LineBuffer.ChunkBoundariesIrrelevant` | main.ts:192-205 | two streams with the same total text emit the same lines and leave the same residual |
| `Settings.LoadSettings` | main.ts:52-58 | a loaded field overrides its default; a missing field or missing data falls back to `~/Notes` and `gdrive:"notes_vault"` |
| `Settings.SaveLoadRoundTrip` | main.ts:52-62 | loading what `saveSettings` stored gives back the same settings |
| `Settings.LoadEmptyIsDefault` | main.ts:18-21 | no stored data, or an empty object, yields `DEFAULT_SETTINGS` |
| `Command.RcloneCommand` | main.ts:167-168 | the command is the fixed `flatpak-spawn --host rclone bisync ` prefix, the source verbatim, one space, the destination verbatim, and the fixed exclude/progress suffix |
| `Command.CommandDeterminesSettings` | main.ts:167-168 | given the source's length, the command determines both settings: nothing is dropped or altered |
| `Command.UnquotedPathsAmbiguous` | main.ts:167-168 | with no quoting, two different settings can give the same command |
| `ModalState.Kill` | main.ts:131 | killing marks the process killed and keeps its command |
| `ModalState.Opened` | main.ts:107-126 | the opened dialog is idle, has no process, shows the ready text and is consistent |
| `ModalState.AppendedLines` | main.ts:148-154 | `appendToProgress` of an empty text changes nothing; otherwise the old lines stay and the new text's lines follow them |
| `ModalState.StepConsistent` | main.ts:128-237 | every handler keeps the buttons in agreement with `isSyncing`, a process present while syncing and the buffer newline-free |
| `ModalState.RunConsistent` | main.ts:128-237 | every sequence of events keeps the dialog consistent |
| `ModalState.StartWhileSyncingIgnored` | main.ts:157 | starting while syncing changes nothing; the running process is kept |
| `ModalState.StartLaunches` | main.ts:156-206 | a launching start sets `isSyncing`, "Starting sync...", a disabled "Syncing..." start button, "Cancel Sync", a new unkilled process running the rclone command and an empty buffer |
| `ModalState.StartLaunchFails` | main.ts:213-221 | a throwing launch ends not syncing with "Start Sync"/"Close" restored and the text replaced by "Failed to start sync: " and the error; the old handle stays |
| `ModalState.ExitReports` | main.ts:171-189 | the exit always clears `isSyncing` and restores the buttons; the text gains the completion line, or the error line and, only for non-empty stderr, the details |
| `ModalState.StdoutOverwrites` | main.ts:194-205 | a chunk that completes a line replaces the whole text by that batch's complete lines, which with a newline and the new buffer give back old buffer plus chunk |
| `ModalState.StdoutBuffers` | main.ts:194-198 | a chunk without a newline in the combined buffer only grows the buffer |
| `ModalState.StdoutIgnoresEarlierText` | main.ts:203 | the text after a split does not depend on the text shown before, stderr output included |
| `ModalState.CancelWhileSyncing` | main.ts:129-138 | cancelling a running sync kills its process, appends "\n\nSync cancelled.", restores the buttons and clears `isSyncing` |
| `ModalState.CancelWhenIdleCloses` | main.ts:142-144 | when not syncing the button only closes the dialog and changes no sync state |
| `ModalState.CloseKillsOnlyWhenSyncing` | main.ts:224-237 | `onClose` kills the process exactly when syncing, leaves the rest of the state alone and always empties the dialog |
| `ModalState.StdoutRunIsReplay` | main.ts:192-205 | a run of stdout chunks leaves the dialog's buffer equal to the line buffer's replay residual and keeps the sync state |
| `ModalState.StdoutAfterStartReconstructs` | main.ts:192-205 | after a launch, the lines moved out of the buffer followed by the dialog's buffer equal all stdout received |
| `ModalState.CancelThenExit` | main.ts:128-189 | the exit callback of a cancelled process appends its error line after the cancellation notice |
| `Modal.SyncModal.constructor` | main.ts:74-126 | a new, opened dialog is in the `Opened` state with the given settings |
| `Modal.SyncModal.AppendToProgress` | main.ts:148-154 | updates the text as `Appended` says and nothing else |
| `Modal.SyncModal.StartSync` | main.ts:156-222 | moves the fields as `AfterStart` and keeps them consistent |
| `Modal.SyncModal.OnExit` | main.ts:171-189 | moves the fields as `AfterExit` and keeps them consistent |
| `Modal.SyncModal.OnStdoutData` | main.ts:194-205 | updates the buffer and text in place as `AfterStdout` and keeps them consistent |
| `Modal.SyncModal.OnStderrData` | main.ts:208-212 | moves the fields as `AfterStderr` |
| `Modal.SyncModal.OnCancelClick` | main.ts:128-145 | moves the fields as `AfterCancelClick` and keeps them consistent |
| `Modal.SyncModal.OnClose` | main.ts:224-237 | moves the fields as `AfterClose` and keeps them consistent |
| `Modal.SyncOnce` | main.ts:171-205 | a launched sync whose stdout is "a" then "b\nc" and which succeeds ends idle, showing "ab" and the completion notice |

## Left out

- Process spawning, `exec` and real `kill()` signals (main.ts:11, 131, 171, 229). The process is an abstract handle with a `killed` flag. Its output, exit and launch failure are inputs. The exec error's stringification `${e}` is taken as the given text.
- The `try`/`catch` around `kill()` (main.ts:139-141, 231-233). The model's kill never fails, so the logging-only catch branches are not modelled.
- Asynchronous interleaving. Events form one sequential trace. Every run's stdout handler has its own `buffer`. If a process from an earlier run still sends output after a new run starts, that output would go to the old buffer. The model keeps only the current run's buffer, reset on each launch.
- The `stdout`/`stderr` presence guards (main.ts:193, 208). They always hold for a process started by `exec`, so the handlers are always installed.
- `Notice` pop-ups and `console.error` (main.ts:140, 188, 230, 232), the Obsidian `Plugin`/`Modal`/`Setting` API, DOM creation, styles and scrolling (main.ts:23-50, 79-126, 152-153, 240-298). These are UI. The text and button state are plain fields, and `contentEl.empty()` is a `closed` flag.
- `Modal.close()` (main.ts:143) is library code. It is modelled as running `onClose`, which is what it does.
- `loadData`/`saveData` persistence and the settings tab's `onChange` handlers (main.ts:56, 60-62, 263-266, 279-282). These are I/O. The dialog's settings are fixed for its lifetime. The source shares the plugin's settings object by reference, so an edit made while the dialog is open would reach the next start; that sharing is not modelled.
- `Settings.LoadSettings`: models only the two known fields, each present as a string or missing. Stored extra fields, or values that are not strings, which `Object.assign` would copy, are not modelled.
