/** The sync dialog's state (`SyncModal` in main.ts:65-238) as a value, and
    each of its handlers as a transition on that value. The process started
    by `exec` is an abstract handle that only records its command line and
    whether it was killed; its output, its exit and a failing launch are
    explicit inputs. */
module ModalState {
  import opened Wrappers
  import opened Text
  import opened LineBuffer
  import opened Settings
  import opened Command

  /** The child process: the command it runs and whether `kill()` was called. */
  datatype Process = Process(command: string, killed: bool)

  /** `kill()`: marks the process killed; killing again changes nothing. */
  function Kill(p: Process): (q: Process)
    ensures q.killed && q.command == p.command
  {
    p.(killed := true)
  }

  /** The dialog: `isSyncing`, `syncProcess` (None for `null`), the progress
      text, the start button's `disabled` flag and label, the cancel button's
      label, the stdout line buffer of the current run, and whether `onClose`
      has emptied the dialog. */
  datatype Dialog = Dialog(
    isSyncing: bool,
    syncProcess: Option<Process>,
    progressText: string,
    startDisabled: bool,
    startLabel: string,
    cancelLabel: string,
    buffer: string,
    closed: bool)

  const ReadyText: string := "Ready to sync. Click 'Start Sync' to begin."
  const StartSyncLabel: string := "Start Sync"
  const SyncingLabel: string := "Syncing..."
  const CloseLabel: string := "Close"
  const CancelSyncLabel: string := "Cancel Sync"

  /** The buttons and the busy flag agree, a sync in progress has a process,
      and the line buffer holds no complete line. */
  predicate Consistent(d: Dialog)
  {
    && (d.isSyncing ==> d.syncProcess.Some?)
    && d.startDisabled == d.isSyncing
    && d.startLabel == (if d.isSyncing then SyncingLabel else StartSyncLabel)
    && d.cancelLabel == (if d.isSyncing then CancelSyncLabel else CloseLabel)
    && NL !in d.buffer
  }

  /** The dialog once constructed and opened (main.ts:68-70, 107-126). */
  function Opened(): (d: Dialog)
    ensures Consistent(d) && !d.isSyncing && d.syncProcess.None?
    ensures d.progressText == "Ready to sync. Click 'Start Sync' to begin."
  {
    Dialog(false, None, ReadyText, false, StartSyncLabel, CloseLabel, "", false)
  }

  /** `appendToProgress(t)`: nothing for an empty `t`, otherwise a newline and
      `t` after the current text. */
  function Appended(text: string, t: string): string
  {
    if t == "" then text else text + [NL] + t
  }

  /** Not syncing, start button enabled, labels back to "Start Sync" and
      "Close" (main.ts:135-138, 172-177, 214-220). */
  function Idle(d: Dialog): Dialog
  {
    d.(isSyncing := false, startDisabled := false, startLabel := StartSyncLabel,
       cancelLabel := CloseLabel)
  }

  /** How `exec` behaves when asked to launch the command: it hands back a
      process, or it throws with the given (stringified) error. */
  datatype Launch = Spawned | Throws(error: string)

  /** `startSync` (main.ts:156-222). */
  function AfterStart(d: Dialog, settings: SyncPluginSettings, launch: Launch): Dialog
  {
    if d.isSyncing then d
    else
      var busy := d.(isSyncing := true, progressText := "Starting sync...",
                     startDisabled := true, startLabel := SyncingLabel,
                     cancelLabel := CancelSyncLabel);
      match launch
      case Spawned =>
        busy.(syncProcess := Some(Process(RcloneCommand(settings), false)), buffer := "")
      case Throws(e) =>
        Idle(busy).(progressText := "Failed to start sync: " + e)
  }

  /** The `exec` callback (main.ts:171-189); `error` is the error's message,
      None when the process succeeded. */
  function AfterExit(d: Dialog, error: Option<string>, stderr: string): Dialog
  {
    var idle := Idle(d);
    match error
    case Some(message) =>
      var reported := Appended(idle.progressText, "Error: " + message);
      idle.(progressText := if stderr != "" then Appended(reported, "\nDetails: " + stderr)
                            else reported)
    case None =>
      idle.(progressText := Appended(idle.progressText, "\nSync completed successfully!"))
  }

  /** The stdout `data` handler (main.ts:194-205): feed the chunk to the line
      buffer; when it split, show exactly the complete lines of this batch. */
  function AfterStdout(d: Dialog, chunk: string): Dialog
  {
    var f := Feed(d.buffer, chunk);
    d.(buffer := f.residual,
       progressText := if f.lines.Some? then Join(f.lines.value) else d.progressText)
  }

  /** The stderr `data` handler (main.ts:209-211). */
  function AfterStderr(d: Dialog, chunk: string): Dialog
  {
    d.(progressText := Appended(d.progressText, chunk))
  }

  /** `onClose` (main.ts:224-237): kill the process only while syncing, and
      always empty the dialog. */
  function AfterClose(d: Dialog): Dialog
  {
    if d.isSyncing && d.syncProcess.Some? then
      d.(syncProcess := Some(Kill(d.syncProcess.value)), closed := true)
    else
      d.(closed := true)
  }

  /** The cancel/close button (main.ts:128-145): cancel a running sync, or
      else close the dialog, which runs `onClose`. */
  function AfterCancelClick(d: Dialog): Dialog
  {
    if d.isSyncing && d.syncProcess.Some? then
      Idle(d.(syncProcess := Some(Kill(d.syncProcess.value)),
              progressText := d.progressText + "\n\nSync cancelled."))
    else
      AfterClose(d)
  }

  /** Everything that can happen to the dialog, one at a time. */
  datatype Event =
    | StartClicked(launch: Launch)
    | StdoutData(chunk: string)
    | StderrData(chunk: string)
    | ProcessExited(error: Option<string>, stderr: string)
    | CancelClicked
    | ModalClosed

  function Step(d: Dialog, settings: SyncPluginSettings, e: Event): Dialog
  {
    match e
    case StartClicked(launch) => AfterStart(d, settings, launch)
    case StdoutData(chunk) => AfterStdout(d, chunk)
    case StderrData(chunk) => AfterStderr(d, chunk)
    case ProcessExited(error, stderr) => AfterExit(d, error, stderr)
    case CancelClicked => AfterCancelClick(d)
    case ModalClosed => AfterClose(d)
  }

  function Run(d: Dialog, settings: SyncPluginSettings, events: seq<Event>): Dialog
    decreases |events|
  {
    if events == [] then d else Run(Step(d, settings, events[0]), settings, events[1..])
  }

  // ---------------------------------------------------------------------
  // Properties of the transitions

  /** `appendToProgress` adds nothing for an empty text; otherwise the old
      lines stay and the new text's lines follow them. */
  lemma AppendedLines(text: string, t: string)
    ensures t == "" ==> Appended(text, t) == text
    ensures t != "" ==> Split(Appended(text, t)) == Split(text) + Split(t)
  {
    if t != "" {
      SplitAroundNewline(text, t);
    }
  }

  /** Every handler keeps the dialog consistent. */
  lemma StepConsistent(d: Dialog, settings: SyncPluginSettings, e: Event)
    requires Consistent(d)
    ensures Consistent(Step(d, settings, e))
  {
  }

  /** Any sequence of events from an opened dialog keeps it consistent. */
  lemma {:induction false} RunConsistent(d: Dialog, settings: SyncPluginSettings, events: seq<Event>)
    requires Consistent(d)
    ensures Consistent(Run(d, settings, events))
    decreases |events|
  {
    if events != [] {
      StepConsistent(d, settings, events[0]);
      RunConsistent(Step(d, settings, events[0]), settings, events[1..]);
    }
  }

  /** Starting while a sync runs is rejected and changes nothing: the running
      process is neither replaced nor touched. */
  lemma StartWhileSyncingIgnored(d: Dialog, settings: SyncPluginSettings, launch: Launch)
    requires d.isSyncing
    ensures AfterStart(d, settings, launch) == d
  {
  }

  /** A start that launches the process: busy, "Starting sync...", start
      button disabled and labelled "Syncing...", cancel labelled "Cancel
      Sync", a fresh unkilled process running the rclone command, an empty
      line buffer; the dialog is otherwise unchanged. */
  lemma StartLaunches(d: Dialog, settings: SyncPluginSettings)
    requires !d.isSyncing
    ensures var r := AfterStart(d, settings, Spawned);
      && r.isSyncing && r.progressText == "Starting sync..."
      && r.startDisabled && r.startLabel == "Syncing..." && r.cancelLabel == "Cancel Sync"
      && r.syncProcess == Some(Process(RcloneCommand(settings), false))
      && r.buffer == "" && r.closed == d.closed
  {
  }

  /** A start whose launch throws: not syncing, buttons restored, the text
      replaced by the failure message; the previous process handle and the
      buffer are left as they were. */
  lemma StartLaunchFails(d: Dialog, settings: SyncPluginSettings, e: string)
    requires !d.isSyncing
    ensures var r := AfterStart(d, settings, Throws(e));
      && !r.isSyncing && !r.startDisabled
      && r.startLabel == "Start Sync" && r.cancelLabel == "Close"
      && r.progressText == "Failed to start sync: " + e
      && r.syncProcess == d.syncProcess && r.buffer == d.buffer && r.closed == d.closed
  {
  }

  /** The process's exit always ends the sync and restores the buttons, and
      leaves the process handle in place. On failure the text gains the error
      line and, when stderr is not empty, the details; on success the
      completion line. */
  lemma ExitReports(d: Dialog, error: Option<string>, stderr: string)
    ensures var r := AfterExit(d, error, stderr);
      && !r.isSyncing && !r.startDisabled
      && r.startLabel == "Start Sync" && r.cancelLabel == "Close"
      && r.syncProcess == d.syncProcess && r.buffer == d.buffer && r.closed == d.closed
    ensures error.None? ==>
      AfterExit(d, error, stderr).progressText
        == d.progressText + "\n\nSync completed successfully!"
    ensures error.Some? && stderr == "" ==>
      AfterExit(d, error, stderr).progressText
        == d.progressText + "\nError: " + error.value
    ensures error.Some? && stderr != "" ==>
      AfterExit(d, error, stderr).progressText
        == d.progressText + "\nError: " + error.value + "\n\nDetails: " + stderr
  {
  }

  /** A stdout chunk that completes a line replaces the whole text, including
      anything stderr appended, by the complete lines of this batch; these
      lines, a newline and the new buffer give back the old buffer and the
      chunk. */
  lemma StdoutOverwrites(d: Dialog, chunk: string)
    requires NL in d.buffer + chunk
    ensures var r := AfterStdout(d, chunk);
      && Feed(d.buffer, chunk).lines.Some?
      && r.progressText == Join(Feed(d.buffer, chunk).lines.value)
      && r.progressText + [NL] + r.buffer == d.buffer + chunk
      && NL !in r.buffer
      && r.isSyncing == d.isSyncing && r.syncProcess == d.syncProcess
  {
    FeedRoundTrip(d.buffer, chunk);
  }

  /** A stdout chunk without a newline only grows the buffer. */
  lemma StdoutBuffers(d: Dialog, chunk: string)
    requires NL !in d.buffer + chunk
    ensures AfterStdout(d, chunk) == d.(buffer := d.buffer + chunk)
  {
  }

  /** The display after a split depends only on the buffer and the chunk,
      never on the text shown before. */
  lemma StdoutIgnoresEarlierText(d1: Dialog, d2: Dialog, chunk: string)
    requires d1.buffer == d2.buffer
    requires NL in d1.buffer + chunk
    ensures AfterStdout(d1, chunk).progressText == AfterStdout(d2, chunk).progressText
  {
  }

  /** Cancelling a running sync kills its process, appends the cancellation
      notice, restores the buttons and keeps the dialog open. */
  lemma CancelWhileSyncing(d: Dialog)
    requires d.isSyncing && d.syncProcess.Some?
    ensures var r := AfterCancelClick(d);
      && !r.isSyncing && !r.startDisabled
      && r.startLabel == "Start Sync" && r.cancelLabel == "Close"
      && r.syncProcess == Some(Process(d.syncProcess.value.command, true))
      && r.progressText == d.progressText + "\n\nSync cancelled."
      && r.buffer == d.buffer && r.closed == d.closed
  {
  }

  /** When no sync runs the button only closes the dialog: no sync state
      changes and no process is killed. */
  lemma CancelWhenIdleCloses(d: Dialog)
    requires !(d.isSyncing && d.syncProcess.Some?)
    ensures AfterCancelClick(d) == d.(closed := true)
  {
  }

  /** Closing kills the process exactly when a sync runs, leaves `isSyncing`,
      the text and the buttons alone, and always empties the dialog. */
  lemma CloseKillsOnlyWhenSyncing(d: Dialog)
    ensures var r := AfterClose(d);
      && r.closed
      && r.isSyncing == d.isSyncing && r.progressText == d.progressText
      && r.startDisabled == d.startDisabled && r.startLabel == d.startLabel
      && r.cancelLabel == d.cancelLabel && r.buffer == d.buffer
      && (d.isSyncing && d.syncProcess.Some? ==>
            r.syncProcess == Some(Process(d.syncProcess.value.command, true)))
      && (!(d.isSyncing && d.syncProcess.Some?) ==> r.syncProcess == d.syncProcess)
  {
  }

  /** The stdout events of a stream of chunks. */
  function StdoutEvents(chunks: seq<string>): (es: seq<Event>)
    ensures |es| == |chunks|
    ensures forall k :: 0 <= k < |chunks| ==> es[k] == StdoutData(chunks[k])
    decreases |chunks|
  {
    if chunks == [] then [] else [StdoutData(chunks[0])] + StdoutEvents(chunks[1..])
  }

  /** Driving the dialog with stdout chunks only runs the line buffer over
      them: the dialog's buffer is the replay's residual, and nothing but the
      text and the buffer changes. */
  lemma {:induction false} StdoutRunIsReplay(d: Dialog, settings: SyncPluginSettings, chunks: seq<string>)
    ensures Run(d, settings, StdoutEvents(chunks)).buffer == Replay(d.buffer, chunks).residual
    ensures Run(d, settings, StdoutEvents(chunks)).isSyncing == d.isSyncing
    ensures Run(d, settings, StdoutEvents(chunks)).syncProcess == d.syncProcess
    decreases |chunks|
  {
    if chunks != [] {
      var es := StdoutEvents(chunks);
      assert es[0] == StdoutData(chunks[0]);
      assert es[1..] == StdoutEvents(chunks[1..]);
      StdoutRunIsReplay(AfterStdout(d, chunks[0]), settings, chunks[1..]);
    }
  }

  /** After a launch, the stdout seen so far is the lines moved out of the
      buffer followed by what the buffer still holds: no output is lost,
      whatever the chunk boundaries. */
  lemma StdoutAfterStartReconstructs(d: Dialog, settings: SyncPluginSettings, chunks: seq<string>)
    requires !d.isSyncing
    ensures var started := AfterStart(d, settings, Spawned);
      Replay("", chunks).emitted + Run(started, settings, StdoutEvents(chunks)).buffer
        == Concat(chunks)
  {
    var started := AfterStart(d, settings, Spawned);
    StdoutRunIsReplay(started, settings, chunks);
    ReplayReconstructs("", chunks);
    assert "" + Concat(chunks) == Concat(chunks);
  }

  /** The exit callback still fires for a cancelled process: the dialog then
      shows the cancellation notice followed by the error line. */
  lemma CancelThenExit(d: Dialog, message: string)
    requires d.isSyncing && d.syncProcess.Some?
    ensures AfterExit(AfterCancelClick(d), Some(message), "").progressText
            == d.progressText + "\n\nSync cancelled.\nError: " + message
  {
  }
}
