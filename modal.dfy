/** The `SyncModal` class (main.ts:65-238): its fields are updated in place
    by its handlers, each proved to move the dialog exactly as the matching
    transition of `ModalState` does. */
module Modal {
  import opened Wrappers
  import opened Text
  import opened Settings
  import opened Command
  import ModalState
  import opened LineBuffer

  class SyncModal {
    const settings: SyncPluginSettings
    var isSyncing: bool
    var syncProcess: Option<ModalState.Process>
    var progressText: string
    var startDisabled: bool
    var startLabel: string
    var cancelLabel: string
    /** The `buffer` of the current run's stdout handler. */
    var buffer: string
    /** Whether `onClose` has emptied the dialog. */
    var closed: bool

    /** The dialog the fields make up. */
    function State(): ModalState.Dialog
      reads this
    {
      ModalState.Dialog(isSyncing, syncProcess, progressText, startDisabled,
                        startLabel, cancelLabel, buffer, closed)
    }

    predicate Valid()
      reads this
    {
      ModalState.Consistent(State())
    }

    /** `new SyncModal(app, settings).open()`: the constructor and `onOpen`,
        which every caller runs together (main.ts:34, 44). */
    constructor (settings: SyncPluginSettings)
      ensures Valid()
      ensures this.settings == settings
      ensures State() == ModalState.Opened()
    {
      this.settings := settings;
      isSyncing := false;
      syncProcess := None;
      progressText := "Ready to sync. Click 'Start Sync' to begin.";
      startDisabled := false;
      startLabel := "Start Sync";
      cancelLabel := "Close";
      buffer := "";
      closed := false;
    }

    /** `appendToProgress` (main.ts:148-154). */
    method AppendToProgress(text: string)
      modifies this
      ensures State() == old(State()).(progressText := ModalState.Appended(old(progressText), text))
    {
      if text == "" {
        return;
      }
      progressText := progressText + "\n" + text;
    }

    /** Enabled start button, labels "Start Sync" and "Close". */
    method RestoreButtons()
      modifies this
      ensures State() == old(State()).(startDisabled := false, startLabel := "Start Sync",
                                       cancelLabel := "Close")
    {
      startDisabled := false;
      startLabel := "Start Sync";
      cancelLabel := "Close";
    }

    /** `startSync` (main.ts:156-222); `launch` says whether `exec` throws. */
    method StartSync(launch: ModalState.Launch)
      requires Valid()
      modifies this
      ensures Valid()
      ensures State() == ModalState.AfterStart(old(State()), settings, launch)
    {
      if isSyncing {
        return;
      }
      isSyncing := true;
      progressText := "Starting sync...";
      startDisabled := true;
      startLabel := "Syncing...";
      cancelLabel := "Cancel Sync";

      var command := RcloneCommand(settings);
      match launch
      case Spawned =>
        syncProcess := Some(ModalState.Process(command, false));
        buffer := "";
      case Throws(e) =>
        isSyncing := false;
        progressText := "Failed to start sync: " + e;
        RestoreButtons();
    }

    /** The `exec` callback (main.ts:171-189). */
    method OnExit(error: Option<string>, stderr: string)
      requires Valid()
      modifies this
      ensures Valid()
      ensures State() == ModalState.AfterExit(old(State()), error, stderr)
    {
      isSyncing := false;
      RestoreButtons();
      if error.Some? {
        AppendToProgress("Error: " + error.value);
        if stderr != "" {
          AppendToProgress("\nDetails: " + stderr);
        }
        return;
      }
      AppendToProgress("\nSync completed successfully!");
    }

    /** The stdout `data` handler (main.ts:194-205). */
    method OnStdoutData(data: string)
      requires Valid()
      modifies this
      ensures Valid()
      ensures State() == ModalState.AfterStdout(old(State()), data)
    {
      buffer := buffer + data;
      if NL in buffer {
        var lines := Split(buffer);
        buffer := lines[|lines| - 1];
        progressText := Join(lines[..|lines| - 1]);
      }
    }

    /** The stderr `data` handler (main.ts:209-211). */
    method OnStderrData(data: string)
      requires Valid()
      modifies this
      ensures Valid()
      ensures State() == ModalState.AfterStderr(old(State()), data)
    {
      AppendToProgress(data);
    }

    /** The cancel/close button's `onclick` (main.ts:128-145). */
    method OnCancelClick()
      requires Valid()
      modifies this
      ensures Valid()
      ensures State() == ModalState.AfterCancelClick(old(State()))
    {
      if isSyncing && syncProcess.Some? {
        syncProcess := Some(ModalState.Kill(syncProcess.value));
        progressText := progressText + "\n\nSync cancelled.";
        RestoreButtons();
        isSyncing := false;
      } else {
        OnClose();
      }
    }

    /** `onClose` (main.ts:224-237). */
    method OnClose()
      requires Valid()
      modifies this
      ensures Valid()
      ensures State() == ModalState.AfterClose(old(State()))
    {
      if isSyncing && syncProcess.Some? {
        syncProcess := Some(ModalState.Kill(syncProcess.value));
      }
      closed := true;
    }
  }

  /** A client of the class: a launched sync whose stdout arrives as "a" and
      "b\nc" and which then succeeds ends idle, showing the one complete line
      and the completion notice. */
  method SyncOnce(settings: SyncPluginSettings) returns (shown: string, syncing: bool)
    ensures shown == "ab" + "\n\nSync completed successfully!"
    ensures !syncing
  {
    var modal := new SyncModal(settings);
    modal.StartSync(ModalState.Spawned);
    modal.OnStdoutData("a");
    assert modal.buffer == "a";
    assert "a" + "b\nc" == "ab" + [NL] + "c";
    SplitAroundNewline("ab", "c");
    SplitNoNewline("ab");
    SplitNoNewline("c");
    modal.OnStdoutData("b\nc");
    assert modal.progressText == "ab";
    ghost var before := modal.State();
    modal.OnExit(None, "");
    ModalState.ExitReports(before, None, "");
    shown := modal.progressText;
    syncing := modal.isSyncing;
  }
}
