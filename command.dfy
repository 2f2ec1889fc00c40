/** The shell command `startSync` hands to `exec` (main.ts:167-168): always a
    bidirectional rclone sync, run on the host through flatpak-spawn. */
module Command {
  import opened Settings

  const Prefix: string := "flatpak-spawn --host rclone bisync "
  const Suffix: string := " --exclude \".obsidian/plugins/**\" --progress"

  /** The command line, with source and destination inserted verbatim: no
      quoting or escaping, one space between them. */
  function RcloneCommand(settings: SyncPluginSettings): (cmd: string)
    ensures |cmd| == |Prefix| + |settings.syncSource| + 1 + |settings.syncDestination| + |Suffix|
    ensures cmd[..|Prefix|] == "flatpak-spawn --host rclone bisync "
    ensures cmd[|Prefix|..|Prefix| + |settings.syncSource|] == settings.syncSource
    ensures cmd[|Prefix| + |settings.syncSource|] == ' '
    ensures cmd[|Prefix| + |settings.syncSource| + 1..|cmd| - |Suffix|] == settings.syncDestination
    ensures cmd[|cmd| - |Suffix|..] == " --exclude \".obsidian/plugins/**\" --progress"
  {
    Prefix + settings.syncSource + " " + settings.syncDestination + Suffix
  }

  /** Once the length of the source is known the command gives back both
      settings: nothing of either is dropped or altered. */
  lemma CommandDeterminesSettings(a: SyncPluginSettings, b: SyncPluginSettings)
    requires RcloneCommand(a) == RcloneCommand(b)
    requires |a.syncSource| == |b.syncSource|
    ensures a == b
  {
  }

  /** Because nothing is quoted, a space inside a path moves the boundary
      between the two arguments: these two different settings give the same
      command line. */
  lemma UnquotedPathsAmbiguous()
    ensures SyncPluginSettings("a b", "c") != SyncPluginSettings("a", "b c")
    ensures RcloneCommand(SyncPluginSettings("a b", "c")) == RcloneCommand(SyncPluginSettings("a", "b c"))
  {
  }
}
