/**
  `WelcomeConfig`: the few facts the welcome screen shows or changes.

  The architecture label and the live-session flag are read once, when
  the configuration is built. The autostart setting is the presence of
  one symbolic link in the user's autostart directory; the configuration
  caches it and its setter creates or removes the link, swallowing any
  failure, and then re-reads the cache from the filesystem.

  The filesystem is represented by two booleans: whether the link entry
  itself is present (`linkPresent`) and whether the desktop file it points
  to is installed (`targetInstalled`). `os.path.exists` follows the link,
  so the setter's guards and its re-read see the link only when both hold
  (`Exists`), while `os.symlink` fails on any present entry, even one
  whose target is missing. Whether `os.symlink` or `os.unlink` succeeds
  otherwise is an input `succeeds`, so that every outcome the operating
  system may produce can be chosen.
*/
module WelcomeConfig {
  import opened Wrappers

  const X86_64 := "x86_64"
  const Label64 := "64-bit"
  const Label32 := "32-bit"

  /** Where the autostart link points, and where it lives (before `~` is expanded). */
  const DesktopFile := "/usr/share/applications/antergos-welcome.desktop"
  const AutostartPath := "~/.config/autostart/antergos-welcome.desktop"

  /** The architecture label, from the machine field of `os.uname()`. */
  function ArchLabel(machine: string): (name: string)
    ensures name == Label64 <==> machine == X86_64
    ensures name == Label32 <==> machine != X86_64
  {
    if machine == X86_64 then Label64 else Label32
  }

  /** A filesystem change the setter asks the operating system for. */
  datatype FsCall =
    | Symlink(target: string, link: string)
    | Unlink(link: string)

  /**
    The call the autostart setter makes when `os.path.exists` of the
    autostart path is `pathExists` and the requested state is `state`:
    create when asked for autostart and the path does not exist, remove
    when asked against it and the path exists, and nothing when the
    request already holds.
  */
  function SetterCall(pathExists: bool, state: bool): (call: Option<FsCall>)
    ensures call.None? <==> pathExists == state
    ensures call.Some? && call.value.Symlink? <==> state && !pathExists
    ensures call.Some? && call.value.Unlink? <==> !state && pathExists
    ensures call.Some? && call.value.Symlink? ==> call.value == Symlink(DesktopFile, AutostartPath)
    ensures call.Some? && call.value.Unlink? ==> call.value == Unlink(AutostartPath)
  {
    if state && !pathExists then Some(Symlink(DesktopFile, AutostartPath))
    else if !state && pathExists then Some(Unlink(AutostartPath))
    else None
  }

  /** The calls of a setter run as a sequence: empty or one. */
  function CallLog(call: Option<FsCall>): seq<FsCall> {
    match call
    case None => []
    case Some(f) => [f]
  }

  /** `os.path.exists` of the autostart path: the link is there and so is its target. */
  function Exists(present: bool, installed: bool): (e: bool)
    ensures e ==> present
    ensures installed ==> e == present
    ensures !installed ==> !e
  {
    present && installed
  }

  /**
    Whether the link entry is present after the setter, given whether it
    was present before, whether its target is installed, the requested
    state and whether the call (if one is made) succeeds. The guards see
    `Exists`; `os.symlink` fails on a present entry, dangling or not.
  */
  function LinkAfter(present: bool, installed: bool, state: bool, succeeds: bool): (after: bool)
    ensures SetterCall(Exists(present, installed), state).None? ==> after == present
    ensures !succeeds ==> after == present
    ensures present && state ==> after == present
    ensures succeeds && installed ==> after == state
  {
    match SetterCall(Exists(present, installed), state)
    case None => present
    case Some(Symlink(_, _)) => succeeds || present
    case Some(Unlink(_)) => !succeeds && present
  }

  /**
    What the setter's re-read at its end sees: autostart is on afterwards
    exactly when the link entry is present and its target installed.
  */
  function ExistsAfter(present: bool, installed: bool, state: bool, succeeds: bool): (e: bool)
    ensures succeeds && installed ==> e == state
    ensures !succeeds ==> e == Exists(present, installed)
    ensures !installed ==> !e
  {
    Exists(LinkAfter(present, installed, state, succeeds), installed)
  }

  /**
    Once a request has been met, repeating it makes no call and changes
    nothing, whatever the operating system would have done.
  */
  lemma SetterIdempotent(present: bool, installed: bool, state: bool, first: bool, second: bool)
    requires (first && installed) || Exists(present, installed) == state
    ensures SetterCall(ExistsAfter(present, installed, state, first), state).None?
    ensures LinkAfter(LinkAfter(present, installed, state, first), installed, state, second)
         == LinkAfter(present, installed, state, first)
  {
  }

  /** With a failing call the request is simply left unmet. */
  lemma FailureLeavesLink(present: bool, installed: bool, state: bool)
    ensures LinkAfter(present, installed, state, false) == present
    ensures SetterCall(Exists(present, installed), state).Some? ==>
      ExistsAfter(present, installed, state, false) != state
  {
  }

  /**
    Without the desktop file, autostart can never be turned on: the first
    request leaves a dangling link that the re-read does not see, and
    every later request calls `os.symlink`, which fails on that entry.
  */
  lemma DanglingLinkBlocksAutostart(present: bool, succeeds: bool, again: bool)
    ensures !ExistsAfter(present, false, true, succeeds)
    ensures present || succeeds ==> LinkAfter(present, false, true, succeeds)
    ensures SetterCall(Exists(true, false), true) == Some(Symlink(DesktopFile, AutostartPath))
    ensures LinkAfter(true, false, true, again) && !ExistsAfter(true, false, true, again)
  {
  }

  class Config {
    /** `_arch`: the architecture label. */
    const arch: string
    /** `_live`: whether the live-session marker was present at start-up. */
    const live: bool
    /** The filesystem: whether the desktop file the link points to is installed. */
    const targetInstalled: bool
    /** `_autostart`: the cached autostart flag. */
    var autostart: bool
    /** The filesystem: whether the autostart link entry is present. */
    var linkPresent: bool
    /** The filesystem changes the configuration has asked for, oldest first. */
    ghost var calls: seq<FsCall>

    /** `os.path.exists(self._autostart_path)`. */
    predicate LinkExists()
      reads this
    {
      Exists(linkPresent, targetInstalled)
    }

    /** The cached flag agrees with the filesystem. */
    predicate Synced()
      reads this
    {
      autostart == LinkExists()
    }

    /**
      `WelcomeConfig.__init__`, with `os.uname()[4]`, the existence of the
      live marker, the presence of the autostart link and the presence of
      its target as inputs.
    */
    constructor (machine: string, liveMarker: bool, present: bool, installed: bool)
      ensures arch == ArchLabel(machine) && live == liveMarker
      ensures linkPresent == present && targetInstalled == installed
      ensures autostart == Exists(present, installed) && Synced()
      ensures calls == []
    {
      arch := ArchLabel(machine);
      live := liveMarker;
      targetInstalled := installed;
      linkPresent := present;
      autostart := Exists(present, installed);
      calls := [];
    }

    /** `os.symlink` of the autostart link; it fails when an entry is already there. */
    method CreateLink(succeeds: bool) returns (ok: bool)
      modifies this`linkPresent, this`calls
      ensures ok == (succeeds && !old(linkPresent))
      ensures linkPresent == (old(linkPresent) || ok)
      ensures calls == old(calls) + [Symlink(DesktopFile, AutostartPath)]
    {
      ok := succeeds && !linkPresent;
      if ok {
        linkPresent := true;
      }
      calls := calls + [Symlink(DesktopFile, AutostartPath)];
    }

    /** `os.unlink` of the autostart link; it fails when there is no entry. */
    method RemoveLink(succeeds: bool) returns (ok: bool)
      modifies this`linkPresent, this`calls
      ensures ok == (succeeds && old(linkPresent))
      ensures linkPresent == (old(linkPresent) && !ok)
      ensures calls == old(calls) + [Unlink(AutostartPath)]
    {
      ok := succeeds && linkPresent;
      if ok {
        linkPresent := false;
      }
      calls := calls + [Unlink(AutostartPath)];
    }

    /**
      The `autostart` property setter: touches the filesystem only when
      the request does not already hold, ignores a failure, and always
      re-reads the cached flag from the filesystem.
    */
    method SetAutostart(state: bool, succeeds: bool)
      modifies this`autostart, this`linkPresent, this`calls
      ensures linkPresent == LinkAfter(old(linkPresent), targetInstalled, state, succeeds)
      ensures calls == old(calls) + CallLog(SetterCall(old(LinkExists()), state))
      ensures Synced() && autostart == ExistsAfter(old(linkPresent), targetInstalled, state, succeeds)
      ensures succeeds && targetInstalled ==> autostart == state
      ensures old(LinkExists()) == state ==> linkPresent == old(linkPresent) && calls == old(calls)
    {
      var ok;
      if state && !LinkExists() {
        ok := CreateLink(succeeds);
      } else if !state && LinkExists() {
        ok := RemoveLink(succeeds);
      }
      autostart := LinkExists();
    }

    /**
      The `toggle-startup` command: `autostart ^= True` requests the
      negation of the cached flag.
    */
    method ToggleAutostart(succeeds: bool)
      modifies this`autostart, this`linkPresent, this`calls
      ensures linkPresent == LinkAfter(old(linkPresent), targetInstalled, !old(autostart), succeeds)
      ensures calls == old(calls) + CallLog(SetterCall(old(LinkExists()), !old(autostart)))
      ensures Synced() && autostart == ExistsAfter(old(linkPresent), targetInstalled, !old(autostart), succeeds)
      ensures succeeds && targetInstalled ==> autostart == !old(autostart)
      ensures !succeeds ==> linkPresent == old(linkPresent)
    {
      SetAutostart(!autostart, succeeds);
    }
  }
}
