# Antergos Welcome: the command channel and the autostart toggle

Antergos Welcome is a small welcome screen: a GTK window around a WebKit
view that shows a bundled HTML page. The page talks to the host by
navigating to synthetic `cmd://<name>` URIs; the host answers by launching
a help viewer, quitting, opening a link in the browser, or toggling whether
the welcome screen starts at login (the presence of one symbolic link in
`~/.config/autostart/`), and it pushes a few facts (the architecture label,
the autostart checkbox, which buttons to show) back into the page.

This project models the part of `antergos-welcome.py` that decides things:

- `UriCommands` (`uri_commands.dfy`): the fragment strip and the `cmd://`
  filter of `AppView._load_changed_cb`, and the dispatcher
  `AppView._do_command`, as pure functions returning a `Command` value in
  place of the side effect each command has. `CommandName`/`CommandUri`
  give the inverse (what the page sends for a command), and the lemmas
  prove the round trips, the truncation of link targets at `#`, and that
  exactly the `cmd://` URIs are intercepted.
- `WelcomeConfig` (`welcome_config.dfy`): the `WelcomeConfig` class. Its
  filesystem is the field `linkPresent` (the link entry itself) and the
  constant `targetInstalled` (the desktop file the link points to);
  `os.path.exists`, which follows the link, is `LinkExists()`, true only
  when both hold. `CreateLink`/`RemoveLink` take the operating system's
  verdict as an input `succeeds`; the `autostart`
  setter (`SetAutostart`) and the `toggle-startup` action
  (`ToggleAutostart`) are proved against the specification functions
  `SetterCall` (which call is made), `LinkAfter` (the link entry
  afterwards) and `ExistsAfter` (what the final re-read sees). A ghost log `calls` records the filesystem calls, so "the
  filesystem is not touched" is stated as "the log is unchanged".
- `PageView` (`page_view.dfy`): `_push_config` as a sequence of jQuery
  calls (`PageOp`) run over a model of the page (element id to inner HTML
  and classes), with the lemma that a freshly loaded page ends up showing
  the architecture, exactly one checkbox class, and exactly the live-session
  or the installed-system buttons.
- `AppViewState` (`app_view.dfy`): the `AppView` class owning a
  configuration, whose handlers return the chosen command and page calls
  and change the configuration only for `toggle-startup`.
- `WelcomeApp` (`welcome_app.dfy`): the data-directory choice of
  `WelcomeApp.__init__`, with POSIX `os.path.join` written out.

Inputs standing for the operating system: the machine field of
`os.uname()`, whether `/bootmnt/antergos` exists, whether the autostart link
entry is present, whether the desktop file it points to is installed, the set of existing paths (for the data directory), and whether each
`os.symlink`/`os.unlink` succeeds.

The link's existence does not always match the last requested toggle
state: the code swallows a failed `os.symlink`/`os.unlink`, so that holds only
when the call succeeds and the desktop file is installed (`ExistsAfter`,
`FailureLeavesLink`); what always holds is that the cached flag equals what
`os.path.exists` reports afterwards. Without the desktop file, a successful
`os.symlink` leaves a dangling link that `os.path.exists` does not see, and
every later request to turn autostart on calls `os.symlink` again, which fails
on the existing entry, so autostart can never be turned on
(`DanglingLinkBlocksAutostart`).

## Model

| member | source | states |
|---|---|---|
| `WelcomeConfig.ArchLabel` | antergos-welcome.py:46-49 | the label is `64-bit` exactly when the machine is `x86_64`, and `32-bit` exactly otherwise |
| `WelcomeConfig.SetterCall` | antergos-welcome.py:82-95 | no call exactly when `os.path.exists` of the autostart path already equals the request; a symlink from the desktop file to the autostart path exactly when autostart is requested and the path does not exist; an unlink of the autostart path exactly when autostart is refused and the path exists |
| `WelcomeConfig.Exists` | antergos-welcome.py:82-98 | `os.path.exists` of the autostart path follows the link: true only when the entry is present, and false whenever the desktop file is missing |
| `WelcomeConfig.LinkAfter` | antergos-welcome.py:82-95 | after the setter the link entry is as before when the call fails or none was needed, a present entry is kept when autostart is requested (`os.symlink` fails on it), and with the desktop file installed a success makes it the requested state |
| `WelcomeConfig.ExistsAfter` | antergos-welcome.py:82-98 | the re-read sees the requested state when the call succeeds and the desktop file is installed, the old existence when the call fails, and never a link whose desktop file is missing |
| `WelcomeConfig.SetterIdempotent` | antergos-welcome.py:82-98 | once a request has been met, repeating it makes no filesystem call and leaves the link as it is, whatever the second call would have done |
| `WelcomeConfig.FailureLeavesLink` | antergos-welcome.py:84-95 | a failed create or remove leaves the link entry unchanged, so a request that needed a call stays unmet |
| `WelcomeConfig.DanglingLinkBlocksAutostart` | antergos-welcome.py:82-98 | without the desktop file autostart never reads as on; once a dangling entry exists, every request to turn it on calls `os.symlink` again and leaves the entry as it is |
| `WelcomeConfig.Config.constructor` | antergos-welcome.py:44-70 | the arch label from the machine string, the live flag from the marker, and the cached flag equal to what `os.path.exists` reports for the link |
| `WelcomeConfig.Config.CreateLink` | antergos-welcome.py:84-89 | `os.symlink` logs one symlink call and succeeds only when asked to and no entry is present (dangling or not); the entry is present afterwards iff it was before or the call succeeded |
| `WelcomeConfig.Config.RemoveLink` | antergos-welcome.py:92-95 | `os.unlink` logs one unlink call and succeeds only when asked to and the entry is present; the entry is present afterwards iff it was and the call failed |
| `WelcomeConfig.Config.SetAutostart` | antergos-welcome.py:80-98 | the new entry is `LinkAfter(old entry, target installed, request, success)`, the log grows by exactly the `SetterCall` of the old existence, the cached flag is `ExistsAfter(...)` and equals `os.path.exists` afterwards, a success with the desktop file installed gives the requested state, and a request already met touches nothing |
| `WelcomeConfig.Config.ToggleAutostart` | antergos-welcome.py:160-162 | requests the negation of the cached flag; on success with the desktop file installed the flag flips, on failure the entry is unchanged, the log grows by the setter's call, and the cached flag always equals `os.path.exists` afterwards |
| `UriCommands.IndexOf` | antergos-welcome.py:134 | `None` exactly when the character is absent (Python's `ValueError`), otherwise the index of its first occurrence |
| `UriCommands.StripFragment` | antergos-welcome.py:132-137 | the result is a prefix of the URI; without `#`, or with `#` first, it is the URI itself; otherwise it is the part before the first `#` |
| `UriCommands.Dispatch` | antergos-welcome.py:150-167 | each of the four keywords, compared exactly, selects its own action; a `link?` prefix opens the rest after its 5 characters; anything else is unknown under its own name |
| `UriCommands.DoCommand` | antergos-welcome.py:146-167 | exactly 6 characters are dropped when the URI begins with `cmd://`, a URI without the prefix is dispatched unchanged, and `close` is chosen exactly for `cmd://close` or `close` |
| `UriCommands.Intercept` | antergos-welcome.py:131-140 | a command is produced exactly when the URI begins with `cmd://`, and it is the dispatch of the fragment-stripped URI |
| `UriCommands.CommandName` | antergos-welcome.py:150-165 | the name the page sends for a command; a link's name carries the `link?` prefix |
| `UriCommands.CommandUri` | antergos-welcome.py:147-148 | the URI for a command is `cmd://` followed by its name |
| `UriCommands.DispatchCommandName` | antergos-welcome.py:150-167 | every command the page can obtain survives a trip through its name |
| `UriCommands.CommandNameDispatch` | antergos-welcome.py:150-167 | every name dispatches to an obtainable command whose name is that name: `Dispatch` is a bijection between names and obtainable commands |
| `UriCommands.KeywordsDistinct` | antergos-welcome.py:150-163 | two different keywords dispatch to two different actions |
| `UriCommands.IndexOfAfterPrefix` | antergos-welcome.py:134 | searching past a prefix that lacks the character shifts the found index by the prefix's length |
| `UriCommands.BeforeHash` | antergos-welcome.py:134-135 | the longest prefix of a string without `#`, followed in the string by `#` when there is one |
| `UriCommands.StripAfterPrefix` | antergos-welcome.py:132-137 | behind a non-empty prefix free of `#`, the fragment strip cuts the URI at the first `#` of what follows the prefix |
| `UriCommands.LinkTargetTruncated` | antergos-welcome.py:132-165 | `cmd://link?<url>` opens `url` cut before its first `#`: the fragment strip runs before the dispatcher |
| `UriCommands.InterceptCommandUri` | antergos-welcome.py:131-167 | the URI of an obtainable command whose name has no `#` is intercepted as exactly that command |
| `UriCommands.StripFragmentIdempotent` | antergos-welcome.py:132-137 | stripping the fragment twice gives the same URI as stripping once |
| `UriCommands.UnknownKeepsName` | antergos-welcome.py:166-167 | an unknown command is reported under all of the stripped URI after `cmd://` |
| `PageView.PushConfigOps` | antergos-welcome.py:114-126 | five calls: the label into `#arch`, `icon-check` switched to the flag and `icon-check-empty` to its negation, then `hide` removed from two different buttons, both installer buttons when live and both build/donate buttons otherwise |
| `PageView.Apply` | antergos-welcome.py:115-126 | one jQuery call changes only its element, sets its HTML or switches one class, and does nothing when the element is absent |
| `PageView.Run` | antergos-welcome.py:115-126 | running calls keeps the set of elements of the page |
| `PageView.PushConfigOnAnyPage` | antergos-welcome.py:114-126 | on any page, also one already pushed before (the re-push after `toggle-startup`, line 163): the label in `#arch`, exactly the right checkbox class in `#autostart`, the session's two buttons shown, and every other element unchanged |
| `PageView.PushConfigShows` | antergos-welcome.py:114-126 | on a freshly loaded page, pushing the configuration shows the label, carries `icon-check` iff autostart is on and `icon-check-empty` iff it is off, and shows exactly `{install, install-cli}` when live and exactly `{build, donate}` otherwise |
| `PageView.CheckClassesComplementary` | antergos-welcome.py:116-119 | the two checkbox classes are switched to opposite values |
| `AppViewState.AppView.constructor` | antergos-welcome.py:106-109 | the view owns a new configuration built from the start-up facts, in sync with the filesystem and with an empty call log |
| `AppViewState.AppView.PushConfig` | antergos-welcome.py:114-126 | the page calls are those of `PushConfigOps` for the current configuration |
| `AppViewState.AppView.DoCommand` | antergos-welcome.py:146-167 | the command is that of `UriCommands.DoCommand`; any other command than `toggle-startup` leaves the configuration unchanged and makes no page call; `toggle-startup` sets the entry and the call log as the setter does, keeps the flag in sync, flips it on success with the desktop file installed, and re-pushes the page state |
| `AppViewState.AppView.LoadStarted` | antergos-welcome.py:131-140 | the command is that of `Intercept`; a non-`cmd://` URI or any command other than `toggle-startup` leaves the configuration unchanged and makes no page call; `toggle-startup` sets the entry and the call log as the setter does, keeps the flag in sync, flips it on success with the desktop file installed, and re-pushes the page state |
| `WelcomeApp.Join` | antergos-welcome.py:177-180 | POSIX `os.path.join` of two parts: an absolute second part replaces the first; otherwise the result starts with the first part and ends with the second, and is one character longer than the two exactly when a `/` has to be inserted (the first part is non-empty and does not end in `/`) |
| `WelcomeApp.DataPath` | antergos-welcome.py:176-186 | a directory is chosen exactly when the relative `data/` or the system share directory exists; the choice exists, is one of the two, and is the relative one whenever that exists; otherwise the result is an error |

## Left out

- GTK window construction, the scrolled window and box layout, the window icon, the main loop and the delete-event handler (`_build_app`, `run`, `close`): toolkit calls with no decision in them.
- WebKit's load-changed and load-failed signals as events, and `_load_failed_cb`: the browser engine's behaviour; only the two branches of `_load_changed_cb` are modelled, as `AppView.LoadStarted` (STARTED) and `AppView.PushConfig` (FINISHED).
- The JavaScript text that `_push_config` sends and `to_json`: only which element, which class and which value each call uses is modelled.
- `subprocess.Popen` of `yelp`/`khelpcenter`, `webbrowser.open_new_tab`, `Gtk.main_quit` and the "Unknown command" line on standard output: external effects, represented only by the `Command` value.
- The three status lines `WelcomeApp.__init__` prints (relative path in use, system path in use, data directory missing): output only; which case applies is the `DataPath` result.
- `os.uname`, `inspect.getfile`, `os.path.abspath` and `os.path.expanduser`: operating-system queries, taken as inputs; the autostart path is kept unexpanded, with its `~`. `os.path.exists` of the live marker and of the data directories is an input; of the autostart link it is computed from the link entry and the desktop file (`Exists`).
- Creating the configuration directory with `os.makedirs` and `_welcome_bin_path`: nothing in the program reads either again.
- `urllib.request.pathname2url`, the `file://` URI of `index.html` and the icon path: a library wrapper whose behaviour is not visible here.
- `signal` handling and `sys.exit(1)`: process control; a missing data directory is the `Err(NoDataDirectory)` result.
- `view.get_uri()` returning `None`: `uri.index` then raises an `AttributeError` inside the `try`, which `except ValueError` does not catch; the URI is modelled as a string.
- WelcomeConfig.Config.constructor: assumes that an entry at the autostart path is the program's own symlink to `/usr/share/applications/antergos-welcome.desktop`, so it exists for `os.path.exists` only when that desktop file is installed; a regular file or a link to another target at that path, which `os.path.exists` reports as existing without the desktop file (and which the first toggle would then unlink), is not a start-up state the model can express.
- A link changed by some other program between two calls: the model's filesystem changes only through the setter, so the cached flag and the link always agree (`Synced`); likewise the desktop file's presence (`targetInstalled`) is fixed for the configuration's life.
