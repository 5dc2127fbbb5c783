/**
  `AppView`: the web view's handlers, over the configuration it owns.

  Commands other than `toggle-startup` only choose an outside effect (a
  help viewer, quitting, a browser tab, a log line), which is returned as
  the `Command` value; `toggle-startup` also flips the autostart setting
  and re-pushes the page state.
*/
module AppViewState {
  import opened Wrappers
  import UriCommands
  import WelcomeConfig
  import PageView

  class AppView {
    /** `_config`, built when the view is. */
    const config: WelcomeConfig.Config

    constructor (machine: string, liveMarker: bool, present: bool, installed: bool)
      ensures fresh(config)
      ensures config.arch == WelcomeConfig.ArchLabel(machine) && config.live == liveMarker
      ensures config.linkPresent == present && config.targetInstalled == installed
      ensures config.Synced() && config.calls == []
    {
      config := new WelcomeConfig.Config(machine, liveMarker, present, installed);
    }

    /** `_push_config`: the page calls that show the current configuration. */
    method PushConfig() returns (ops: seq<PageView.PageOp>)
      ensures ops == PageView.PushConfigOps(config.arch, config.autostart, config.live)
    {
      ops := PageView.PushConfigOps(config.arch, config.autostart, config.live);
    }

    /**
      `_do_command`: the chosen command, and the page calls it makes. Only
      `toggle-startup` touches the configuration.
    */
    method DoCommand(uri: string, succeeds: bool) returns (cmd: UriCommands.Command, ops: seq<PageView.PageOp>)
      modifies config
      ensures cmd == UriCommands.DoCommand(uri)
      ensures cmd != UriCommands.ToggleStartup ==> unchanged(config) && ops == []
      ensures cmd == UriCommands.ToggleStartup ==>
        && config.linkPresent == WelcomeConfig.LinkAfter(old(config.linkPresent), config.targetInstalled, !old(config.autostart), succeeds)
        && config.calls == old(config.calls) + WelcomeConfig.CallLog(WelcomeConfig.SetterCall(old(config.LinkExists()), !old(config.autostart)))
        && config.Synced()
        && (succeeds && config.targetInstalled ==> config.autostart == !old(config.autostart))
        && ops == PageView.PushConfigOps(config.arch, config.autostart, config.live)
    {
      cmd := UriCommands.DoCommand(uri);
      ops := [];
      if cmd == UriCommands.ToggleStartup {
        config.ToggleAutostart(succeeds);
        ops := PushConfig();
      }
    }

    /**
      The STARTED branch of `_load_changed_cb`: the fragment strip, then
      the dispatcher for `cmd://` URIs only.
    */
    method LoadStarted(uri: string, succeeds: bool) returns (cmd: Option<UriCommands.Command>, ops: seq<PageView.PageOp>)
      modifies config
      ensures cmd == UriCommands.Intercept(uri)
      ensures cmd != Some(UriCommands.ToggleStartup) ==> unchanged(config) && ops == []
      ensures cmd == Some(UriCommands.ToggleStartup) ==>
        && config.linkPresent == WelcomeConfig.LinkAfter(old(config.linkPresent), config.targetInstalled, !old(config.autostart), succeeds)
        && config.calls == old(config.calls) + WelcomeConfig.CallLog(WelcomeConfig.SetterCall(old(config.LinkExists()), !old(config.autostart)))
        && config.Synced()
        && (succeeds && config.targetInstalled ==> config.autostart == !old(config.autostart))
        && ops == PageView.PushConfigOps(config.arch, config.autostart, config.live)
    {
      var stripped := UriCommands.StripFragment(uri);
      cmd := None;
      ops := [];
      if UriCommands.CmdScheme <= stripped {
        var c;
        c, ops := DoCommand(stripped, succeeds);
        cmd := Some(c);
      }
    }
  }
}
