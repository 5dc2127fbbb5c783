/**
  The URI command channel of the welcome screen's web view.

  The bundled page asks the host for actions by navigating to synthetic
  `cmd://<name>` URIs. When a load starts, the host drops a `#fragment`
  (only when the first `#` is not the first character) and hands the
  URI to the command dispatcher only if it still begins with `cmd://`.
  The dispatcher removes that 6-character prefix and classifies what is
  left. Here the side effects of each action (launching a help viewer,
  quitting the event loop, opening a browser tab, printing "Unknown
  command") are replaced by the `Command` value that selects them.
*/
module UriCommands {
  import opened Wrappers

  /** The action the dispatcher chooses for one command URI. */
  datatype Command =
    | GnomeHelp              // launches `yelp`
    | KdeHelp                // launches `khelpcenter`
    | Close                  // quits the GTK main loop
    | ToggleStartup          // flips the autostart setting, then re-pushes the page state
    | OpenLink(url: string)  // opens `url` in a new browser tab
    | Unknown(name: string)  // logs "Unknown command: <name>" and does nothing else

  const CmdScheme := "cmd://"
  const LinkPrefix := "link?"

  /** The four commands matched by exact string comparison, in the dispatcher's order. */
  const GnomeHelpName := "gnome-help"
  const KdeHelpName := "kde-help"
  const CloseName := "close"
  const ToggleStartupName := "toggle-startup"

  predicate IsKeyword(name: string) {
    name == GnomeHelpName || name == KdeHelpName || name == CloseName || name == ToggleStartupName
  }

  /**
    Python's `s.index(c)`: the position of the first occurrence of `c`,
    or `None` where Python raises `ValueError`.
  */
  function IndexOf(s: string, c: char): (r: Option<nat>)
    ensures r.None? <==> c !in s
    ensures r.Some? ==> r.value < |s| && s[r.value] == c && forall j :: 0 <= j < r.value ==> s[j] != c
  {
    if |s| == 0 then None
    else if s[0] == c then Some(0)
    else match IndexOf(s[1..], c)
      case None => None
      case Some(i) => Some(i + 1)
  }

  /**
    The fragment strip at the start of `_load_changed_cb`: `uri` is cut
    at its first `#` when that `#` sits at an index greater than 0; when
    there is no `#`, or the `#` is the first character, `uri` is kept.
  */
  function StripFragment(uri: string): (r: string)
    ensures r <= uri
    ensures ('#' !in uri || uri[0] == '#') ==> r == uri
    ensures ('#' in uri && uri[0] != '#') ==> |r| < |uri| && '#' !in r && uri[|r|] == '#'
  {
    match IndexOf(uri, '#')
    case None => uri
    case Some(i) => if i > 0 then uri[..i] else uri
  }

  /**
    What `_do_command` does with the text that follows the scheme: the
    exact keywords first, in source order, then the `link?` prefix, and
    everything else is unknown.
  */
  function Dispatch(name: string): (c: Command)
    ensures c == GnomeHelp <==> name == GnomeHelpName
    ensures c == KdeHelp <==> name == KdeHelpName
    ensures c == Close <==> name == CloseName
    ensures c == ToggleStartup <==> name == ToggleStartupName
    ensures c.OpenLink? <==> LinkPrefix <= name
    ensures c.OpenLink? ==> c.url == name[|LinkPrefix|..]
    ensures c.Unknown? <==> !IsKeyword(name) && !(LinkPrefix <= name)
    ensures c.Unknown? ==> c.name == name
  {
    assert GnomeHelpName[4] != LinkPrefix[4] && KdeHelpName[4] != LinkPrefix[4];
    assert CloseName[4] != LinkPrefix[4] && ToggleStartupName[4] != LinkPrefix[4];
    if name == GnomeHelpName then GnomeHelp
    else if name == KdeHelpName then KdeHelp
    else if name == CloseName then Close
    else if name == ToggleStartupName then ToggleStartup
    else if LinkPrefix <= name then OpenLink(name[5..])
    else Unknown(name)
  }

  /**
    `_do_command`: removes exactly the 6-character `cmd://` prefix when it
    is there (a URI without it is dispatched as it stands) and dispatches
    what is left.
  */
  function DoCommand(uri: string): (c: Command)
    ensures CmdScheme <= uri ==> c == Dispatch(uri[6..])
    ensures !(CmdScheme <= uri) ==> c == Dispatch(uri)
    ensures c == Close <==> uri == CmdScheme + CloseName || uri == CloseName
  {
    var rest := if CmdScheme <= uri then uri[6..] else uri;
    assert CmdScheme <= uri ==> uri == CmdScheme + rest;
    Dispatch(rest)
  }

  /**
    The STARTED branch of `_load_changed_cb`: the command the navigation
    to `uri` triggers, or `None` when, after the fragment strip, it is
    not a `cmd://` URI and the load goes ahead as an ordinary page load.
  */
  function Intercept(uri: string): (r: Option<Command>)
    ensures r.Some? <==> CmdScheme <= uri
    ensures r.Some? ==> r.value == DoCommand(StripFragment(uri))
  {
    var stripped := StripFragment(uri);
    assert CmdScheme <= uri ==> CmdScheme <= stripped by {
      if CmdScheme <= uri && '#' in uri {
        assert forall k :: 0 <= k < |CmdScheme| ==> uri[k] != '#';
      }
    }
    if CmdScheme <= stripped then Some(DoCommand(stripped)) else None
  }

  /**
    What the page has to put after `cmd://` to ask for `c`: the inverse
    of `Dispatch`.
  */
  function CommandName(c: Command): (name: string)
    ensures c.OpenLink? ==> LinkPrefix <= name
  {
    match c
    case GnomeHelp => GnomeHelpName
    case KdeHelp => KdeHelpName
    case Close => CloseName
    case ToggleStartup => ToggleStartupName
    case OpenLink(url) => LinkPrefix + url
    case Unknown(name) => name
  }

  /** The URI a page navigates to in order to issue `c`. */
  function CommandUri(c: Command): (uri: string)
    ensures CmdScheme <= uri && uri[|CmdScheme|..] == CommandName(c)
  {
    CmdScheme + CommandName(c)
  }

  /**
    A command the page can actually obtain: an unknown command never
    carries a name that the dispatcher would recognise.
  */
  predicate Reachable(c: Command) {
    c.Unknown? ==> !IsKeyword(c.name) && !(LinkPrefix <= c.name)
  }

  // ---------------------------------------------------------------------
  // Properties of the channel
  // ---------------------------------------------------------------------

  /** Every reachable command survives a trip through its name. */
  lemma DispatchCommandName(c: Command)
    requires Reachable(c)
    ensures Dispatch(CommandName(c)) == c
  {
  }

  /** Conversely, every name is the name of what it dispatches to. */
  lemma CommandNameDispatch(name: string)
    ensures Reachable(Dispatch(name))
    ensures CommandName(Dispatch(name)) == name
  {
  }

  /** The four keyword commands are four different actions. */
  lemma KeywordsDistinct(a: string, b: string)
    requires IsKeyword(a) && IsKeyword(b) && a != b
    ensures Dispatch(a) != Dispatch(b)
  {
  }

  /** Searching past a prefix free of `c` shifts the found index by its length. */
  lemma {:induction false} IndexOfAfterPrefix(p: string, s: string, c: char)
    requires c !in p
    ensures IndexOf(p + s, c) == match IndexOf(s, c)
                                 case None => None
                                 case Some(i) => Some(i + |p|)
  {
    if |p| > 0 {
      assert (p + s)[0] == p[0];
      assert (p + s)[1..] == p[1..] + s;
      IndexOfAfterPrefix(p[1..], s, c);
    } else {
      assert p + s == s;
    }
  }

  /** `uri` cut before its first `#`, or `uri` itself when it has none. */
  function BeforeHash(s: string): (r: string)
    ensures r <= s && '#' !in r
    ensures '#' in s ==> s[|r|] == '#'
    ensures '#' !in s ==> r == s
  {
    match IndexOf(s, '#')
    case None => s
    case Some(i) => s[..i]
  }

  /** Behind a non-empty prefix without `#`, the fragment strip cuts at the first `#` of the rest. */
  lemma {:induction false} StripAfterPrefix(p: string, s: string)
    requires |p| > 0 && '#' !in p
    ensures StripFragment(p + s) == p + BeforeHash(s)
  {
    IndexOfAfterPrefix(p, s, '#');
    match IndexOf(s, '#')
    case None =>
    case Some(i) =>
      assert (p + s)[..i + |p|] == p + s[..i];
  }

  /**
    A link whose target contains `#` reaches the browser truncated at
    that `#`: the fragment strip runs before the dispatcher sees the URI.
  */
  lemma LinkTargetTruncated(url: string)
    ensures Intercept(CmdScheme + LinkPrefix + url) == Some(OpenLink(BeforeHash(url)))
  {
    var p := CmdScheme + LinkPrefix;
    assert '#' !in p;
    StripAfterPrefix(p, url);
    var stripped := p + BeforeHash(url);
    assert stripped[6..] == LinkPrefix + BeforeHash(url);
    DispatchCommandName(OpenLink(BeforeHash(url)));
  }

  /**
    A reachable command whose name holds no `#` arrives exactly as the
    page issued it.
  */
  lemma InterceptCommandUri(c: Command)
    requires Reachable(c) && '#' !in CommandName(c)
    ensures Intercept(CommandUri(c)) == Some(c)
  {
  }

  /** Stripping twice is stripping once. */
  lemma StripFragmentIdempotent(uri: string)
    ensures StripFragment(StripFragment(uri)) == StripFragment(uri)
  {
  }

  /** An unknown command is reported under the whole of what followed `cmd://`. */
  lemma UnknownKeepsName(uri: string)
    requires Intercept(uri).Some? && Intercept(uri).value.Unknown?
    ensures CmdScheme + Intercept(uri).value.name == StripFragment(uri)
  {
  }
}
