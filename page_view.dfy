/**
  What `_push_config` does to the loaded page.

  The host pushes its state into the page through a fixed sequence of
  jQuery calls: the architecture label into `#arch`, the two checkbox
  classes of `#autostart`, and the removal of the `hide` class from the
  two live-session buttons or from the two installed-system buttons.
  Here each call is a `PageOp` value, and the page is the map from
  element id to the element's inner HTML and classes; a call on an id
  the page lacks does nothing, as jQuery's empty selection does.
*/
module PageView {

  datatype PageOp =
    | SetHtml(id: string, html: string)                 // $('#id').html(html)
    | ToggleClass(id: string, cls: string, on: bool)    // $('#id').toggleClass(cls, on)

  datatype Element = Element(html: string, classes: set<string>)

  type Page = map<string, Element>

  const ArchId := "arch"
  const AutostartId := "autostart"
  const CheckClass := "icon-check"
  const CheckEmptyClass := "icon-check-empty"
  const HideClass := "hide"

  /** The buttons `_push_config` may reveal. */
  const LiveIds: set<string> := {"install", "install-cli"}
  const InstalledIds: set<string> := {"build", "donate"}

  /** The calls `_push_config` makes, in order. */
  function PushConfigOps(arch: string, autostart: bool, live: bool): (ops: seq<PageOp>)
    ensures |ops| == 5
    ensures ops[0] == SetHtml(ArchId, arch)
    ensures ops[1] == ToggleClass(AutostartId, CheckClass, autostart)
    ensures ops[2] == ToggleClass(AutostartId, CheckEmptyClass, !autostart)
    ensures forall i :: 3 <= i < 5 ==> ops[i].ToggleClass? && ops[i].cls == HideClass && !ops[i].on
    ensures forall i :: 3 <= i < 5 ==> ops[i].id in (if live then LiveIds else InstalledIds)
    ensures ops[3].id != ops[4].id
  {
    [ SetHtml(ArchId, arch),
      ToggleClass(AutostartId, CheckClass, autostart),
      ToggleClass(AutostartId, CheckEmptyClass, !autostart) ]
    + (if live then [ToggleClass("install", HideClass, false), ToggleClass("install-cli", HideClass, false)]
       else [ToggleClass("build", HideClass, false), ToggleClass("donate", HideClass, false)])
  }

  /** One jQuery call on the page. */
  function Apply(p: Page, op: PageOp): (q: Page)
    ensures q.Keys == p.Keys
    ensures forall id :: id in p && id != op.id ==> q[id] == p[id]
    ensures op.id in p && op.SetHtml? ==> q[op.id] == p[op.id].(html := op.html)
    ensures op.id in p && op.ToggleClass? ==>
      q[op.id] == p[op.id].(classes := if op.on then p[op.id].classes + {op.cls} else p[op.id].classes - {op.cls})
  {
    if op.id !in p then p
    else match op
      case SetHtml(id, h) => p[id := p[id].(html := h)]
      case ToggleClass(id, c, on) =>
        p[id := p[id].(classes := if on then p[id].classes + {c} else p[id].classes - {c})]
  }

  /** A sequence of calls, first to last. */
  function Run(p: Page, ops: seq<PageOp>): (q: Page)
    ensures q.Keys == p.Keys
    decreases |ops|
  {
    if |ops| == 0 then p else Run(Apply(p, ops[0]), ops[1..])
  }

  /** Whether a button is shown: it exists and does not carry `hide`. */
  predicate Shown(p: Page, id: string) {
    id in p && HideClass !in p[id].classes
  }

  /** The optional buttons shown on a page. */
  function ShownButtons(p: Page): (s: set<string>)
    ensures s <= LiveIds + InstalledIds
    ensures forall id :: id in s <==> id in LiveIds + InstalledIds && Shown(p, id)
  {
    set id | id in LiveIds + InstalledIds && Shown(p, id)
  }

  /** A page with every element present and the four buttons hidden. */
  predicate AsLoaded(p: Page) {
    ArchId in p && AutostartId in p &&
    forall id :: id in LiveIds + InstalledIds ==> id in p && HideClass in p[id].classes
  }

  /**
    On any page, including one an earlier push already changed (the
    re-push after `toggle-startup`): `#arch`, when present, shows the
    label; `#autostart`, when present, carries `icon-check` exactly when
    autostart is on and `icon-check-empty` exactly when it is off; the two
    buttons of the session kind, when present, are shown; and every other
    element is left as it was.
  */
  lemma {:induction false} PushConfigOnAnyPage(p: Page, arch: string, autostart: bool, live: bool)
    ensures var q := Run(p, PushConfigOps(arch, autostart, live));
      && q.Keys == p.Keys
      && (ArchId in p ==> q[ArchId].html == arch)
      && (AutostartId in p ==>
            (CheckClass in q[AutostartId].classes <==> autostart) &&
            (CheckEmptyClass in q[AutostartId].classes <==> !autostart))
      && (forall id :: id in p && id in (if live then LiveIds else InstalledIds) ==> Shown(q, id))
      && (forall id ::
            (id in p && id != ArchId && id != AutostartId && id !in (if live then LiveIds else InstalledIds))
            ==> q[id] == p[id])
  {
    var ops := PushConfigOps(arch, autostart, live);
    var p3 := Apply(Apply(Apply(p, ops[0]), ops[1]), ops[2]);
    var p4 := Apply(p3, ops[3]);
    var p5 := Apply(p4, ops[4]);
    RunFive(p, ops);
    var revealed := if live then LiveIds else InstalledIds;
    assert revealed == {ops[3].id, ops[4].id};
    if ArchId in p {
      assert p3[ArchId].html == arch;
    }
    if AutostartId in p {
      assert CheckClass in p3[AutostartId].classes <==> autostart;
      assert CheckEmptyClass in p3[AutostartId].classes <==> !autostart;
    }
    if ops[3].id in p {
      assert HideClass !in p4[ops[3].id].classes;
    }
    forall id | id in p && id in revealed
      ensures Shown(p5, id)
    {
      if id == ops[3].id {
        assert HideClass !in p4[id].classes;
      }
    }
  }

  /**
    After `_push_config` on the page as loaded, the `#arch` element shows
    the architecture label, `#autostart` carries exactly one of
    `icon-check` (autostart on) and `icon-check-empty` (off), and a live
    session reveals exactly the two installer buttons while a non-live one
    reveals exactly the build and donate buttons.
  */
  lemma {:induction false} PushConfigShows(p: Page, arch: string, autostart: bool, live: bool)
    requires AsLoaded(p)
    ensures var q := Run(p, PushConfigOps(arch, autostart, live));
      && q.Keys == p.Keys
      && q[ArchId].html == arch
      && (CheckClass in q[AutostartId].classes <==> autostart)
      && (CheckEmptyClass in q[AutostartId].classes <==> !autostart)
      && ShownButtons(q) == if live then LiveIds else InstalledIds
  {
    var q := Run(p, PushConfigOps(arch, autostart, live));
    PushConfigOnAnyPage(p, arch, autostart, live);
    var revealed := if live then LiveIds else InstalledIds;
    forall id | id in LiveIds + InstalledIds && id !in revealed
      ensures !Shown(q, id)
    {
      assert q[id] == p[id];
    }
  }

  /** Running five calls is applying them one after another. */
  lemma RunFive(p: Page, ops: seq<PageOp>)
    requires |ops| == 5
    ensures Run(p, ops) == Apply(Apply(Apply(Apply(Apply(p, ops[0]), ops[1]), ops[2]), ops[3]), ops[4])
  {
    var p1 := Apply(p, ops[0]);
    var p2 := Apply(p1, ops[1]);
    var p3 := Apply(p2, ops[2]);
    var p4 := Apply(p3, ops[3]);
    assert ops[4..][1..] == [];
    assert ops[3..][1..] == ops[4..];
    assert ops[2..][1..] == ops[3..];
    assert ops[1..][1..] == ops[2..];
    assert ops[4..][0] == ops[4] && ops[3..][0] == ops[3] && ops[2..][0] == ops[2] && ops[1..][0] == ops[1];
    assert Run(p4, ops[4..]) == Apply(p4, ops[4]);
    assert Run(p3, ops[3..]) == Run(p4, ops[4..]);
    assert Run(p2, ops[2..]) == Run(p3, ops[3..]);
    assert Run(p1, ops[1..]) == Run(p2, ops[2..]);
  }

  /** The two checkbox classes always carry opposite switches. */
  lemma CheckClassesComplementary(arch: string, autostart: bool, live: bool)
    ensures var ops := PushConfigOps(arch, autostart, live); ops[1].on != ops[2].on
  {
  }
}
