/**
 * The fullscreen shell (`src/components/SkillTree.js`): which of the two
 * views (the zoomable tree or the tiered list) is current, when the
 * container is rebuilt, how the window size picks a view, the node modal,
 * the export of the progress record with its file name, and where the hover
 * tooltip is placed.
 */
module SkillTree {
  import opened Js
  import opened Quests
  import opened Persistence
  import opened LoadData
  import ProgressStore

  // ---------------------------------------------------------------------------
  // Views

  datatype View = Tree | List

  /** The toggle button's rule: the tree becomes the list and the list the tree. */
  function Flip(v: View): (w: View)
    ensures w != v
  {
    if v == Tree then List else Tree
  }

  /** `isMobileView()`: a narrow window, or one taller than it is wide. */
  predicate IsMobileView(innerWidth: int, innerHeight: int) {
    innerWidth < 768 || innerHeight > innerWidth
  }

  /** The view a fresh mount starts in: the list on mobile, the tree otherwise. */
  function InitialView(innerWidth: int, innerHeight: int): (v: View)
    ensures v == List <==> IsMobileView(innerWidth, innerHeight)
  {
    if IsMobileView(innerWidth, innerHeight) then List else Tree
  }

  /**
   * Narrowing a mobile window keeps it mobile, and every window narrower than
   * 768 or in portrait is mobile whatever its other side.
   */
  lemma MobileWhenNarrower(w: int, h: int, w2: int, h2: int)
    requires IsMobileView(w, h) && w2 <= w && h2 >= h
    ensures IsMobileView(w2, h2)
  {
    if w >= 768 {
      assert h > w;
    }
  }

  // ---------------------------------------------------------------------------
  // The export file name

  /** `s` with any leading run of `\s` characters removed. */
  function DropWhitespace(s: string): (r: string)
    ensures |r| <= |s| && r == s[|s| - |r|..]
    ensures s != [] && IsWhitespace(s[0]) ==> |r| < |s|
    ensures r == [] || !IsWhitespace(r[0])
  {
    if s != [] && IsWhitespace(s[0]) then DropWhitespace(s[1..]) else s
  }

  /** The global replacement of `\s+` by `-`: every maximal run of whitespace becomes one dash. */
  function DashRuns(s: string): (r: string)
    ensures |r| <= |s|
    ensures r == [] <==> s == []
    decreases |s|
  {
    if s == [] then []
    else if IsWhitespace(s[0]) then "-" + DashRuns(DropWhitespace(s))
    else [s[0]] + DashRuns(s[1..])
  }

  /** The characters a dashed name keeps: everything but whitespace and dashes. */
  function Visible(s: string): (r: string)
    ensures |r| <= |s|
  {
    if s == [] then []
    else if IsWhitespace(s[0]) || s[0] == '-' then Visible(s[1..])
    else [s[0]] + Visible(s[1..])
  }

  lemma {:induction false} VisibleDropsWhitespace(s: string)
    ensures Visible(DropWhitespace(s)) == Visible(s)
    decreases |s|
  {
    if s != [] && IsWhitespace(s[0]) {
      VisibleDropsWhitespace(s[1..]);
    }
  }

  /** Dashing whitespace runs leaves no whitespace, and loses no visible character. */
  lemma {:induction false} DashRunsSpec(s: string)
    ensures NoWhitespace(DashRuns(s))
    ensures Visible(DashRuns(s)) == Visible(s)
    ensures forall i :: 0 <= i < |DashRuns(s)| ==> DashRuns(s)[i] == '-' || DashRuns(s)[i] in s
    decreases |s|
  {
    if s != [] {
      var r := DashRuns(s);
      if IsWhitespace(s[0]) {
        var t := DropWhitespace(s);
        DashRunsSpec(t);
        VisibleDropsWhitespace(s);
        assert r == "-" + DashRuns(t);
        assert Visible(r) == Visible(DashRuns(t));
        assert forall c :: c in t ==> c in s;
        assert forall i :: 1 <= i < |r| ==> r[i] == DashRuns(t)[i - 1];
      } else {
        DashRunsSpec(s[1..]);
        assert r == [s[0]] + DashRuns(s[1..]);
        assert r[0] == s[0] && r[1..] == DashRuns(s[1..]);
        assert forall i :: 1 <= i < |r| ==> r[i] == DashRuns(s[1..])[i - 1];
      }
    }
  }

  /** A name that holds no whitespace is kept as it is. */
  lemma {:induction false} DashRunsIdentity(s: string)
    requires NoWhitespace(s)
    ensures DashRuns(s) == s
    decreases |s|
  {
    if s != [] {
      assert !IsWhitespace(s[0]);
      DashRunsIdentity(s[1..]);
    }
  }

  /** Dashing twice is dashing once. */
  lemma DashRunsIdempotent(s: string)
    ensures DashRuns(DashRuns(s)) == DashRuns(s)
  {
    DashRunsSpec(s);
    DashRunsIdentity(DashRuns(s));
  }

  /** The configured app name, missing when there is no config. */
  function AppName(config: Option<Config>): Option<string> {
    if config.Some? then config.value.appName else None
  }

  /** The app name, lower-cased with its whitespace runs dashed, or `skill-tree` when that is missing or empty. */
  function ExportBase(config: Option<Config>): string {
    var name := AppName(config);
    if name.Some? && DashRuns(ToLower(name.value)) != "" then DashRuns(ToLower(name.value)) else "skill-tree"
  }

  /** The download name of an export. */
  function ExportFileName(config: Option<Config>): string {
    ExportBase(config) + "-progress.json"
  }

  /**
   * The download name is the base followed by `-progress.json`; the base is
   * `skill-tree` when no non-empty app name is configured, and otherwise is a non-empty name without whitespace or upper-case ASCII
   * letters that keeps every visible character of the lower-cased app name;
   * an app name already in that form is used unchanged.
   */
  lemma ExportFileNameSpec(config: Option<Config>)
    ensures var base := ExportBase(config);
      && ExportFileName(config) == base + "-progress.json"
      && (base == "skill-tree" <== AppName(config).None? || AppName(config).value == "")
      && (AppName(config).Some? && AppName(config).value != "" ==>
            base != [] && NoWhitespace(base)
            && (forall i :: 0 <= i < |base| ==> !('A' <= base[i] <= 'Z'))
            && Visible(base) == Visible(ToLower(AppName(config).value)))
  {
    var name := AppName(config);
    if name.Some? && name.value != "" {
      var lower := ToLower(name.value);
      DashRunsSpec(lower);
      var base := DashRuns(lower);
      forall i | 0 <= i < |base| ensures !('A' <= base[i] <= 'Z') {
        if base[i] != '-' {
          var k :| 0 <= k < |lower| && lower[k] == base[i];
          assert lower[k] == LowerChar(name.value[k]);
        }
      }
    }
  }

  /** An app name already lower-case and free of whitespace names the file as it is. */
  lemma ExportKeepsPlainName(config: Option<Config>)
    requires AppName(config).Some? && AppName(config).value != ""
    requires NoWhitespace(AppName(config).value)
    requires forall i :: 0 <= i < |AppName(config).value| ==> !('A' <= AppName(config).value[i] <= 'Z')
    ensures ExportFileName(config) == AppName(config).value + "-progress.json"
  {
    var name := AppName(config).value;
    assert ToLower(name) == name;
    DashRunsIdentity(name);
  }

  /** The JSON object `exportProgress` writes. */
  datatype ExportRecord = ExportRecord(progress: Progress, quests: seq<Quest>, config: Option<Config>, exportedAt: string)

  // ---------------------------------------------------------------------------
  // The hover tooltip

  /** The tooltip's laid-out width, or 150 while it reports 0 (not laid out yet). */
  function TooltipWidth(offsetWidth: nat): (w: nat)
    ensures w > 0
    ensures offsetWidth > 0 ==> w == offsetWidth
  {
    if offsetWidth == 0 then 150 else offsetWidth
  }

  /**
   * The tooltip's centre: the cursor's x, raised to half the tooltip's width
   * or else lowered to the container's width less that half.
   */
  function TooltipLeft(x: real, offsetWidth: nat, containerWidth: real): real {
    var half := TooltipWidth(offsetWidth) as real / 2.0;
    if x < half then half
    else if x > containerWidth - half then containerWidth - half
    else x
  }

  /** The tooltip's top: 8 above the cursor, but at least 8. */
  function TooltipTop(y: real): real {
    if y - 8.0 >= 8.0 then y - 8.0 else 8.0
  }

  /**
   * In a container at least as wide as the tooltip, the tooltip lies wholly
   * inside it, sits at the cursor whenever that is possible, and follows the
   * cursor's movement in the same direction.
   */
  lemma TooltipLeftSpec(x: real, x2: real, offsetWidth: nat, containerWidth: real)
    requires containerWidth >= TooltipWidth(offsetWidth) as real
    ensures var half := TooltipWidth(offsetWidth) as real / 2.0;
      var left := TooltipLeft(x, offsetWidth, containerWidth);
      && half <= left <= containerWidth - half
      && (half <= x <= containerWidth - half ==> left == x)
      && (x <= x2 ==> left <= TooltipLeft(x2, offsetWidth, containerWidth))
  {
  }

  /** The tooltip stays 8 pixels above the cursor, but never closer than 8 to the top. */
  lemma TooltipTopSpec(y: real, y2: real)
    ensures TooltipTop(y) >= 8.0 && TooltipTop(y) >= y - 8.0
    ensures TooltipTop(y) == 8.0 || TooltipTop(y) == y - 8.0
    ensures y <= y2 ==> TooltipTop(y) <= TooltipTop(y2)
  {
  }

  // ---------------------------------------------------------------------------
  // The mounted shell

  /**
   * The closure state of `mountSkillTree`. `shown` is which view the
   * fullscreen container holds: it is built by a full render and kept by a
   * partial one, which only refreshes the header and the current view's
   * content. `modal` is the quest the open node modal shows.
   */
  class SkillTreeView {
    const store: ProgressStore.Store
    const quests: seq<Quest>
    const config: Option<Config>
    var currentView: View
    var needsFullRender: bool
    var shown: Option<View>
    var modal: Option<Quest>

    /** What the shell should look like after any render: the current view on screen. */
    predicate Settled()
      reads this
    {
      !needsFullRender && shown == Some(currentView)
    }

    /**
     * `mountSkillTree(root, { quests, config })` up to the first paint: the
     * store reloads progress first (`injected` is the page's initial snapshot).
     */
    constructor (store: ProgressStore.Store, quests: seq<Quest>, config: Option<Config>, innerWidth: int, innerHeight: int,
                 injected: Option<Snapshot>)
      modifies store`state, store`notified
      ensures var c := ProgressStore.Candidate(injected, store.adapter.storage, store.storageKey);
        && store.state == ProgressStore.AfterLoad(old(store.state), store.defaultStats, c)
        && store.notified == (if c.Some? && ProgressStore.Acceptable(c.value) then old(store.notified) + [store.state] else old(store.notified))
      ensures this.store == store && this.quests == quests && this.config == config
      ensures currentView == InitialView(innerWidth, innerHeight)
      ensures needsFullRender && shown == None && modal == None
    {
      var _ := store.LoadProgress(injected);
      this.store := store;
      this.quests := quests;
      this.config := config;
      currentView := InitialView(innerWidth, innerHeight);
      needsFullRender := true;
      shown := None;
      modal := None;
    }

    /**
     * `render()`: rebuild the container for the current view when a full
     * render is pending or there is no container yet; otherwise leave the
     * container as it is.
     */
    method Render()
      modifies this`needsFullRender, this`shown
      ensures old(needsFullRender) || old(shown) == None ==> Settled()
      ensures !(old(needsFullRender) || old(shown) == None) ==> shown == old(shown) && !needsFullRender
    {
      if needsFullRender || shown == None {
        shown := Some(currentView);
        needsFullRender := false;
      }
    }

    /** The view toggle: flip the view, request a full render, render. */
    method ClickToggle()
      modifies this`currentView, this`needsFullRender, this`shown
      ensures currentView == Flip(old(currentView))
      ensures Settled()
    {
      currentView := Flip(currentView);
      needsFullRender := true;
      Render();
    }

    /**
     * `handleResize()` as written: a mobile-sized window moves the tree to
     * the list and renders; the list is never switched back. No full render
     * is requested, so a shell that was settled keeps the container it had.
     */
    method HandleResize(innerWidth: int, innerHeight: int)
      modifies this`currentView, this`needsFullRender, this`shown
      ensures currentView == if IsMobileView(innerWidth, innerHeight) then List else old(currentView)
      ensures old(currentView) == List ==> currentView == List
      ensures old(Settled()) ==> shown == old(shown) && !needsFullRender
    {
      if IsMobileView(innerWidth, innerHeight) && currentView == Tree {
        currentView := List;
        Render();
      }
    }

    /**
     * `handleResize()` requesting a full render before rendering, as the
     * toggle does: the same choice of view, and the switched-to view is the
     * one on screen.
     */
    method HandleResizeRebuilding(innerWidth: int, innerHeight: int)
      modifies this`currentView, this`needsFullRender, this`shown
      ensures currentView == if IsMobileView(innerWidth, innerHeight) then List else old(currentView)
      ensures old(currentView) == List ==> currentView == List
      ensures old(Settled()) ==> Settled()
      ensures IsMobileView(innerWidth, innerHeight) && old(currentView) == Tree ==> Settled()
    {
      if IsMobileView(innerWidth, innerHeight) && currentView == Tree {
        currentView := List;
        needsFullRender := true;
        Render();
      }
    }

    /** `openNodeModal(quest)`: close any open modal, then open one for `quest`. */
    method OpenNodeModal(quest: Quest)
      modifies this`modal
      ensures modal == Some(quest)
    {
      CloseNodeModal();
      modal := Some(quest);
    }

    /** `closeNodeModal()` */
    method CloseNodeModal()
      modifies this`modal
      ensures modal == None
    {
      if modal.Some? {
        modal := None;
      }
    }

    /** `exportProgress()`: the record written to the download and its file name; `now` is the clock. */
    method ExportProgress(now: string) returns (record: ExportRecord, fileName: string)
      ensures record.progress == store.state && record.quests == quests && record.config == config
      ensures record.exportedAt == now
      ensures fileName == ExportFileName(config)
    {
      record := ExportRecord(store.state, quests, config, now);
      fileName := ExportBase(config) + "-progress.json";
    }
  }

  /**
   * A desktop window painted with the tree and then narrowed to a phone's
   * width: the current view becomes the list, yet the container still holds
   * the tree.
   */
  method NarrowedDesktopKeepsTree(store: ProgressStore.Store, quests: seq<Quest>, config: Option<Config>)
    returns (current: View, onScreen: Option<View>)
    modifies store`state, store`notified
    ensures current == List && onScreen == Some(Tree)
  {
    var shell := new SkillTreeView(store, quests, config, 1280, 800, None);
    shell.Render();
    shell.HandleResize(600, 800);
    current := shell.currentView;
    onScreen := shell.shown;
  }

  /** The same window with a resize that requests a full render shows the list. */
  method NarrowedDesktopShowsList(store: ProgressStore.Store, quests: seq<Quest>, config: Option<Config>)
    returns (current: View, onScreen: Option<View>)
    modifies store`state, store`notified
    ensures current == List && onScreen == Some(List)
  {
    var shell := new SkillTreeView(store, quests, config, 1280, 800, None);
    shell.Render();
    shell.HandleResizeRebuilding(600, 800);
    current := shell.currentView;
    onScreen := shell.shown;
  }
}
