/**
 * The application shell: the global native back-button handler, the
 * exit-confirmation dialog and the rule deciding when the interactive
 * onboarding tutorial is shown.
 *
 * The shared context flags (modal visibility, the two multi-select modes,
 * the exit prompt and the tutorial flag) live in the class AppContext. The
 * native bridge and the router are not called: what the handlers ask of them
 * (one history-back navigation, exiting the app) is appended to a log.
 */
module App {
  import opened Preferences

  /** The path the back handler compares the current location with. */
  const DashboardPath: string := "/dashboard"

  /** The path the dashboard page is actually routed at. */
  const HomeRoute: string := "/"

  /** The context flags the back handler reads and clears. */
  datatype Flags = Flags(
    profileModalOpen: bool,
    filterModalOpen: bool,
    sortModalOpen: bool,
    itemModalOpen: bool,
    dashboardMultiSelect: bool,
    shopListMultiSelect: bool,
    showExitPrompt: bool)

  /** A request to the native shell or the router. */
  datatype NativeEffect = HistoryBack | ExitApp

  /** What one back signal does: the new flags and the requests it makes. */
  datatype BackOutcome = BackOutcome(flags: Flags, effects: seq<NativeEffect>)

  /**
   * The six overlays the handler may close, in the order it checks them:
   * profile, filter, sort, item detail, dashboard multi-select, shopping-list
   * multi-select.
   */
  function Overlays(f: Flags): (s: seq<bool>)
    ensures |s| == 6
  {
    [f.profileModalOpen, f.filterModalOpen, f.sortModalOpen, f.itemModalOpen,
     f.dashboardMultiSelect, f.shopListMultiSelect]
  }

  /** Index of the first true entry of `s`, or |s| when there is none. */
  function FirstOpen(s: seq<bool>): (i: nat)
    ensures i <= |s|
    ensures forall j :: 0 <= j < i ==> !s[j]
    ensures i < |s| ==> s[i]
  {
    if s == [] then 0
    else if s[0] then 0
    else 1 + FirstOpen(s[1..])
  }

  /** Clears overlay number `i` (in Overlays order) and nothing else. */
  function CloseOverlay(f: Flags, i: nat): (g: Flags)
    requires i < 6
    ensures Overlays(g) == Overlays(f)[i := false]
    ensures g.showExitPrompt == f.showExitPrompt
  {
    match i
    case 0 => f.(profileModalOpen := false)
    case 1 => f.(filterModalOpen := false)
    case 2 => f.(sortModalOpen := false)
    case 3 => f.(itemModalOpen := false)
    case 4 => f.(dashboardMultiSelect := false)
    case _ => f.(shopListMultiSelect := false)
  }

  /** The first true entry found by FirstOpen is the one the caller names. */
  lemma {:induction false} FirstOpenAt(s: seq<bool>, k: nat)
    requires k <= |s|
    requires k < |s| ==> s[k]
    requires forall j :: 0 <= j < k ==> !s[j]
    ensures FirstOpen(s) == k
  {
    if s != [] && k > 0 {
      FirstOpenAt(s[1..], k - 1);
    }
  }

  /**
   * The back-button handler as a decision over the context flags and the
   * current path: a first-match chain in which every matched branch returns.
   * Its contract states the chain by position: the first open overlay in
   * priority order is closed and nothing else changes; with none open, a
   * path other than "/dashboard" navigates back once and "/dashboard" raises
   * the exit prompt.
   */
  function HandleBack(f: Flags, path: string): (r: BackOutcome)
    ensures FirstOpen(Overlays(f)) < 6 ==>
      r.flags == CloseOverlay(f, FirstOpen(Overlays(f))) && r.effects == []
    ensures FirstOpen(Overlays(f)) == 6 && path != DashboardPath ==>
      r.flags == f && r.effects == [HistoryBack]
    ensures FirstOpen(Overlays(f)) == 6 && path == DashboardPath ==>
      r.flags == f.(showExitPrompt := true) && r.effects == []
  {
    var ov := Overlays(f);
    if f.profileModalOpen then FirstOpenAt(ov, 0); BackOutcome(f.(profileModalOpen := false), [])
    else if f.filterModalOpen then FirstOpenAt(ov, 1); BackOutcome(f.(filterModalOpen := false), [])
    else if f.sortModalOpen then FirstOpenAt(ov, 2); BackOutcome(f.(sortModalOpen := false), [])
    else if f.itemModalOpen then FirstOpenAt(ov, 3); BackOutcome(f.(itemModalOpen := false), [])
    else if f.dashboardMultiSelect then FirstOpenAt(ov, 4); BackOutcome(f.(dashboardMultiSelect := false), [])
    else if f.shopListMultiSelect then FirstOpenAt(ov, 5); BackOutcome(f.(shopListMultiSelect := false), [])
    else if path != DashboardPath then FirstOpenAt(ov, 6); BackOutcome(f, [HistoryBack])
    else FirstOpenAt(ov, 6); BackOutcome(f.(showExitPrompt := true), [])
  }

  /** An open profile modal is closed and nothing else happens. */
  lemma BackClosesProfileOnly(f: Flags, path: string)
    requires f.profileModalOpen
    ensures HandleBack(f, path) == BackOutcome(f.(profileModalOpen := false), [])
  {
  }

  /** With profile and filter both open, only profile is closed. */
  lemma ProfileBeforeFilter(f: Flags, path: string)
    requires f.profileModalOpen && f.filterModalOpen
    ensures !HandleBack(f, path).flags.profileModalOpen
    ensures HandleBack(f, path).flags.filterModalOpen
  {
  }

  /**
   * One back signal makes at most one change: either exactly one flag
   * differs from before, or the flags are unchanged and one navigation is
   * requested.
   */
  lemma {:induction false} BackDoesOneThing(f: Flags, path: string)
    ensures var r := HandleBack(f, path);
      || (r.effects == [] && exists i :: 0 <= i < 6 && Overlays(f)[i] && Overlays(r.flags) == Overlays(f)[i := false]
                                         && r.flags.showExitPrompt == f.showExitPrompt)
      || (r.effects == [] && Overlays(r.flags) == Overlays(f) && r.flags.showExitPrompt && !f.showExitPrompt)
      || (r.effects == [] && r.flags == f)
      || (r.effects == [HistoryBack] && r.flags == f)
  {
    var i := FirstOpen(Overlays(f));
    if i < 6 {
      assert Overlays(f)[i];
    }
  }

  /**
   * The handler never opens anything: every overlay flag can only go from
   * true to false, and the exit prompt is raised only when nothing is open
   * and the path is "/dashboard".
   */
  lemma BackNeverRaisesFlags(f: Flags, path: string)
    ensures var g := HandleBack(f, path).flags;
      && (forall j :: 0 <= j < 6 && Overlays(g)[j] ==> Overlays(f)[j])
      && (g.showExitPrompt && !f.showExitPrompt ==>
            path == DashboardPath && forall j :: 0 <= j < 6 ==> !Overlays(f)[j])
  {
  }

  /** Off "/dashboard" with nothing open: one history-back, prompt untouched. */
  lemma BackNavigatesOffDashboard(f: Flags, path: string)
    requires forall j :: 0 <= j < 6 ==> !Overlays(f)[j]
    requires path != DashboardPath
    ensures HandleBack(f, path).effects == [HistoryBack]
    ensures HandleBack(f, path).flags.showExitPrompt == f.showExitPrompt
  {
    assert FirstOpen(Overlays(f)) == 6;
  }

  /** On "/dashboard" with nothing open: the prompt is raised, no navigation. */
  lemma BackPromptsOnDashboard(f: Flags)
    requires forall j :: 0 <= j < 6 ==> !Overlays(f)[j]
    ensures HandleBack(f, DashboardPath).effects == []
    ensures HandleBack(f, DashboardPath).flags.showExitPrompt
  {
    assert FirstOpen(Overlays(f)) == 6;
  }

  /**
   * On the route the dashboard is actually served at, "/", a back signal
   * with nothing open navigates back instead of raising the exit prompt,
   * because the handler compares against "/dashboard".
   */
  lemma BackOnHomeRouteNavigates(f: Flags)
    requires forall j :: 0 <= j < 6 ==> !Overlays(f)[j]
    ensures HandleBack(f, HomeRoute) == BackOutcome(f, [HistoryBack])
  {
    assert FirstOpen(Overlays(f)) == 6;
  }

  /** The tutorial is rendered open only on "/" with the item modal closed. */
  function ShouldShowTutorial(showTutorial: bool, path: string, itemModalOpen: bool): (r: bool)
  {
    showTutorial && path == HomeRoute && !itemModalOpen
  }

  /**
   * The startup check: `showTutorial` is switched on when the store has no
   * truthy `tutorialCompleted` entry, and left as it was otherwise.
   */
  function StartupShowTutorial(store: Store, showTutorial: bool): (r: bool)
  {
    if !FlagSet(store, TutorialCompletedKey) then true else showTutorial
  }

  /**
   * From a fresh context, the tutorial flag is on after startup exactly when
   * the store lacks a completed flag; and the tutorial is then shown exactly
   * on "/" with the item modal closed.
   */
  lemma StartupTutorialIffNotCompleted(store: Store, path: string, itemModalOpen: bool)
    ensures StartupShowTutorial(store, false) <==> !FlagSet(store, TutorialCompletedKey)
    ensures ShouldShowTutorial(StartupShowTutorial(store, false), path, itemModalOpen)
        <==> !FlagSet(store, TutorialCompletedKey) && path == HomeRoute && !itemModalOpen
  {
  }

  /** Once either tutorial has marked itself completed, startup never shows it again. */
  lemma CompletedTutorialStaysHidden(store: Store, path: string, itemModalOpen: bool)
    ensures !StartupShowTutorial(MarkTutorialCompleted(store), false)
    ensures !ShouldShowTutorial(StartupShowTutorial(MarkTutorialCompleted(store), false), path, itemModalOpen)
  {
  }

  /** The handler's outcome branch by branch, in the order the source tests the flags. */
  lemma HandleBackChain(f: Flags, path: string)
    ensures f.profileModalOpen ==> HandleBack(f, path) == BackOutcome(f.(profileModalOpen := false), [])
    ensures !f.profileModalOpen && f.filterModalOpen ==>
      HandleBack(f, path) == BackOutcome(f.(filterModalOpen := false), [])
    ensures !f.profileModalOpen && !f.filterModalOpen && f.sortModalOpen ==>
      HandleBack(f, path) == BackOutcome(f.(sortModalOpen := false), [])
    ensures !f.profileModalOpen && !f.filterModalOpen && !f.sortModalOpen && f.itemModalOpen ==>
      HandleBack(f, path) == BackOutcome(f.(itemModalOpen := false), [])
    ensures (!f.profileModalOpen && !f.filterModalOpen && !f.sortModalOpen && !f.itemModalOpen
             && f.dashboardMultiSelect) ==>
      HandleBack(f, path) == BackOutcome(f.(dashboardMultiSelect := false), [])
    ensures (!f.profileModalOpen && !f.filterModalOpen && !f.sortModalOpen && !f.itemModalOpen
             && !f.dashboardMultiSelect && f.shopListMultiSelect) ==>
      HandleBack(f, path) == BackOutcome(f.(shopListMultiSelect := false), [])
    ensures (!f.profileModalOpen && !f.filterModalOpen && !f.sortModalOpen && !f.itemModalOpen
             && !f.dashboardMultiSelect && !f.shopListMultiSelect) ==>
      HandleBack(f, path) == (if path != DashboardPath then BackOutcome(f, [HistoryBack])
                              else BackOutcome(f.(showExitPrompt := true), []))
  {
  }

  /**
   * The shared application context as far as the shell uses it. `isNative`
   * is whether the app runs inside the native shell; the back listener is
   * only installed there.
   */
  class AppContext {
    const isNative: bool
    var path: string
    var isProfileModalOpen: bool
    var isFilterModalOpen: bool
    var isSortModalOpen: bool
    var isItemModalOpen: bool
    var dashboardMultiSelectMode: bool
    var shopListMultiSelectMode: bool
    var showExitPrompt: bool
    var showTutorial: bool
    /** Requests made to the router and the native shell, oldest first. */
    var effects: seq<NativeEffect>

    function Snapshot(): (f: Flags)
      reads this
    {
      Flags(isProfileModalOpen, isFilterModalOpen, isSortModalOpen, isItemModalOpen,
            dashboardMultiSelectMode, shopListMultiSelectMode, showExitPrompt)
    }

    constructor (isNative: bool, path: string)
      ensures this.isNative == isNative && this.path == path
      ensures Snapshot() == Flags(false, false, false, false, false, false, false)
      ensures !showTutorial && effects == []
    {
      this.isNative := isNative;
      this.path := path;
      isProfileModalOpen, isFilterModalOpen, isSortModalOpen, isItemModalOpen := false, false, false, false;
      dashboardMultiSelectMode, shopListMultiSelectMode := false, false;
      showExitPrompt, showTutorial := false, false;
      effects := [];
    }

    /** A native back signal; without the native shell no listener exists. */
    method HandleBackButton()
      modifies this
      ensures path == old(path) && showTutorial == old(showTutorial)
      ensures isNative ==> Snapshot() == HandleBack(old(Snapshot()), path).flags
      ensures isNative ==> effects == old(effects) + HandleBack(old(Snapshot()), path).effects
      ensures !isNative ==> Snapshot() == old(Snapshot()) && effects == old(effects)
    {
      if !isNative {
        return;
      }
      HandleBackChain(Snapshot(), path);
      if isProfileModalOpen {
        isProfileModalOpen := false;
        return;
      }
      if isFilterModalOpen {
        isFilterModalOpen := false;
        return;
      }
      if isSortModalOpen {
        isSortModalOpen := false;
        return;
      }
      if isItemModalOpen {
        isItemModalOpen := false;
        return;
      }
      if dashboardMultiSelectMode {
        dashboardMultiSelectMode := false;
        return;
      }
      if shopListMultiSelectMode {
        shopListMultiSelectMode := false;
        return;
      }
      if path != DashboardPath {
        effects := effects + [HistoryBack];
      } else {
        showExitPrompt := true;
      }
    }

    /** The exit button of the exit prompt. */
    method HandleExit()
      modifies this
      ensures !showExitPrompt
      ensures Snapshot() == old(Snapshot()).(showExitPrompt := false)
      ensures path == old(path) && showTutorial == old(showTutorial)
      ensures effects == old(effects) + (if isNative then [ExitApp] else [])
    {
      showExitPrompt := false;
      if isNative {
        effects := effects + [ExitApp];
      }
    }

    /** The cancel button of the exit prompt: the prompt closes, nothing else. */
    method CancelExit()
      modifies this
      ensures Snapshot() == old(Snapshot()).(showExitPrompt := false)
      ensures path == old(path) && showTutorial == old(showTutorial) && effects == old(effects)
    {
      showExitPrompt := false;
    }

    /** The first-load effect reading `tutorialCompleted` from the store. */
    method LoadTutorialFlag(store: Store)
      modifies this`showTutorial
      ensures showTutorial == StartupShowTutorial(store, old(showTutorial))
    {
      if !FlagSet(store, TutorialCompletedKey) {
        showTutorial := true;
      }
    }

    /** Whether the interactive tutorial is rendered open. */
    function TutorialOpen(): (r: bool)
      reads this
      ensures r ==> path == HomeRoute && !isItemModalOpen
    {
      ShouldShowTutorial(showTutorial, path, isItemModalOpen)
    }
  }
}
