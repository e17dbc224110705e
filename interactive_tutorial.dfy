/**
 * The interactive onboarding tutorial shown over the dashboard on first run.
 * It walks ADD_BUTTON -> ITEM_FORM -> DASHBOARD(0) -> DASHBOARD(1) -> completed,
 * advancing on real user actions (the add button, a save click, screen taps)
 * and on timers.
 *
 * DOM highlighting, injected styles and listener wiring are not modelled: a
 * listener is present exactly when the source's effect would have attached
 * it, and each timer is a pending flag plus an explicit "fired" event. A
 * timer callback runs the closure captured when it was armed, which is how
 * the source behaves; SaveSettled and AutoAdvanceFired below spell out what
 * those captured closures do.
 */
module InteractiveTutorial {
  import opened Preferences

  datatype TutorialStep = AddButton | ItemForm | Dashboard

  /** The enum's numeric value, which the source compares with `>`. */
  function StepValue(step: TutorialStep): (v: nat)
    ensures v <= 2
  {
    match step
    case AddButton => 0
    case ItemForm => 1
    case Dashboard => 2
  }

  /**
   * The enum's values are 0, 1 and 2, in the order of the walk; the `>`
   * tests of calculateProgress rely on that order.
   */
  lemma StepOrder()
    ensures StepValue(AddButton) == 0 && StepValue(ItemForm) == 1 && StepValue(Dashboard) == 2
    ensures StepValue(AddButton) < StepValue(ItemForm) < StepValue(Dashboard)
    ensures forall a: TutorialStep, b: TutorialStep :: StepValue(a) == StepValue(b) ==> a == b
  {
  }

  /** `totalSteps` in calculateProgress. */
  const TotalSteps: int := 5

  /** `completedSteps` in calculateProgress. */
  function CompletedSteps(step: TutorialStep, sub: int): int
  {
    (if StepValue(step) > StepValue(AddButton) then 1 else 0)
    + (if StepValue(step) > StepValue(ItemForm) then 1 else 0)
    + (if step == Dashboard then sub else 0)
  }

  /**
   * calculateProgress: round(completed / 5 * 100). The quotient times 100 is
   * always a whole number, so the rounding is exact.
   */
  function Progress(step: TutorialStep, sub: int): int
  {
    CompletedSteps(step, sub) * 100 / TotalSteps
  }

  /** getCurrentStepNumber. */
  function StepNumber(step: TutorialStep, sub: int): int
  {
    if step == AddButton then 1
    else if step == ItemForm then 2
    else 3 + sub
  }

  /** The component's state, refs and pending timers. */
  datatype State = State(
    isOpen: bool,               // the isOpen prop
    step: TutorialStep,         // currentStep
    formOpened: bool,
    dashboardStep: int,         // dashboardTutorialStep
    showNextButton: bool,
    isFirstTouch: bool,
    hasCompleted: bool,         // hasCompletedRef
    revealPending: bool,        // a timer that will show the next button
    autoAdvancePending: bool,   // the 4000 ms auto-advance timer
    saveAdvancePending: bool,   // the 500 ms timer armed by a save click
    store: Store,               // localStorage
    closeRequests: nat)         // how many times onClose was called

  function Initial(isOpen: bool, store: Store): (s: State)
  {
    State(isOpen, AddButton, false, 0, false, true, false, false, false, false, store, 0)
  }

  /** The states the component can reach from Initial. */
  predicate Valid(s: State)
  {
    && 0 <= s.dashboardStep <= 1
    && (s.dashboardStep == 1 ==> s.step == Dashboard)
    && (!s.isFirstTouch ==> s.step == Dashboard)
    && (s.autoAdvancePending ==> s.step == Dashboard)
    && (s.saveAdvancePending ==> s.step == ItemForm)
    && (s.revealPending || s.showNextButton ==> s.step == Dashboard)
    && (s.formOpened <==> s.step != AddButton)
    && (s.hasCompleted ==> FlagSet(s.store, TutorialCompletedKey))
    && s.closeRequests == (if s.hasCompleted then 1 else 0)
  }

  /** completeTutorial, guarded by hasCompletedRef. */
  function Complete(s: State): (r: State)
  {
    if s.hasCompleted then s
    else s.(hasCompleted := true,
            store := MarkTutorialCompleted(s.store),
            closeRequests := s.closeRequests + 1)
  }

  /** goToNextStep. */
  function AdvanceStep(s: State): (r: State)
  {
    var hidden := s.(showNextButton := false);
    match s.step
    case AddButton => hidden.(step := ItemForm)
    case ItemForm => hidden.(step := Dashboard, revealPending := true)
    case Dashboard =>
      if s.dashboardStep < 1 then hidden.(dashboardStep := s.dashboardStep + 1, revealPending := true)
      else Complete(hidden)
  }

  /**
   * handleInitialTouch: acts only while the first-touch flag is set and the
   * walk is in DASHBOARD, clearing the flag and arming auto-advance at substep 0.
   */
  function InitialTouch(s: State): (r: State)
  {
    if s.isFirstTouch && s.step == Dashboard then
      s.(isFirstTouch := false,
         autoAdvancePending := s.autoAdvancePending || s.dashboardStep == 0)
    else s
  }

  datatype Event =
    | AddButtonClicked      // click on the highlighted add button
    | SaveClicked           // click on a save button while the item form is open
    | SaveSettled           // the settle timer armed by SaveClicked fires
    | ScreenTapped          // a document click during the dashboard steps
    | TouchStarted          // a document touchstart, or the 500 ms kick-off timer
    | AutoAdvanceFired      // the 4000 ms auto-advance timer fires
    | NextButtonTimerFired  // a pending "show next button" timer fires
    | OrientationChanged    // orientationchange or resize
    | PopState              // a history pop
    | Skip                  // handleSkip
    | OpenChanged(open: bool)

  /** One event applied to the state. */
  function Step(s: State, e: Event): (r: State)
  {
    match e
    case AddButtonClicked =>
      if s.isOpen && s.step == AddButton then AdvanceStep(s).(formOpened := true) else s
    case SaveClicked =>
      if s.isOpen && s.step == ItemForm && s.formOpened then s.(saveAdvancePending := true) else s
    case SaveSettled =>
      // the captured goToNextStep ran at ITEM_FORM
      if s.saveAdvancePending then AdvanceStep(s.(step := ItemForm)).(saveAdvancePending := false) else s
    case ScreenTapped =>
      if s.isOpen && s.step == Dashboard then
        InitialTouch(if s.dashboardStep == 1 then Complete(s) else s)
      else s
    case TouchStarted =>
      if s.isOpen && s.step == Dashboard then InitialTouch(s) else s
    case AutoAdvanceFired =>
      // the captured goToNextStep ran at DASHBOARD with substep 0
      if s.autoAdvancePending then
        AdvanceStep(s.(step := Dashboard, dashboardStep := 0)).(autoAdvancePending := false)
      else s
    case NextButtonTimerFired =>
      if s.revealPending then s.(showNextButton := true, revealPending := false) else s
    case OrientationChanged =>
      s.(showNextButton := false, revealPending := s.revealPending || s.step == Dashboard)
    case PopState =>
      if s.isOpen && s.step != AddButton then Complete(s) else s
    case Skip =>
      Complete(s)
    case OpenChanged(open) =>
      s.(isOpen := open)
  }

  /** A sequence of events applied in order. */
  function Run(s: State, events: seq<Event>): (r: State)
    decreases |events|
  {
    if events == [] then s else Run(Step(s, events[0]), events[1..])
  }

  /** Position along ADD_BUTTON, ITEM_FORM, DASHBOARD(0), DASHBOARD(1): 0 to 3. */
  function Position(s: State): int
  {
    CompletedSteps(s.step, s.dashboardStep)
  }

  lemma InitialIsValid(isOpen: bool, store: Store)
    ensures Valid(Initial(isOpen, store))
    ensures Position(Initial(isOpen, store)) == 0
  {
  }

  /**
   * completeTutorial acts once: the first call sets the guard, persists
   * `tutorialCompleted = "true"` and calls onClose once; later calls change
   * nothing.
   */
  lemma CompleteIsIdempotent(s: State)
    ensures Complete(Complete(s)) == Complete(s)
    ensures !s.hasCompleted ==>
      && Complete(s).hasCompleted
      && Complete(s).store == s.store[TutorialCompletedKey := TrueText]
      && Complete(s).closeRequests == s.closeRequests + 1
    ensures s.hasCompleted ==> Complete(s) == s
  {
  }

  /**
   * goToNextStep hides the next button and moves exactly one position on,
   * without completing, calling onClose or touching the store; only at
   * DASHBOARD(1) does it complete the tutorial instead.
   */
  lemma AdvanceStepMovesOne(s: State)
    requires Valid(s)
    ensures !AdvanceStep(s).showNextButton
    ensures s.step == AddButton ==> AdvanceStep(s).step == ItemForm
    ensures s.step == ItemForm ==> AdvanceStep(s).step == Dashboard && AdvanceStep(s).dashboardStep == 0
    ensures s.step == Dashboard && s.dashboardStep == 0 ==>
      AdvanceStep(s).step == Dashboard && AdvanceStep(s).dashboardStep == 1
    ensures Position(s) < 3 ==> Position(AdvanceStep(s)) == Position(s) + 1
    ensures Position(s) < 3 ==>
      && AdvanceStep(s).hasCompleted == s.hasCompleted
      && AdvanceStep(s).closeRequests == s.closeRequests
      && AdvanceStep(s).store == s.store
    ensures Position(s) == 3 ==>
      AdvanceStep(s) == Complete(s.(showNextButton := false)) && AdvanceStep(s).hasCompleted
  {
  }

  /** Every event keeps the state among the reachable ones. */
  lemma StepPreservesValid(s: State, e: Event)
    requires Valid(s)
    ensures Valid(Step(s, e))
  {
    match e
    case AddButtonClicked =>
    case SaveClicked =>
    case SaveSettled =>
    case ScreenTapped =>
    case TouchStarted =>
    case AutoAdvanceFired =>
    case NextButtonTimerFired =>
    case OrientationChanged =>
    case PopState =>
    case Skip =>
    case OpenChanged(open) =>
  }

  /** An event never moves the tutorial back and never skips a stage. */
  lemma StepNeverSkips(s: State, e: Event)
    requires Valid(s)
    ensures Position(Step(s, e)) == Position(s) || Position(Step(s, e)) == Position(s) + 1
  {
  }

  /** Along any run of events, the reachable-state invariant holds. */
  lemma {:induction false} RunPreservesValid(s: State, events: seq<Event>)
    requires Valid(s)
    ensures Valid(Run(s, events))
    decreases |events|
  {
    if events != [] {
      StepPreservesValid(s, events[0]);
      RunPreservesValid(Step(s, events[0]), events[1..]);
    }
  }

  /** Along any run of events, the position never decreases. */
  lemma {:induction false} RunNeverGoesBack(s: State, events: seq<Event>)
    requires Valid(s)
    ensures Position(Run(s, events)) >= Position(s)
    decreases |events|
  {
    if events != [] {
      StepPreservesValid(s, events[0]);
      StepNeverSkips(s, events[0]);
      RunNeverGoesBack(Step(s, events[0]), events[1..]);
    }
  }

  /**
   * However the signals race (skip, screen tap, history pop), onClose is
   * called at most once per tutorial, and once it has been called the store
   * holds the completed flag.
   */
  lemma {:induction false} CompletionHappensAtMostOnce(isOpen: bool, store: Store, events: seq<Event>)
    ensures Run(Initial(isOpen, store), events).closeRequests <= 1
    ensures Run(Initial(isOpen, store), events).closeRequests == 1 ==>
      FlagSet(Run(Initial(isOpen, store), events).store, TutorialCompletedKey)
  {
    RunPreservesValid(Initial(isOpen, store), events);
  }

  /** The value calculateProgress computes is 0, 20, 40, 60 along the four positions. */
  lemma ProgressAlongPositions(s: State)
    requires Valid(s)
    ensures Progress(s.step, s.dashboardStep) == 20 * Position(s)
    ensures 0 <= Progress(s.step, s.dashboardStep) <= 100
    ensures s.step == AddButton ==> Progress(s.step, s.dashboardStep) == 0
    ensures s.step == ItemForm ==> Progress(s.step, s.dashboardStep) == 20
    ensures s.step == Dashboard ==> Progress(s.step, s.dashboardStep) == 40 + 20 * s.dashboardStep
  {
  }

  /** goToNextStep never lowers the value calculateProgress computes. */
  lemma ProgressMonotone(s: State)
    requires Valid(s)
    ensures Progress(AdvanceStep(s).step, AdvanceStep(s).dashboardStep) >= Progress(s.step, s.dashboardStep)
  {
    AdvanceStepMovesOne(s);
    ProgressAlongPositions(s);
  }

  /** getCurrentStepNumber is the position plus one: 1, 2, 3 or 4. */
  lemma StepNumberAlongPositions(s: State)
    requires Valid(s)
    ensures StepNumber(s.step, s.dashboardStep) == Position(s) + 1
    ensures 1 <= StepNumber(s.step, s.dashboardStep) <= 4
  {
  }

  /**
   * The first-touch guard acts only while the flag is set, in DASHBOARD, and
   * clears the flag; applying it again changes nothing.
   */
  lemma InitialTouchActsOnce(s: State)
    ensures InitialTouch(InitialTouch(s)) == InitialTouch(s)
    ensures InitialTouch(s) != s ==> s.isFirstTouch && s.step == Dashboard && !InitialTouch(s).isFirstTouch
    ensures InitialTouch(s).autoAdvancePending && !s.autoAdvancePending ==> s.dashboardStep == 0
  {
  }

  /** No event sets the first-touch flag back once it has been cleared. */
  lemma FirstTouchNeverReturns(s: State, e: Event)
    ensures Step(s, e).isFirstTouch ==> s.isFirstTouch
  {
  }

  /**
   * Along any run of events the first-touch flag, once cleared, never
   * returns to true.
   */
  lemma {:induction false} RunFirstTouchNeverReturns(s: State, events: seq<Event>)
    ensures Run(s, events).isFirstTouch ==> s.isFirstTouch
    decreases |events|
  {
    if events != [] {
      FirstTouchNeverReturns(s, events[0]);
      RunFirstTouchNeverReturns(Step(s, events[0]), events[1..]);
    }
  }

  /** A screen tap at DASHBOARD(1) completes the tutorial. */
  lemma TapAtLastSubstepCompletes(s: State)
    requires s.isOpen && s.step == Dashboard && s.dashboardStep == 1
    ensures Step(s, ScreenTapped).hasCompleted
    ensures !s.hasCompleted ==> Step(s, ScreenTapped).closeRequests == s.closeRequests + 1
  {
  }

  /** A history pop completes the tutorial only when it is open and past ADD_BUTTON. */
  lemma PopCompletesOnlyPastFirstStep(s: State)
    requires !s.hasCompleted
    ensures Step(s, PopState).hasCompleted <==> s.isOpen && s.step != AddButton
  {
  }

  /**
   * The auto-advance timer runs the goToNextStep captured at DASHBOARD(0): it
   * lands on DASHBOARD(1) even when the user got there first, and it never
   * completes the tutorial.
   */
  lemma AutoAdvanceNeverCompletes(s: State)
    requires Valid(s) && s.autoAdvancePending
    ensures Step(s, AutoAdvanceFired).step == Dashboard
    ensures Step(s, AutoAdvanceFired).dashboardStep == 1
    ensures Step(s, AutoAdvanceFired).hasCompleted == s.hasCompleted
    ensures Step(s, AutoAdvanceFired).closeRequests == s.closeRequests
  {
  }

  /**
   * The walk a user makes: tap the add button, save, touch the dashboard, let
   * the auto-advance fire, then tap the screen. The tutorial ends completed,
   * with the flag stored and onClose called once.
   */
  lemma HappyPathCompletes(store: Store)
    ensures var s := Run(Initial(true, store),
                         [AddButtonClicked, SaveClicked, SaveSettled, TouchStarted, AutoAdvanceFired, ScreenTapped]);
      s.hasCompleted && s.closeRequests == 1 && s.store == store[TutorialCompletedKey := TrueText]
  {
    var s0 := Initial(true, store);
    var s1 := Step(s0, AddButtonClicked);
    assert s1.step == ItemForm && s1.formOpened;
    var s2 := Step(s1, SaveClicked);
    var s3 := Step(s2, SaveSettled);
    assert s3.step == Dashboard && s3.dashboardStep == 0;
    var s4 := Step(s3, TouchStarted);
    assert s4.autoAdvancePending;
    var s5 := Step(s4, AutoAdvanceFired);
    assert s5.dashboardStep == 1;
    var s6 := Step(s5, ScreenTapped);
    var evs := [AddButtonClicked, SaveClicked, SaveSettled, TouchStarted, AutoAdvanceFired, ScreenTapped];
    assert Run(s0, evs) == Run(s1, evs[1..]);
    assert Run(s1, evs[1..]) == Run(s2, evs[2..]);
    assert Run(s2, evs[2..]) == Run(s3, evs[3..]);
    assert Run(s3, evs[3..]) == Run(s4, evs[4..]);
    assert Run(s4, evs[4..]) == Run(s5, evs[5..]);
    assert Run(s5, evs[5..]) == Run(s6, evs[6..]);
  }

  /** The mounted component: its state, refs and pending timers as fields. */
  class Tutorial {
    var isOpen: bool
    var currentStep: TutorialStep
    var formOpened: bool
    var dashboardTutorialStep: int
    var showNextButton: bool
    var isFirstTouch: bool
    var hasCompleted: bool
    var revealPending: bool
    var autoAdvancePending: bool
    var saveAdvancePending: bool
    var store: Store
    var closeRequests: nat

    function Snapshot(): (s: State)
      reads this
    {
      State(isOpen, currentStep, formOpened, dashboardTutorialStep, showNextButton, isFirstTouch,
            hasCompleted, revealPending, autoAdvancePending, saveAdvancePending, store, closeRequests)
    }

    constructor (isOpen: bool, store: Store)
      ensures Snapshot() == Initial(isOpen, store)
    {
      this.isOpen := isOpen;
      currentStep := AddButton;
      formOpened := false;
      dashboardTutorialStep := 0;
      showNextButton := false;
      isFirstTouch := true;
      hasCompleted := false;
      revealPending, autoAdvancePending, saveAdvancePending := false, false, false;
      this.store := store;
      closeRequests := 0;
    }

    method CompleteTutorial()
      modifies this
      ensures Snapshot() == Complete(old(Snapshot()))
    {
      if hasCompleted {
        return;
      }
      hasCompleted := true;
      store := store[TutorialCompletedKey := TrueText];
      closeRequests := closeRequests + 1;
    }

    method HandleSkip()
      modifies this
      ensures Snapshot() == Step(old(Snapshot()), Skip)
    {
      CompleteTutorial();
    }

    method GoToNextStep()
      modifies this
      ensures Snapshot() == AdvanceStep(old(Snapshot()))
    {
      showNextButton := false;
      if currentStep == AddButton {
        currentStep := ItemForm;
      } else if currentStep == ItemForm {
        currentStep := Dashboard;
        revealPending := true;
      } else {
        if dashboardTutorialStep < 1 {
          dashboardTutorialStep := dashboardTutorialStep + 1;
          revealPending := true;
        } else {
          CompleteTutorial();
        }
      }
    }

    method HandleInitialTouch()
      modifies this
      ensures Snapshot() == InitialTouch(old(Snapshot()))
    {
      if isFirstTouch && currentStep == Dashboard {
        isFirstTouch := false;
        if dashboardTutorialStep == 0 {
          autoAdvancePending := true;
        }
      }
    }

    method HandleAddButtonClick()
      modifies this
      ensures Snapshot() == Step(old(Snapshot()), AddButtonClicked)
    {
      if isOpen && currentStep == AddButton {
        GoToNextStep();
        formOpened := true;
      }
    }

    method HandleSaveClick()
      modifies this
      ensures Snapshot() == Step(old(Snapshot()), SaveClicked)
    {
      if isOpen && currentStep == ItemForm && formOpened {
        saveAdvancePending := true;
      }
    }

    method SaveTimerFired()
      modifies this
      ensures Snapshot() == Step(old(Snapshot()), SaveSettled)
    {
      if saveAdvancePending {
        currentStep := ItemForm;
        GoToNextStep();
        saveAdvancePending := false;
      }
    }

    method HandleScreenTouch()
      modifies this
      ensures Snapshot() == Step(old(Snapshot()), ScreenTapped)
    {
      if isOpen && currentStep == Dashboard {
        if dashboardTutorialStep == 1 {
          CompleteTutorial();
        }
        HandleInitialTouch();
      }
    }

    method HandleTouchStart()
      modifies this
      ensures Snapshot() == Step(old(Snapshot()), TouchStarted)
    {
      if isOpen && currentStep == Dashboard {
        HandleInitialTouch();
      }
    }

    method AutoAdvanceTimerFired()
      modifies this
      ensures Snapshot() == Step(old(Snapshot()), AutoAdvanceFired)
    {
      if autoAdvancePending {
        currentStep, dashboardTutorialStep := Dashboard, 0;
        GoToNextStep();
        autoAdvancePending := false;
      }
    }

    method RevealTimerFired()
      modifies this
      ensures Snapshot() == Step(old(Snapshot()), NextButtonTimerFired)
    {
      if revealPending {
        showNextButton := true;
        revealPending := false;
      }
    }

    method HandleOrientationChange()
      modifies this
      ensures Snapshot() == Step(old(Snapshot()), OrientationChanged)
    {
      showNextButton := false;
      if currentStep == Dashboard {
        revealPending := true;
      }
    }

    method HandlePopState()
      modifies this
      ensures Snapshot() == Step(old(Snapshot()), PopState)
    {
      if isOpen && currentStep != AddButton {
        CompleteTutorial();
      }
    }

    method SetOpen(open: bool)
      modifies this
      ensures Snapshot() == Step(old(Snapshot()), OpenChanged(open))
    {
      isOpen := open;
    }
  }
}
