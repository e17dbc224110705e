/**
 * The dialog tutorial: a fixed list of illustrated steps paged with
 * previous / next buttons and progress dots, closable with skip, which marks
 * the tutorial completed in the store.
 *
 * Rendering (the description HTML, highlight geometry, image fallbacks) is
 * not modelled; each step keeps its title, image path and number of
 * highlights.
 */
module AppTutorial {
  import opened Preferences

  /** The only tutorial mode there is. */
  datatype TutorialMode = Unified

  datatype TextSize = Normal | Large

  datatype StepCard = StepCard(title: string, imagePath: string, highlights: nat)

  /** getUnifiedTutorialSteps: English for "en", Chinese for every other language. */
  function UnifiedTutorialSteps(lang: string): (steps: seq<StepCard>)
  {
    var en := lang == "en";
    var dir := if en then "/tutorial/en/" else "/tutorial/zh/";
    [ StepCard(if en then "Getting Started" else "開始使用", dir + "welcome.svg", 1),
      StepCard(if en then "Adding Items" else "添加物品", dir + "add_item.svg", 1),
      StepCard(if en then "Smart Input Methods" else "智能輸入方式", dir + "detected_items.svg", 2),
      StepCard(if en then "Dashboard Overview" else "儀表板概覽", dir + "dashboard.svg", 1),
      StepCard(if en then "Organizing Items" else "整理物品", dir + "color_alerts.svg", 1),
      StepCard(if en then "Personalized Settings" else "個性化設置", dir + "family_size.svg", 1),
      StepCard(if en then "Shopping List" else "購物清單", dir + "shoplist_view.svg", 1),
      StepCard(if en then "Insights & Analytics" else "洞察與分析", dir + "efficiency_overview.svg", 1),
      StepCard(if en then "Ready to Go!" else "準備就緒！", dir + "ready.svg", 0) ]
  }

  /** getTutorialSteps: the mode is not consulted. */
  function TutorialSteps(lang: string, mode: TutorialMode): (steps: seq<StepCard>)
  {
    UnifiedTutorialSteps(lang)
  }

  /** Number of steps for a language. */
  function StepCount(lang: string): nat
  {
    |TutorialSteps(lang, Unified)|
  }

  /** Both languages have the same nine steps, in the same image order. */
  lemma NineStepsForEveryLanguage(lang: string)
    ensures StepCount(lang) == 9
    ensures |TutorialSteps("en", Unified)| == |TutorialSteps("zh", Unified)|
    ensures forall i :: 0 <= i < 9 ==>
      TutorialSteps("en", Unified)[i].highlights == TutorialSteps(lang, Unified)[i].highlights
    ensures TutorialSteps(lang, Unified)[8].highlights == 0
  {
  }

  /** The update toggleTextSize applies. */
  function FlipTextSize(t: TextSize): (r: TextSize)
    ensures r != t
  {
    if t == Normal then Large else Normal
  }

  lemma FlipTextSizeTwice(t: TextSize)
    ensures FlipTextSize(FlipTextSize(t)) == t
  {
  }

  /** The component's state, its props and what it writes. */
  datatype Dialog = Dialog(
    isOpen: bool,
    language: string,
    currentStep: int,
    textSize: TextSize,
    imageLoaded: bool,
    store: Store,
    closeRequests: nat)   // how many times onClose was called

  function Initial(isOpen: bool, language: string, store: Store): (d: Dialog)
  {
    Dialog(isOpen, language, 0, Normal, false, store, 0)
  }

  /** The step index always names a step of the list. */
  predicate Valid(d: Dialog)
  {
    0 <= d.currentStep < StepCount(d.language)
  }

  /** handleSkip: back to the first step, onClose, completed flag stored. */
  function Skip(d: Dialog): (r: Dialog)
  {
    d.(currentStep := 0,
       closeRequests := d.closeRequests + 1,
       store := MarkTutorialCompleted(d.store))
  }

  /** handleNextStep. */
  function Next(d: Dialog): (r: Dialog)
  {
    if d.currentStep < StepCount(d.language) - 1 then
      d.(currentStep := d.currentStep + 1, imageLoaded := false)
    else
      var skipped := Skip(d);
      skipped.(store := MarkTutorialCompleted(skipped.store))
  }

  /** handlePrevStep. */
  function Prev(d: Dialog): (r: Dialog)
  {
    if d.currentStep > 0 then d.(currentStep := d.currentStep - 1, imageLoaded := false) else d
  }

  datatype Event =
    | NextClicked
    | PrevClicked
    | SkipClicked           // the close (X) button
    | DotClicked(index: int)
    | Dismissed             // the dialog closed from outside: onClose only
    | TextSizeToggled
    | ImageSettled          // the image loaded or failed over to a placeholder
    | OpenChanged(open: bool)
    | LanguageChanged(lang: string)

  /** One event; the buttons exist only while the dialog is open. */
  function Step(d: Dialog, e: Event): (r: Dialog)
  {
    match e
    case NextClicked => if d.isOpen then Next(d) else d
    case PrevClicked => if d.isOpen then Prev(d) else d
    case SkipClicked => if d.isOpen then Skip(d) else d
    case DotClicked(i) =>
      if d.isOpen && 0 <= i < StepCount(d.language) then d.(currentStep := i) else d
    case Dismissed => if d.isOpen then d.(closeRequests := d.closeRequests + 1) else d
    case TextSizeToggled => if d.isOpen then d.(textSize := FlipTextSize(d.textSize)) else d
    case ImageSettled => if d.isOpen then d.(imageLoaded := true) else d
    case OpenChanged(open) =>
      // the reset effect runs when isOpen turns true
      if open && !d.isOpen then d.(isOpen := true, currentStep := 0, imageLoaded := false)
      else d.(isOpen := open)
    case LanguageChanged(lang) => d.(language := lang)
  }

  function Run(d: Dialog, events: seq<Event>): (r: Dialog)
    decreases |events|
  {
    if events == [] then d else Run(Step(d, events[0]), events[1..])
  }

  /**
   * Next moves one step on and hides the image until it loads; on the last
   * step it closes the dialog, returns to step 0 and stores the completed
   * flag.
   */
  lemma NextSteps(d: Dialog)
    requires Valid(d)
    ensures d.currentStep < StepCount(d.language) - 1 ==>
      Next(d) == d.(currentStep := d.currentStep + 1, imageLoaded := false)
    ensures d.currentStep == StepCount(d.language) - 1 ==>
      && Next(d).currentStep == 0
      && Next(d).closeRequests == d.closeRequests + 1
      && Next(d).store == d.store[TutorialCompletedKey := TrueText]
  {
  }

  /** Prev moves one step back, and does nothing on the first step. */
  lemma PrevSteps(d: Dialog)
    ensures d.currentStep > 0 ==> Prev(d) == d.(currentStep := d.currentStep - 1, imageLoaded := false)
    ensures d.currentStep <= 0 ==> Prev(d) == d
  {
  }

  /** Prev undoes Next away from the last step, and Next undoes Prev away from the first. */
  lemma NextPrevInverse(d: Dialog)
    requires Valid(d)
    ensures d.currentStep < StepCount(d.language) - 1 ==> Prev(Next(d)) == d.(imageLoaded := false)
    ensures d.currentStep > 0 ==> Next(Prev(d)) == d.(imageLoaded := false)
  {
  }

  /** Skip returns to step 0, calls onClose once and stores the completed flag. */
  lemma SkipCloses(d: Dialog)
    ensures Skip(d).currentStep == 0
    ensures Skip(d).closeRequests == d.closeRequests + 1
    ensures FlagSet(Skip(d).store, TutorialCompletedKey)
    ensures Skip(d).textSize == d.textSize && Skip(d).isOpen == d.isOpen
  {
  }

  /** Opening a closed dialog starts over at step 0 with the image not yet loaded. */
  lemma OpeningResets(d: Dialog)
    requires !d.isOpen
    ensures Step(d, OpenChanged(true)).currentStep == 0
    ensures !Step(d, OpenChanged(true)).imageLoaded
    ensures Step(d, OpenChanged(true)).isOpen
  {
  }

  /** Every event keeps the step index within the list. */
  lemma StepPreservesValid(d: Dialog, e: Event)
    requires Valid(d)
    ensures Valid(Step(d, e))
  {
    match e
    case LanguageChanged(lang) =>
      NineStepsForEveryLanguage(d.language);
      NineStepsForEveryLanguage(lang);
    case NextClicked =>
    case PrevClicked =>
    case SkipClicked =>
    case DotClicked(i) =>
    case Dismissed =>
    case TextSizeToggled =>
    case ImageSettled =>
    case OpenChanged(open) =>
  }

  /** Along any run of events the step index stays within [0, 8]. */
  lemma {:induction false} RunPreservesValid(d: Dialog, events: seq<Event>)
    requires Valid(d)
    ensures Valid(Run(d, events))
    ensures 0 <= Run(d, events).currentStep <= 8
    decreases |events|
  {
    if events == [] {
      NineStepsForEveryLanguage(d.language);
    } else {
      StepPreservesValid(d, events[0]);
      RunPreservesValid(Step(d, events[0]), events[1..]);
    }
  }

  /** The mounted dialog component. */
  class TutorialDialog {
    var isOpen: bool
    var language: string
    var currentStep: int
    var textSize: TextSize
    var imageLoaded: bool
    var store: Store
    var closeRequests: nat

    function Snapshot(): (d: Dialog)
      reads this
    {
      Dialog(isOpen, language, currentStep, textSize, imageLoaded, store, closeRequests)
    }

    constructor (isOpen: bool, language: string, store: Store)
      ensures Snapshot() == Initial(isOpen, language, store)
    {
      this.isOpen := isOpen;
      this.language := language;
      currentStep := 0;
      textSize := Normal;
      imageLoaded := false;
      this.store := store;
      closeRequests := 0;
    }

    method HandleSkip()
      modifies this
      ensures Snapshot() == Skip(old(Snapshot()))
    {
      currentStep := 0;
      closeRequests := closeRequests + 1;
      store := store[TutorialCompletedKey := TrueText];
    }

    method HandleNextStep()
      modifies this
      ensures Snapshot() == Next(old(Snapshot()))
    {
      if currentStep < |TutorialSteps(language, Unified)| - 1 {
        currentStep := currentStep + 1;
        imageLoaded := false;
      } else {
        HandleSkip();
        store := store[TutorialCompletedKey := TrueText];
      }
    }

    method HandlePrevStep()
      modifies this
      ensures Snapshot() == Prev(old(Snapshot()))
    {
      if currentStep > 0 {
        currentStep := currentStep - 1;
        imageLoaded := false;
      }
    }

    /**
     * A progress dot; one exists for each step index. Like the other controls
     * below it is rendered only inside the open dialog, so the method does not
     * test `isOpen`; while the dialog is open it is the DotClicked step.
     */
    method SelectStep(index: int)
      requires 0 <= index < StepCount(language)
      modifies this`currentStep
      ensures currentStep == index
      ensures old(isOpen) ==> Snapshot() == Step(old(Snapshot()), DotClicked(index))
    {
      currentStep := index;
    }

    method ToggleTextSize()
      modifies this`textSize
      ensures textSize == FlipTextSize(old(textSize))
      ensures old(isOpen) ==> Snapshot() == Step(old(Snapshot()), TextSizeToggled)
    {
      textSize := if textSize == Normal then Large else Normal;
    }

    /** The dialog's own close request (overlay tap or escape): onClose only. */
    method HandleDismiss()
      modifies this`closeRequests
      ensures closeRequests == old(closeRequests) + 1
      ensures old(isOpen) ==> Snapshot() == Step(old(Snapshot()), Dismissed)
    {
      closeRequests := closeRequests + 1;
    }

    /** The image's load or error handler. */
    method HandleImageSettled()
      modifies this`imageLoaded
      ensures imageLoaded
      ensures old(isOpen) ==> Snapshot() == Step(old(Snapshot()), ImageSettled)
    {
      imageLoaded := true;
    }

    method SetOpen(open: bool)
      modifies this
      ensures Snapshot() == Step(old(Snapshot()), OpenChanged(open))
    {
      var wasOpen := isOpen;
      isOpen := open;
      if open && !wasOpen {
        currentStep := 0;
        imageLoaded := false;
      }
    }
  }
}
