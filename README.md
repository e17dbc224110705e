# WhatsLeft decision and state logic in Dafny

WhatsLeft is a household inventory app: it tracks items and their expiry
dates, keeps a shopping list and onboards new users with two tutorials. Its
code is mostly presentation. This project models the small decision and state
machines inside five of its components, and proves what they promise:

- `App` (app.dfy): the global native back-button handler, the exit-confirmation
  handlers and the rule for when the interactive tutorial is shown. The
  handler checks six overlays in a fixed priority order: profile, filter,
  sort, item detail, dashboard multi-select, shopping-list multi-select.
- `Preferences` (preferences.dfy): the key-value store the app keeps its
  `tutorialCompleted` flag in. It follows JavaScript truthiness: a missing key
  or an empty value reads as unset.
- `InteractiveTutorial` (interactive_tutorial.dfy): the onboarding walk
  ADD_BUTTON → ITEM_FORM → DASHBOARD(0) → DASHBOARD(1) → completed. This
  covers the values `calculateProgress` and `getCurrentStepNumber` compute
  and its once-only completion guard. Button clicks, document taps, history pops and timers firing are
  explicit events.
- `AppTutorial` (app_tutorial.dfy): the nine-step dialog tutorial with
  next, previous, skip, dot selection and the text-size toggle.
- `ItemCard` (item_card.dfy): how a card turns the days left before an
  item expires into colours and badge text, the status class its unused
  `getExpiryStatus` helper computes, and the press gesture that tells a long press from a scroll
  and from a tap.
- `FAQContent` (faq_content.dfy): the FAQ accordion's two expansion
  dictionaries and the fixed question table.

Each component with state has two layers:

1. A value-level `Step(state, event)` function plus `Run` over a sequence of
   events. The lemmas are stated about these.
2. A class whose fields are the component's state and refs. Each handler is a
   method whose `ensures` ties the new state to the step function.

Side effects are recorded rather than performed:

- The native bridge and the router: history-back navigation and app exit are
  appended to an effect log.
- Calls to `onClose`, `onClick` and `onLongPress` are counted or logged.

Timers are a pending flag plus a "fired" event. A timer runs the closure it
captured when it was armed:

- The 4000 ms auto-advance timer always lands on DASHBOARD(1) and never
  completes the tutorial.
- The save timer always advances from ITEM_FORM.
- The long-press timer uses the multi-select mode that was in force when it
  was armed.

A long press calls `onLongPress`, and a click that ends the same press is
kept from `onClick` only while multi-select mode stays off
(src/components/ItemCard.tsx:147-152). The `onLongPress` prop is documented
as entering multi-select (src/components/ItemCard.tsx:17). A caller that does
this re-renders the card in multi-select mode before the click, so the click
reaches `onClick` after all. `ItemCard.LongPressThenMultiSelectClickReachesOnClick`
states this; the caller is not part of this model.

The back handler compares the current path with `"/dashboard"`, but the
dashboard page is routed at `"/"` (src/App.tsx:101, src/App.tsx:185). The model
keeps the comparison as written. So on `"/"`, with nothing open, a back signal
navigates back instead of raising the exit prompt. `App.BackOnHomeRouteNavigates`
states this.

## Model

| member | source | states |
|---|---|---|
| Preferences.MarkTutorialCompleted | src/components/InteractiveTutorial.tsx:79 | After writing `tutorialCompleted = "true"` the flag reads as set; the key set gains only that key; every other entry is unchanged |
| App.FirstOpen | src/App.tsx:67-98 | The index returned is the first open overlay in priority order, or the list length when none is open: nothing before it is open |
| App.CloseOverlay | src/App.tsx:67-98 | Closing overlay i clears that overlay flag only and leaves the other five and the exit prompt unchanged |
| App.FirstOpenAt | src/App.tsx:67-98 | If overlay k is open and none before it is, the first-match chain stops at k |
| App.HandleBack | src/App.tsx:63-107 | If some overlay is open, the first one in priority order is closed and nothing else happens. Otherwise, off "/dashboard" the flags stay as they were and exactly one history-back is requested. On "/dashboard" only the exit prompt is raised |
| App.HandleBackChain | src/App.tsx:67-106 | Branch by branch in the source's order: the first open flag among profile, filter, sort, item, dashboard multi-select and shopping-list multi-select is cleared alone. With none open, the handler navigates back off "/dashboard" and raises the exit prompt on it |
| App.BackClosesProfileOnly | src/App.tsx:67-70 | With the profile modal open, a back signal clears only that flag and requests nothing |
| App.ProfileBeforeFilter | src/App.tsx:67-75 | With profile and filter both open, profile is closed and filter stays open |
| App.BackDoesOneThing | src/App.tsx:67-106 | Each back signal does exactly one of these: close one open overlay, raise the exit prompt, nothing, or one history-back with the flags unchanged |
| App.BackNeverRaisesFlags | src/App.tsx:67-106 | No overlay flag goes from false to true. The exit prompt is raised only on "/dashboard" with nothing open |
| App.BackNavigatesOffDashboard | src/App.tsx:100-102 | With nothing open and the path not "/dashboard", exactly one history-back is requested and the exit prompt is untouched |
| App.BackPromptsOnDashboard | src/App.tsx:103-106 | With nothing open on "/dashboard", the exit prompt becomes true and no navigation is requested |
| App.BackOnHomeRouteNavigates | src/App.tsx:101-106 | On "/", where the dashboard is routed, with nothing open, a back signal only navigates back |
| App.StartupTutorialIffNotCompleted | src/App.tsx:138-146 | From a fresh context, the tutorial flag is on after startup iff the store has no truthy `tutorialCompleted`. The tutorial is then shown iff that holds, the path is "/" and the item modal is closed |
| App.CompletedTutorialStaysHidden | src/App.tsx:138-146 | After either tutorial stores its completed flag, startup no longer shows the tutorial on any path |
| App.AppContext.HandleBackButton | src/App.tsx:60-107 | Off the native platform it changes nothing. Natively the flags become those HandleBack gives, and its requests are appended to the effect log. The path and the tutorial flag are unchanged |
| App.AppContext.HandleExit | src/App.tsx:150-156 | Always clears the exit prompt. Appends an app-exit request only on the native platform. Nothing else changes |
| App.AppContext.CancelExit | src/App.tsx:168 | Clears the exit prompt and nothing else |
| App.AppContext.LoadTutorialFlag | src/App.tsx:138-143 | Turns the tutorial flag on when the store has no truthy completed flag; otherwise leaves it as it was |
| App.AppContext.TutorialOpen | src/App.tsx:146 | The tutorial is shown only on "/" with the item modal closed |
| InteractiveTutorial.StepValue | src/components/InteractiveTutorial.tsx:13-17 | Each step's numeric value is at most 2; the exact values, their order and their distinctness are stated by `InteractiveTutorial.StepOrder` |
| InteractiveTutorial.StepOrder | src/components/InteractiveTutorial.tsx:13-17 | The enum's values are ADD_BUTTON 0, ITEM_FORM 1 and DASHBOARD 2: strictly increasing along the walk and distinct, as the `>` tests of calculateProgress need |
| InteractiveTutorial.InitialIsValid | src/components/InteractiveTutorial.tsx:46-54 | The mount state satisfies the reachability invariant and sits at position 0 |
| InteractiveTutorial.CompleteIsIdempotent | src/components/InteractiveTutorial.tsx:69-81 | The first completion sets the guard, stores `tutorialCompleted = "true"` and calls onClose once. Any later call changes nothing |
| InteractiveTutorial.AdvanceStepMovesOne | src/components/InteractiveTutorial.tsx:89-113 | goToNextStep hides the next button. It goes ADD_BUTTON → ITEM_FORM → DASHBOARD(0) → DASHBOARD(1), moving one position at a time. Before DASHBOARD(1) it does not complete, call onClose or write the store. At DASHBOARD(1) it completes instead |
| InteractiveTutorial.StepPreservesValid | src/components/InteractiveTutorial.tsx:89-562 | Every event keeps the invariant, which holds: substep in 0..1 and 1 only in DASHBOARD; the form is open exactly past ADD_BUTTON; pending timers match their step; onClose called once iff completed, and then the flag is stored |
| InteractiveTutorial.StepNeverSkips | src/components/InteractiveTutorial.tsx:89-113 | No event moves the tutorial back or more than one position forward |
| InteractiveTutorial.RunPreservesValid | src/components/InteractiveTutorial.tsx:89-562 | Any sequence of events keeps the invariant |
| InteractiveTutorial.RunNeverGoesBack | src/components/InteractiveTutorial.tsx:89-113 | Along any sequence of events the position never decreases |
| InteractiveTutorial.CompletionHappensAtMostOnce | src/components/InteractiveTutorial.tsx:69-81 | From mount, whatever events race, onClose is called at most once. Once it has been called the store holds the completed flag |
| InteractiveTutorial.ProgressAlongPositions | src/components/InteractiveTutorial.tsx:57-66 | The value calculateProgress computes is 20 × position: 0, 20, 40, 60. It always lies in 0..100 |
| InteractiveTutorial.ProgressMonotone | src/components/InteractiveTutorial.tsx:57-113 | goToNextStep never lowers the value calculateProgress computes |
| InteractiveTutorial.StepNumberAlongPositions | src/components/InteractiveTutorial.tsx:571-575 | getCurrentStepNumber is position + 1, so it ranges over 1..4 |
| InteractiveTutorial.InitialTouchActsOnce | src/components/InteractiveTutorial.tsx:489-497 | The first-touch handler acts only in DASHBOARD while the flag is set, and it clears the flag. Applying it twice equals applying it once. It arms auto-advance only at substep 0 |
| InteractiveTutorial.FirstTouchNeverReturns | src/components/InteractiveTutorial.tsx:489-497 | No event sets the first-touch flag back to true once it is cleared |
| InteractiveTutorial.RunFirstTouchNeverReturns | src/components/InteractiveTutorial.tsx:489-520 | Along any sequence of events the first-touch flag never returns to true once it is cleared |
| InteractiveTutorial.TapAtLastSubstepCompletes | src/components/InteractiveTutorial.tsx:504-512 | A screen tap at DASHBOARD(1) completes the tutorial. If it was not yet completed, onClose is called once more |
| InteractiveTutorial.PopCompletesOnlyPastFirstStep | src/components/InteractiveTutorial.tsx:550-562 | A history pop completes the tutorial iff it is open and past ADD_BUTTON |
| InteractiveTutorial.AutoAdvanceNeverCompletes | src/components/InteractiveTutorial.tsx:489-497 | The auto-advance timer runs the goToNextStep captured at DASHBOARD(0). It lands on DASHBOARD(1), never completes, and never calls onClose |
| InteractiveTutorial.HappyPathCompletes | src/components/InteractiveTutorial.tsx:354-512 | Add click, save, dashboard touch, auto-advance, then a screen tap: the tutorial ends completed, with onClose called once and the flag stored |
| InteractiveTutorial.Tutorial.constructor | src/components/InteractiveTutorial.tsx:46-54 | The mount state is ADD_BUTTON, substep 0, the first touch pending and nothing completed |
| InteractiveTutorial.Tutorial.CompleteTutorial | src/components/InteractiveTutorial.tsx:69-81 | The new state is Complete of the old |
| InteractiveTutorial.Tutorial.HandleSkip | src/components/InteractiveTutorial.tsx:84-86 | Skip is completion |
| InteractiveTutorial.Tutorial.GoToNextStep | src/components/InteractiveTutorial.tsx:89-113 | The new state is AdvanceStep of the old |
| InteractiveTutorial.Tutorial.HandleInitialTouch | src/components/InteractiveTutorial.tsx:489-497 | The new state is InitialTouch of the old |
| InteractiveTutorial.Tutorial.HandleAddButtonClick | src/components/InteractiveTutorial.tsx:354-370 | At ADD_BUTTON, while open, it advances and marks the form opened; otherwise nothing |
| InteractiveTutorial.Tutorial.HandleSaveClick | src/components/InteractiveTutorial.tsx:435-465 | At ITEM_FORM, with the form open, it arms the 500 ms advance timer |
| InteractiveTutorial.Tutorial.SaveTimerFired | src/components/InteractiveTutorial.tsx:440-445 | The pending save timer runs the goToNextStep captured at ITEM_FORM |
| InteractiveTutorial.Tutorial.HandleScreenTouch | src/components/InteractiveTutorial.tsx:500-527 | In DASHBOARD, while open: completes at substep 1, then runs the first-touch handler |
| InteractiveTutorial.Tutorial.HandleTouchStart | src/components/InteractiveTutorial.tsx:515-520 | A touchstart, or the kick-off timer, runs the first-touch handler in DASHBOARD |
| InteractiveTutorial.Tutorial.AutoAdvanceTimerFired | src/components/InteractiveTutorial.tsx:494 | The pending auto-advance runs its captured goToNextStep |
| InteractiveTutorial.Tutorial.RevealTimerFired | src/components/InteractiveTutorial.tsx:116-125 | A pending reveal timer shows the next button |
| InteractiveTutorial.Tutorial.HandleOrientationChange | src/components/InteractiveTutorial.tsx:529-547 | Hides the next button. In DASHBOARD it arms a reveal |
| InteractiveTutorial.Tutorial.HandlePopState | src/components/InteractiveTutorial.tsx:550-562 | Completes the tutorial when it is open and past ADD_BUTTON |
| InteractiveTutorial.Tutorial.SetOpen | src/components/InteractiveTutorial.tsx:43 | Records the isOpen prop |
| AppTutorial.NineStepsForEveryLanguage | src/components/AppTutorial.tsx:54-217 | Every language gets nine steps with the same highlight counts. The last step has none. The mode is not consulted |
| AppTutorial.FlipTextSize | src/components/AppTutorial.tsx:310-312 | Toggling always changes the text size |
| AppTutorial.FlipTextSizeTwice | src/components/AppTutorial.tsx:310-312 | Toggling twice restores the text size |
| AppTutorial.NextSteps | src/components/AppTutorial.tsx:285-294 | Below the last step, Next moves one step on and resets imageLoaded. On the last step it returns to 0, calls onClose once and stores `tutorialCompleted = "true"` |
| AppTutorial.PrevSteps | src/components/AppTutorial.tsx:296-301 | Prev moves one step back and resets imageLoaded. At step 0 it does nothing |
| AppTutorial.NextPrevInverse | src/components/AppTutorial.tsx:285-301 | Prev undoes Next away from the last step, and Next undoes Prev away from the first (up to imageLoaded) |
| AppTutorial.SkipCloses | src/components/AppTutorial.tsx:303-308 | Skip returns to step 0, calls onClose once and stores the completed flag. The text size and isOpen are unchanged |
| AppTutorial.OpeningResets | src/components/AppTutorial.tsx:275-281 | Opening a closed dialog resets to step 0 with the image not loaded |
| AppTutorial.StepPreservesValid | src/components/AppTutorial.tsx:275-352 | Every event, including dot selection and a language change, keeps the step index within the list |
| AppTutorial.RunPreservesValid | src/components/AppTutorial.tsx:275-352 | Along any sequence of events the step index stays within 0..8 |
| AppTutorial.TutorialDialog.constructor | src/components/AppTutorial.tsx:270-273 | The dialog mounts at step 0, normal text size, image not loaded |
| AppTutorial.TutorialDialog.HandleSkip | src/components/AppTutorial.tsx:303-308 | The new state is Skip of the old |
| AppTutorial.TutorialDialog.HandleNextStep | src/components/AppTutorial.tsx:285-294 | The new state is Next of the old |
| AppTutorial.TutorialDialog.HandlePrevStep | src/components/AppTutorial.tsx:296-301 | The new state is Prev of the old |
| AppTutorial.TutorialDialog.SelectStep | src/components/AppTutorial.tsx:340-352 | A progress dot sets the step to its own index and changes nothing else; with the dialog open this is the `DotClicked` step. The method has no `isOpen` test because the dots are rendered only inside the open dialog |
| AppTutorial.TutorialDialog.ToggleTextSize | src/components/AppTutorial.tsx:310-312 | Flips the text size and nothing else; with the dialog open this is the `TextSizeToggled` step, and the toggle is rendered only inside the open dialog |
| AppTutorial.TutorialDialog.HandleDismiss | src/components/AppTutorial.tsx:321 | Closing the dialog from outside calls onClose once and changes nothing else; with the dialog open this is the `Dismissed` step |
| AppTutorial.TutorialDialog.HandleImageSettled | src/components/AppTutorial.tsx:379-384 | The image's load or error handler marks it loaded and changes nothing else; with the dialog open this is the `ImageSettled` step, and the image is rendered only inside the open dialog |
| AppTutorial.TutorialDialog.SetOpen | src/components/AppTutorial.tsx:275-281 | Opening a closed dialog resets the step and imageLoaded. Otherwise it only records the prop |
| ItemCard.ExpiryStatusThresholds | src/components/ItemCard.tsx:38-43 | At most 1 day is expired, 2..4 is a warning and 5 or more is safe. Every day count gets exactly one of the three classes |
| ItemCard.ExpiryStatusMonotone | src/components/ItemCard.tsx:38-43 | More days left never gives a more severe status |
| ItemCard.ColorThresholds | src/components/ItemCard.tsx:45-55 | The icon colour and the badge colour share thresholds: red at most 1 day, yellow 2..3, green from 4 |
| ItemCard.StatusAndColorAgreeExceptFourDays | src/components/ItemCard.tsx:38-55 | getExpiryStatus says expired iff getExpiryColor says red, and safe implies green. A warning is yellow except at 4 days, where getExpiryStatus says warning and getExpiryColor says green |
| ItemCard.ExpiryTextCases | src/components/ItemCard.tsx:68-80 | Negative is "expired" and 0 is "today". 1 is "tomorrow", or the literal "1 Day" / "1 天" in compact view. From 2 the badge shows the count. The view matters only for 1 |
| ItemCard.ClearTimerIdempotent | src/components/ItemCard.tsx:82-88 | Clearing leaves no timer and no start position. Clearing twice is clearing once. Callbacks and the triggered flag are untouched |
| ItemCard.StartTimerResets | src/components/ItemCard.tsx:90-105 | Arming clears any earlier timer, resets the triggered flag, records the start position and captures the current multi-select mode |
| ItemCard.TimerFiresOnce | src/components/ItemCard.tsx:98-104 | When the timer fires, onLongPress is called and the triggered flag set only if it was armed outside multi-select mode. The timer is cleared either way |
| ItemCard.MoveThreshold | src/components/ItemCard.tsx:111-120 | A move cancels a pending press iff it goes more than 10 beyond the start on either axis. Otherwise the state is unchanged |
| ItemCard.ClickSuppressedOnlyAfterLongPress | src/components/ItemCard.tsx:147-152 | onClick is called unless a long press triggered outside multi-select mode. The triggered flag always ends false |
| ItemCard.SmallMovesKeepPress | src/components/ItemCard.tsx:111-120 | Any number of moves within the threshold of the start leave a pending press exactly as it was |
| ItemCard.LongPressSuppressesClick | src/components/ItemCard.tsx:90-152 | Outside multi-select: press, move within the threshold, hold until the timer fires, release and click. onLongPress is called once and onClick is not called |
| ItemCard.LongPressThenMultiSelectClickReachesOnClick | src/components/ItemCard.tsx:90-152 | Press, let the timer fire, then the owner turns multi-select on, release and click: onLongPress and then onClick are both called |
| ItemCard.ScrollCancelsLongPress | src/components/ItemCard.tsx:111-120 | A press followed by a move beyond the threshold cancels the timer, so no long press happens |
| ItemCard.TapClicks | src/components/ItemCard.tsx:90-152 | A press released before the timer fires, then a click, calls onClick once |
| ItemCard.LongPressGesture.constructor | src/components/ItemCard.tsx:33-35 | The card mounts with no timer, no start position and the triggered flag false |
| ItemCard.LongPressGesture.ClearLongPressTimer | src/components/ItemCard.tsx:82-88 | The new state is ClearTimer of the old |
| ItemCard.LongPressGesture.StartLongPressTimer | src/components/ItemCard.tsx:90-105 | The new state is StartTimer of the old |
| ItemCard.LongPressGesture.LongPressTimerFired | src/components/ItemCard.tsx:98-104 | The pending timer runs its captured callback |
| ItemCard.LongPressGesture.HandlePointerDown | src/components/ItemCard.tsx:107-109 | Arms the timer at the pointer position |
| ItemCard.LongPressGesture.HandlePointerMove | src/components/ItemCard.tsx:111-120 | Cancels the pending press on a move beyond the threshold |
| ItemCard.LongPressGesture.HandlePointerUp | src/components/ItemCard.tsx:122-128 | Release or leave clears the timer. Touch end and touch cancel use the same handlers |
| ItemCard.LongPressGesture.HandleTouchStart | src/components/ItemCard.tsx:130-134 | Arms the timer at the first touch, when there is one |
| ItemCard.LongPressGesture.HandleTouchMove | src/components/ItemCard.tsx:136-145 | Cancels the pending press when the first touch moves beyond the threshold |
| ItemCard.LongPressGesture.HandleClickInternal | src/components/ItemCard.tsx:147-152 | The new state is ClickInternal of the old |
| FAQContent.ToggleFlipsOnlyItsKey | src/components/FAQContent.tsx:40-54 | A toggle flips the truthiness of its own key and leaves every other key's truthiness unchanged |
| FAQContent.ToggleTwice | src/components/FAQContent.tsx:40-54 | Toggling the same key twice restores what every key reads as |
| FAQContent.ToggleAllParity | src/components/FAQContent.tsx:40-54 | After any sequence of clicks, a key is expanded iff its start value differs from "clicked an odd number of times" |
| FAQContent.DigitChar | src/components/FAQContent.tsx:49 | A decimal digit becomes a digit character |
| FAQContent.NatToString | src/components/FAQContent.tsx:49 | A number's decimal form is a non-empty string of digits |
| FAQContent.ParseNatToString | src/components/FAQContent.tsx:49 | Reading back a number's decimal form gives the number |
| FAQContent.FirstDash | src/components/FAQContent.tsx:49 | Finds the first '-': no earlier character is '-' |
| FAQContent.ParseItemKey | src/components/FAQContent.tsx:49 | Splitting the key "c-i" at its first '-' gives back (c, i) |
| FAQContent.ItemKeyInjective | src/components/FAQContent.tsx:49 | Two items share a key iff they have the same category and item index |
| FAQContent.CategoryShape | src/components/FAQContent.tsx:57-230 | The table has 8 categories with 5, 5, 4, 5, 4, 5, 3 and 2 questions |
| FAQContent.InitialPanelShape | src/components/FAQContent.tsx:33-37 | On mount only category 0 lists its questions, and no answer is shown |
| FAQContent.ToggleItemOnlyAffectsItself | src/components/FAQContent.tsx:48-54 | Clicking question (c, i) flips its own answer while category c is expanded. It changes no other answer and no category |
| FAQContent.ToggleCategoryOnlyAffectsItself | src/components/FAQContent.tsx:40-45 | Clicking a header flips that category only. Other categories' answers are unchanged. The expanded questions are kept |
| FAQContent.ReopenedCategoryRemembersAnswers | src/components/FAQContent.tsx:246-270 | Collapsing and reopening a category shows exactly the answers shown before |

## Left out

- Rendering, styling and DOM work is not modelled: JSX, CSS injection, flash effects, the highlight overlay's geometry, scroll areas and image URLs beyond the step table's paths.
- Translation is not modelled: titles, questions, answers and badge words stay as translation keys.
- The native bridge is not modelled: listener registration and removal, a failure to register, and what `exitApp` and `navigate(-1)` do. The handlers' requests are recorded in an effect log instead.
- Timer delays are not modelled. A timer is a pending flag plus a "fired" event, and real-time ordering is not captured.
- The 500 ms kick-off timer of the dashboard tap effect is modelled by the same event as a document touchstart, since both run the first-touch handler. In the source that timer is never cleared and not gated on `isOpen` (src/components/InteractiveTutorial.tsx:520). A kick-off armed while the first-touch flag was set still sees the flag set when it fires, so it can run the first-touch handler a second time, after a touchstart has already run it, while the tutorial is still open, or after the tutorial closes. The second run arms a second 4000 ms auto-advance with the same effect as the first (both land on DASHBOARD(1)); the model merges the two into its one pending auto-advance flag and does not capture the run after close.
- In the interactive tutorial, `progress` (src/components/InteractiveTutorial.tsx:568), `getCurrentStepNumber` (:571), `showNextButton` (:50) and `handleSkip` (:84) are computed but never used by the rendered output. The model keeps them as the source defines them, so the `Skip` event and the next-button timer model behaviour no user can trigger.
- Several save clicks before the first settle collapse into one pending advance. The source would queue one advance per click.
- The model does not clear a pending "show next button" timer when the dashboard effect is cleaned up (src/components/InteractiveTutorial.tsx:123). So a reveal can still fire after the tutorial closes.
- `formVisible` in the interactive tutorial is written but never read by the modelled logic, so it is not kept.
- The initial values of the shared context flags live in AppContext, which is not part of this model. The AppContext constructor assumes every flag starts false.
- Resetting the selected item on a route change (src/App.tsx:55-57) is not modelled.
- `getExpiryStatus` (src/components/ItemCard.tsx:38-43) is defined but never called: the rendered card takes its colours only from `getExpiryColor` and `getIconColorClass`. So `ItemCard.ExpiryStatusThresholds`, `ItemCard.ExpiryStatusMonotone` and the 4-day mismatch in `ItemCard.StatusAndColorAgreeExceptFourDays` describe a function with no visible effect; no card ever carries `item-expired`, `item-warning` or `item-safe`.
- Computing the days left from an expiry date is not part of this model: days left are an integer input to the classification functions.
- Pointer coordinates are whole numbers rather than floating-point pixels.
- AppTutorial.TutorialDialog.SelectStep: it requires the index to be a valid step, because a dot exists only for each step index.
- The barcode scanner, the toaster and the FAQ page wrapper are not part of this model. They hold no state logic beyond rendering.
