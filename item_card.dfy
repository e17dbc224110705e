/**
 * The inventory item card: how it classifies the days left until an item
 * expires (the status class getExpiryStatus returns, the colours the card
 * renders, the badge text) and the press gesture that
 * tells a long press (enter multi-select) from a scroll and from a tap.
 *
 * Days remaining are an input here; computing them from the expiry date is
 * not part of this model. Pointer coordinates are whole numbers.
 */
module ItemCard {

  import opened Wrappers

  // ---------------------------------------------------------------------------
  // Expiry classification
  // ---------------------------------------------------------------------------

  datatype ExpiryStatus = ItemExpired | ItemWarning | ItemSafe
  {
    /** The class name getExpiryStatus returns. */
    function ClassName(): string
    {
      match this
      case ItemExpired => "item-expired"
      case ItemWarning => "item-warning"
      case ItemSafe => "item-safe"
    }

    /** 2 for expired, 1 for warning, 0 for safe. */
    function Severity(): nat
    {
      match this
      case ItemExpired => 2
      case ItemWarning => 1
      case ItemSafe => 0
    }
  }

  /** getExpiryStatus; today and tomorrow already count as expired. */
  function GetExpiryStatus(days: int): (st: ExpiryStatus)
  {
    if days < 0 then ItemExpired
    else if days <= 1 then ItemExpired
    else if days <= 4 then ItemWarning
    else ItemSafe
  }

  const RedIcon: string := "text-red-600 dark:text-red-400"
  const YellowIcon: string := "text-yellow-600 dark:text-yellow-400"
  const GreenIcon: string := "text-green-600 dark:text-green-400"

  const RedBadge: string := "bg-red-100/80 border-red-300 text-red-700 dark:bg-red-900/30 dark:border-red-700 dark:text-red-400"
  const YellowBadge: string := "bg-yellow-100/80 border-yellow-300 text-yellow-700 dark:bg-yellow-900/30 dark:border-yellow-600 dark:text-yellow-400"
  const GreenBadge: string := "bg-green-100/80 border-green-300 text-green-700 dark:bg-green-900/30 dark:border-green-700 dark:text-green-400"

  /** getIconColorClass. */
  function GetIconColorClass(days: int): (c: string)
  {
    if days <= 1 then RedIcon
    else if days <= 3 then YellowIcon
    else GreenIcon
  }

  /** getExpiryColor. */
  function GetExpiryColor(days: int): (c: string)
  {
    if days <= 1 then RedBadge
    else if days <= 3 then YellowBadge
    else GreenBadge
  }

  /**
   * The status thresholds: at most 1 day is expired, 2 to 4 is a warning,
   * 5 or more is safe; every day count gets exactly one status.
   */
  lemma ExpiryStatusThresholds(days: int)
    ensures GetExpiryStatus(days) == ItemExpired <==> days <= 1
    ensures GetExpiryStatus(days) == ItemWarning <==> 2 <= days <= 4
    ensures GetExpiryStatus(days) == ItemSafe <==> days >= 5
    ensures GetExpiryStatus(days).ClassName() in {"item-expired", "item-warning", "item-safe"}
  {
  }

  /** More days left never makes the status more severe. */
  lemma ExpiryStatusMonotone(d1: int, d2: int)
    requires d1 <= d2
    ensures GetExpiryStatus(d2).Severity() <= GetExpiryStatus(d1).Severity()
  {
  }

  /**
   * The icon colour and the badge colour use the same thresholds: red at
   * most 1 day, yellow 2 or 3, green from 4.
   */
  lemma ColorThresholds(days: int)
    ensures GetIconColorClass(days) == RedIcon <==> days <= 1
    ensures GetIconColorClass(days) == YellowIcon <==> 2 <= days <= 3
    ensures GetIconColorClass(days) == GreenIcon <==> days >= 4
    ensures GetIconColorClass(days) == RedIcon <==> GetExpiryColor(days) == RedBadge
    ensures GetIconColorClass(days) == YellowIcon <==> GetExpiryColor(days) == YellowBadge
    ensures GetIconColorClass(days) == GreenIcon <==> GetExpiryColor(days) == GreenBadge
  {
  }

  /**
   * Status and colour agree except on one day count: with 4 days left
   * getExpiryStatus says warning where getExpiryColor says green.
   */
  lemma StatusAndColorAgreeExceptFourDays(days: int)
    ensures GetExpiryStatus(days) == ItemExpired <==> GetExpiryColor(days) == RedBadge
    ensures GetExpiryStatus(days) == ItemSafe ==> GetExpiryColor(days) == GreenBadge
    ensures GetExpiryStatus(days) == ItemWarning && days != 4 ==> GetExpiryColor(days) == YellowBadge
    ensures GetExpiryStatus(4) == ItemWarning && GetExpiryColor(4) == GreenBadge
  {
  }

  datatype ViewMode = Grid | List | Compact

  /** The badge text: a translation key, a literal, or "<n> " followed by the translation of "days". */
  datatype ExpiryText = Translated(key: string) | Literal(text: string) | DayCount(days: int)

  /** getExpiryText. */
  function GetExpiryText(days: int, mode: ViewMode, language: string): (t: ExpiryText)
  {
    if mode == Compact then
      if days < 0 then Translated("expired")
      else if days == 0 then Translated("today")
      else if days == 1 then Literal(if language == "en" then "1 Day" else "1 天")
      else DayCount(days)
    else
      if days < 0 then Translated("expired")
      else if days == 0 then Translated("today")
      else if days == 1 then Translated("tomorrow")
      else DayCount(days)
  }

  /**
   * The badge text by case: negative is expired, 0 is today, 1 is tomorrow
   * (a literal "1 Day" / "1 天" in the compact view), otherwise the count;
   * the view mode only matters for 1.
   */
  lemma ExpiryTextCases(days: int, mode: ViewMode, language: string)
    ensures days < 0 ==> GetExpiryText(days, mode, language) == Translated("expired")
    ensures days == 0 ==> GetExpiryText(days, mode, language) == Translated("today")
    ensures days == 1 && mode != Compact ==> GetExpiryText(days, mode, language) == Translated("tomorrow")
    ensures days == 1 && mode == Compact ==>
      GetExpiryText(days, mode, language) == Literal(if language == "en" then "1 Day" else "1 天")
    ensures days >= 2 ==> GetExpiryText(days, mode, language) == DayCount(days)
    ensures days != 1 ==> GetExpiryText(days, Compact, language) == GetExpiryText(days, Grid, language)
  {
  }

  // ---------------------------------------------------------------------------
  // Long-press gesture
  // ---------------------------------------------------------------------------

  /** SCROLL_THRESHOLD: movement beyond this on either axis is a scroll. */
  const ScrollThreshold: int := 10

  datatype Point = Point(x: int, y: int)

  /** The card's callbacks, in the order they were called. */
  datatype Callback = LongPressed | Clicked

  datatype Press = Press(
    timerArmed: bool,           // longPressTimer.current != null
    armedInMultiSelect: bool,   // isMultiSelectMode as captured by the armed timer
    startPos: Option<Point>,    // touchStartPos.current
    triggered: bool,            // isLongPressTriggered
    multiSelect: bool,          // the isMultiSelectMode prop
    calls: seq<Callback>)

  function Abs(n: int): nat
  {
    if n < 0 then -n else n
  }

  /** Whether `q` is more than the threshold away from `s` on some axis. */
  predicate Beyond(s: Point, q: Point)
  {
    Abs(q.x - s.x) > ScrollThreshold || Abs(q.y - s.y) > ScrollThreshold
  }

  /** clearLongPressTimer. */
  function ClearTimer(p: Press): (r: Press)
  {
    p.(timerArmed := false, startPos := None)
  }

  /** startLongPressTimer, with the start position when one is given. */
  function StartTimer(p: Press, pos: Option<Point>): (r: Press)
  {
    var cleared := ClearTimer(p).(triggered := false);
    cleared.(startPos := if pos.Some? then pos else cleared.startPos,
             timerArmed := true,
             armedInMultiSelect := p.multiSelect)
  }

  /** The 800 ms timer firing, running the callback captured when it was armed. */
  function TimerFires(p: Press): (r: Press)
  {
    if !p.timerArmed then p
    else
      var fired := if !p.armedInMultiSelect then p.(calls := p.calls + [LongPressed], triggered := true) else p;
      fired.(timerArmed := false)
  }

  /** handlePointerMove and handleTouchMove with a position. */
  function Moved(p: Press, q: Point): (r: Press)
  {
    if p.startPos.Some? && p.timerArmed && Beyond(p.startPos.value, q) then ClearTimer(p) else p
  }

  /** handleClickInternal. */
  function ClickInternal(p: Press): (r: Press)
  {
    var clicked := if !p.triggered || p.multiSelect then p.(calls := p.calls + [Clicked]) else p;
    clicked.(triggered := false)
  }

  datatype Event =
    | PointerDown(at: Point)
    | PointerMove(to: Point)
    | PointerUp
    | PointerLeave
    | TouchStart(touch: Option<Point>)
    | TouchMove(moved: Option<Point>)
    | TouchEnd
    | TouchCancel
    | TimerFired
    | Click
    | MultiSelectChanged(on: bool)

  function Step(p: Press, e: Event): (r: Press)
  {
    match e
    case PointerDown(q) => StartTimer(p, Some(q))
    case PointerMove(q) => Moved(p, q)
    case PointerUp => ClearTimer(p)
    case PointerLeave => ClearTimer(p)
    case TouchStart(t) => if t.Some? then StartTimer(p, t) else p
    case TouchMove(t) => if t.Some? then Moved(p, t.value) else p
    case TouchEnd => ClearTimer(p)
    case TouchCancel => ClearTimer(p)
    case TimerFired => TimerFires(p)
    case Click => ClickInternal(p)
    case MultiSelectChanged(on) => p.(multiSelect := on)
  }

  function Run(p: Press, events: seq<Event>): (r: Press)
    decreases |events|
  {
    if events == [] then p else Run(Step(p, events[0]), events[1..])
  }

  /** Clearing leaves no timer and no start position, and clearing again changes nothing. */
  lemma ClearTimerIdempotent(p: Press)
    ensures !ClearTimer(p).timerArmed && ClearTimer(p).startPos == None
    ensures ClearTimer(ClearTimer(p)) == ClearTimer(p)
    ensures ClearTimer(p).calls == p.calls && ClearTimer(p).triggered == p.triggered
  {
  }

  /** Arming drops any earlier timer, resets the triggered flag and records the start. */
  lemma StartTimerResets(p: Press, q: Point)
    ensures StartTimer(p, Some(q)).timerArmed && !StartTimer(p, Some(q)).triggered
    ensures StartTimer(p, Some(q)).startPos == Some(q)
    ensures StartTimer(p, Some(q)).armedInMultiSelect == p.multiSelect
    ensures StartTimer(p, Some(q)).calls == p.calls
    ensures StartTimer(p, None).startPos == None
  {
  }

  /**
   * When the timer fires, onLongPress is called and the triggered flag set
   * only if it was armed outside multi-select mode; the timer is gone either
   * way.
   */
  lemma TimerFiresOnce(p: Press)
    requires p.timerArmed
    ensures !TimerFires(p).timerArmed
    ensures TimerFires(p).calls == p.calls + (if p.armedInMultiSelect then [] else [LongPressed])
    ensures TimerFires(p).triggered == (p.triggered || !p.armedInMultiSelect)
    ensures TimerFires(TimerFires(p)) == TimerFires(p)
  {
  }

  /**
   * A move cancels an armed press exactly when it goes beyond the threshold
   * on either axis.
   */
  lemma MoveThreshold(p: Press, s: Point, q: Point)
    requires p.timerArmed && p.startPos == Some(s)
    ensures !Moved(p, q).timerArmed <==> Abs(q.x - s.x) > 10 || Abs(q.y - s.y) > 10
    ensures Moved(p, q).timerArmed ==> Moved(p, q) == p
  {
  }

  /**
   * A click reaches onClick unless a long press fired outside multi-select
   * mode, and always clears the triggered flag.
   */
  lemma ClickSuppressedOnlyAfterLongPress(p: Press)
    ensures ClickInternal(p).calls == p.calls + (if p.triggered && !p.multiSelect then [] else [Clicked])
    ensures !ClickInternal(p).triggered
  {
  }

  lemma {:induction false} RunAppend(p: Press, a: seq<Event>, b: seq<Event>)
    ensures Run(p, a + b) == Run(Run(p, a), b)
    decreases |a|
  {
    if a == [] {
      assert a + b == b;
    } else {
      assert (a + b)[0] == a[0];
      assert (a + b)[1..] == a[1..] + b;
      RunAppend(Step(p, a[0]), a[1..], b);
    }
  }

  /** Any number of moves that stay within the threshold of the start leave a pending press as it was. */
  lemma {:induction false} SmallMovesKeepPress(p: Press, s: Point, moves: seq<Point>)
    requires p.timerArmed && p.startPos == Some(s)
    requires forall i :: 0 <= i < |moves| ==> !Beyond(s, moves[i])
    ensures Run(p, MoveEvents(moves)) == p
    decreases |moves|
  {
    if moves != [] {
      assert MoveEvents(moves)[0] == PointerMove(moves[0]);
      assert MoveEvents(moves)[1..] == MoveEvents(moves[1..]);
      SmallMovesKeepPress(p, s, moves[1..]);
    }
  }

  /** Pointer moves to the given positions. */
  function MoveEvents(moves: seq<Point>): (evs: seq<Event>)
    ensures |evs| == |moves|
    ensures forall i :: 0 <= i < |moves| ==> evs[i] == PointerMove(moves[i])
  {
    if moves == [] then [] else [PointerMove(moves[0])] + MoveEvents(moves[1..])
  }

  /**
   * A long press: press, wobble within the threshold, hold until the timer
   * fires, release and click. Outside multi-select mode onLongPress is called
   * once and the click that follows does not reach onClick.
   */
  lemma LongPressSuppressesClick(p: Press, s: Point, moves: seq<Point>)
    requires !p.multiSelect
    requires forall i :: 0 <= i < |moves| ==> !Beyond(s, moves[i])
    ensures Run(p, [PointerDown(s)] + MoveEvents(moves) + [TimerFired, PointerUp, Click]).calls
         == p.calls + [LongPressed]
  {
    var pressed := Step(p, PointerDown(s));
    assert Run(p, [PointerDown(s)]) == pressed;
    RunAppend(p, [PointerDown(s)], MoveEvents(moves));
    SmallMovesKeepPress(pressed, s, moves);
    RunAppend(p, [PointerDown(s)] + MoveEvents(moves), [TimerFired, PointerUp, Click]);
    var fired := TimerFires(pressed);
    var released := ClearTimer(fired);
    assert Run(pressed, [TimerFired, PointerUp, Click]) == ClickInternal(released);
  }

  /**
   * The suppression above holds only while multi-select stays off. When the
   * card's owner enters multi-select in response to onLongPress (as the prop
   * is documented to do), the click that ends the same press reaches onClick
   * after all.
   */
  lemma LongPressThenMultiSelectClickReachesOnClick(p: Press, s: Point)
    requires !p.multiSelect
    ensures Run(p, [PointerDown(s), TimerFired, MultiSelectChanged(true), PointerUp, Click]).calls
         == p.calls + [LongPressed, Clicked]
  {
    var evs := [PointerDown(s), TimerFired, MultiSelectChanged(true), PointerUp, Click];
    var p1 := Step(p, evs[0]);
    var p2 := Step(p1, evs[1]);
    var p3 := Step(p2, evs[2]);
    var p4 := Step(p3, evs[3]);
    var p5 := Step(p4, evs[4]);
    assert p2.calls == p.calls + [LongPressed] && p2.triggered;
    assert p5.calls == p.calls + [LongPressed] + [Clicked];
    assert Run(p, evs) == Run(p1, evs[1..]);
    assert Run(p1, evs[1..]) == Run(p2, evs[2..]);
    assert Run(p2, evs[2..]) == Run(p3, evs[3..]);
    assert Run(p3, evs[3..]) == Run(p4, evs[4..]);
    assert Run(p4, evs[4..]) == Run(p5, evs[5..]);
  }

  /**
   * A scroll: press, then move beyond the threshold. The timer is cancelled,
   * so no long press happens.
   */
  lemma ScrollCancelsLongPress(p: Press, s: Point, q: Point)
    requires Beyond(s, q)
    ensures !Run(p, [PointerDown(s), PointerMove(q)]).timerArmed
    ensures Run(p, [PointerDown(s), PointerMove(q), TimerFired]).calls == p.calls
  {
    var pressed := Step(p, PointerDown(s));
    var moved := Step(pressed, PointerMove(q));
    assert !moved.timerArmed;
    assert Run(moved, []) == moved;
    assert Run(moved, [TimerFired]) == Run(TimerFires(moved), []);
    assert [PointerMove(q)][1..] == [];
    assert [PointerMove(q), TimerFired][1..] == [TimerFired];
    assert Run(p, [PointerDown(s), PointerMove(q)]) == Run(pressed, [PointerMove(q)]) == moved;
    assert Run(p, [PointerDown(s), PointerMove(q), TimerFired]) == Run(pressed, [PointerMove(q), TimerFired]);
  }

  /** A tap: press and release before the timer fires; the click reaches onClick. */
  lemma TapClicks(p: Press, s: Point)
    ensures Run(p, [PointerDown(s), PointerUp, Click]).calls == p.calls + [Clicked]
  {
    var pressed := Step(p, PointerDown(s));
    assert Run(p, [PointerDown(s), PointerUp, Click]) == Run(pressed, [PointerUp, Click]);
  }

  /** The card's gesture refs and state. */
  class LongPressGesture {
    var timerArmed: bool
    var armedInMultiSelect: bool
    var touchStartPos: Option<Point>
    var isLongPressTriggered: bool
    var isMultiSelectMode: bool
    var calls: seq<Callback>

    function Snapshot(): (p: Press)
      reads this
    {
      Press(timerArmed, armedInMultiSelect, touchStartPos, isLongPressTriggered, isMultiSelectMode, calls)
    }

    constructor (isMultiSelectMode: bool)
      ensures Snapshot() == Press(false, false, None, false, isMultiSelectMode, [])
    {
      timerArmed, armedInMultiSelect := false, false;
      touchStartPos := None;
      isLongPressTriggered := false;
      this.isMultiSelectMode := isMultiSelectMode;
      calls := [];
    }

    method ClearLongPressTimer()
      modifies this
      ensures Snapshot() == ClearTimer(old(Snapshot()))
    {
      if timerArmed {
        timerArmed := false;
      }
      touchStartPos := None;
    }

    method StartLongPressTimer(pos: Option<Point>)
      modifies this
      ensures Snapshot() == StartTimer(old(Snapshot()), pos)
    {
      ClearLongPressTimer();
      isLongPressTriggered := false;
      if pos.Some? {
        touchStartPos := pos;
      }
      timerArmed := true;
      armedInMultiSelect := isMultiSelectMode;
    }

    method LongPressTimerFired()
      modifies this
      ensures Snapshot() == Step(old(Snapshot()), TimerFired)
    {
      if timerArmed {
        if !armedInMultiSelect {
          calls := calls + [LongPressed];
          isLongPressTriggered := true;
        }
        timerArmed := false;
      }
    }

    method HandlePointerDown(x: int, y: int)
      modifies this
      ensures Snapshot() == Step(old(Snapshot()), PointerDown(Point(x, y)))
    {
      StartLongPressTimer(Some(Point(x, y)));
    }

    method HandlePointerMove(x: int, y: int)
      modifies this
      ensures Snapshot() == Step(old(Snapshot()), PointerMove(Point(x, y)))
    {
      if touchStartPos.Some? && timerArmed {
        var deltaX := Abs(x - touchStartPos.value.x);
        var deltaY := Abs(y - touchStartPos.value.y);
        if deltaX > ScrollThreshold || deltaY > ScrollThreshold {
          ClearLongPressTimer();
        }
      }
    }

    /** Mouse up, mouse leave, touch end and touch cancel all clear the timer. */
    method HandlePointerUp()
      modifies this
      ensures Snapshot() == Step(old(Snapshot()), PointerUp)
    {
      ClearLongPressTimer();
    }

    method HandleTouchStart(touch: Option<Point>)
      modifies this
      ensures Snapshot() == Step(old(Snapshot()), TouchStart(touch))
    {
      if touch.Some? {
        StartLongPressTimer(touch);
      }
    }

    method HandleTouchMove(touch: Option<Point>)
      modifies this
      ensures Snapshot() == Step(old(Snapshot()), TouchMove(touch))
    {
      if touchStartPos.Some? && timerArmed && touch.Some? {
        var deltaX := Abs(touch.value.x - touchStartPos.value.x);
        var deltaY := Abs(touch.value.y - touchStartPos.value.y);
        if deltaX > ScrollThreshold || deltaY > ScrollThreshold {
          ClearLongPressTimer();
        }
      }
    }

    method HandleClickInternal()
      modifies this
      ensures Snapshot() == ClickInternal(old(Snapshot()))
    {
      if !isLongPressTriggered || isMultiSelectMode {
        calls := calls + [Clicked];
      }
      isLongPressTriggered := false;
    }
  }
}
