/**
 * The FAQ panel: a fixed table of categories of questions, each category
 * and each question expandable on its own. Expansion is kept in two
 * dictionaries, one keyed by category index and one keyed by the string
 * "<category>-<item>"; a missing key reads as collapsed.
 *
 * Titles, questions and answers are translation keys; translating them is
 * not part of this model.
 */
module FAQContent {

  import opened Wrappers

  // ---------------------------------------------------------------------------
  // Expansion dictionaries
  // ---------------------------------------------------------------------------

  /** `prev[k]` read as a condition: a missing key is undefined, hence falsy. */
  predicate Truthy<K>(m: map<K, bool>, k: K)
  {
    k in m && m[k]
  }

  /** `{...prev, [k]: !prev[k]}`. */
  function Toggle<K>(m: map<K, bool>, k: K): (r: map<K, bool>)
  {
    m[k := !Truthy(m, k)]
  }

  /** Toggling flips the one key and leaves every other key's truthiness alone. */
  lemma ToggleFlipsOnlyItsKey<K>(m: map<K, bool>, k: K, j: K)
    ensures Truthy(Toggle(m, k), k) == !Truthy(m, k)
    ensures j != k ==> Truthy(Toggle(m, k), j) == Truthy(m, j)
    ensures Toggle(m, k).Keys == m.Keys + {k}
  {
  }

  /** Toggling the same key twice restores what every key reads as. */
  lemma ToggleTwice<K>(m: map<K, bool>, k: K, j: K)
    ensures Truthy(Toggle(Toggle(m, k), k), j) == Truthy(m, j)
  {
  }

  /** A sequence of clicks, applied in order. */
  function ToggleAll<K>(m: map<K, bool>, ks: seq<K>): (r: map<K, bool>)
    decreases |ks|
  {
    if ks == [] then m else ToggleAll(Toggle(m, ks[0]), ks[1..])
  }

  /** How many times `k` occurs in `ks`. */
  function Occurrences<K(==)>(ks: seq<K>, k: K): nat
    decreases |ks|
  {
    if ks == [] then 0 else (if ks[0] == k then 1 else 0) + Occurrences(ks[1..], k)
  }

  /**
   * After any sequence of clicks a key reads as expanded exactly when it
   * started expanded and was clicked an even number of times, or started
   * collapsed and was clicked an odd number of times.
   */
  lemma {:induction false} ToggleAllParity<K>(m: map<K, bool>, ks: seq<K>, k: K)
    ensures Truthy(ToggleAll(m, ks), k) == (Truthy(m, k) != (Occurrences(ks, k) % 2 == 1))
    decreases |ks|
  {
    if ks != [] {
      ToggleFlipsOnlyItsKey(m, ks[0], k);
      ToggleAllParity(Toggle(m, ks[0]), ks[1..], k);
    }
  }

  // ---------------------------------------------------------------------------
  // Item keys
  // ---------------------------------------------------------------------------

  predicate IsDigit(ch: char)
  {
    '0' <= ch <= '9'
  }

  predicate AllDigits(s: string)
  {
    forall i :: 0 <= i < |s| ==> IsDigit(s[i])
  }

  function DigitChar(d: nat): (ch: char)
    requires d < 10
    ensures IsDigit(ch)
  {
    (48 + d) as char
  }

  function DigitValue(ch: char): nat
    requires IsDigit(ch)
  {
    ch as int - 48
  }

  /** A number in decimal, as a template literal writes it. */
  function NatToString(n: nat): (s: string)
    ensures |s| >= 1 && AllDigits(s)
  {
    if n < 10 then [DigitChar(n)] else NatToString(n / 10) + [DigitChar(n % 10)]
  }

  /** The value of a string of decimal digits; the empty string reads as 0. */
  function ParseNat(s: string): nat
    requires AllDigits(s)
    decreases |s|
  {
    if s == [] then 0 else ParseNat(s[..|s| - 1]) * 10 + DigitValue(s[|s| - 1])
  }

  /** Reading back the decimal form of a number gives the number. */
  lemma {:induction false} ParseNatToString(n: nat)
    ensures ParseNat(NatToString(n)) == n
  {
    var s := NatToString(n);
    if n >= 10 {
      assert s[..|s| - 1] == NatToString(n / 10);
      ParseNatToString(n / 10);
    }
  }

  /** The key of the item `itemIndex` of category `categoryIndex` in the item dictionary. */
  function ItemKey(categoryIndex: nat, itemIndex: nat): (key: string)
  {
    NatToString(categoryIndex) + "-" + NatToString(itemIndex)
  }

  /** The index of the first '-' in `s`, or |s| when there is none. */
  function FirstDash(s: string): (i: nat)
    ensures i <= |s|
    ensures forall j :: 0 <= j < i ==> s[j] != '-'
    ensures i < |s| ==> s[i] == '-'
  {
    if s == [] then 0 else if s[0] == '-' then 0 else 1 + FirstDash(s[1..])
  }

  /** Splits a key at its first '-' back into the two indices. */
  function ParseKey(key: string): (r: Option<(nat, nat)>)
  {
    var d := FirstDash(key);
    if d < |key| && AllDigits(key[..d]) && AllDigits(key[d + 1..]) then
      Some((ParseNat(key[..d]), ParseNat(key[d + 1..])))
    else None
  }

  /** ParseKey inverts ItemKey. */
  lemma ParseItemKey(categoryIndex: nat, itemIndex: nat)
    ensures ParseKey(ItemKey(categoryIndex, itemIndex)) == Some((categoryIndex, itemIndex))
  {
    var a, b := NatToString(categoryIndex), NatToString(itemIndex);
    var key := ItemKey(categoryIndex, itemIndex);
    assert key[|a|] == '-';
    assert FirstDash(key) == |a|;
    assert key[..|a|] == a;
    assert key[|a| + 1..] == b;
    ParseNatToString(categoryIndex);
    ParseNatToString(itemIndex);
  }

  /** Different items never share a key. */
  lemma ItemKeyInjective(c1: nat, i1: nat, c2: nat, i2: nat)
    ensures ItemKey(c1, i1) == ItemKey(c2, i2) <==> c1 == c2 && i1 == i2
  {
    ParseItemKey(c1, i1);
    ParseItemKey(c2, i2);
  }

  // ---------------------------------------------------------------------------
  // The panel
  // ---------------------------------------------------------------------------

  datatype FAQItem = FAQItem(question: string, answer: string)

  datatype FAQCategory = FAQCategory(title: string, items: seq<FAQItem>)

  /** The FAQ table, as translation keys. */
  function Categories(): (cs: seq<FAQCategory>)
  {
    [ FAQCategory("basicUsage", [
        FAQItem("whatIsPurpose", "purposeAnswer"),
        FAQItem("howToAddItem", "addItemAnswer"),
        FAQItem("howToEditItem", "editItemAnswer"),
        FAQItem("howToDeleteItem", "deleteItemAnswer"),
        FAQItem("whatIsExpiryColor", "expiryColorAnswer")]),
      FAQCategory("advancedFeatures", [
        FAQItem("cameraQuestion", "cameraAnswer"),
        FAQItem("voiceInputQuestion", "voiceInputAnswer"),
        FAQItem("autoSubcategoryQuestion", "autoSubcategoryAnswer"),
        FAQItem("familySizeAdjustQuestion", "familySizeAdjustAnswer"),
        FAQItem("batchSelectionModeQuestion", "batchSelectionModeAnswer")]),
      FAQCategory("dashboardManagement", [
        FAQItem("dashboardColorsQuestion", "dashboardColorsAnswer"),
        FAQItem("dashboardNotificationIconQuestion", "dashboardNotificationIconAnswer"),
        FAQItem("markItemAsUsedQuestion", "markItemAsUsedAnswer"),
        FAQItem("markItemAsWastedQuestion", "markItemAsWastedAnswer")]),
      FAQCategory("viewsAndFilters", [
        FAQItem("availableViews", "viewsAnswer"),
        FAQItem("howToFilter", "filterAnswer"),
        FAQItem("howToSort", "sortAnswer"),
        FAQItem("howToGroupItemsBySubcategory", "groupItemsBySubcategoryAnswer"),
        FAQItem("canSearchForItems", "searchForItemsAnswer")]),
      FAQCategory("insightAndAnalysis", [
        FAQItem("whatInformationInsightPageShow", "insightPageShowAnswer"),
        FAQItem("howToViewStatsDifferentPeriods", "viewStatsDifferentPeriodsAnswer"),
        FAQItem("howIsUsageEfficiencyCalculated", "usageEfficiencyCalculatedAnswer"),
        FAQItem("howToSeeWastedItems", "seeWastedItemsAnswer")]),
      FAQCategory("shopListFeatures", [
        FAQItem("howToAddItemsToShoppingList", "addItemsToShoppingListAnswer"),
        FAQItem("howToManageMultipleShoppingListItems", "manageMultipleShoppingListItemsAnswer"),
        FAQItem("whatHappensWhenCheckOffItems", "checkOffItemsAnswer"),
        FAQItem("howDoesFamilySizeSettingAffect", "familySizeSettingAffectAnswer"),
        FAQItem("howToMoveShoppingListItems", "moveShoppingListItemsAnswer")]),
      FAQCategory("settingsAndPreferences", [
        FAQItem("changeDateFormatQuestion", "changeDateFormatAnswer"),
        FAQItem("changeLanguageQuestion", "changeLanguageAnswer"),
        FAQItem("darkModeQuestion", "darkModeAnswer")]),
      FAQCategory("troubleshooting", [
        FAQItem("shareItemListQuestion", "shareItemListAnswer"),
        FAQItem("voiceInputTroubleshootQuestion", "voiceInputTroubleshootAnswer")]) ]
  }

  /** The table has eight categories holding 5, 5, 4, 5, 4, 5, 3 and 2 questions. */
  lemma CategoryShape()
    ensures |Categories()| == 8
    ensures forall c :: 0 <= c < 8 ==> |Categories()[c].items| == [5, 5, 4, 5, 4, 5, 3, 2][c]
  {
  }

  /** The panel's state: the two expansion dictionaries. */
  datatype Panel = Panel(expandedCategories: map<int, bool>, expandedItems: map<string, bool>)

  /** On mount only the first category is expanded and no question is. */
  function InitialPanel(): (p: Panel)
  {
    Panel(map[0 := true], map[])
  }

  /** toggleCategory. */
  function ToggleCategory(p: Panel, index: int): (r: Panel)
  {
    p.(expandedCategories := Toggle(p.expandedCategories, index))
  }

  /** toggleItem. */
  function ToggleItem(p: Panel, categoryIndex: nat, itemIndex: nat): (r: Panel)
  {
    p.(expandedItems := Toggle(p.expandedItems, ItemKey(categoryIndex, itemIndex)))
  }

  /** A category's questions are listed when it is expanded. */
  predicate QuestionsShown(p: Panel, c: nat)
  {
    Truthy(p.expandedCategories, c)
  }

  /** An answer is shown when its category and its question are both expanded. */
  predicate AnswerShown(p: Panel, c: nat, i: nat)
  {
    QuestionsShown(p, c) && Truthy(p.expandedItems, ItemKey(c, i))
  }

  /** On mount the first category lists its questions, no other does, and no answer shows. */
  lemma InitialPanelShape(c: nat, i: nat)
    ensures QuestionsShown(InitialPanel(), c) <==> c == 0
    ensures !AnswerShown(InitialPanel(), c, i)
  {
  }

  /**
   * Clicking a question flips whether its own answer shows while its category
   * is expanded, and changes no other answer.
   */
  lemma ToggleItemOnlyAffectsItself(p: Panel, c: nat, i: nat, c2: nat, i2: nat)
    ensures QuestionsShown(p, c) ==> AnswerShown(ToggleItem(p, c, i), c, i) == !AnswerShown(p, c, i)
    ensures (c2, i2) != (c, i) ==> AnswerShown(ToggleItem(p, c, i), c2, i2) == AnswerShown(p, c2, i2)
    ensures QuestionsShown(ToggleItem(p, c, i), c2) == QuestionsShown(p, c2)
  {
    ItemKeyInjective(c, i, c2, i2);
    ToggleFlipsOnlyItsKey(p.expandedItems, ItemKey(c, i), ItemKey(c2, i2));
  }

  /**
   * Clicking a category header flips whether it lists its questions, leaves
   * the other categories alone and keeps which of its questions are expanded.
   */
  lemma ToggleCategoryOnlyAffectsItself(p: Panel, c: nat, c2: nat, i2: nat)
    ensures QuestionsShown(ToggleCategory(p, c), c) == !QuestionsShown(p, c)
    ensures c2 != c ==> QuestionsShown(ToggleCategory(p, c), c2) == QuestionsShown(p, c2)
    ensures c2 != c ==> AnswerShown(ToggleCategory(p, c), c2, i2) == AnswerShown(p, c2, i2)
    ensures ToggleCategory(p, c).expandedItems == p.expandedItems
  {
  }

  /** Collapsing and reopening a category shows exactly the answers it showed before. */
  lemma ReopenedCategoryRemembersAnswers(p: Panel, c: nat, c2: nat, i2: nat)
    ensures AnswerShown(ToggleCategory(ToggleCategory(p, c), c), c2, i2) == AnswerShown(p, c2, i2)
  {
    ToggleTwice(p.expandedCategories, c, c2);
  }
}
