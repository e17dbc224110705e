/**
 * The durable key-value string store the app keeps its onboarding flags in
 * (the browser's local storage). Absent keys read as null; the app treats a
 * stored flag as set only when the key is present with a non-empty value,
 * because it tests `!getItem(key)` and the empty string is falsy.
 */
module Preferences {

  type Store = map<string, string>

  /** The key both tutorials write when they finish or are skipped. */
  const TutorialCompletedKey: string := "tutorialCompleted"

  /** The value written under TutorialCompletedKey. */
  const TrueText: string := "true"

  /** JavaScript truthiness of `getItem(key)`: null and "" are falsy. */
  predicate FlagSet(store: Store, key: string)
  {
    key in store && store[key] != ""
  }

  /** `localStorage.setItem('tutorialCompleted', 'true')`. */
  function MarkTutorialCompleted(store: Store): (r: Store)
    ensures FlagSet(r, TutorialCompletedKey) && r[TutorialCompletedKey] == TrueText
    ensures r.Keys == store.Keys + {TutorialCompletedKey}
    ensures forall k :: k in store && k != TutorialCompletedKey ==> r[k] == store[k]
  {
    store[TutorialCompletedKey := TrueText]
  }
}
