/**
 * The global keyboard shortcuts of hooks/useKeyboardNavigation.ts: F1-F4 jump
 * to a section, Ctrl+L clears the terminal. The listener registration and its
 * removal are not modelled; only the decision taken for one key event is.
 */
module Shortcuts {
  import opened Wrappers

  /** The hook's own `Section` type: the four sections that have a function key. */
  datatype Target = About | Services | Projects | Contact

  /** `sectionKeys`: which function key opens which section. */
  function SectionKey(key: string): Option<Target> {
    match key
    case "F1" => Some(About)
    case "F2" => Some(Services)
    case "F3" => Some(Projects)
    case "F4" => Some(Contact)
    case _ => None
  }

  /** The inverse of `sectionKeys`: the key that opens a section. */
  function KeyFor(t: Target): string {
    match t
    case About => "F1"
    case Services => "F2"
    case Projects => "F3"
    case Contact => "F4"
  }

  /** Every section of the table has exactly one key, and only F1-F4 are bound. */
  lemma {:induction false} SectionKeysInverse(key: string, t: Target)
    ensures SectionKey(KeyFor(t)) == Some(t)
    ensures SectionKey(key) == Some(t) <==> key == KeyFor(t)
    ensures SectionKey(key).Some? <==> key in {"F1", "F2", "F3", "F4"}
  {
  }

  /**
   * What one keydown event does: the section passed to `onNavigate` (at most one),
   * whether `onClear` is called, and whether the browser default is prevented.
   */
  datatype Decision = Decision(navigate: Option<Target>, clear: bool, preventDefault: bool)

  /**
   * `handleKeyDown`. `hasOnClear` says whether the optional `onClear` callback was
   * supplied. The decision depends on the key and the Ctrl modifier only.
   */
  function HandleKeyDown(key: string, ctrlKey: bool, hasOnClear: bool): (d: Decision)
    ensures d.navigate == SectionKey(key)
    ensures d.navigate.Some? ==> !d.clear
    ensures d.clear <==> key == "l" && ctrlKey && hasOnClear
    ensures d.preventDefault <==> d.navigate.Some? || (key == "l" && ctrlKey)
  {
    match SectionKey(key)
    case Some(t) => Decision(Some(t), false, true)
    case None =>
      if key == "l" && ctrlKey then Decision(None, hasOnClear, true)
      else Decision(None, false, false)
  }
}
