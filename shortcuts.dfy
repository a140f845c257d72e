/** The number-key shortcuts to the page's sections. */
module Shortcuts {
  import opened Options

  /** Key to section selector. */
  const Table: map<string, string> :=
    map["1" := "#about", "2" := "#shaders", "3" := "#art", "4" := "#games", "5" := "#contact"]

  /**
   * The section a key press jumps to: a key of the table pressed without
   * Meta or Ctrl; None means the press is left to the browser.
   */
  function ShortcutTarget(key: string, metaKey: bool, ctrlKey: bool): (r: Option<string>)
    ensures r.Some? <==> key in {"1", "2", "3", "4", "5"} && !metaKey && !ctrlKey
    ensures r.Some? ==> |r.value| > 1 && r.value[0] == '#'
  {
    if key in Table && !metaKey && !ctrlKey then Some(Table[key]) else None
  }

  /** Different keys jump to different sections. */
  lemma ShortcutTargetsDistinct(k1: string, k2: string)
    requires ShortcutTarget(k1, false, false).Some? && ShortcutTarget(k2, false, false).Some?
    requires k1 != k2
    ensures ShortcutTarget(k1, false, false) != ShortcutTarget(k2, false, false)
  {
  }

  lemma DigitOneGoesToAbout()
    ensures ShortcutTarget("1", false, false) == Some("#about")
    ensures ShortcutTarget("1", false, true) == None && ShortcutTarget("6", false, false) == None
  {
  }
}
