/**
 The theme switch: the stored mode, or "dark" when nothing usable is stored,
 and a click that flips between "dark" and "light".
 */
module ThemeToggle {
  import opened Events

  /**
   The mode on mount. A missing entry and an empty string both fall back to
   "dark"; any other stored string is used as it is.
   */
  function InitialMode(stored: Option<string>): (r: string)
    ensures r != ""
    ensures stored == None || stored == Some("") ==> r == "dark"
    ensures stored.Some? && stored.value != "" ==> r == stored.value
  {
    match stored
    case Some(m) => if m != "" then m else "dark"
    case None => "dark"
  }

  /** A click: "dark" becomes "light", anything else becomes "dark". */
  function Toggle(m: string): (r: string)
    ensures r == "dark" || r == "light"
    ensures r == "light" <==> m == "dark"
  {
    if m == "dark" then "light" else "dark"
  }

  /**
   Two clicks restore a mode of the two known ones; an unknown stored mode
   becomes "light" after two clicks.
   */
  lemma {:induction false} ToggleTwice(m: string)
    ensures m == "dark" || m == "light" ==> Toggle(Toggle(m)) == m
    ensures m != "dark" && m != "light" ==> Toggle(Toggle(m)) == "light"
  {
    if m == "dark" {
      assert Toggle(m) == "light";
    } else {
      assert Toggle(m) == "dark";
    }
  }
}
