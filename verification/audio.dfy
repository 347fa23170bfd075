/** The background audio toggle of script.js (lines 119-146). The toggle is
    a two-state machine on `isPlaying`; each click issues play or pause to
    the audio element, puts the `muted` class on the control exactly when
    the new state is not playing, and swaps the icon's markup to match. */
module AudioToggle {

  const MutedClass: string := "muted"

  /** Icon markup for the muted state (script.js:129). */
  const IconMuted: string := "<polygon points=\"11 5 6 9 2 9 2 15 6 15 11 19 11 5\"></polygon><line x1=\"23\" y1=\"9\" x2=\"17\" y2=\"15\"></line><line x1=\"17\" y1=\"9\" x2=\"23\" y2=\"15\"></line>"

  /** Icon markup for the playing state (script.js:131). */
  const IconPlaying: string := "<polygon points=\"11 5 6 9 2 9 2 15 6 15 11 19 11 5\"></polygon><path d=\"M19.07 4.93a10 10 0 0 1 0 14.14M15.54 8.46a5 5 0 0 1 0 7.07\"></path>"

  /** The `isPlaying` flag, the class list of the toggle control and the
      inner markup of its icon. */
  datatype Toggle = Toggle(isPlaying: bool, classes: set<string>, icon: string)

  /** The call made on the audio element. Whether `play()` is rejected is
      not modelled: the state flips either way. */
  datatype Command = Play | Pause

  datatype ClickOutcome = ClickOutcome(toggle: Toggle, command: Command)

  /** The control shows the state it is in: `muted` is on it exactly when
      not playing, and the icon is the one for the current state. */
  predicate Consistent(t: Toggle) {
    && (MutedClass in t.classes <==> !t.isPlaying)
    && t.icon == (if t.isPlaying then IconPlaying else IconMuted)
  }

  /** The click listener (script.js:133-146). */
  function Click(t: Toggle): (r: ClickOutcome)
    ensures r.toggle.isPlaying == !t.isPlaying
    ensures r.toggle.classes - {MutedClass} == t.classes - {MutedClass}
    ensures r.command == Pause <==> t.isPlaying
    ensures Consistent(r.toggle)
  {
    if t.isPlaying then
      ClickOutcome(Toggle(false, t.classes + {MutedClass}, IconMuted), Pause)
    else
      ClickOutcome(Toggle(true, t.classes - {MutedClass}, IconPlaying), Play)
  }

  /** Two clicks restore the flag; from a state that shows itself correctly
      they restore the class list and the icon too. */
  lemma ClickTwice(t: Toggle)
    ensures Click(Click(t).toggle).toggle.isPlaying == t.isPlaying
    ensures Consistent(t) ==> Click(Click(t).toggle).toggle == t
  {
  }
}
