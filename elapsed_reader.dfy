/**
 * A reader for the elapsed-time message, the reference against which the message
 * is shown to determine the elapsed seconds: "Hh Mmin Ss", "Mmin Ss" or "Ss".
 */
module ElapsedReader {
  import opened Wrappers
  import opened Text

  predicate HasPrefix(s: string, p: string) {
    |p| <= |s| && s[..|p|] == p
  }

  /** Adds `a` to a reading, when there is one. */
  function Plus(a: nat, r: Option<nat>): (q: Option<nat>)
    ensures q.Some? <==> r.Some?
    ensures q.Some? ==> q.value == a + r.value
  {
    if r.Some? then Some(a + r.value) else None
  }

  /**
   * Reads groups "<numeral><unit>" up to the final "Ss". `level` says which units
   * may still come: at 2 hours ("h ") or minutes ("min "), at 1 only minutes, at 0
   * only the seconds.
   */
  function ReadGroups(t: string, level: nat): Option<nat>
    decreases level
  {
    match ReadNumeral(t)
    case None => None
    case Some((n, rest)) =>
      if rest == "s" then Some(n)
      else if level >= 2 && HasPrefix(rest, "h ") then Plus(n * 3600, ReadGroups(rest[2..], 1))
      else if level >= 1 && HasPrefix(rest, "min ") then Plus(n * 60, ReadGroups(rest[4..], 0))
      else None
  }

  /** Reads the elapsed-time message back to a number of whole seconds. */
  function ParseElapsed(t: string): Option<nat> {
    ReadGroups(t, 2)
  }

  /** A numeral followed by "s" is the last group, at any level. */
  lemma ReadSecondsGroup(t: string, s: nat, level: nat)
    ensures ReadNumeral(t) == Some((s, "s")) ==> ReadGroups(t, level) == Some(s)
  {
  }

  /** A numeral followed by "min " is a minutes group, read on at level 0. */
  lemma ReadMinutesGroup(t: string, m: nat, u: string, level: nat)
    ensures level >= 1 && ReadNumeral(t) == Some((m, "min " + u)) ==>
      ReadGroups(t, level) == Plus(m * 60, ReadGroups(u, 0))
  {
    var rest := "min " + u;
    assert rest[0] == 'm' && |rest| >= 4;
    assert rest != "s" && !HasPrefix(rest, "h ");
    assert HasPrefix(rest, "min ") && rest[4..] == u;
  }

  /** A numeral followed by "h " is an hours group, read on at level 1. */
  lemma ReadHoursGroup(t: string, h: nat, u: string)
    ensures ReadNumeral(t) == Some((h, "h " + u)) ==> ReadGroups(t, 2) == Plus(h * 3600, ReadGroups(u, 1))
  {
    var rest := "h " + u;
    assert |rest| >= 2 && rest[1] == ' ';
    assert rest != "s";
    assert HasPrefix(rest, "h ") && rest[2..] == u;
  }

  /** "Hh Mmin Ss", as three numerals with their units, reads back to its total of seconds. */
  lemma ReadHoursMessage(t: string, h: nat, u: string, m: nat, v: string, s: nat)
    ensures ReadNumeral(t) == Some((h, "h " + u)) && ReadNumeral(u) == Some((m, "min " + v)) && ReadNumeral(v) == Some((s, "s"))
      ==> ReadGroups(t, 2) == Some(h * 3600 + m * 60 + s)
  {
    ReadHoursGroup(t, h, u);
    ReadMinutesGroup(u, m, v, 1);
    ReadSecondsGroup(v, s, 0);
  }

  /** "Mmin Ss", as two numerals with their units, reads back to its total of seconds. */
  lemma ReadMinutesMessage(t: string, m: nat, v: string, s: nat, level: nat)
    ensures level >= 1 && ReadNumeral(t) == Some((m, "min " + v)) && ReadNumeral(v) == Some((s, "s"))
      ==> ReadGroups(t, level) == Some(m * 60 + s)
  {
    ReadMinutesGroup(t, m, v, level);
    ReadSecondsGroup(v, s, 0);
  }
}
