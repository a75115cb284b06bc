/**
 * The plan configurator: two sliders and the difficulty chips, and the preferences it hands
 * to the plan generator.
 */
module PlanConfigurator {
  import opened Seqs

  datatype Difficulty = Easy | Medium | Hard

  /** What "Generate Plan" hands on. */
  datatype Prefs = Prefs(weeks: int, hoursPerWeek: int, difficulty: seq<Difficulty>)

  /** `toggleDifficulty`: drop `d` if it is chosen, otherwise append it. */
  function Toggle(prev: seq<Difficulty>, d: Difficulty): seq<Difficulty> {
    if d in prev then RemoveAll(prev, d) else prev + [d]
  }

  /** A run of chip clicks, applied in order. */
  function ToggleAll(s: seq<Difficulty>, clicks: seq<Difficulty>): seq<Difficulty>
    decreases |clicks|
  {
    if clicks == [] then s else ToggleAll(Toggle(s, clicks[0]), clicks[1..])
  }

  /** The chip flips: `d` is chosen afterwards exactly when it was not before; the rest stay. */
  lemma ToggleSpec(prev: seq<Difficulty>, d: Difficulty)
    ensures d in Toggle(prev, d) <==> d !in prev
    ensures forall x :: x != d ==> (x in Toggle(prev, d) <==> x in prev)
    ensures d !in prev ==> Toggle(prev, d) == prev + [d]
    ensures d in prev ==> Subseq(Toggle(prev, d), prev)
  {
  }

  /** A toggle keeps the selection free of duplicates. */
  lemma ToggleNoDup(prev: seq<Difficulty>, d: Difficulty)
    requires NoDup(prev)
    ensures NoDup(Toggle(prev, d))
  {
    if d in prev {
      RemoveAllNoDup(prev, d);
    } else {
      assert Toggle(prev, d) == AppendIfAbsent(prev, d);
    }
  }

  /** Clicking an unchosen chip twice restores the selection. */
  lemma ToggleTwice(prev: seq<Difficulty>, d: Difficulty)
    requires d !in prev
    ensures Toggle(Toggle(prev, d), d) == prev
  {
    RemoveAllAppend(prev, d);
  }

  /** Any run of clicks from a duplicate-free selection leaves one. */
  lemma {:induction false} ToggleAllNoDup(s: seq<Difficulty>, clicks: seq<Difficulty>)
    requires NoDup(s)
    ensures NoDup(ToggleAll(s, clicks))
    ensures |ToggleAll(s, clicks)| <= 3
    decreases |clicks|
  {
    if clicks == [] {
      NoDupAtMostThree(s);
    } else {
      ToggleNoDup(s, clicks[0]);
      ToggleAllNoDup(Toggle(s, clicks[0]), clicks[1..]);
    }
  }

  /** A duplicate-free selection has at most the three difficulties. */
  lemma NoDupAtMostThree(s: seq<Difficulty>)
    requires NoDup(s)
    ensures |s| <= 3
  {
    var all := {Easy, Medium, Hard};
    forall i | 0 <= i < |s| ensures s[i] in all {
      match s[i] {
        case Easy =>
        case Medium =>
        case Hard =>
      }
    }
    NoDupWithin(s, all);
  }

  /** A duplicate-free sequence drawn from a set is no longer than the set is large. */
  lemma {:induction false} NoDupWithin(s: seq<Difficulty>, all: set<Difficulty>)
    requires NoDup(s)
    requires forall i :: 0 <= i < |s| ==> s[i] in all
    ensures |s| <= |all|
  {
    if s != [] {
      var rest := all - {s[0]};
      forall i | 0 <= i < |s[1..]| ensures s[1..][i] in rest {
        assert s[1..][i] == s[i + 1] && s[0] != s[i + 1];
      }
      NoDupWithin(s[1..], rest);
    }
  }

  /** The configurator's state. */
  class Configurator {
    var weeks: int
    var hoursPerWeek: int
    var selected: seq<Difficulty>

    /** The sliders' ranges hold and no difficulty is chosen twice. */
    predicate Valid()
      reads this
    {
      4 <= weeks <= 26 && 5 <= hoursPerWeek <= 40 && NoDup(selected)
    }

    /** Eight weeks, fifteen hours a week, Easy and Medium chosen. */
    constructor ()
      ensures Valid()
      ensures weeks == 8 && hoursPerWeek == 15 && selected == [Easy, Medium]
    {
      weeks, hoursPerWeek, selected := 8, 15, [Easy, Medium];
    }

    /** The weeks slider, whose range is 4 to 26. */
    method SetWeeks(w: int)
      requires Valid() && 4 <= w <= 26
      modifies this
      ensures Valid()
      ensures weeks == w && hoursPerWeek == old(hoursPerWeek) && selected == old(selected)
    {
      weeks := w;
    }

    /** The hours slider, whose range is 5 to 40. */
    method SetHours(h: int)
      requires Valid() && 5 <= h <= 40
      modifies this
      ensures Valid()
      ensures hoursPerWeek == h && weeks == old(weeks) && selected == old(selected)
    {
      hoursPerWeek := h;
    }

    /** A chip click. */
    method ToggleDifficulty(d: Difficulty)
      requires Valid()
      modifies this
      ensures Valid()
      ensures selected == Toggle(old(selected), d)
      ensures weeks == old(weeks) && hoursPerWeek == old(hoursPerWeek)
    {
      ToggleNoDup(selected, d);
      selected := Toggle(selected, d);
    }

    /** "Generate Plan": the current preferences, within the slider ranges and duplicate-free. */
    method Generate() returns (p: Prefs)
      requires Valid()
      ensures p == Prefs(weeks, hoursPerWeek, selected)
      ensures 4 <= p.weeks <= 26 && 5 <= p.hoursPerWeek <= 40
      ensures NoDup(p.difficulty) && |p.difficulty| <= 3
    {
      NoDupAtMostThree(selected);
      p := Prefs(weeks, hoursPerWeek, selected);
    }
  }
}
