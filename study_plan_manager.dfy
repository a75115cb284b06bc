/**
 * The saved-plans list: reading a plan's duration and level back out of its note title, and
 * the list update after a delete.
 */
module StudyPlanManager {
  import opened Wrappers
  import opened Text
  import opened Notes
  import opened SupabaseNotes
  import opened StudyPlanGenerator

  /** A saved plan as listed. */
  datatype SavedPlan = SavedPlan(id: string, title: string, content: string, createdAt: string,
                                 duration: string, level: string)

  /** `/(\d+)-Day/` matches at `i`: a digit run starting at `i` is followed by "-Day". */
  predicate MatchAt(s: string, i: nat)
    requires i <= |s|
  {
    var d := DigitPrefix(s[i..]);
    d != [] && OccursAt(s, "-Day", i + |d|)
  }

  /** The captured digits of the leftmost match of `/(\d+)-Day/`, if any. */
  function DurationMatch(s: string): Option<string> {
    if s == [] then None
    else
      var d := DigitPrefix(s);
      if d != [] && OccursAt(s, "-Day", |d|) then Some(d) else DurationMatch(s[1..])
  }

  /** `extractDuration(title)`. */
  function ExtractDuration(title: string): string {
    match DurationMatch(title)
    case Some(d) => d + " days"
    case None => "Unknown"
  }

  /** The levels, in the order they are tried. */
  const Levels: seq<string> := ["Beginner", "Intermediate", "Advanced"]

  /** The loop of `extractLevel` over `levels`: the first whose lower case occurs in `lower`. */
  function FirstLevelIn(lower: string, levels: seq<string>): string {
    if levels == [] then "Unknown"
    else if Contains(lower, ToLower(levels[0])) then levels[0]
    else FirstLevelIn(lower, levels[1..])
  }

  /** `extractLevel(title)`. */
  function ExtractLevel(title: string): string {
    FirstLevelIn(ToLower(title), Levels)
  }

  /** The listed form of a fetched plan note. */
  function ToSavedPlan(n: SupabaseNote): SavedPlan {
    SavedPlan(n.id, n.title, n.content, n.createdAt, ExtractDuration(n.title),
              ExtractLevel(n.title))
  }

  /**
   * The match is the leftmost one: the captured digits are the digit run at the first
   * position where a digit run is followed by "-Day", and no match means no such position.
   */
  lemma {:induction false} DurationMatchSpec(s: string)
    ensures DurationMatch(s).Some? ==>
      exists i :: 0 <= i < |s| && MatchAt(s, i) && DurationMatch(s).value == DigitPrefix(s[i..])
                  && forall j :: 0 <= j < i ==> !MatchAt(s, j)
    ensures DurationMatch(s).None? ==> forall i :: 0 <= i <= |s| ==> !MatchAt(s, i)
  {
    if s != [] {
      DurationMatchSpec(s[1..]);
      var d := DigitPrefix(s);
      assert s[0..] == s;
      if d != [] && OccursAt(s, "-Day", |d|) {
        assert MatchAt(s, 0);
      } else {
        assert !MatchAt(s, 0);
        forall i | 1 <= i <= |s| ensures MatchAt(s, i) <==> MatchAt(s[1..], i - 1) {
          assert s[i..] == s[1..][i - 1..];
          var e := DigitPrefix(s[i..]);
          if e != [] {
            DigitPrefixSpec(s[i..]);
            OccursShift(s, "-Day", i + |e|);
          }
        }
        if DurationMatch(s[1..]).Some? {
          var i :| 0 <= i < |s[1..]| && MatchAt(s[1..], i)
                   && DurationMatch(s[1..]).value == DigitPrefix(s[1..][i..])
                   && forall j :: 0 <= j < i ==> !MatchAt(s[1..], j);
          assert s[1..][i..] == s[i + 1..];
          forall j | 0 <= j < i + 1 ensures !MatchAt(s, j) {
            if j > 0 { assert !MatchAt(s[1..], j - 1); }
          }
        }
      }
    } else {
      forall i | 0 <= i <= |s| ensures !MatchAt(s, i) {
        assert s[i..] == [];
      }
    }
  }

  /** Dropping the first character shifts every occurrence one place left. */
  lemma OccursShift(s: string, t: string, i: nat)
    requires s != [] && 1 <= i
    ensures OccursAt(s, t, i) <==> OccursAt(s[1..], t, i - 1)
  {
    if i + |t| <= |s| {
      var a, b := s[i..i + |t|], s[1..][i - 1..i - 1 + |t|];
      forall k | 0 <= k < |t| ensures a[k] == b[k] {
        assert a[k] == s[i + k];
      }
      assert a == b;
    }
  }

  /**
   * Round trip with the generator: the title saved for a plan of `duration` days (a digit
   * string) reads back as "<duration> days".
   */
  lemma ExtractDurationOfTitle(duration: string, level: string)
    requires duration != [] && AllDigits(duration)
    ensures ExtractDuration(PlanTitle(duration, level)) == duration + " days"
  {
    var rest := "-Day " + level + " DSA Study Plan";
    var t := PlanTitle(duration, level);
    assert t == duration + rest;
    DigitPrefixOf(duration, rest);
    assert t[|duration|..|duration| + 4] == "-Day";
  }

  /** A title with no digits has no duration. */
  lemma {:induction false} NoDigitsNoDuration(title: string)
    requires forall k :: 0 <= k < |title| ==> !IsDigit(title[k])
    ensures ExtractDuration(title) == "Unknown"
  {
    if title != [] {
      NoDigitsNoDuration(title[1..]);
    }
  }

  /** The lower-cased title the generator saves: digits, then "-day <level> dsa study plan". */
  lemma LowerTitle(duration: string, level: string)
    requires AllDigits(duration)
    ensures ToLower(PlanTitle(duration, level))
            == duration + "-day " + ToLower(level) + " dsa study plan"
  {
    ToLowerAppend(duration, "-Day ");
    ToLowerAppend(duration + "-Day ", level);
    ToLowerAppend(duration + "-Day " + level, " DSA Study Plan");
    assert ToLower(duration) == duration;
    assert ToLower("-Day ") == "-day ";
    assert ToLower(" DSA Study Plan") == " dsa study plan";
  }

  /** A character in neither the fixed words, the digits nor the level is not in the lower-cased title. */
  lemma CharNotInLowerTitle(duration: string, level: string, c: char)
    requires AllDigits(duration) && !IsDigit(c)
    requires c !in "-day " && c !in " dsa study plan" && c !in ToLower(level)
    ensures c !in ToLower(PlanTitle(duration, level))
  {
    LowerTitle(duration, level);
  }

  /** The lower-cased level occurs in the lower-cased title. */
  lemma LevelInLowerTitle(duration: string, level: string)
    requires AllDigits(duration)
    ensures Contains(ToLower(PlanTitle(duration, level)), ToLower(level))
  {
    var lower := ToLower(PlanTitle(duration, level));
    LowerTitle(duration, level);
    var head := duration + "-day ";
    assert lower == head + ToLower(level) + " dsa study plan";
    assert lower[|head|..|head| + |ToLower(level)|] == ToLower(level);
    assert OccursAt(lower, ToLower(level), |head|);
    ContainsIff(lower, ToLower(level));
  }

  /**
   * `extractLevel` tries the levels in order: a title containing "beginner" in any case is
   * Beginner, else one containing "intermediate" is Intermediate, else "advanced" Advanced.
   */
  lemma ExtractLevelSpec(title: string)
    ensures var lower := ToLower(title);
      ExtractLevel(title)
      == if Contains(lower, "beginner") then "Beginner"
         else if Contains(lower, "intermediate") then "Intermediate"
         else if Contains(lower, "advanced") then "Advanced"
         else "Unknown"
  {
    var lower := ToLower(title);
    assert ToLower("Beginner") == "beginner";
    assert ToLower("Intermediate") == "intermediate";
    assert ToLower("Advanced") == "advanced";
    var l1, l2 := Levels[1..], Levels[1..][1..];
    assert l1 == ["Intermediate", "Advanced"] && l2 == ["Advanced"] && l2[1..] == [];
    assert FirstLevelIn(lower, Levels)
           == if Contains(lower, "beginner") then "Beginner" else FirstLevelIn(lower, l1);
    assert FirstLevelIn(lower, l1)
           == if Contains(lower, "intermediate") then "Intermediate" else FirstLevelIn(lower, l2);
    assert FirstLevelIn(lower, l2)
           == if Contains(lower, "advanced") then "Advanced" else FirstLevelIn(lower, []);
  }

  /**
   * Round trip with the generator: a title saved for one of the three selectable levels
   * reads back as that level, capitalised.
   */
  lemma ExtractLevelOfTitle(duration: string, level: string)
    requires AllDigits(duration)
    requires level == "beginner" || level == "intermediate" || level == "advanced"
    ensures ExtractLevel(PlanTitle(duration, level)) == Capitalize(level)
  {
    if level == "beginner" {
      BeginnerLevel(duration);
      assert UpperChar('b') == 'B' && level[1..] == "eginner";
    } else if level == "intermediate" {
      IntermediateLevel(duration);
      assert UpperChar('i') == 'I' && level[1..] == "ntermediate";
    } else {
      AdvancedLevel(duration);
      assert UpperChar('a') == 'A' && level[1..] == "dvanced";
    }
  }

  lemma BeginnerLevel(duration: string)
    requires AllDigits(duration)
    ensures ExtractLevel(PlanTitle(duration, "beginner")) == "Beginner"
  {
    BeginnerTitle(duration);
    ExtractLevelSpec(PlanTitle(duration, "beginner"));
  }

  lemma IntermediateLevel(duration: string)
    requires AllDigits(duration)
    ensures ExtractLevel(PlanTitle(duration, "intermediate")) == "Intermediate"
  {
    IntermediateTitle(duration);
    ExtractLevelSpec(PlanTitle(duration, "intermediate"));
  }

  lemma AdvancedLevel(duration: string)
    requires AllDigits(duration)
    ensures ExtractLevel(PlanTitle(duration, "advanced")) == "Advanced"
  {
    AdvancedTitle(duration);
    ExtractLevelSpec(PlanTitle(duration, "advanced"));
  }

  lemma BeginnerTitle(duration: string)
    requires AllDigits(duration)
    ensures Contains(ToLower(PlanTitle(duration, "beginner")), "beginner")
  {
    assert ToLower("beginner") == "beginner";
    LevelInLowerTitle(duration, "beginner");
  }

  lemma IntermediateTitle(duration: string)
    requires AllDigits(duration)
    ensures var lower := ToLower(PlanTitle(duration, "intermediate"));
      !Contains(lower, "beginner") && Contains(lower, "intermediate")
  {
    var lower := ToLower(PlanTitle(duration, "intermediate"));
    assert ToLower("intermediate") == "intermediate";
    LevelInLowerTitle(duration, "intermediate");
    CharNotInLowerTitle(duration, "intermediate", 'b');
    NotContainsFirstChar(lower, "beginner");
  }

  lemma AdvancedTitle(duration: string)
    requires AllDigits(duration)
    ensures var lower := ToLower(PlanTitle(duration, "advanced"));
      !Contains(lower, "beginner") && !Contains(lower, "intermediate")
      && Contains(lower, "advanced")
  {
    var lower := ToLower(PlanTitle(duration, "advanced"));
    assert ToLower("advanced") == "advanced";
    LevelInLowerTitle(duration, "advanced");
    CharNotInLowerTitle(duration, "advanced", 'b');
    NotContainsFirstChar(lower, "beginner");
    CharNotInLowerTitle(duration, "advanced", 'i');
    NotContainsFirstChar(lower, "intermediate");
  }

  /** Any title without a level name reads back as "Unknown". */
  lemma FirstLevelInUnknown(lower: string, levels: seq<string>)
    requires forall k :: 0 <= k < |levels| ==> !Contains(lower, ToLower(levels[k]))
    ensures FirstLevelIn(lower, levels) == "Unknown"
  {
    if levels != [] {
      assert forall k :: 0 <= k < |levels[1..]| ==> levels[1..][k] == levels[k + 1];
      FirstLevelInUnknown(lower, levels[1..]);
    }
  }

  /** The listed plans. */
  class PlanList {
    var savedPlans: seq<SavedPlan>
    var loading: bool

    constructor ()
      ensures savedPlans == [] && loading
    {
      savedPlans := [];
      loading := true;
    }

    /**
     * `fetchSavedPlans`: with a user and a successful query, list the fetched plan notes in
     * the order fetched and stop loading; otherwise keep the list and the loading flag.
     */
    method Load(user: Option<string>, rows: Option<seq<SupabaseNote>>)
      modifies this
      ensures user.None? || rows.None? ==> savedPlans == old(savedPlans) && loading == old(loading)
      ensures user.Some? && rows.Some? ==>
        && |savedPlans| == |rows.value|
        && (forall i :: 0 <= i < |savedPlans| ==> savedPlans[i] == ToSavedPlan(rows.value[i]))
        && !loading
    {
      if user.None? || rows.None? {
        return;
      }
      var rs := rows.value;
      savedPlans := seq(|rs|, i requires 0 <= i < |rs| => ToSavedPlan(rs[i]));
      loading := false;
    }

    /** `deletePlan(id)`: on success drop the plan with that id; on error keep the list. */
    method DeletePlan(id: string, ok: bool)
      modifies this
      ensures !ok ==> savedPlans == old(savedPlans)
      ensures ok ==> savedPlans == Seqs.Filter(old(savedPlans), (p: SavedPlan) => p.id != id)
      ensures ok ==> forall p :: p in savedPlans <==> p in old(savedPlans) && p.id != id
      ensures ok ==> |savedPlans| <= |old(savedPlans)|
      ensures loading == old(loading)
    {
      if !ok {
        return;
      }
      savedPlans := Seqs.Filter(savedPlans, (p: SavedPlan) => p.id != id);
    }
  }
}
