/**
 * The study-plan generator: the input guard, the choice between the assistant's JSON plan
 * and the built-in day-by-day fallback plan, the fallback plan itself, and the figures the
 * saved plan note reports.
 */
module StudyPlanGenerator {
  import opened Wrappers
  import opened Text
  import opened Seqs

  datatype Problem = Problem(title: string, platform: string, difficulty: string, url: string,
                             concepts: seq<string>, estimatedTime: string)

  datatype Resource = Resource(kind: string, title: string, url: string)

  /** One day of a plan. */
  datatype DayPlan = DayPlan(day: int, topics: seq<string>, subtopics: seq<string>,
                             problems: seq<Problem>, revision: seq<string>, isBreakDay: bool,
                             dailyGoals: seq<string>, resources: seq<Resource>)

  /**
   * The hour figures printed in the daily goals: `Math.floor(hours * 0.3)`, `* 0.6` and
   * `* 0.1`, as rendered. They are computed in floating point and are inputs here.
   */
  datatype HourSplit = HourSplit(concept: string, problem: string, revision: string)

  /** The topic sequence of a level; any level other than beginner and intermediate is advanced. */
  function Topics(level: string): (ts: seq<string>)
    ensures 6 <= |ts| <= 7
  {
    if level == "beginner" then
      ["Arrays & Strings", "Linked Lists", "Stacks & Queues", "Trees & BST", "Graphs",
       "Dynamic Programming", "Sorting & Searching"]
    else if level == "intermediate" then
      ["Advanced Arrays", "Tree Algorithms", "Graph Algorithms", "Dynamic Programming",
       "Greedy Algorithms", "Backtracking", "String Algorithms"]
    else
      ["Advanced DP", "Complex Graph Algorithms", "String Algorithms", "Math & Number Theory",
       "System Design", "Advanced Data Structures"]
  }

  /** The difficulty cycle of a level. */
  function Difficulties(level: string): (ds: seq<string>)
    ensures 3 <= |ds| <= 4
  {
    if level == "beginner" then ["Easy", "Easy", "Medium"]
    else if level == "intermediate" then ["Easy", "Medium", "Medium", "Hard"]
    else ["Medium", "Medium", "Hard", "Hard"]
  }

  predicate IsBreakDay(day: int) {
    day % 7 == 0
  }

  predicate IsRevisionDay(day: int) {
    (day % 5 == 0 || day % 4 == 0) && !IsBreakDay(day)
  }

  /** The number of problems on a working day. */
  function ProblemCount(day: nat): nat {
    if 5 + day / 5 < 15 then 5 + day / 5 else 15
  }

  /** `Math.floor((day - 1) / Math.ceil(days / topics.length))`. */
  function TopicIndex(day: nat, days: nat, topicCount: nat): nat
    requires 1 <= day <= days && topicCount > 0
  {
    (day - 1) / CeilDiv(days, topicCount)
  }

  /** `s.replace(/\s+/g, '')`. */
  function RemoveWhitespace(s: string): string {
    if s == [] then []
    else (if IsWhitespace(s[0]) then [] else [s[0]]) + RemoveWhitespace(s[1..])
  }

  /** `"{15 + 5i}-{25 + 5i} minutes"`. */
  function EstimatedTime(i: nat): string {
    NatToString(15 + i * 5) + "-" + NatToString(25 + i * 5) + " minutes"
  }

  /** Practice problem `i` of a day on `topic`. */
  function MakeProblem(topic: string, platform: string, diffs: seq<string>, i: nat): Problem
    requires |diffs| > 0
  {
    Problem(topic + " Practice Problem " + NatToString(i + 1), platform, diffs[i % |diffs|],
            "https://" + RemoveWhitespace(ToLower(platform)) + ".com",
            [topic, "Problem Solving"], EstimatedTime(i))
  }

  /** The day's topic: block `TopicIndex`, clamped to the last topic. */
  function CurrentTopic(day: nat, days: nat, level: string): string
    requires 1 <= day <= days
  {
    var topics := Topics(level);
    var k := TopicIndex(day, days, |topics|);
    topics[if k < |topics| - 1 then k else |topics| - 1]
  }

  /** The revision note of a revision day: review the previous block's topic (or the first). */
  function RevisionNotes(day: nat, days: nat, level: string): seq<string>
    requires 1 <= day <= days
  {
    if IsRevisionDay(day) then
      var topics := Topics(level);
      var k := TopicIndex(day, days, |topics|);
      TopicIndexInRange(day, days, |topics|);
      ["Review " + topics[if k >= 1 then k - 1 else 0] + " concepts and common mistakes"]
    else []
  }

  /** The `count` practice problems of a working day. */
  function DayProblems(topic: string, platform: string, level: string, count: nat)
    : (ps: seq<Problem>)
    ensures |ps| == count
  {
    seq(count, i requires 0 <= i < count => MakeProblem(topic, platform, Difficulties(level), i))
  }

  function Subtopics(topic: string): seq<string> {
    [topic + " fundamentals and core concepts",
     "Common patterns and techniques in " + topic,
     "Time and space complexity analysis"]
  }

  function WorkGoals(topic: string, count: nat, split: HourSplit): seq<string> {
    ["Master " + topic + " core concepts (" + split.concept + "h)",
     "Solve " + NatToString(count) + " problems efficiently (" + split.problem + "h)",
     "Review and reinforce learning (" + split.revision + "h)"]
  }

  function Resources(topic: string): seq<Resource> {
    [Resource("article", topic + " Complete Guide", "https://www.geeksforgeeks.org"),
     Resource("video", topic + " Video Tutorial", "https://www.youtube.com")]
  }

  /** Day `day` of the fallback plan for a `days`-day plan. */
  function DayEntry(day: nat, days: nat, level: string, platform: string, split: HourSplit)
    : DayPlan
    requires 1 <= day <= days
  {
    var isBreak := IsBreakDay(day);
    var current := CurrentTopic(day, days, level);
    DayPlan(
      day,
      if isBreak then [] else [current],
      if isBreak then [] else Subtopics(current),
      if isBreak then [] else DayProblems(current, platform, level, ProblemCount(day)),
      RevisionNotes(day, days, level),
      isBreak,
      if isBreak then ["Rest and mental recovery", "Light review of previous concepts"]
      else WorkGoals(current, ProblemCount(day), split),
      if isBreak then [] else Resources(current))
  }

  /** The entries of days 1 to `n`, in day order, day `d` being `entry(d)`. */
  function Days<T>(n: nat, entry: nat --> T): seq<T>
    requires forall d :: 1 <= d <= n ==> entry.requires(d)
  {
    if n == 0 then [] else Days(n - 1, entry) + [entry(n)]
  }

  /** Days 1 to `n` are `n` entries. */
  lemma {:induction false} DaysLength<T>(n: nat, entry: nat --> T)
    requires forall d :: 1 <= d <= n ==> entry.requires(d)
    ensures |Days(n, entry)| == n
  {
    if n > 0 {
      DaysLength(n - 1, entry);
    }
  }

  /** Entry `i` of days 1 to `n` is the entry of day `i + 1`. */
  lemma {:induction false} DaysAt<T>(n: nat, entry: nat --> T, i: nat)
    requires forall d :: 1 <= d <= n ==> entry.requires(d)
    requires i < n
    ensures |Days(n, entry)| == n && Days(n, entry)[i] == entry(i + 1)
  {
    DaysLength(n - 1, entry);
    if i < n - 1 {
      DaysAt(n - 1, entry, i);
    }
  }

  /** Day `d` of the built-in plan for a `days`-day plan, for `d` from 1 to `days`. */
  function DayEntries(days: nat, level: string, platform: string, split: HourSplit)
    : nat --> DayPlan
  {
    d requires 1 <= d <= days => DayEntry(d, days, level, platform, split)
  }

  /** The first `n` days of the built-in plan for a `days`-day plan, in day order. */
  function FallbackPlan(n: nat, days: nat, level: string, platform: string, split: HourSplit)
    : seq<DayPlan>
    requires n <= days
  {
    Days(n, DayEntries(days, level, platform, split))
  }

  /** The built-in plan has one entry per day, entry `i` being day `i + 1`. */
  lemma FallbackPlanSpec(n: nat, days: nat, level: string, platform: string, split: HourSplit)
    requires n <= days
    ensures |FallbackPlan(n, days, level, platform, split)| == n
    ensures forall i :: 0 <= i < n ==>
      FallbackPlan(n, days, level, platform, split)[i] == DayEntry(i + 1, days, level, platform, split)
  {
    var entry := DayEntries(days, level, platform, split);
    DaysLength(n, entry);
    forall i | 0 <= i < n
      ensures FallbackPlan(n, days, level, platform, split)[i]
              == DayEntry(i + 1, days, level, platform, split)
    {
      DaysAt(n, entry, i);
    }
  }

  /** A duration read as a number of days: NaN and non-positive durations give none. */
  function DayCount(days: int): nat {
    if days > 0 then days else 0
  }

  /** `createDetailedStructuredPlan`: days 1 to `days` in order, built in a loop. */
  method CreateDetailedStructuredPlan(days: int, level: string, platform: string,
                                      split: HourSplit)
    returns (plan: seq<DayPlan>)
    ensures plan == FallbackPlan(DayCount(days), DayCount(days), level, platform, split)
  {
    var n := DayCount(days);
    plan := [];
    var day := 1;
    while day <= n
      invariant 1 <= day <= n + 1
      invariant plan == FallbackPlan(day - 1, n, level, platform, split)
    {
      plan := plan + [DayEntry(day, n, level, platform, split)];
      day := day + 1;
    }
  }

  /** Every seventh day is a break day, and a break day has no work in it. */
  lemma BreakDaySpec(day: nat, days: nat, level: string, platform: string, split: HourSplit)
    requires 1 <= day <= days
    ensures var e := DayEntry(day, days, level, platform, split);
      && e.day == day
      && (e.isBreakDay <==> day % 7 == 0)
      && (e.isBreakDay ==> e.topics == [] && e.subtopics == [] && e.problems == []
                           && e.resources == [] && e.revision == [])
      && (!e.isBreakDay ==> |e.topics| == 1 && |e.resources| == 2 && |e.subtopics| == 3)
  {
  }

  /** A revision note appears exactly on multiples of 4 or 5 that are not break days. */
  lemma RevisionSpec(day: nat, days: nat, level: string, platform: string, split: HourSplit)
    requires 1 <= day <= days
    ensures var e := DayEntry(day, days, level, platform, split);
      (e.revision != [] <==> (day % 5 == 0 || day % 4 == 0) && day % 7 != 0)
      && |e.revision| <= 1
  {
  }

  /** A working day has `min(5 + day / 5, 15)` problems: never fewer than 5 nor more than 15. */
  lemma ProblemCountSpec(day: nat, days: nat, level: string, platform: string, split: HourSplit)
    requires 1 <= day <= days
    ensures var e := DayEntry(day, days, level, platform, split);
      !e.isBreakDay ==> |e.problems| == ProblemCount(day) && 5 <= |e.problems| <= 15
                        && e.problems == DayProblems(e.topics[0], platform, level, ProblemCount(day))
    ensures day >= 50 ==> ProblemCount(day) == 15
    ensures day < 50 ==> ProblemCount(day) == 5 + day / 5
  {
  }

  /**
   * The clamp on the topic index never fires: day `day` of a `days`-day plan falls in topic
   * block `(day - 1) / ceil(days / n)`, which is always below `n`.
   */
  lemma TopicIndexInRange(day: nat, days: nat, topicCount: nat)
    requires 1 <= day <= days && topicCount > 0
    ensures TopicIndex(day, days, topicCount) < topicCount
  {
    var c := CeilDiv(days, topicCount);
    var q := TopicIndex(day, days, topicCount);
    assert c > 0;
    assert q * c <= day - 1;
    if q >= topicCount {
      MulMono(topicCount, q, c);
      assert false;
    }
  }

  lemma MulMono(a: nat, b: nat, c: nat)
    requires a <= b
    ensures a * c <= b * c
  {
  }

  /** The topic blocks are in order: a later day never goes back to an earlier topic. */
  lemma TopicIndexMonotone(d1: nat, d2: nat, days: nat, topicCount: nat)
    requires 1 <= d1 <= d2 <= days && topicCount > 0
    ensures TopicIndex(d1, days, topicCount) <= TopicIndex(d2, days, topicCount)
  {
    var c := CeilDiv(days, topicCount);
    DivMono(d1 - 1, d2 - 1, c);
  }

  lemma DivMono(a: nat, b: nat, c: nat)
    requires a <= b && c > 0
    ensures a / c <= b / c
  {
    if a / c > b / c {
      MulMono(b / c + 1, a / c, c);
      assert false;
    }
  }

  /**
   * Problem `i` of a working day cycles through the level's difficulties and is allotted
   * `15 + 5i` to `25 + 5i` minutes.
   */
  lemma ProblemSpec(topic: string, platform: string, level: string, count: nat, i: nat)
    requires i < count
    ensures var ps := DayProblems(topic, platform, level, count);
      && ps[i].difficulty == Difficulties(level)[i % |Difficulties(level)|]
      && ps[i].platform == platform
      && ps[i].concepts == [topic, "Problem Solving"]
      && (i + |Difficulties(level)| < count ==>
            ps[i + |Difficulties(level)|].difficulty == ps[i].difficulty)
      && ps[i].estimatedTime == NatToString(15 + 5 * i) + "-" + NatToString(25 + 5 * i) + " minutes"
  {
    var ds := Difficulties(level);
    var ps := DayProblems(topic, platform, level, count);
    assert ps[i] == MakeProblem(topic, platform, ds, i);
    if i + |ds| < count {
      assert ps[i + |ds|] == MakeProblem(topic, platform, ds, i + |ds|);
      ModShift(i, |ds|);
    }
  }

  lemma ModShift(i: nat, n: nat)
    requires n > 0
    ensures (i + n) % n == i % n
  {
    var q, r := i / n, i % n;
    assert i == q * n + r;
    assert i + n == (q + 1) * n + r;
    ModUnique(i + n, n, q + 1, r);
  }

  /** Division with remainder is unique. */
  lemma ModUnique(a: int, n: int, q: int, r: int)
    requires n > 0 && 0 <= r < n && a == q * n + r
    ensures a % n == r
  {
    var q', r' := a / n, a % n;
    assert a == q' * n + r';
    if q > q' {
      assert (q - q') * n == q * n - q' * n;
      MulMono(1, q - q', n);
      assert false;
    } else if q < q' {
      assert (q' - q) * n == q' * n - q * n;
      MulMono(1, q' - q, n);
      assert false;
    }
  }

  /** The first working day of a beginner plan: topic "Arrays & Strings", problems Easy, Easy, Medium, ... */
  lemma FirstBeginnerDay(days: nat, platform: string, split: HourSplit)
    requires days >= 1
    ensures var e := DayEntry(1, days, "beginner", platform, split);
      && e.topics == ["Arrays & Strings"]
      && |e.problems| == 5
      && e.problems[0].difficulty == "Easy" && e.problems[1].difficulty == "Easy"
      && e.problems[2].difficulty == "Medium" && e.problems[3].difficulty == "Easy"
      && e.revision == []
  {
    var c := CeilDiv(days, 7);
    assert 0 / c == 0;
  }

  /** The saved plan's title: `"{duration}-Day {level} DSA Study Plan"`. */
  function PlanTitle(duration: string, level: string): string {
    duration + "-Day " + level + " DSA Study Plan"
  }

  /** `level.charAt(0).toUpperCase() + level.slice(1)`. */
  function Capitalize(s: string): string {
    if s == [] then [] else [UpperChar(s[0])] + s[1..]
  }

  /** `Math.ceil(parseInt(duration) / 7)` as an array length: NaN and negatives give 0. */
  function WeekCount(duration: string): nat {
    match ParseInt(duration)
    case None => 0
    case Some(d) => if d <= 0 then 0 else CeilDiv(d, 7)
  }

  /** The progress-tracking lines, one checkbox per week. */
  function WeekCheckboxes(weeks: nat): (lines: seq<string>)
    ensures |lines| == weeks
  {
    seq(weeks, i requires 0 <= i < weeks => "- [ ] Week " + NatToString(i + 1) + " completed")
  }

  /** The total problem count over a plan. */
  function TotalProblems(plan: seq<DayPlan>): nat {
    if plan == [] then 0 else TotalProblems(plan[..|plan| - 1]) + |plan[|plan| - 1].problems|
  }

  /** What saving asks the note store to create. */
  datatype SaveRequest = SaveRequest(title: string, heading: string, weekLines: seq<string>,
                                     totalProblems: nat, folder: string, sourceApi: string)

  /** The reply of the assistant call, as far as the generator looks at it. */
  datatype Reply =
    | CallFailed
    | NoJsonArray
    | JsonArray(parsed: Option<seq<DayPlan>>)  // None: the array did not parse

  datatype GenerateStatus = MissingInformation | Generated | Failed

  /** `saveStudyPlan` without the store call: nothing for an empty plan. */
  function SaveRequestFor(plan: seq<DayPlan>, duration: string, level: string): Option<SaveRequest> {
    if plan == [] then None
    else Some(SaveRequest(PlanTitle(duration, level),
                          "# " + duration + "-Day " + Capitalize(level) + " DSA Study Plan",
                          WeekCheckboxes(WeekCount(duration)), TotalProblems(plan),
                          "Study Plans", "study-plan-generator"))
  }

  /** The options of the duration, level and platform selects. */
  const DurationOptions: seq<string> := ["30", "60", "90"]
  const LevelOptions: seq<string> := ["beginner", "intermediate", "advanced"]
  const PlatformOptions: seq<string> := ["LeetCode", "GeeksforGeeks", "Codeforces", "HackerRank"]

  /** The duration options read as 30, 60 and 90 days, tracked over 5, 9 and 13 weeks. */
  lemma DurationOptionsSpec(k: nat)
    requires k < |DurationOptions|
    ensures ParseInt(DurationOptions[k]) == Some(30 * (k + 1))
    ensures WeekCount(DurationOptions[k]) == CeilDiv(30 * (k + 1), 7)
  {
    ParseIntOfNumber(30 * (k + 1), []);
    if k == 0 {
      assert NatToString(30) + [] == "30";
    } else if k == 1 {
      assert NatToString(60) + [] == "60";
    } else {
      assert NatToString(90) + [] == "90";
    }
  }

  /** The generator form and its current plan. */
  class PlanGenerator {
    var duration: string
    var level: string
    var hoursPerDay: string
    var platform: string
    var studyPlan: seq<DayPlan>

    constructor ()
      ensures duration == "30" && level == [] && hoursPerDay == [] && platform == []
      ensures studyPlan == []
    {
      duration, level, hoursPerDay, platform := "30", [], [], [];
      studyPlan := [];
    }

    /** The duration select. */
    method SetDuration(d: string)
      requires d in DurationOptions
      modifies this`duration
      ensures duration == d && ParseInt(duration).Some? && ParseInt(duration).value > 0
    {
      var k :| 0 <= k < |DurationOptions| && DurationOptions[k] == d;
      DurationOptionsSpec(k);
      duration := d;
    }

    /** The level select. */
    method SetLevel(l: string)
      requires l in LevelOptions
      modifies this`level
      ensures level == l && level != []
    {
      level := l;
    }

    /** The hours input, a free text field. */
    method SetHoursPerDay(h: string)
      modifies this`hoursPerDay
      ensures hoursPerDay == h
    {
      hoursPerDay := h;
    }

    /** The platform select. */
    method SetPlatform(pl: string)
      requires pl in PlatformOptions
      modifies this`platform
      ensures platform == pl && platform != []
    {
      platform := pl;
    }

    /**
     * `generateStudyPlan`: with a level, hours and platform filled in, ask the assistant and
     * take its JSON array if it has one that parses, else the fallback plan; a failed call
     * keeps the current plan.
     */
    method Generate(reply: Reply, split: HourSplit) returns (status: GenerateStatus)
      modifies this`studyPlan
      ensures duration == old(duration) && level == old(level) && platform == old(platform)
      ensures hoursPerDay == old(hoursPerDay)
      ensures old(level) == [] || old(hoursPerDay) == [] || old(platform) == [] ==>
                status == MissingInformation && studyPlan == old(studyPlan)
      ensures old(level) != [] && old(hoursPerDay) != [] && old(platform) != [] ==>
                match reply
                case CallFailed => status == Failed && studyPlan == old(studyPlan)
                case JsonArray(Some(p)) => status == Generated && studyPlan == p
                case _ =>
                  && status == Generated
                  && var n := match ParseInt(duration) case Some(d) => DayCount(d) case None => 0;
                     studyPlan == FallbackPlan(n, n, level, platform, split)
    {
      if level == [] || hoursPerDay == [] || platform == [] {
        return MissingInformation;
      }
      match reply {
        case CallFailed =>
          return Failed;
        case JsonArray(Some(p)) =>
          studyPlan := p;
        case _ =>
          var days := ParseInt(duration);
          if days.None? {
            studyPlan := [];
          } else {
            studyPlan := CreateDetailedStructuredPlan(days.value, level, platform, split);
          }
      }
      status := Generated;
    }

    /** `saveStudyPlan`: nothing for an empty plan; otherwise the note to create. */
    method Save() returns (request: Option<SaveRequest>)
      ensures request == SaveRequestFor(studyPlan, duration, level)
    {
      request := SaveRequestFor(studyPlan, duration, level);
    }
  }

  /** A fallback plan's problems total the working days' counts. */
  lemma {:induction false} TotalProblemsSnoc(plan: seq<DayPlan>, d: DayPlan)
    ensures TotalProblems(plan + [d]) == TotalProblems(plan) + |d.problems|
  {
    assert (plan + [d])[..|plan|] == plan;
  }

  /**
   * A saved plan lists one checkbox per started week of the duration and its title is the
   * one the plan manager reads back.
   */
  lemma SaveRequestSpec(plan: seq<DayPlan>, n: nat, level: string)
    requires plan != []
    ensures var r := SaveRequestFor(plan, NatToString(n), level);
      && r.Some?
      && |r.value.weekLines| == (if n == 0 then 0 else CeilDiv(n, 7))
      && r.value.title == NatToString(n) + "-Day " + level + " DSA Study Plan"
      && r.value.folder == "Study Plans"
  {
    ParseIntOfNumber(n, []);
    assert NatToString(n) + [] == NatToString(n);
  }

  /** Saving an empty plan does nothing. */
  lemma EmptyPlanNotSaved(duration: string, level: string)
    ensures SaveRequestFor([], duration, level).None?
  {
  }

  /** A 30-day plan is tracked over 5 weeks. */
  lemma ThirtyDaysFiveWeeks()
    ensures WeekCount("30") == 5
  {
    ParseIntOfNumber(30, []);
    assert NatToString(30) == "30";
    assert NatToString(30) + [] == "30";
  }
}
