/**
 * The greedy study-plan packer: it takes questions in order while their estimated minutes
 * fit the budget `weeks * hoursPerWeek * 60`, stops at the first one that does not fit,
 * cuts the selection into `weeks` contiguous buckets of `ceil(n / weeks)` questions, and
 * counts the selection by normalised difficulty and by trimmed topic.
 */
module DynamicPlan {
  import opened Wrappers
  import opened Text
  import opened Seqs

  /** A row of the `questions` table, as far as the packer reads it. */
  datatype Question = Question(id: int, title: string, difficulty: string, topic: string,
                               estimatedTime: string)

  /** A JavaScript number of minutes; `None` is NaN. */
  type Minutes = Option<int>

  /** `parseInt(q.estimated_time)`. */
  function MinutesOf(q: Question): Minutes {
    ParseInt(q.estimatedTime)
  }

  /** `a + b` on numbers: NaN absorbs. */
  function AddMinutes(a: Minutes, b: Minutes): Minutes {
    if a.Some? && b.Some? then Some(a.value + b.value) else None
  }

  /** The loop's stop test `sum + mins > totalMinutes`; a comparison with NaN is false. */
  predicate Overflows(sum: Minutes, mins: Minutes, budget: int) {
    sum.Some? && mins.Some? && sum.value + mins.value > budget
  }

  /** The running sum of parsed minutes over `qs`. */
  function TotalMinutes(qs: seq<Question>): Minutes {
    if qs == [] then Some(0) else AddMinutes(TotalMinutes(qs[..|qs| - 1]), MinutesOf(qs[|qs| - 1]))
  }

  /** Total available minutes. */
  function Budget(weeks: int, hoursPerWeek: int): int {
    weeks * hoursPerWeek * 60
  }

  /** The stop test lets question `k` through after the questions before it were taken. */
  predicate Admits(questions: seq<Question>, budget: int, k: nat)
    requires k < |questions|
  {
    !Overflows(TotalMinutes(questions[..k]), MinutesOf(questions[k]), budget)
  }

  /**
   * What the selection loop leaves: a prefix of `questions` whose every item the stop test
   * let through, cut exactly at the first item the stop test rejected.
   */
  predicate IsGreedySelection(questions: seq<Question>, budget: int, selected: seq<Question>) {
    && |selected| <= |questions|
    && selected == questions[..|selected|]
    && (forall k :: 0 <= k < |selected| ==> Admits(questions, budget, k))
    && (|selected| < |questions| ==>
          Overflows(TotalMinutes(selected), MinutesOf(questions[|selected|]), budget))
  }

  /** One step of the selection loop: taking question `i` extends the running sum. */
  lemma TakeStep(questions: seq<Question>, budget: int, i: nat, sum: Minutes)
    requires i < |questions| && sum == TotalMinutes(questions[..i])
    requires !Overflows(sum, MinutesOf(questions[i]), budget)
    ensures Admits(questions, budget, i)
    ensures TotalMinutes(questions[..i + 1]) == AddMinutes(sum, MinutesOf(questions[i]))
  {
    assert questions[..i + 1][..i] == questions[..i];
  }

  /** The `for ... of` loop that selects questions under the budget. */
  method SelectWithinBudget(questions: seq<Question>, budget: int)
    returns (selected: seq<Question>, sum: Minutes)
    ensures IsGreedySelection(questions, budget, selected)
    ensures sum == TotalMinutes(selected)
  {
    selected, sum := [], Some(0);
    var i := 0;
    while i < |questions|
      invariant 0 <= i <= |questions|
      invariant selected == questions[..i]
      invariant sum == TotalMinutes(selected)
      invariant forall k :: 0 <= k < i ==> Admits(questions, budget, k)
    {
      var q := questions[i];
      var mins := MinutesOf(q);
      if sum.Some? && mins.Some? && sum.value + mins.value > budget {
        break;
      }
      TakeStep(questions, budget, i, sum);
      selected := selected + [q];
      sum := AddMinutes(sum, mins);
      i := i + 1;
    }
  }

  /** Every question has a leading integer. */
  predicate AllParse(qs: seq<Question>) {
    forall k :: 0 <= k < |qs| ==> MinutesOf(qs[k]).Some?
  }

  /** Along a greedy selection of parseable questions, each prefix sum stays within budget. */
  lemma {:induction false} PrefixWithinBudget(questions: seq<Question>, budget: int,
                                              selected: seq<Question>, k: nat)
    requires IsGreedySelection(questions, budget, selected)
    requires AllParse(selected)
    requires 0 < k <= |selected|
    ensures TotalMinutes(selected[..k]).Some? && TotalMinutes(selected[..k]).value <= budget
  {
    assert selected[..k][..k - 1] == selected[..k - 1];
    assert selected[..k - 1] == questions[..k - 1];
    assert selected[k - 1] == questions[k - 1];
    assert MinutesOf(selected[k - 1]).Some?;
    assert Admits(questions, budget, k - 1);
    if k > 1 {
      PrefixWithinBudget(questions, budget, selected, k - 1);
    } else {
      assert selected[..k - 1] == [];
    }
  }

  /**
   * When every selected duration parses, the selected minutes add up to at most the budget
   * (an empty selection sums to 0, which is within any non-negative budget).
   */
  lemma SelectionWithinBudget(questions: seq<Question>, budget: int, selected: seq<Question>)
    requires IsGreedySelection(questions, budget, selected)
    requires AllParse(selected)
    requires budget >= 0 || selected != []
    ensures TotalMinutes(selected).Some? && TotalMinutes(selected).value <= budget
  {
    if selected != [] {
      PrefixWithinBudget(questions, budget, selected, |selected|);
      assert selected[..|selected|] == selected;
    }
  }

  /** One NaN duration makes the whole running sum NaN. */
  lemma {:induction false} TotalMinutesNaN(qs: seq<Question>, k: nat)
    requires k < |qs| && MinutesOf(qs[k]).None?
    ensures TotalMinutes(qs).None?
  {
    if k < |qs| - 1 {
      TotalMinutesNaN(qs[..|qs| - 1], k);
    }
  }

  /**
   * Once the loop reaches a question whose duration has no leading integer, the stop test
   * never fires again: that question and every later one are selected, whatever the budget.
   */
  lemma UnparseableSelectsRest(questions: seq<Question>, budget: int, selected: seq<Question>,
                               k: nat)
    requires IsGreedySelection(questions, budget, selected)
    requires k < |questions| && k <= |selected|
    requires MinutesOf(questions[k]).None?
    ensures selected == questions
  {
    if |selected| < |questions| {
      if k < |selected| {
        assert selected[k] == questions[k];
        TotalMinutesNaN(selected, k);
      }
    }
  }

  /** The stop test determines the selection: there is only one greedy selection. */
  lemma GreedySelectionUnique(questions: seq<Question>, budget: int,
                              s1: seq<Question>, s2: seq<Question>)
    requires IsGreedySelection(questions, budget, s1)
    requires IsGreedySelection(questions, budget, s2)
    ensures s1 == s2
  {
    assert |s1| < |s2| ==> Admits(questions, budget, |s1|);
    assert |s2| < |s1| ==> Admits(questions, budget, |s2|);
  }

  /**
   * The example of the design notes: 30 and 40 minutes under a one-hour budget: only the
   * first question is selected.
   */
  lemma TwoQuestionsOneHour(q1: Question, q2: Question, selected: seq<Question>)
    requires q1.estimatedTime == "30 mins" && q2.estimatedTime == "40 mins"
    requires IsGreedySelection([q1, q2], Budget(1, 1), selected)
    ensures selected == [q1]
  {
    assert NatToString(30) == "30";
    assert NatToString(40) == "40";
    ParseIntOfNumber(30, " mins");
    ParseIntOfNumber(40, " mins");
    assert "30" + " mins" == "30 mins";
    assert "40" + " mins" == "40 mins";
    var qs := [q1, q2];
    assert qs[..1] == [q1];
    assert qs[..0] == [];
    assert TotalMinutes([q1]) == Some(30);
    assert Admits(qs, 60, 0);
    assert IsGreedySelection(qs, 60, [q1]);
    GreedySelectionUnique(qs, 60, selected, [q1]);
  }

  /** `weekWise`: `weeks` contiguous slices of `ceil(n / weeks)` questions each. */
  method DistributeWeeks(selected: seq<Question>, weeks: int) returns (weekWise: seq<seq<Question>>)
    ensures |weekWise| == if weeks > 0 then weeks else 0
    ensures weeks > 0 ==> Flatten(weekWise) == selected
    ensures weeks > 0 ==> forall i :: 0 <= i < weeks ==>
              |weekWise[i]| <= CeilDiv(|selected|, weeks)
    ensures weeks > 0 ==> forall i :: 0 <= i < weeks ==>
              weekWise[i] == Slice(selected, i * CeilDiv(|selected|, weeks),
                                   (i + 1) * CeilDiv(|selected|, weeks))
  {
    weekWise := [];
    if weeks <= 0 {
      return;
    }
    var n := |selected|;
    var perWeek := CeilDiv(n, weeks);
    var i := 0;
    while i < weeks
      invariant 0 <= i <= weeks
      invariant |weekWise| == i
      invariant Flatten(weekWise) == selected[..if i * perWeek < n then i * perWeek else n]
      invariant forall j :: 0 <= j < i ==> |weekWise[j]| <= perWeek
      invariant forall j :: 0 <= j < i ==>
                  weekWise[j] == Slice(selected, j * perWeek, (j + 1) * perWeek)
    {
      var bucket := Slice(selected, i * perWeek, (i + 1) * perWeek);
      FlattenAppend(weekWise, bucket);
      assert (i + 1) * perWeek == i * perWeek + perWeek;
      weekWise := weekWise + [bucket];
      i := i + 1;
    }
    assert weeks * perWeek >= n;
    assert selected[..n] == selected;
  }

  /** The normalised difficulty: trimmed, first character upper-cased, the rest lower-cased. */
  function DifficultyKey(d: string): string {
    var t := Trim(d);
    if t == [] then [] else [UpperChar(t[0])] + ToLower(t[1..])
  }

  /** The topic key: trimmed only, case kept. */
  function TopicKey(t: string): string {
    Trim(t)
  }

  function DifficultyKeys(qs: seq<Question>): (ks: seq<string>)
    ensures |ks| == |qs| && forall i :: 0 <= i < |qs| ==> ks[i] == DifficultyKey(qs[i].difficulty)
  {
    seq(|qs|, i requires 0 <= i < |qs| => DifficultyKey(qs[i].difficulty))
  }

  function TopicKeys(qs: seq<Question>): (ks: seq<string>)
    ensures |ks| == |qs| && forall i :: 0 <= i < |qs| ==> ks[i] == TopicKey(qs[i].topic)
  {
    seq(|qs|, i requires 0 <= i < |qs| => TopicKey(qs[i].topic))
  }

  /** Extending the selection by one question extends both key lists by its keys. */
  lemma KeysSnoc(qs: seq<Question>, i: nat)
    requires i < |qs|
    ensures DifficultyKeys(qs[..i + 1]) == DifficultyKeys(qs[..i]) + [DifficultyKey(qs[i].difficulty)]
    ensures TopicKeys(qs[..i + 1]) == TopicKeys(qs[..i]) + [TopicKey(qs[i].topic)]
  {
  }

  /**
   * The counter object built by `m[k] = (m[k] || 0) + 1` over `keys`: its keys are the
   * distinct keys, each mapped to its number of occurrences.
   */
  function Tally(keys: seq<string>): (m: map<string, nat>)
    ensures forall k :: k in m <==> k in keys
    ensures forall k :: k in m ==> m[k] == Count(keys, k) && m[k] > 0
  {
    if keys == [] then map[]
    else
      var prev := keys[..|keys| - 1];
      var m := Tally(prev);
      var k := keys[|keys| - 1];
      assert keys == prev + [k];
      assert forall x :: Count(keys, x) == Count(prev, x) + (if x == k then 1 else 0);
      CountPositive(prev, k);
      m[k := (if k in m then m[k] else 0) + 1]
  }

  /** The sum of `m`'s values over the keys `ks`. */
  ghost function SumOver(m: map<string, nat>, ks: set<string>): nat
    requires ks <= m.Keys
  {
    if ks == {} then 0
    else
      var k :| k in ks;
      m[k] + SumOver(m, ks - {k})
  }

  /** The sum of a counter's values. */
  ghost function MapSum(m: map<string, nat>): nat {
    SumOver(m, m.Keys)
  }

  /** `SumOver` can be split at any key, not only the one it happens to pick. */
  lemma {:induction false} SumOverRemove(m: map<string, nat>, ks: set<string>, k: string)
    requires ks <= m.Keys && k in ks
    ensures SumOver(m, ks) == m[k] + SumOver(m, ks - {k})
    decreases ks
  {
    var j :| j in ks && SumOver(m, ks) == m[j] + SumOver(m, ks - {j});
    if j != k {
      SumOverRemove(m, ks - {j}, k);
      SumOverRemove(m, ks - {k}, j);
      assert ks - {j} - {k} == ks - {k} - {j};
    }
  }

  /** `SumOver` only reads the values at the keys it sums. */
  lemma {:induction false} SumOverAgree(m1: map<string, nat>, m2: map<string, nat>,
                                        ks: set<string>)
    requires ks <= m1.Keys && ks <= m2.Keys
    requires forall x :: x in ks ==> m1[x] == m2[x]
    ensures SumOver(m1, ks) == SumOver(m2, ks)
    decreases ks
  {
    if ks != {} {
      var k :| k in ks && SumOver(m1, ks) == m1[k] + SumOver(m1, ks - {k});
      SumOverRemove(m2, ks, k);
      SumOverAgree(m1, m2, ks - {k});
    }
  }

  /** Tallying one more key bumps (or creates) that key's counter. */
  lemma TallySnoc(keys: seq<string>, k: string)
    ensures Tally(keys + [k]) == var m := Tally(keys); m[k := (if k in m then m[k] else 0) + 1]
  {
    assert (keys + [k])[..|keys|] == keys;
  }

  /** The counts in a tally add up to the number of keys tallied. */
  lemma {:induction false} TallyTotal(keys: seq<string>)
    ensures MapSum(Tally(keys)) == |keys|
  {
    if keys != [] {
      var prev := keys[..|keys| - 1];
      var m := Tally(prev);
      var k := keys[|keys| - 1];
      assert keys == prev + [k];
      TallySnoc(prev, k);
      var m' := Tally(keys);
      TallyTotal(prev);
      SumOverRemove(m', m'.Keys, k);
      SumOverAgree(m, m', m.Keys - {k});
      if k in m {
        SumOverRemove(m, m.Keys, k);
        assert m'.Keys - {k} == m.Keys - {k};
      } else {
        assert m'.Keys - {k} == m.Keys;
        assert m.Keys - {k} == m.Keys;
      }
    }
  }

  /** Lower-casing commutes with dropping leading whitespace. */
  lemma {:induction false} TrimStartLower(s: string)
    ensures TrimStart(ToLower(s)) == ToLower(TrimStart(s))
  {
    if s != [] {
      var l := ToLower(s);
      assert l[0] == LowerChar(s[0]);
      assert IsWhitespace(l[0]) <==> IsWhitespace(s[0]);
      if IsWhitespace(s[0]) {
        assert l[1..] == ToLower(s[1..]);
        TrimStartLower(s[1..]);
      }
    }
  }

  /** Lower-casing commutes with dropping trailing whitespace. */
  lemma {:induction false} TrimEndLower(s: string)
    ensures TrimEnd(ToLower(s)) == ToLower(TrimEnd(s))
  {
    if s != [] {
      assert ToLower(s)[..|s| - 1] == ToLower(s[..|s| - 1]);
      TrimEndLower(s[..|s| - 1]);
    }
  }

  /**
   * Case-insensitivity of the difficulty key: " EASY", "easy " and "Easy" all count under
   * one key, so inconsistent capitalisation does not split the tally.
   */
  lemma DifficultyKeyIgnoresCase(d: string)
    ensures DifficultyKey(ToLower(d)) == DifficultyKey(d)
  {
    TrimStartLower(d);
    TrimEndLower(TrimStart(d));
    var t := Trim(d);
    assert Trim(ToLower(d)) == ToLower(t);
    if t != [] {
      assert ToLower(t)[1..] == ToLower(t[1..]);
      ToLowerIdempotent(t[1..]);
    }
  }

  /** The example of the design notes: " easy " is counted under "Easy". */
  lemma PaddedEasyKey()
    ensures DifficultyKey(" easy ") == "Easy"
  {
    assert TrimStart(" easy ") == "easy ";
    assert TrimEnd("easy ") == "easy";
    assert ToLower("asy") == "asy";
  }

  /** The summary loop: one pass over the selection, incrementing both counters in place. */
  method Summarize(selected: seq<Question>)
    returns (difficulty: map<string, nat>, topics: map<string, nat>)
    ensures difficulty == Tally(DifficultyKeys(selected))
    ensures topics == Tally(TopicKeys(selected))
  {
    difficulty, topics := map[], map[];
    var i := 0;
    while i < |selected|
      invariant 0 <= i <= |selected|
      invariant difficulty == Tally(DifficultyKeys(selected[..i]))
      invariant topics == Tally(TopicKeys(selected[..i]))
    {
      var q := selected[i];
      var diff := DifficultyKey(q.difficulty);
      var topic := TopicKey(q.topic);
      KeysSnoc(selected, i);
      TallySnoc(DifficultyKeys(selected[..i]), diff);
      TallySnoc(TopicKeys(selected[..i]), topic);
      difficulty := difficulty[diff := (if diff in difficulty then difficulty[diff] else 0) + 1];
      topics := topics[topic := (if topic in topics then topics[topic] else 0) + 1];
      i := i + 1;
    }
    assert selected[..i] == selected;
  }

  datatype Summary = Summary(totalQuestions: nat, totalMinutes: Minutes,
                             difficulty: map<string, nat>, topics: map<string, nat>)

  datatype Plan = Plan(weekWise: seq<seq<Question>>, summary: Summary)

  /**
   * `generateDynamicPlan(questions, weeks, hoursPerWeek)`; `selected` is the intermediate
   * selection, exposed for the specification.
   */
  method GenerateDynamicPlan(questions: seq<Question>, weeks: int, hoursPerWeek: int)
    returns (plan: Plan, ghost selected: seq<Question>)
    ensures IsGreedySelection(questions, Budget(weeks, hoursPerWeek), selected)
    ensures plan.summary.totalQuestions == |selected|
    ensures plan.summary.totalMinutes == TotalMinutes(selected)
    ensures |plan.weekWise| == if weeks > 0 then weeks else 0
    ensures weeks > 0 ==> Flatten(plan.weekWise) == selected
    ensures weeks > 0 ==> forall i :: 0 <= i < weeks ==>
              |plan.weekWise[i]| <= CeilDiv(|selected|, weeks)
    ensures weeks > 0 ==> forall i :: 0 <= i < weeks ==>
              plan.weekWise[i] == Slice(selected, i * CeilDiv(|selected|, weeks),
                                        (i + 1) * CeilDiv(|selected|, weeks))
    ensures plan.summary.difficulty == Tally(DifficultyKeys(selected))
    ensures plan.summary.topics == Tally(TopicKeys(selected))
  {
    var totalMinutes := weeks * hoursPerWeek * 60;
    var sel, sum := SelectWithinBudget(questions, totalMinutes);
    var weekWise := DistributeWeeks(sel, weeks);
    var difficulty, topics := Summarize(sel);
    plan := Plan(weekWise, Summary(|sel|, sum, difficulty, topics));
    selected := sel;
  }

  /** Both counters of a plan's summary add up to the number of selected questions. */
  lemma SummaryCountsAddUp(selected: seq<Question>)
    ensures MapSum(Tally(DifficultyKeys(selected))) == |selected|
    ensures MapSum(Tally(TopicKeys(selected))) == |selected|
  {
    TallyTotal(DifficultyKeys(selected));
    TallyTotal(TopicKeys(selected));
  }
}
