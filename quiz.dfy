/**
 * The plan-finder quiz: four questions whose chosen option values add up to a
 * score, and a recommendation by score band. The component's state (current
 * step, answers, highlighted option, result shown) changes step by step
 * through its handlers.
 */
module PlanFinderQuiz {
  import opened Common

  datatype QuizOption = QuizOption(id: string, value: int)

  /** The options of the four questions, in order. */
  const QuizSteps: seq<seq<QuizOption>> := [
    [QuizOption("blog", 1), QuizOption("business", 2), QuizOption("ecommerce", 3), QuizOption("webapp", 4)],
    [QuizOption("starter", 1), QuizOption("growing", 2), QuizOption("established", 3), QuizOption("enterprise", 4)],
    [QuizOption("wordpress", 1), QuizOption("shopify", 2), QuizOption("custom", 3), QuizOption("unsure", 1)],
    [QuizOption("no", 1), QuizOption("maybe", 2), QuizOption("yes", 3), QuizOption("critical", 4)]]

  const LastStep: int := |QuizSteps| - 1

  datatype Tier = StarterHosting | BusinessHosting | CloudPro | VpsHosting

  /** The order of the tiers, cheapest first. */
  function Rank(t: Tier): int {
    match t
    case StarterHosting => 0
    case BusinessHosting => 1
    case CloudPro => 2
    case VpsHosting => 3
  }

  /** `getRecommendedPlan` on a score. */
  function Recommend(score: int): (t: Tier)
    ensures t == StarterHosting <==> score <= 5
    ensures t == BusinessHosting <==> 5 < score <= 9
    ensures t == CloudPro <==> 9 < score <= 13
    ensures t == VpsHosting <==> 13 < score
  {
    if score <= 5 then StarterHosting
    else if score <= 9 then BusinessHosting
    else if score <= 13 then CloudPro
    else VpsHosting
  }

  /** The answers are a sparse array: `reduce` skips the holes. */
  function Score(answers: seq<Option<int>>): (s: int)
    ensures (forall i :: 0 <= i < |answers| ==> answers[i].None?) ==> s == 0
    ensures ValuesInRange(answers) ==> 0 <= s <= 4 * |answers|
  {
    if answers == [] then 0
    else
      assert forall i :: 0 <= i < |answers| - 1 ==> answers[1..][i] == answers[i + 1];
      answers[0].GetOr(0) + Score(answers[1..])
  }

  /** `n` holes. */
  function Holes(n: nat): seq<Option<int>> {
    seq(n, j => None)
  }

  /** `newAnswers[i] = value` on a copy: positions before `i` past the end become holes. */
  function WithAnswer(answers: seq<Option<int>>, i: nat, value: int): (r: seq<Option<int>>)
    ensures |r| == if i < |answers| then |answers| else i + 1
    ensures r[i] == Some(value)
    ensures forall j :: 0 <= j < |answers| && j != i ==> r[j] == answers[j]
    ensures forall j :: |answers| <= j < i ==> r[j] == None
  {
    if i < |answers| then answers[i := Some(value)]
    else answers + Holes(i - |answers|) + [Some(value)]
  }

  /** Every question up to `n` has an answer. */
  predicate AnsweredUpTo(answers: seq<Option<int>>, n: int) {
    n <= |answers| && forall i :: 0 <= i < n ==> answers[i].Some?
  }

  /** Every given answer is an option value, 1 to 4. */
  predicate ValuesInRange(answers: seq<Option<int>>) {
    forall i :: 0 <= i < |answers| && answers[i].Some? ==> 1 <= answers[i].value <= 4
  }

  lemma OptionValuesInRange()
    ensures forall s, k :: 0 <= s < |QuizSteps| && 0 <= k < |QuizSteps[s]| ==> 1 <= QuizSteps[s][k].value <= 4
  {
  }

  class Quiz {
    var step: int
    var answers: seq<Option<int>>
    var selected: Option<string>
    var showResult: bool

    /**
     * The step indexes a question; the questions before it are answered; a highlighted option
     * means the current question is answered; the result is shown only at the last question
     * with every question answered.
     */
    predicate Valid()
      reads this
    {
      && 0 <= step <= LastStep && |answers| <= |QuizSteps|
      && ValuesInRange(answers)
      && AnsweredUpTo(answers, step)
      && (selected.Some? ==> step < |answers| && answers[step].Some?)
      && (showResult ==> step == LastStep && AnsweredUpTo(answers, |QuizSteps|))
    }

    constructor ()
      ensures Valid() && step == 0 && answers == [] && selected == None && !showResult
    {
      step, answers, selected, showResult := 0, [], None, false;
    }

    /** `handleOptionSelect` for option `k` of the current question (only those are on screen). */
    method SelectOption(k: nat)
      requires Valid() && !showResult && k < |QuizSteps[step]|
      modifies this
      ensures Valid()
      ensures selected == Some(QuizSteps[step][k].id)
      ensures answers == WithAnswer(old(answers), step, QuizSteps[step][k].value)
      ensures step == old(step) && !showResult
    {
      OptionValuesInRange();
      var option := QuizSteps[step][k];
      selected := Some(option.id);
      var newAnswers := answers;
      newAnswers := WithAnswer(newAnswers, step, option.value);
      answers := newAnswers;
    }

    /** `handleNext`; the button is disabled until an option is highlighted. */
    method Next()
      requires Valid() && !showResult && selected.Some?
      modifies this
      ensures Valid() && answers == old(answers)
      ensures old(step) < LastStep ==> step == old(step) + 1 && selected == None && !showResult
      ensures old(step) == LastStep ==> step == old(step) && showResult && selected == old(selected)
    {
      if step < LastStep {
        step := step + 1;
        selected := None;
      } else {
        showResult := true;
      }
    }

    /** `handleBack`: a no-op on the first question. */
    method Back()
      requires Valid() && !showResult
      modifies this
      ensures Valid() && answers == old(answers) && !showResult
      ensures old(step) > 0 ==> step == old(step) - 1 && selected == None
      ensures old(step) == 0 ==> step == 0 && selected == old(selected)
    {
      if step > 0 {
        step := step - 1;
        selected := None;
      }
    }

    /** `handleRestart`. */
    method Restart()
      modifies this
      ensures Valid() && step == 0 && answers == [] && selected == None && !showResult
    {
      step := 0;
      answers := [];
      selected := None;
      showResult := false;
    }

    /** `getRecommendedPlan` on the current answers. */
    method RecommendedPlan() returns (t: Tier)
      requires Valid() && showResult
      ensures t == Recommend(Score(answers))
      ensures 4 <= Score(answers) <= 16
    {
      FullScoreInRange(answers);
      t := Recommend(Score(answers));
    }
  }

  // ---------------------------------------------------------------------------
  // Properties

  /** A higher score never recommends a cheaper tier. */
  lemma RecommendMonotone(a: int, b: int)
    requires a <= b
    ensures Rank(Recommend(a)) <= Rank(Recommend(b))
  {
  }

  lemma {:induction false} ScoreAppend(a: seq<Option<int>>, b: seq<Option<int>>)
    ensures Score(a + b) == Score(a) + Score(b)
  {
    if a != [] {
      assert (a + b)[1..] == a[1..] + b;
      ScoreAppend(a[1..], b);
    } else {
      assert a + b == b;
    }
  }

  lemma {:induction false} ScoreOfHoles(n: nat)
    ensures Score(Holes(n)) == 0
  {
    if n > 0 {
      assert Holes(n)[1..] == Holes(n - 1);
      ScoreOfHoles(n - 1);
    }
  }

  lemma {:induction false} ScoreUpdate(answers: seq<Option<int>>, i: nat, v: Option<int>)
    requires i < |answers|
    ensures Score(answers[i := v]) == Score(answers) - answers[i].GetOr(0) + v.GetOr(0)
  {
    if i > 0 {
      assert answers[i := v][1..] == answers[1..][i - 1 := v];
      ScoreUpdate(answers[1..], i - 1, v);
    } else {
      assert answers[i := v][1..] == answers[1..];
    }
  }

  /** Answering question `i` replaces its previous contribution to the score with the new value. */
  lemma ScoreWithAnswer(answers: seq<Option<int>>, i: nat, value: int)
    ensures Score(WithAnswer(answers, i, value))
         == Score(answers) - (if i < |answers| then answers[i].GetOr(0) else 0) + value
  {
    if i < |answers| {
      ScoreUpdate(answers, i, Some(value));
    } else {
      ScoreAppend(answers, Holes(i - |answers|));
      ScoreAppend(answers + Holes(i - |answers|), [Some(value)]);
      ScoreOfHoles(i - |answers|);
      assert Score([Some(value)]) == value;
    }
  }

  /** With n answers in 1..4 and no holes, the score is between n and 4n. */
  lemma {:induction false} ScoreBounds(answers: seq<Option<int>>)
    requires AnsweredUpTo(answers, |answers|) && ValuesInRange(answers)
    ensures |answers| <= Score(answers) <= 4 * |answers|
  {
    if answers != [] {
      ScoreBounds(answers[1..]);
    }
  }

  /** Once the result is shown all four questions are answered, so the score is 4 to 16. */
  lemma FullScoreInRange(answers: seq<Option<int>>)
    requires |answers| <= |QuizSteps| && AnsweredUpTo(answers, |QuizSteps|) && ValuesInRange(answers)
    ensures 4 <= Score(answers) <= 16
  {
    ScoreBounds(answers);
  }

  /** Four answers, each 1 to 4, adding up to `s`: the first answers are raised to 4 before the later ones. */
  function AnswersScoring(s: int): seq<Option<int>> {
    var e := s - 4;
    [Some(1 + Min(3, Max(0, e))), Some(1 + Min(3, Max(0, e - 3))), Some(1 + Min(3, Max(0, e - 6))),
     Some(1 + Min(3, Max(0, e - 9)))]
  }

  /**
   * Every score from 4 to 16 comes from some complete set of answers, so every tier is reachable:
   * the thresholds 5, 9 and 13 all lie in that range.
   */
  lemma TiersReachable(s: int)
    requires 4 <= s <= 16
    ensures var a := AnswersScoring(s);
      && |a| == 4 && AnsweredUpTo(a, 4) && ValuesInRange(a)
      && Score(a) == s && Recommend(Score(a)) == Recommend(s)
  {
    var a := AnswersScoring(s);
    assert Score(a[3..]) == a[3].value + Score([]);
    assert Score(a[2..]) == a[2].value + Score(a[3..]);
    assert Score(a[1..]) == a[1].value + Score(a[2..]);
    assert Score(a) == a[0].value + Score(a[1..]);
  }
}
