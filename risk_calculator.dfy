/**
 * The risk scoring engine: the eight-question questionnaire, the classifier
 * that turns a set of answers into one of five ordered risk profiles, and the
 * two lookup tables keyed by profile (descriptions and recommendations).
 */
module RiskCalculator {
  import opened Wrappers

  /** The five risk profiles, in ascending order of risk appetite. */
  datatype RiskProfile = No | Low | Medium | High | VeryHigh

  /** Position of a profile in the order `No < Low < Medium < High < VeryHigh`. */
  function Rank(p: RiskProfile): (r: nat)
    ensures r < 5
    ensures r == 0 <==> p == No
    ensures r == 4 <==> p == VeryHigh
  {
    match p
    case No => 0
    case Low => 1
    case Medium => 2
    case High => 3
    case VeryHigh => 4
  }

  lemma RankIsInjective(p: RiskProfile, q: RiskProfile)
    ensures Rank(p) == Rank(q) <==> p == q
  {
  }

  datatype AnswerOption = AnswerOption(id: string, riskPoints: nat)

  datatype Question = Question(id: int, options: seq<AnswerOption>)

  /** Highest number of risk points a single option carries. */
  const MaxPossibleAverage: nat := 4

  /** The questionnaire, in the order it is presented: ids and risk points. */
  const Questions: seq<Question> := [
    Question(1, [AnswerOption("1a", 0), AnswerOption("1b", 1), AnswerOption("1c", 2), AnswerOption("1d", 3), AnswerOption("1e", 4)]),
    Question(2, [AnswerOption("2a", 0), AnswerOption("2b", 1), AnswerOption("2c", 2), AnswerOption("2d", 3), AnswerOption("2e", 4)]),
    Question(3, [AnswerOption("3a", 0), AnswerOption("3b", 1), AnswerOption("3c", 2), AnswerOption("3d", 3), AnswerOption("3e", 4)]),
    Question(4, [AnswerOption("4a", 0), AnswerOption("4b", 1), AnswerOption("4c", 2), AnswerOption("4d", 3), AnswerOption("4e", 4)]),
    Question(5, [AnswerOption("5a", 0), AnswerOption("5b", 1), AnswerOption("5c", 2), AnswerOption("5d", 3), AnswerOption("5e", 4)]),
    Question(6, [AnswerOption("6a", 0), AnswerOption("6b", 1), AnswerOption("6c", 2), AnswerOption("6d", 3), AnswerOption("6e", 4)]),
    Question(7, [AnswerOption("7a", 0), AnswerOption("7b", 1), AnswerOption("7c", 2), AnswerOption("7d", 3), AnswerOption("7e", 4)]),
    Question(8, [AnswerOption("8a", 0), AnswerOption("8b", 1), AnswerOption("8c", 2), AnswerOption("8d", 3), AnswerOption("8e", 4)])
  ]

  /** The prompt shown for each question, in table order (display only). */
  const QuestionPrompts: seq<string> :=
    [
      "What is your primary goal for investing?",
      "How would you react if your investments lost 20% of their value in a month?",
      "What is your time horizon for your investments?",
      "Which statement best describes your investment experience?",
      "How much of your monthly income can you comfortably save or invest?",
      "How important is liquidity in your investments?",
      "Which scenario would you prefer?",
      "How would you allocate your investments if given these options?"
    ]

  /** The labels shown for the options of each question, in table order (display only). */
  const OptionLabels: seq<seq<string>> :=
    [
    ["Preserving my capital and avoiding losses",
       "Generating steady income",
       "Achieving balanced growth and income",
       "Growing my assets over the long term",
       "Maximizing growth potential, even with significant risks"],
      ["I would sell everything immediately to prevent further losses",
       "I would sell some investments to reduce my exposure",
       "I would hold on and wait for recovery",
       "I would see this as an opportunity and maintain my investment strategy",
       "I would invest more to take advantage of lower prices"],
      ["Less than 1 year",
       "1-3 years",
       "3-5 years",
       "5-10 years",
       "More than 10 years"],
      ["I have no investment experience",
       "I have some experience with basic investments like savings accounts and CDs",
       "I have invested in mutual funds or exchange-traded funds (ETFs)",
       "I have experience with individual stocks and bonds",
       "I actively trade various investment types including options or crypto"],
      ["I'm currently unable to save or invest",
       "Less than 5% of my monthly income",
       "5-10% of my monthly income",
       "10-20% of my monthly income",
       "More than 20% of my monthly income"],
      ["I need immediate access to all my investments",
       "I need access to most of my investments within a few months",
       "I need access to some of my investments, but can lock up a portion",
       "I only need access to a small portion of my investments",
       "I don't need access to these investments for several years"],
      ["Investment A: Guaranteed 4% annual return",
       "Investment B: 90% chance of 6% return, 10% chance of 1% return",
       "Investment C: 80% chance of 8% return, 20% chance of -2% return",
       "Investment D: 60% chance of 12% return, 40% chance of -5% return",
       "Investment E: 50% chance of 20% return, 50% chance of -10% return"],
      ["100% in low-risk, low-return investments",
       "75% in low-risk, 25% in medium-risk investments",
       "50% in low-risk, 40% in medium-risk, 10% in high-risk investments",
       "25% in low-risk, 50% in medium-risk, 25% in high-risk investments",
       "10% in low-risk, 40% in medium-risk, 50% in high-risk investments"]
    ]

  // ---------------------------------------------------------------------------
  // Looking answers up in the table
  // ---------------------------------------------------------------------------

  /** Index of the first question with the given id (the source's `find`). */
  function FindQuestion(qs: seq<Question>, id: int): (r: Option<nat>)
    ensures r.Some? ==> r.value < |qs| && qs[r.value].id == id
    ensures r.Some? ==> forall j :: 0 <= j < r.value ==> qs[j].id != id
    ensures r.None? ==> forall j :: 0 <= j < |qs| ==> qs[j].id != id
  {
    if qs == [] then None
    else if qs[0].id == id then Some(0)
    else match FindQuestion(qs[1..], id)
      case None => None
      case Some(i) => Some(i + 1)
  }

  /** Index of the first option with the given id (the source's `find`). */
  function FindOption(options: seq<AnswerOption>, id: string): (r: Option<nat>)
    ensures r.Some? ==> r.value < |options| && options[r.value].id == id
    ensures r.Some? ==> forall j :: 0 <= j < r.value ==> options[j].id != id
    ensures r.None? ==> forall j :: 0 <= j < |options| ==> options[j].id != id
  {
    if options == [] then None
    else if options[0].id == id then Some(0)
    else match FindOption(options[1..], id)
      case None => None
      case Some(i) => Some(i + 1)
  }

  /** Risk points of the option `optionId` of question `q`, if it has one. */
  function OptionPoints(q: Question, optionId: string): Option<nat>
  {
    match FindOption(q.options, optionId)
    case None => None
    case Some(j) => Some(q.options[j].riskPoints)
  }

  /** Risk points of one answer entry, or None when the entry cannot be resolved. */
  function Resolve(qs: seq<Question>, questionId: int, optionId: string): Option<nat>
  {
    match FindQuestion(qs, questionId)
    case None => None
    case Some(i) => OptionPoints(qs[i], optionId)
  }

  predicate DistinctIds(qs: seq<Question>)
  {
    forall i, j :: 0 <= i < j < |qs| ==> qs[i].id != qs[j].id
  }

  predicate DistinctOptionIds(options: seq<AnswerOption>)
  {
    forall i, j :: 0 <= i < j < |options| ==> options[i].id != options[j].id
  }

  // ---------------------------------------------------------------------------
  // Scoring
  // ---------------------------------------------------------------------------

  /** Sum of the points of the resolved answers, and how many answers resolved. */
  datatype Tally = Tally(total: nat, count: nat)

  function Add(t: Tally, points: Option<nat>): Tally
  {
    match points
    case None => t
    case Some(p) => Tally(t.total + p, t.count + 1)
  }

  /**
   * Reference definition of the accumulation: walk the question table and
   * add, for every question that has an entry in `answers` naming one of its
   * options, that option's points.
   */
  function Score(qs: seq<Question>, answers: map<int, string>): (r: Tally)
    ensures r.count <= |qs|
  {
    if qs == [] then Tally(0, 0)
    else
      var rest := Score(qs[1..], answers);
      if qs[0].id in answers then Add(rest, OptionPoints(qs[0], answers[qs[0].id])) else rest
  }

  /** The average as a percentage of the highest possible average, in exact arithmetic. */
  function Percentage(t: Tally): real
    requires t.count > 0
  {
    (t.total as real / t.count as real) / MaxPossibleAverage as real * 100.0
  }

  /** The threshold cascade, on the exact percentage. */
  function Classify(t: Tally): RiskProfile
  {
    if t.count == 0 then No
    else
      var pct := Percentage(t);
      if pct < 20.0 then No
      else if pct < 40.0 then Low
      else if pct < 60.0 then Medium
      else if pct < 80.0 then High
      else VeryHigh
  }

  /** The profile `calculateRiskProfile` returns for `answers`. */
  function ProfileOf(answers: map<int, string>): RiskProfile
  {
    Classify(Score(Questions, answers))
  }

  /**
   * The accumulation loop of `calculateRiskProfile`: visits the answer
   * entries in whatever order they come, skips an entry whose question or
   * option cannot be found, and otherwise adds the option's points and counts
   * the answer. Whatever the visiting order, the result is `Score`.
   */
  method AccumulatePoints(qs: seq<Question>, answers: map<int, string>) returns (t: Tally)
    requires DistinctIds(qs)
    ensures t == Score(qs, answers)
  {
    var totalPoints: nat, answeredQuestions: nat := 0, 0;
    var remaining := answers.Keys;
    ghost var visited: map<int, string> := map[];
    ScoreOfNothing(qs);
    while exists k :: k in remaining
      invariant remaining <= answers.Keys
      invariant visited.Keys == answers.Keys - remaining
      invariant forall k :: k in visited ==> visited[k] == answers[k]
      invariant Score(qs, visited) == Tally(totalPoints, answeredQuestions)
      decreases remaining
    {
      var questionId :| questionId in remaining;
      var question := FindQuestion(qs, questionId);
      if question.Some? {
        var selectedOptionId := answers[questionId];
        var selectedOption := FindOption(qs[question.value].options, selectedOptionId);
        if selectedOption.Some? {
          totalPoints := totalPoints + qs[question.value].options[selectedOption.value].riskPoints;
          answeredQuestions := answeredQuestions + 1;
        }
      }
      ScoreInsert(qs, visited, questionId, answers[questionId]);
      visited := visited[questionId := answers[questionId]];
      remaining := remaining - {questionId};
    }
    ScoreCongruent(qs, visited, answers);
    t := Tally(totalPoints, answeredQuestions);
  }

  /**
   * `calculateRiskProfile`: accumulates the resolvable answers, then applies
   * the threshold cascade restated by integer cross-multiplication.
   */
  method CalculateRiskProfile(answers: map<int, string>) returns (profile: RiskProfile)
    ensures profile == ProfileOf(answers)
  {
    QuestionIdsDistinct();
    var t := AccumulatePoints(Questions, answers);
    ClassifyByCrossMultiplication(t);
    if t.count == 0 { return No; }
    if 5 * t.total < 4 * t.count { return No; }
    if 5 * t.total < 8 * t.count { return Low; }
    if 5 * t.total < 12 * t.count { return Medium; }
    if 5 * t.total < 16 * t.count { return High; }
    return VeryHigh;
  }

  // ---------------------------------------------------------------------------
  // Properties of the table
  // ---------------------------------------------------------------------------

  /** Question `i` has id `i + 1`, five options, and option `j` is worth `j` points. */
  lemma QuestionTableShape()
    ensures |Questions| == 8
    ensures forall i :: 0 <= i < |Questions| ==> Questions[i].id == i + 1
    ensures forall i :: 0 <= i < |Questions| ==> |Questions[i].options| == 5
    ensures forall i, j :: 0 <= i < |Questions| && 0 <= j < |Questions[i].options| ==>
              Questions[i].options[j].riskPoints == j
    ensures forall i :: 0 <= i < |Questions| ==> DistinctOptionIds(Questions[i].options)
  {
    forall i | 0 <= i < |Questions|
      ensures Questions[i].id == i + 1 && |Questions[i].options| == 5
      ensures forall j :: 0 <= j < 5 ==> Questions[i].options[j].riskPoints == j
      ensures DistinctOptionIds(Questions[i].options)
    {
      if i == 0 {} else if i == 1 {} else if i == 2 {} else if i == 3 {}
      else if i == 4 {} else if i == 5 {} else if i == 6 {} else {}
    }
  }

  /** The points of every question are exactly {0, 1, 2, 3, 4}, one option each. */
  lemma PointsAreZeroToFour(i: nat)
    requires i < |Questions|
    ensures |Questions[i].options| == 5
    ensures (set j | 0 <= j < |Questions[i].options| :: Questions[i].options[j].riskPoints) == {0, 1, 2, 3, 4}
  {
    QuestionTableShape();
    var pts := set j | 0 <= j < |Questions[i].options| :: Questions[i].options[j].riskPoints;
    forall p | p in pts ensures p in {0, 1, 2, 3, 4} {
      var j :| 0 <= j < |Questions[i].options| && Questions[i].options[j].riskPoints == p;
    }
    forall p | p in {0, 1, 2, 3, 4} ensures p in pts {
      assert Questions[i].options[p].riskPoints == p;
    }
  }

  lemma QuestionIdsDistinct()
    ensures DistinctIds(Questions)
  {
    QuestionTableShape();
  }

  /** Every option of the table is worth at most `MaxPossibleAverage` points. */
  predicate PointsBounded(qs: seq<Question>)
  {
    forall i, j :: 0 <= i < |qs| && 0 <= j < |qs[i].options| ==> qs[i].options[j].riskPoints <= MaxPossibleAverage
  }

  // ---------------------------------------------------------------------------
  // Properties of the accumulation
  // ---------------------------------------------------------------------------

  /**
   * Inserting an entry for a key that is not yet present adds exactly that
   * entry's resolved points (and nothing when it does not resolve).
   */
  lemma {:induction false} ScoreInsert(qs: seq<Question>, m: map<int, string>, k: int, v: string)
    requires DistinctIds(qs)
    requires k !in m
    ensures Score(qs, m[k := v]) == Add(Score(qs, m), Resolve(qs, k, v))
  {
    if qs != [] {
      var rest := qs[1..];
      assert DistinctIds(rest) by {
        forall i, j | 0 <= i < j < |rest| ensures rest[i].id != rest[j].id {
          assert rest[i] == qs[i + 1] && rest[j] == qs[j + 1];
        }
      }
      ScoreInsert(rest, m, k, v);
      if qs[0].id == k {
        assert FindQuestion(rest, k).None? by {
          forall j | 0 <= j < |rest| ensures rest[j].id != k {
            assert rest[j] == qs[j + 1];
          }
        }
      }
    }
  }

  /** The score depends only on the entries of the answer map. */
  lemma {:induction false} ScoreCongruent(qs: seq<Question>, m: map<int, string>, n: map<int, string>)
    requires forall k :: k in m <==> k in n
    requires forall k :: k in m ==> m[k] == n[k]
    ensures Score(qs, m) == Score(qs, n)
  {
    if qs != [] { ScoreCongruent(qs[1..], m, n); }
  }

  /** Removing an entry removes exactly its resolved points. */
  lemma ScoreRemove(qs: seq<Question>, m: map<int, string>, k: int)
    requires DistinctIds(qs)
    requires k in m
    ensures Score(qs, m) == Add(Score(qs, m - {k}), Resolve(qs, k, m[k]))
  {
    ScoreInsert(qs, m - {k}, k, m[k]);
    assert (m - {k})[k := m[k]] == m;
  }

  /** The empty answer set scores nothing. */
  lemma {:induction false} ScoreOfNothing(qs: seq<Question>)
    ensures Score(qs, map[]) == Tally(0, 0)
  {
    if qs != [] { ScoreOfNothing(qs[1..]); }
  }

  /** When no entry resolves, the tally is empty: both total and count are 0. */
  lemma {:induction false} ScoreOfUnresolved(qs: seq<Question>, m: map<int, string>)
    requires DistinctIds(qs)
    requires forall k :: k in m ==> Resolve(qs, k, m[k]).None?
    ensures Score(qs, m) == Tally(0, 0)
    decreases |m|
  {
    if m == map[] {
      ScoreOfNothing(qs);
    } else {
      var k :| k in m;
      ScoreRemove(qs, m, k);
      ScoreOfUnresolved(qs, m - {k});
    }
  }

  /** The resolved total is at most `MaxPossibleAverage` points per resolved answer. */
  lemma {:induction false} ScoreBounded(qs: seq<Question>, m: map<int, string>)
    requires PointsBounded(qs)
    ensures Score(qs, m).total <= MaxPossibleAverage * Score(qs, m).count
  {
    if qs != [] {
      var rest := qs[1..];
      assert PointsBounded(rest) by {
        forall i, j | 0 <= i < |rest| && 0 <= j < |rest[i].options|
          ensures rest[i].options[j].riskPoints <= MaxPossibleAverage
        {
          assert rest[i] == qs[i + 1];
        }
      }
      ScoreBounded(rest, m);
    }
  }

  /**
   * When every question of `qs` is answered with its option at position `j`,
   * and that option is worth `j` and is the only one with its id, the tally
   * is `j` points for every question.
   */
  lemma {:induction false} ScoreOfUniformChoice(qs: seq<Question>, m: map<int, string>, j: nat)
    requires forall i :: 0 <= i < |qs| ==> j < |qs[i].options| && qs[i].options[j].riskPoints == j
    requires forall i :: 0 <= i < |qs| ==> DistinctOptionIds(qs[i].options)
    requires forall i :: 0 <= i < |qs| ==> qs[i].id in m && m[qs[i].id] == qs[i].options[j].id
    ensures Score(qs, m) == Tally(j * |qs|, |qs|)
  {
    if qs != [] {
      ScoreOfUniformChoice(qs[1..], m, j);
      assert DistinctOptionIds(qs[0].options);
      assert FindOption(qs[0].options, qs[0].options[j].id) == Some(j);
    }
  }

  // ---------------------------------------------------------------------------
  // Properties of the classifier
  // ---------------------------------------------------------------------------

  lemma PercentageBelow(t: Tally, k: int)
    requires t.count > 0
    ensures Percentage(t) < k as real <==> 25 * t.total < k * t.count
  {
    var c := t.count as real;
    var x := t.total as real;
    var p := Percentage(t);
    assert p == 25.0 * (x / c);
    assert (x / c) * c == x;
    assert p * c == 25.0 * x;
    if p < k as real {
      assert p * c < (k as real) * c;
    } else {
      assert p * c >= (k as real) * c;
    }
  }

  /**
   * The percentage thresholds 20/40/60/80 on `25 * total / count`, restated
   * exactly in integers.
   */
  lemma ClassifyByCrossMultiplication(t: Tally)
    ensures Classify(t) ==
      if t.count == 0 then No
      else if 5 * t.total < 4 * t.count then No
      else if 5 * t.total < 8 * t.count then Low
      else if 5 * t.total < 12 * t.count then Medium
      else if 5 * t.total < 16 * t.count then High
      else VeryHigh
  {
    if t.count > 0 {
      PercentageBelow(t, 20);
      PercentageBelow(t, 40);
      PercentageBelow(t, 60);
      PercentageBelow(t, 80);
    }
  }

  /** A higher total over the same number of resolved answers never gives a lower profile. */
  lemma ClassifyMonotone(t: Tally, u: Tally)
    requires t.count == u.count && t.total <= u.total
    ensures Rank(Classify(t)) <= Rank(Classify(u))
  {
    ClassifyByCrossMultiplication(t);
    ClassifyByCrossMultiplication(u);
  }

  /** A tally of at most four points per answer has a percentage between 0 and 100. */
  lemma BoundedTallyPercentage(t: Tally)
    requires t.count > 0
    requires t.total <= MaxPossibleAverage * t.count
    ensures 0.0 <= Percentage(t) <= 100.0
  {
    var c := t.count as real;
    var x := t.total as real;
    assert Percentage(t) == 25.0 * (x / c);
    assert (x / c) * c == x;
    assert x <= 4.0 * c;
  }

  /** The percentage of any answer set with a resolved answer lies in [0, 100]. */
  lemma PercentageInRange(answers: map<int, string>)
    requires Score(Questions, answers).count > 0
    ensures 0.0 <= Percentage(Score(Questions, answers)) <= 100.0
  {
    QuestionTableShape();
    ScoreBounded(Questions, answers);
    BoundedTallyPercentage(Score(Questions, answers));
  }

  // ---------------------------------------------------------------------------
  // Properties of `calculateRiskProfile`
  // ---------------------------------------------------------------------------

  /** Option `j` of the question at position `i` resolves, under id `i + 1`, to `j` points. */
  lemma ResolveTableOption(i: nat, j: nat)
    requires i < |Questions| && j < 5
    ensures Resolve(Questions, i + 1, Questions[i].options[j].id) == Some(j)
  {
    QuestionTableShape();
    assert FindQuestion(Questions, i + 1) == Some(i) by {
      assert Questions[i].id == i + 1;
    }
    assert FindOption(Questions[i].options, Questions[i].options[j].id) == Some(j);
  }

  /** Resolution in the table fails exactly when no question with that id has that option. */
  lemma ResolveNone(questionId: int, optionId: string)
    ensures Resolve(Questions, questionId, optionId).None? <==>
      forall i, j :: 0 <= i < |Questions| && Questions[i].id == questionId && 0 <= j < |Questions[i].options| ==>
        Questions[i].options[j].id != optionId
  {
    QuestionIdsDistinct();
    match FindQuestion(Questions, questionId)
    case None =>
    case Some(i) =>
      forall i', j | 0 <= i' < |Questions| && Questions[i'].id == questionId && 0 <= j < |Questions[i'].options|
        ensures Questions[i'].options[j].id != optionId <== FindOption(Questions[i].options, optionId).None?
      {
        assert i' == i;
      }
  }

  /** With no resolvable entry (the empty map included), the profile is `No`. */
  lemma NothingResolvedIsNo(answers: map<int, string>)
    requires forall k :: k in answers ==> Resolve(Questions, k, answers[k]).None?
    ensures ProfileOf(answers) == No
  {
    QuestionIdsDistinct();
    ScoreOfUnresolved(Questions, answers);
  }

  lemma EmptyAnswersIsNo()
    ensures ProfileOf(map[]) == No
  {
    NothingResolvedIsNo(map[]);
  }

  /**
   * An entry naming an unknown question, or an option the question does not
   * have, changes neither the total nor the count, so not the profile either.
   */
  lemma UnresolvedEntryIgnored(answers: map<int, string>, questionId: int, optionId: string)
    requires questionId !in answers
    requires forall i, j :: 0 <= i < |Questions| && Questions[i].id == questionId && 0 <= j < |Questions[i].options| ==>
               Questions[i].options[j].id != optionId
    ensures Score(Questions, answers[questionId := optionId]) == Score(Questions, answers)
    ensures ProfileOf(answers[questionId := optionId]) == ProfileOf(answers)
  {
    QuestionIdsDistinct();
    ResolveNone(questionId, optionId);
    ScoreInsert(Questions, answers, questionId, optionId);
  }

  /** Raising the points of one resolved answer never lowers the profile. */
  lemma RaisingAnAnswerNeverLowers(answers: map<int, string>, questionId: int, optionId: string)
    requires questionId in answers
    requires Resolve(Questions, questionId, answers[questionId]).Some?
    requires Resolve(Questions, questionId, optionId).Some?
    requires Resolve(Questions, questionId, answers[questionId]).value <= Resolve(Questions, questionId, optionId).value
    ensures Rank(ProfileOf(answers)) <= Rank(ProfileOf(answers[questionId := optionId]))
  {
    QuestionIdsDistinct();
    var base := answers - {questionId};
    ScoreRemove(Questions, answers, questionId);
    ScoreInsert(Questions, base, questionId, optionId);
    assert base[questionId := optionId] == answers[questionId := optionId];
    ClassifyMonotone(Score(Questions, answers), Score(Questions, answers[questionId := optionId]));
  }

  /** When every question of `qs` is answered with one of its own options, every answer counts. */
  lemma {:induction false} ScoreCountsEveryResolvedAnswer(qs: seq<Question>, m: map<int, string>)
    requires forall i :: 0 <= i < |qs| ==> qs[i].id in m && OptionPoints(qs[i], m[qs[i].id]).Some?
    ensures Score(qs, m).count == |qs|
  {
    if qs != [] {
      ScoreCountsEveryResolvedAnswer(qs[1..], m);
    }
  }

  /**
   * A questionnaire in which every question holds one of its own option ids
   * averages over all eight answers.
   */
  lemma CompleteAnswersCountAll(answers: map<int, string>)
    requires forall i :: 0 <= i < |Questions| ==>
               Questions[i].id in answers
               && exists j :: 0 <= j < |Questions[i].options| && answers[Questions[i].id] == Questions[i].options[j].id
    ensures Score(Questions, answers).count == 8
  {
    QuestionTableShape();
    forall i | 0 <= i < |Questions|
      ensures OptionPoints(Questions[i], answers[Questions[i].id]).Some?
    {
      var j :| 0 <= j < |Questions[i].options| && answers[Questions[i].id] == Questions[i].options[j].id;
      assert FindOption(Questions[i].options, Questions[i].options[j].id).Some?;
    }
    ScoreCountsEveryResolvedAnswer(Questions, answers);
  }

  /** Answering every question with its option at position `j` resolves all eight answers at `j` points each. */
  lemma UniformChoiceScore(answers: map<int, string>, j: nat)
    requires j < 5
    requires forall i :: 0 <= i < |Questions| ==> Questions[i].id in answers && answers[Questions[i].id] == Questions[i].options[j].id
    ensures Score(Questions, answers) == Tally(8 * j, 8)
  {
    QuestionTableShape();
    ScoreOfUniformChoice(Questions, answers, j);
  }

  lemma AllLowestIsNo()
    ensures ProfileOf(map[1 := "1a", 2 := "2a", 3 := "3a", 4 := "4a", 5 := "5a", 6 := "6a", 7 := "7a", 8 := "8a"]) == No
  {
    UniformChoiceScore(map[1 := "1a", 2 := "2a", 3 := "3a", 4 := "4a", 5 := "5a", 6 := "6a", 7 := "7a", 8 := "8a"], 0);
    ClassifyByCrossMultiplication(Tally(0, 8));
  }

  lemma AllMiddleIsMedium()
    ensures ProfileOf(map[1 := "1c", 2 := "2c", 3 := "3c", 4 := "4c", 5 := "5c", 6 := "6c", 7 := "7c", 8 := "8c"]) == Medium
  {
    UniformChoiceScore(map[1 := "1c", 2 := "2c", 3 := "3c", 4 := "4c", 5 := "5c", 6 := "6c", 7 := "7c", 8 := "8c"], 2);
    ClassifyByCrossMultiplication(Tally(16, 8));
  }

  lemma AllHighestIsVeryHigh()
    ensures ProfileOf(map[1 := "1e", 2 := "2e", 3 := "3e", 4 := "4e", 5 := "5e", 6 := "6e", 7 := "7e", 8 := "8e"]) == VeryHigh
  {
    UniformChoiceScore(map[1 := "1e", 2 := "2e", 3 := "3e", 4 := "4e", 5 := "5e", 6 := "6e", 7 := "7e", 8 := "8e"], 4);
    ClassifyByCrossMultiplication(Tally(32, 8));
  }

  /** Two answers worth 0 and 1 points average 0.5, that is 12.5 percent: `No`. */
  lemma TwoLowAnswersIsNo()
    ensures Score(Questions, map[1 := "1a", 2 := "2b"]) == Tally(1, 2)
    ensures ProfileOf(map[1 := "1a", 2 := "2b"]) == No
  {
    QuestionIdsDistinct();
    ScoreOfNothing(Questions);
    ResolveTableOption(0, 0);
    ResolveTableOption(1, 1);
    assert Questions[0].options[0].id == "1a" && Questions[1].options[1].id == "2b";
    ScoreInsert(Questions, map[], 1, "1a");
    ScoreInsert(Questions, map[1 := "1a"], 2, "2b");
    ClassifyByCrossMultiplication(Tally(1, 2));
  }

  // ---------------------------------------------------------------------------
  // Lookups keyed by profile
  // ---------------------------------------------------------------------------

  datatype ProfileDescription = ProfileDescription(
    title: string, description: string, characteristics: seq<string>, timeHorizon: string)

  datatype Allocation = Allocation(category: string, percentage: nat)

  datatype Investment = Investment(
    name: string, kind: string, description: string, riskLevel: string, expectedReturn: string)

  datatype Recommendations = Recommendations(allocations: seq<Allocation>, specificInvestments: seq<Investment>)

  function PercentageSum(allocations: seq<Allocation>): nat
  {
    if allocations == [] then 0 else allocations[0].percentage + PercentageSum(allocations[1..])
  }

  /** `getRiskProfileDescription`: total over the five profiles, four characteristics each. */
  function Describe(profile: RiskProfile): (r: ProfileDescription)
    ensures |r.characteristics| == 4
  {
    match profile
    case No => NoRiskDescription
    case Low => LowRiskDescription
    case Medium => MediumRiskDescription
    case High => HighRiskDescription
    case VeryHigh => VeryHighRiskDescription
  }

  /** The suggested split of a portfolio for each profile: five categories, summing to exactly 100 percent. */
  function Allocations(profile: RiskProfile): (r: seq<Allocation>)
    ensures |r| == 5
    ensures PercentageSum(r) == 100
  {
    match profile
    case No => NoRiskAllocations
    case Low => LowRiskAllocations
    case Medium => MediumRiskAllocations
    case High => HighRiskAllocations
    case VeryHigh => VeryHighRiskAllocations
  }

  /** The example investments listed for each profile. */
  function Investments(profile: RiskProfile): (r: seq<Investment>)
    ensures profile == No ==> |r| == 3
    ensures profile == VeryHigh ==> |r| == 5
    ensures profile in {Low, Medium, High} ==> |r| == 4
  {
    match profile
    case No => NoRiskInvestments
    case Low => LowRiskInvestments
    case Medium => MediumRiskInvestments
    case High => HighRiskInvestments
    case VeryHigh => VeryHighRiskInvestments
  }

  /** `getInvestmentRecommendations`: total over the five profiles. */
  function Recommend(profile: RiskProfile): (r: Recommendations)
    ensures |r.allocations| == 5
    ensures PercentageSum(r.allocations) == 100
  {
    Recommendations(Allocations(profile), Investments(profile))
  }

  const NoRiskDescription: ProfileDescription :=
    ProfileDescription(
      "No Risk",
      "You prioritize capital preservation above all else and are not comfortable with any investment risk.",
      ["Focus on preserving capital", "Prefer guaranteed returns",
       "Highly concerned about any potential losses", "Prioritize liquidity and safety"],
      "Less than 1 year")

  const LowRiskDescription: ProfileDescription :=
    ProfileDescription(
      "Low Risk",
      "You prefer stable investments with minimal volatility, accepting lower returns for greater safety.",
      ["Willing to accept minimal volatility", "Emphasis on capital preservation with some income",
       "Limited tolerance for losses", "Prefer mostly conservative investments"],
      "1-3 years")

  const MediumRiskDescription: ProfileDescription :=
    ProfileDescription(
      "Medium Risk",
      "You seek a balance between growth and stability, willing to accept moderate fluctuations for better returns.",
      ["Balance between growth and safety", "Comfortable with some market fluctuations",
       "Moderate tolerance for losses", "Diversified approach to investing"],
      "3-7 years")

  const HighRiskDescription: ProfileDescription :=
    ProfileDescription(
      "High Risk",
      "You prioritize growth and are comfortable with significant volatility to achieve higher long-term returns.",
      ["Strong focus on capital growth", "Comfortable with significant market fluctuations",
       "Higher tolerance for temporary losses", "Willing to take calculated risks for better returns"],
      "7-10 years")

  const VeryHighRiskDescription: ProfileDescription :=
    ProfileDescription(
      "Very High Risk",
      "You seek maximum growth potential and can tolerate extreme market volatility and significant temporary losses.",
      ["Maximum growth is the primary objective", "Very comfortable with market volatility",
       "High tolerance for significant temporary losses", "Willing to invest in speculative opportunities"],
      "10+ years")

  const NoRiskAllocations: seq<Allocation> :=
    [Allocation("High-yield Savings", 50), Allocation("Certificates of Deposit", 30),
       Allocation("Treasury Bills", 20), Allocation("Stocks", 0), Allocation("Alternative Investments", 0)]

  const NoRiskInvestments: seq<Investment> :=
    [Investment("High-Yield Savings Account", "Cash Equivalent",
         "FDIC-insured savings accounts with higher interest rates than standard accounts.", "Very Low", "1-3%"),
       Investment("Certificates of Deposit (CDs)", "Cash Equivalent",
         "Time deposits with fixed terms and interest rates, typically FDIC-insured.", "Very Low", "2-4%"),
       Investment("Short-Term Treasury Bills", "Government Security",
         "Short-term debt obligations backed by the U.S. government with maturities under one year.", "Very Low", "1.5-3.5%")]

  const LowRiskAllocations: seq<Allocation> :=
    [Allocation("Cash & Equivalents", 25), Allocation("Bonds", 60), Allocation("Stocks", 15),
       Allocation("Real Estate", 0), Allocation("Alternative Investments", 0)]

  const LowRiskInvestments: seq<Investment> :=
    [Investment("Short-Term Bond ETFs", "Fixed Income",
         "ETFs that invest in high-quality bonds with short maturities, reducing interest rate risk.", "Low", "2-4%"),
       Investment("Municipal Bond Funds", "Fixed Income",
         "Funds that invest in tax-exempt bonds issued by state and local governments.", "Low", "2-4%"),
       Investment("Conservative Allocation Mutual Funds", "Mixed Asset",
         "Mutual funds that maintain a higher percentage of bonds and a lower percentage of stocks.", "Low to Moderate", "3-5%"),
       Investment("Treasury Inflation-Protected Securities (TIPS)", "Government Security",
         "U.S. government bonds that adjust with inflation to protect purchasing power.", "Low", "2-3%")]

  const MediumRiskAllocations: seq<Allocation> :=
    [Allocation("Cash & Equivalents", 10), Allocation("Bonds", 40), Allocation("Stocks", 40),
       Allocation("Real Estate", 10), Allocation("Alternative Investments", 0)]

  const MediumRiskInvestments: seq<Investment> :=
    [Investment("Balanced Mutual Funds", "Mixed Asset",
         "Funds that maintain a roughly equal mix of stocks and bonds for balance between growth and income.", "Moderate", "4-6%"),
       Investment("Dividend Stock ETFs", "Equity",
         "ETFs focused on companies with strong dividend payment histories, providing income and growth potential.", "Moderate", "5-7%"),
       Investment("Blue-Chip Stocks", "Equity",
         "Shares of well-established companies with stable earnings and a history of reliable performance.", "Moderate", "6-8%"),
       Investment("Real Estate Investment Trusts (REITs)", "Real Estate",
         "Companies that own, operate, or finance income-producing real estate across various sectors.", "Moderate", "5-8%")]

  const HighRiskAllocations: seq<Allocation> :=
    [Allocation("Cash & Equivalents", 5), Allocation("Bonds", 15), Allocation("Stocks", 65),
       Allocation("Real Estate", 10), Allocation("Alternative Investments", 5)]

  const HighRiskInvestments: seq<Investment> :=
    [Investment("Growth Stock ETFs", "Equity",
         "ETFs focused on companies expected to grow earnings at a faster rate than the market average.", "High", "8-12%"),
       Investment("Mid-Cap and Small-Cap Funds", "Equity",
         "Funds investing in medium and smaller-sized companies with higher growth potential and higher risk.", "High", "8-12%"),
       Investment("International and Emerging Market Funds", "Equity",
         "Funds that invest in foreign markets, including developing economies with high growth potential.", "High", "7-14%"),
       Investment("Sector-Specific ETFs (Technology, Healthcare)", "Equity",
         "ETFs that focus on specific industry sectors with strong growth outlooks.", "High", "9-15%")]

  const VeryHighRiskAllocations: seq<Allocation> :=
    [Allocation("Cash & Equivalents", 5), Allocation("Bonds", 5), Allocation("Stocks", 65),
       Allocation("Real Estate", 10), Allocation("Alternative Investments", 15)]

  const VeryHighRiskInvestments: seq<Investment> :=
    [Investment("Aggressive Growth Stocks", "Equity",
         "Individual stocks of companies with high growth potential but potentially higher volatility.", "Very High", "12-18%"),
       Investment("Leveraged ETFs", "Equity",
         "ETFs that use financial derivatives to amplify the returns of an underlying index.", "Very High",
         "15-25% (with higher risk of losses)"),
       Investment("Emerging Market Small-Cap Funds", "Equity",
         "Funds focusing on smaller companies in developing economies, combining small-cap and emerging market risks and rewards.",
         "Very High", "10-20%"),
       Investment("Private Equity Funds", "Alternative",
         "Investments in privately-held companies not available on public exchanges.", "Very High", "15-25%"),
       Investment("Cryptocurrency ETFs", "Alternative",
         "Regulated ETFs that track the performance of digital currencies like Bitcoin.", "Extremely High",
         "Highly variable (could exceed 25% or result in significant losses)")]
}
