/**
 The assessment flow of the burnout quiz: the component state (stage,
 response store, email, computed results) and the handlers that change it.
 The current question is not a cursor: it is the number of ids present in
 the response store, uncapped.
 */
module Assessment {
  import opened Catalog
  import opened Scoring
  import opened ScoringProps

  datatype Stage = Welcome | Quiz | Results | ThankYou

  // ---------------------------------------------------------------------------
  // The response store when the quiz is driven by its own buttons and sliders

  /** The ids of the first `n` questions. */
  function PrefixIds(n: nat): set<string>
    requires n <= |Questions|
  {
    set i | 0 <= i < n :: Questions[i].id
  }

  /**
   The store holds answers for exactly the first `|r|` questions.  Answering
   the question on screen and pressing Back keep this true.
   */
  predicate AnsweredInOrder(r: Responses)
  {
    |r| <= |Questions| && r.Keys == PrefixIds(|r|)
  }

  /** The id of question `n` is not among the ids of the questions before it. */
  lemma NextIdIsNew(n: nat)
    requires n < |Questions|
    ensures forall i :: 0 <= i < n ==> Questions[i].id != Questions[n].id
    ensures Questions[n].id !in PrefixIds(n)
  {
    CatalogShape();
    forall i | 0 <= i < n
      ensures Questions[i].id != Questions[n].id
    {
      assert Ids()[i] != Ids()[n];
    }
  }

  lemma PrefixIdsStep(n: nat)
    requires n < |Questions|
    ensures PrefixIds(n + 1) == PrefixIds(n) + {Questions[n].id}
  {
    forall x | x in PrefixIds(n + 1)
      ensures x in PrefixIds(n) + {Questions[n].id}
    {
      var i :| 0 <= i < n + 1 && Questions[i].id == x;
      if i < n {
        assert x in PrefixIds(n);
      }
    }
  }

  /** Answering the question on screen adds its id: the index moves on by exactly one. */
  lemma AnswerCurrentKeepsOrder(r: Responses, v: Answer)
    requires AnsweredInOrder(r) && |r| < |Questions|
    ensures Questions[|r|].id !in r
    ensures |r[Questions[|r|].id := v]| == |r| + 1
    ensures AnsweredInOrder(r[Questions[|r|].id := v])
  {
    var n := |r|;
    var r' := r[Questions[n].id := v];
    NextIdIsNew(n);
    assert |r'| == n + 1;
    PrefixIdsStep(n);
    assert r'.Keys == PrefixIds(n + 1);
  }

  /** When answers were given in order, the question before the current one has an answer. */
  lemma PreviousIsAnswered(r: Responses)
    requires AnsweredInOrder(r) && 0 < |r|
    ensures Questions[|r| - 1].id in r
  {
    assert Questions[|r| - 1].id in PrefixIds(|r|);
  }

  /** With every catalog id answered the index is at least the catalog's length. */
  lemma AllAnsweredReachesEnd(r: Responses)
    requires forall i :: 0 <= i < |Questions| ==> Questions[i].id in r
    ensures |r| >= |Questions|
  {
    CatalogShape();
    DistinctCard(Ids());
    var ids := set i | 0 <= i < |Ids()| :: Ids()[i];
    assert ids <= r.Keys;
    SubsetCard(ids, r.Keys);
  }

  lemma {:induction false} SubsetCard(a: set<string>, b: set<string>)
    requires a <= b
    ensures |a| <= |b|
  {
    if a != {} {
      var x :| x in a;
      SubsetCard(a - {x}, b - {x});
    }
  }

  /** When answers were given in order, reaching the end means every question is answered. */
  lemma EndMeansAllAnswered(r: Responses)
    requires AnsweredInOrder(r) && |r| >= |Questions|
    ensures forall i :: 0 <= i < |Questions| ==> Questions[i].id in r
  {
    forall i | 0 <= i < |Questions|
      ensures Questions[i].id in r
    {
      assert Questions[i].id in PrefixIds(|r|);
    }
  }

  // ---------------------------------------------------------------------------
  // The gate on the Next and See My Results buttons

  /** JavaScript truthiness of a stored answer: slider values are non-empty strings. */
  predicate Truthy(a: Answer)
  {
    a.Num? || (a.Label? && a.s != "")
  }

  /**
   Both navigation buttons are enabled when `responses[currentQuestion?.id]`
   is truthy.  Once the index passes the catalog, `currentQuestion?.id` is
   `undefined` and the lookup is of the key "undefined".
   */
  predicate NavEnabledAsWritten(r: Responses)
  {
    Truthy(AnswerOf(r, if |r| < |Questions| then Questions[|r|].id else "undefined"))
  }

  /**
   As written, the gate never opens on a store built by the quiz's own
   controls: the current question's id is the one not yet answered, and past
   the end no catalog id is "undefined".
   */
  lemma NavGateClosedWhenInOrder(r: Responses)
    requires AnsweredInOrder(r)
    ensures !NavEnabledAsWritten(r)
  {
    if |r| < |Questions| {
      NextIdIsNew(|r|);
    } else {
      assert forall i :: 0 <= i < |Questions| ==> Questions[i].id != "undefined";
      assert "undefined" !in PrefixIds(|r|);
    }
  }

  /** The See My Results gate the flow needs: enabled once the index reaches the end. */
  predicate ResultsEnabled(r: Responses)
  {
    |r| >= |Questions|
  }

  /** On an in-order store the corrected gate is open exactly when every question has an answer. */
  lemma ResultsEnabledIffAllAnswered(r: Responses)
    requires AnsweredInOrder(r)
    ensures ResultsEnabled(r) <==> forall i :: 0 <= i < |Questions| ==> Questions[i].id in r
  {
    if ResultsEnabled(r) {
      EndMeansAllAnswered(r);
    }
    if forall i :: 0 <= i < |Questions| ==> Questions[i].id in r {
      AllAnsweredReachesEnd(r);
    }
  }

  // ---------------------------------------------------------------------------
  // The component

  class BurnoutAssessment {
    var stage: Stage
    var responses: Responses
    var email: string
    var results: Option<BurnoutResult>

    /** The initial state: welcome screen, no answers, no email, no results. */
    constructor ()
      ensures stage == Welcome && responses == map[] && email == "" && results == None
    {
      stage := Welcome;
      responses := map[];
      email := "";
      results := None;
    }

    /** The number of ids in the store; not capped at the catalog's length. */
    function CurrentQuestionIndex(): nat
      reads this
    {
      |responses|
    }

    /** `questions[currentQuestionIndex]`, `undefined` once the index passes the catalog. */
    function CurrentQuestion(): (q: Option<Question>)
      reads this
      ensures q.Some? <==> CurrentQuestionIndex() < |Questions|
      ensures q.Some? ==> q.value == Questions[CurrentQuestionIndex()]
    {
      if |responses| < |Questions| then Some(Questions[|responses|]) else None
    }

    /** The Start button. */
    method Start()
      modifies this
      ensures stage == Quiz
      ensures responses == old(responses) && email == old(email) && results == old(results)
    {
      stage := Quiz;
    }

    /**
     Records `value` under `questionId`, with no validation.  Every other entry
     is kept; the index grows by one exactly when the id is new.
     */
    method HandleAnswer(questionId: string, value: Answer)
      modifies this
      ensures responses == old(responses)[questionId := value]
      ensures forall k :: k in old(responses) && k != questionId ==> k in responses && responses[k] == old(responses)[k]
      ensures CurrentQuestionIndex() == old(CurrentQuestionIndex()) + (if questionId in old(responses) then 0 else 1)
      ensures stage == old(stage) && email == old(email) && results == old(results)
    {
      responses := responses[questionId := value];
    }

    /** A slider move or a button press on the question on screen. */
    method AnswerCurrent(value: Answer)
      requires CurrentQuestion().Some?
      modifies this
      ensures responses == old(responses)[Questions[old(CurrentQuestionIndex())].id := value]
      ensures AnsweredInOrder(old(responses)) ==>
                AnsweredInOrder(responses) && CurrentQuestionIndex() == old(CurrentQuestionIndex()) + 1
      ensures stage == old(stage) && email == old(email) && results == old(results)
    {
      if AnsweredInOrder(responses) {
        AnswerCurrentKeepsOrder(responses, value);
      }
      HandleAnswer(CurrentQuestion().value.id, value);
    }

    /**
     The Back button: writes the previous question's answer back onto itself.
     When that question has an answer the store does not change; when it has
     none, its id is added with `undefined`, which moves the index forward.
     */
    method Back()
      requires 0 < CurrentQuestionIndex() <= |Questions|
      modifies this
      ensures var prev := Questions[old(CurrentQuestionIndex()) - 1].id;
        && (prev in old(responses) ==> responses == old(responses))
        && (prev !in old(responses) ==>
              (responses == old(responses)[prev := Undefined]
               && CurrentQuestionIndex() == old(CurrentQuestionIndex()) + 1))
      ensures AnsweredInOrder(old(responses)) ==> responses == old(responses)
      ensures stage == old(stage) && email == old(email) && results == old(results)
    {
      if AnsweredInOrder(responses) {
        PreviousIsAnswered(responses);
      }
      var prevId := Questions[|responses| - 1].id;
      responses := responses[prevId := AnswerOf(responses, prevId)];
    }

    /** The Next button: nothing while questions remain, else computes the results. */
    method HandleNext()
      modifies this
      ensures old(CurrentQuestionIndex()) < |Questions| ==> stage == old(stage) && results == old(results)
      ensures old(CurrentQuestionIndex()) >= |Questions| ==>
                stage == Results && results == Some(CalculateBurnout(responses))
      ensures responses == old(responses) && email == old(email)
    {
      var currentIndex := |responses|;
      if currentIndex < |Questions| {
        // Keep going
      } else {
        var calculated := CalculateBurnout(responses);
        results := Some(calculated);
        stage := Results;
      }
    }

    /**
     The See My Results button: refuses (an alert, no state change) while
     fewer ids than questions are stored, else computes the results.
     */
    method HandleGetResults()
      modifies this
      ensures old(CurrentQuestionIndex()) < |Questions| ==> stage == old(stage) && results == old(results)
      ensures old(CurrentQuestionIndex()) >= |Questions| ==>
                stage == Results && results == Some(CalculateBurnout(responses))
      ensures responses == old(responses) && email == old(email)
    {
      if |responses| < |Questions| {
        return;
      }
      var calculated := CalculateBurnout(responses);
      results := Some(calculated);
      stage := Results;
    }

    /** The email input. */
    method SetEmail(value: string)
      modifies this
      ensures email == value
      ensures stage == old(stage) && responses == old(responses) && results == old(results)
    {
      email := value;
    }

    /**
     The email submit button: refuses (an alert, no state change) an empty
     email, else moves to the thank-you stage keeping the results.
     */
    method HandleEmailCapture()
      modifies this
      ensures old(email) == "" ==> stage == old(stage)
      ensures old(email) != "" ==> stage == ThankYou
      ensures responses == old(responses) && email == old(email) && results == old(results)
    {
      if email == "" {
        return;
      }
      stage := ThankYou;
    }
  }

  /** A store holding answer `i` for question `i`, for every question. */
  predicate HoldsAnswers(r: Responses, answers: seq<Answer>, k: nat)
    requires k <= |answers| && k <= |Questions|
  {
    forall i :: 0 <= i < k ==> Questions[i].id in r && r[Questions[i].id] == answers[i]
  }

  /** Answering question `k` extends the answers held to the first `k + 1`. */
  lemma HoldsAnswersStep(r: Responses, answers: seq<Answer>, k: nat)
    requires k < |answers| && k < |Questions|
    requires HoldsAnswers(r, answers, k)
    ensures HoldsAnswers(r[Questions[k].id := answers[k]], answers, k + 1)
  {
    NextIdIsNew(k);
  }

  /** Valid answers, one per question, make a well-formed store with those values. */
  lemma HoldsValidAnswers(r: Responses, answers: seq<Answer>)
    requires |answers| == |Questions|
    requires forall i :: 0 <= i < |Questions| ==> ValidAnswer(Questions[i], answers[i])
    requires HoldsAnswers(r, answers, |Questions|)
    ensures WellFormed(r)
    ensures Normalise(r).dailyHours == SliderValue(answers[0])
    ensures Normalise(r).revenueStreams == SliderValue(answers[7])
  {
    assert Questions[0].id == "daily_hours" && Questions[7].id == "revenue_streams";
  }

  /**
   One session, with the handlers called directly: Start, one valid answer
   per question in catalog order, then the See My Results handler.  As
   written the button for that handler is disabled at this point
   (`enabledAsWritten` is false); under the corrected gate it is enabled.
   The results are those of the answers given, and the score lies in [18, 100].
   */
  method RunAssessment(answers: seq<Answer>) returns (stage: Stage, res: BurnoutResult, enabledAsWritten: bool)
    requires |answers| == |Questions|
    requires forall i :: 0 <= i < |Questions| ==> ValidAnswer(Questions[i], answers[i])
    ensures !enabledAsWritten
    ensures stage == Results
    ensures 18 <= res.score <= 100
    ensures res.stats.dailyHours == SliderValue(answers[0])
    ensures res.stats.revenueStreams == SliderValue(answers[7])
  {
    var a := new BurnoutAssessment();
    a.Start();
    var k := 0;
    while k < |Questions|
      invariant 0 <= k <= |Questions|
      invariant a.stage == Quiz
      invariant |a.responses| == k && AnsweredInOrder(a.responses)
      invariant HoldsAnswers(a.responses, answers, k)
    {
      HoldsAnswersStep(a.responses, answers, k);
      a.AnswerCurrent(answers[k]);
      k := k + 1;
    }
    HoldsValidAnswers(a.responses, answers);
    NavGateClosedWhenInOrder(a.responses);
    enabledAsWritten := NavEnabledAsWritten(a.responses);
    if ResultsEnabled(a.responses) {
      a.HandleGetResults();
    }
    ScoreBoundsWhenWellFormed(a.responses);
    stage, res := a.stage, a.results.value;
  }
}
