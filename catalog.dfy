/**
 The question catalog of the burnout assessment and the answers a user can
 give to it.  The catalog is constant data: eight questions in a fixed order,
 each identified by a unique id.  A question is either a slider over an
 integer range or a set of buttons with fixed labels.
 */
module Catalog {

  datatype Option<+T> = None | Some(value: T)

  /** One question of the catalog. */
  datatype Question =
    | Range(id: string, prompt: string, min: int, max: int, labels: seq<string>)
    | Buttons(id: string, prompt: string, options: seq<string>)

  /**
   What the response store can hold for a question id.  A slider answer is
   kept as the integer it denotes, a button answer as its label.  `Undefined`
   is the JavaScript value `undefined`, which the Back handler writes when the
   previous question has no answer yet.
   */
  datatype Answer = Num(n: int) | Label(s: string) | Undefined

  /** The response store: question id to answer. */
  type Responses = map<string, Answer>

  const Questions: seq<Question> := [
    Range("daily_hours", "How many hours per day do you spend on content creation/management?",
          1, 12, ["1h", "3h", "6h", "9h", "12h+"]),
    Buttons("platform_count", "How many platforms do you actively manage?",
            ["1-2", "3-4", "5-6", "7+"]),
    Range("manual_tasks", "What % of your time is spent on repetitive/manual tasks?",
          10, 90, ["10%", "30%", "50%", "70%", "90%+"]),
    Range("income_stress", "How would you rate income instability stress? (1=None, 10=Severe)",
          1, 10, ["Stable", "3", "5", "7", "Very Bad"]),
    Buttons("content_pace", "How often do you feel pressured to post?",
            ["Not at all", "Sometimes", "Often", "Constantly"]),
    Buttons("boundary_setting", "Do you have clear boundaries for work hours?",
            ["Yes, strict", "Somewhat", "Rarely", "Never"]),
    Buttons("repurposing_usage", "How much do you repurpose content across platforms?",
            ["Fully optimized", "Some repurposing", "Minimal", "Never"]),
    Range("revenue_streams", "How many revenue streams do you have? (Sponsorships, products, services, etc.)",
          0, 5, ["None", "1", "2", "3", "4+"])
  ]

  /** The ids of the catalog, in catalog order. */
  function Ids(): (ids: seq<string>)
    ensures |ids| == |Questions|
    ensures forall i :: 0 <= i < |Questions| ==> ids[i] == Questions[i].id
  {
    seq(|Questions|, i requires 0 <= i < |Questions| => Questions[i].id)
  }

  predicate Distinct(s: seq<string>)
  {
    forall i, j :: 0 <= i < j < |s| ==> s[i] != s[j]
  }

  /** Eight questions with distinct ids; every slider has a non-empty range and every button question four distinct labels. */
  lemma CatalogShape()
    ensures |Questions| == 8
    ensures Distinct(Ids())
    ensures forall q :: q in Questions && q.Range? ==> q.min < q.max
    ensures forall q :: q in Questions && q.Buttons? ==> |q.options| == 4 && Distinct(q.options)
  {
    var ids := Ids();
    assert ids == ["daily_hours", "platform_count", "manual_tasks", "income_stress",
                   "content_pace", "boundary_setting", "repurposing_usage", "revenue_streams"];
  }

  /** The set of ids of a distinct sequence has as many elements as the sequence. */
  lemma {:induction false} DistinctCard(s: seq<string>)
    requires Distinct(s)
    ensures |set i | 0 <= i < |s| :: s[i]| == |s|
  {
    if s != [] {
      var last := |s| - 1;
      var init := s[..last];
      assert Distinct(init);
      DistinctCard(init);
      var all := set i | 0 <= i < |s| :: s[i];
      var front := set i | 0 <= i < |init| :: init[i];
      assert all == front + {s[last]};
      assert s[last] !in front;
    }
  }

  /** An answer the UI could have produced for question `q`. */
  predicate ValidAnswer(q: Question, a: Answer)
  {
    match q
    case Range(_, _, lo, hi, _) => a.Num? && lo <= a.n <= hi
    case Buttons(_, _, opts) => a.Label? && a.s in opts
  }

  /** Every question of the catalog has a valid answer in `r`. */
  predicate WellFormed(r: Responses)
  {
    forall i :: 0 <= i < |Questions| ==> Questions[i].id in r && ValidAnswer(Questions[i], r[Questions[i].id])
  }

  /** What `responses[id]` evaluates to: `undefined` for an absent id. */
  function AnswerOf(r: Responses, id: string): Answer
  {
    if id in r then r[id] else Undefined
  }
}
