/** The quiz session held by `QuizProvider`: one record of state that `start`,
    `select`, `next`, `prev`, `submit` and `reset` overwrite. The two calls to
    the quiz API are replaced by their outcomes, which the caller supplies. */
module QuizContext {
  import opened Common

  datatype QuizOption = QuizOption(key: string, text: string)

  /** A question as the API sends it; `id` is the document's `_id`. */
  datatype Question = Question(id: string, category: string, text: string, options: seq<QuizOption>)

  datatype FeedbackItem = FeedbackItem(
    questionId: string,
    category: string,
    text: string,
    options: seq<QuizOption>,
    selectedKey: string,
    correctKey: string,
    explanation: Option<string>,
    isCorrect: bool)

  /** The graded attempt returned by the submit call. */
  datatype GradeResult = GradeResult(score: int, total: int, feedback: seq<FeedbackItem>)

  /** One entry of the answers record, and one element of the submitted answer list. */
  datatype Answer = Answer(questionId: string, selectedKey: string)

  /** What the start call returns. */
  datatype StartPayload = StartPayload(attemptId: string, questions: seq<Question>)

  /** The body of the submit call. */
  datatype SubmitRequest = SubmitRequest(attemptId: string, answers: seq<Answer>)

  // ---------------------------------------------------------------------------
  // The answers record: question id -> selected key, in insertion order
  // ---------------------------------------------------------------------------

  /** The question ids that have an answer. */
  function Keys(a: seq<Answer>): set<string>
  {
    if |a| == 0 then {} else {a[0].questionId} + Keys(a[1..])
  }

  /** A record has each key at most once. */
  predicate Distinct(a: seq<Answer>)
  {
    |a| == 0 || (a[0].questionId !in Keys(a[1..]) && Distinct(a[1..]))
  }

  /** `answers[q]`, or None when `q` has no answer. */
  function Lookup(a: seq<Answer>, q: string): (r: Option<string>)
    ensures r.None? <==> q !in Keys(a)
  {
    if |a| == 0 then None
    else if a[0].questionId == q then Some(a[0].selectedKey)
    else Lookup(a[1..], q)
  }

  /** `{ ...answers, [q]: k }`: an existing key keeps its place and takes the new
      value; a new key is added at the end. */
  function Put(a: seq<Answer>, q: string, k: string): (r: seq<Answer>)
    ensures Keys(r) == Keys(a) + {q}
    ensures |r| == if q in Keys(a) then |a| else |a| + 1
  {
    if |a| == 0 then [Answer(q, k)]
    else if a[0].questionId == q then [Answer(q, k)] + a[1..]
    else [a[0]] + Put(a[1..], q, k)
  }

  lemma KeysCons(x: Answer, a: seq<Answer>)
    ensures Keys([x] + a) == {x.questionId} + Keys(a)
  {
    assert ([x] + a)[1..] == a;
  }

  /** After `answers[q] = k`, `q` maps to `k` and every other key keeps its answer. */
  lemma {:induction false} PutLookup(a: seq<Answer>, q: string, k: string, q': string)
    ensures Lookup(Put(a, q, k), q') == if q' == q then Some(k) else Lookup(a, q')
  {
    if |a| > 0 && a[0].questionId != q {
      PutLookup(a[1..], q, k, q');
      assert ([a[0]] + Put(a[1..], q, k))[1..] == Put(a[1..], q, k);
    } else if |a| > 0 {
      assert ([Answer(q, k)] + a[1..])[1..] == a[1..];
    }
  }

  /** The record never gets a duplicate key. */
  lemma {:induction false} PutKeepsDistinct(a: seq<Answer>, q: string, k: string)
    requires Distinct(a)
    ensures Distinct(Put(a, q, k))
  {
    if |a| == 0 {
    } else if a[0].questionId == q {
      assert ([Answer(q, k)] + a[1..])[1..] == a[1..];
    } else {
      PutKeepsDistinct(a[1..], q, k);
      assert ([a[0]] + Put(a[1..], q, k))[1..] == Put(a[1..], q, k);
    }
  }

  /** Selecting the same key twice is the same as selecting it once. */
  lemma {:induction false} PutIdempotent(a: seq<Answer>, q: string, k: string)
    ensures Put(Put(a, q, k), q, k) == Put(a, q, k)
  {
    if |a| == 0 {
      assert Put([Answer(q, k)], q, k) == [Answer(q, k)] + [Answer(q, k)][1..];
    } else if a[0].questionId == q {
      var r := [Answer(q, k)] + a[1..];
      assert r[0] == Answer(q, k) && r[1..] == a[1..];
    } else {
      var r := [a[0]] + Put(a[1..], q, k);
      assert r[0] == a[0] && r[1..] == Put(a[1..], q, k);
      PutIdempotent(a[1..], q, k);
    }
  }

  /** Every other entry keeps its place, and a new key goes to the end. */
  lemma {:induction false} PutKeepsOrder(a: seq<Answer>, q: string, k: string)
    ensures forall i :: 0 <= i < |a| && a[i].questionId != q ==> Put(a, q, k)[i] == a[i]
    ensures q !in Keys(a) ==> Put(a, q, k) == a + [Answer(q, k)]
  {
    if |a| > 0 && a[0].questionId != q {
      PutKeepsOrder(a[1..], q, k);
      var r := [a[0]] + Put(a[1..], q, k);
      assert forall i :: 1 <= i < |a| ==> r[i] == Put(a[1..], q, k)[i - 1];
      if q !in Keys(a) {
        assert a == [a[0]] + a[1..];
      }
    }
  }

  /** The answer list sent on submit, `Object.entries(answers)`, holds exactly the
      pairs of the record: `{questionId: q, selectedKey: k}` is in it exactly when
      `answers[q] == k`, and there is one entry per answered question. */
  lemma {:induction false} EntriesMatchRecord(a: seq<Answer>, q: string, k: string)
    requires Distinct(a)
    ensures Answer(q, k) in a <==> Lookup(a, q) == Some(k)
    ensures |a| == |Keys(a)|
  {
    if |a| > 0 {
      EntriesMatchRecord(a[1..], q, k);
      assert a == [a[0]] + a[1..];
      KeysCons(a[0], a[1..]);
    }
  }

  // ---------------------------------------------------------------------------
  // The session record and its transitions
  // ---------------------------------------------------------------------------

  datatype QuizState = QuizState(
    loading: bool,
    attemptId: Option<string>,
    questions: seq<Question>,
    currentIndex: int,
    answers: seq<Answer>,
    result: Option<GradeResult>)

  /** The state before any quiz and after `reset`. */
  function EmptyState(): (s: QuizState)
    ensures !s.loading && s.attemptId.None? && s.result.None?
    ensures s.questions == [] && s.answers == [] && s.currentIndex == 0
  {
    QuizState(false, None, [], 0, [], None)
  }

  /** The state after a successful start: the new attempt at its first question
      with no answers and no result. */
  function Started(p: StartPayload): (s: QuizState)
    ensures !s.loading && s.attemptId == Some(p.attemptId) && s.questions == p.questions
    ensures s.currentIndex == 0 && s.answers == [] && s.result.None?
  {
    QuizState(false, Some(p.attemptId), p.questions, 0, [], None)
  }

  /** The state a call leaves when the API rejects it: only `loading` is cleared. */
  function Settled(s: QuizState): (r: QuizState)
    ensures !r.loading
    ensures r.(loading := s.loading) == s
  {
    s.(loading := false)
  }

  /** `start`: on success the whole record is replaced; on failure it is settled. */
  function AfterStart(s: QuizState, response: ApiResult<StartPayload>): (r: QuizState)
    ensures !r.loading
    ensures response.Ok? ==> r.attemptId == Some(response.value.attemptId) && r.questions == response.value.questions
    ensures response.Ok? ==> r.currentIndex == 0 && r.answers == [] && r.result.None?
    ensures response.Failed? ==> r.(loading := s.loading) == s
  {
    match response
    case Ok(p) => Started(p)
    case Failed(_) => Settled(s)
  }

  /** `select(q, k)`: the answer for `q` becomes `k`; nothing else changes. */
  function Selected(s: QuizState, q: string, k: string): (r: QuizState)
    ensures r.(answers := s.answers) == s
    ensures Lookup(r.answers, q) == Some(k)
    ensures forall q' :: q' != q ==> Lookup(r.answers, q') == Lookup(s.answers, q')
  {
    forall q' ensures Lookup(Put(s.answers, q, k), q') == if q' == q then Some(k) else Lookup(s.answers, q') {
      PutLookup(s.answers, q, k, q');
    }
    s.(answers := Put(s.answers, q, k))
  }

  /** `next`: one question forward, but never past the last one. */
  function Advanced(s: QuizState): (r: QuizState)
    ensures r.(currentIndex := s.currentIndex) == s
    ensures r.currentIndex <= s.currentIndex + 1 && r.currentIndex <= |s.questions| - 1
    ensures r.currentIndex == s.currentIndex + 1 || r.currentIndex == |s.questions| - 1
  {
    s.(currentIndex := Min(s.currentIndex + 1, |s.questions| - 1))
  }

  /** `prev`: one question back, but never before the first one. */
  function Retreated(s: QuizState): (r: QuizState)
    ensures r.(currentIndex := s.currentIndex) == s
    ensures r.currentIndex >= s.currentIndex - 1 && r.currentIndex >= 0
    ensures r.currentIndex == s.currentIndex - 1 || r.currentIndex == 0
  {
    s.(currentIndex := Max(s.currentIndex - 1, 0))
  }

  /** `!state.attemptId` is false: there is an attempt and its id is not empty. */
  predicate HasAttempt(s: QuizState)
  {
    s.attemptId.Some? && s.attemptId.value != ""
  }

  /** The request `submit` sends, if it sends one. */
  function SubmitPayload(s: QuizState): (req: Option<SubmitRequest>)
    ensures req.Some? <==> HasAttempt(s)
    ensures req.Some? ==> req.value.attemptId == s.attemptId.value
  {
    if HasAttempt(s) then Some(SubmitRequest(s.attemptId.value, s.answers)) else None
  }

  /** `submit`: without an attempt nothing happens; otherwise a successful call
      records the result and a failed one only settles the state. */
  function AfterSubmit(s: QuizState, response: ApiResult<GradeResult>): (r: QuizState)
    ensures !HasAttempt(s) ==> r == s
    ensures HasAttempt(s) ==> !r.loading
    ensures HasAttempt(s) && response.Ok? ==> r.result == Some(response.value)
    ensures r.(loading := s.loading, result := s.result) == s
    ensures response.Failed? ==> r.result == s.result
  {
    if !HasAttempt(s) then s
    else match response
      case Ok(g) => s.(loading := false, result := Some(g))
      case Failed(_) => Settled(s)
  }

  // ---------------------------------------------------------------------------
  // Properties of the transitions
  // ---------------------------------------------------------------------------

  /** `next` keeps the index inside the question list when it was inside it, does
      nothing at the last question, and gives -1 when there are no questions. */
  lemma NextClamped(s: QuizState)
    ensures 0 <= s.currentIndex < |s.questions| ==> 0 <= Advanced(s).currentIndex < |s.questions|
    ensures |s.questions| > 0 && s.currentIndex == |s.questions| - 1 ==> Advanced(s) == s
    ensures |s.questions| == 0 && s.currentIndex >= 0 ==> Advanced(s).currentIndex == -1
    ensures s.currentIndex < |s.questions| - 1 ==> Advanced(s).currentIndex == s.currentIndex + 1
  {
  }

  /** `prev` never makes the index negative, does nothing at the first question,
      and undoes `next` away from the ends. */
  lemma PrevClamped(s: QuizState)
    ensures Retreated(s).currentIndex >= 0
    ensures s.currentIndex == 0 ==> Retreated(s) == s
    ensures 0 <= s.currentIndex < |s.questions| - 1 ==> Retreated(Advanced(s)) == s
  {
  }

  /** Selecting the same key twice gives the same state as selecting it once. */
  lemma SelectIdempotent(s: QuizState, q: string, k: string)
    ensures Selected(Selected(s, q, k), q, k) == Selected(s, q, k)
  {
    PutIdempotent(s.answers, q, k);
  }

  /** The submitted list has exactly one `{questionId, selectedKey}` per entry of
      the answers record. */
  lemma SubmittedAnswersMatchRecord(s: QuizState, q: string, k: string)
    requires Distinct(s.answers) && HasAttempt(s)
    ensures var req := SubmitPayload(s).value;
      && |req.answers| == |Keys(s.answers)|
      && (Answer(q, k) in req.answers <==> Lookup(s.answers, q) == Some(k))
  {
    EntriesMatchRecord(s.answers, q, k);
  }

  /** A failed start or submit leaves everything but `loading` as it was. */
  lemma FailureOnlySettles(s: QuizState, e: ApiError)
    ensures AfterStart(s, Failed(e)) == s.(loading := false)
    ensures AfterSubmit(s, Failed(e)) == if HasAttempt(s) then s.(loading := false) else s
  {
  }

  // ---------------------------------------------------------------------------
  // The provider
  // ---------------------------------------------------------------------------

  /** `QuizProvider`'s state cell, with the six operations it hands out. */
  class QuizProvider {
    var loading: bool
    var attemptId: Option<string>
    var questions: seq<Question>
    var currentIndex: int
    var answers: seq<Answer>
    var result: Option<GradeResult>

    function State(): QuizState
      reads this
    {
      QuizState(loading, attemptId, questions, currentIndex, answers, result)
    }

    /** The answers record never holds a key twice. */
    ghost predicate Valid()
      reads this
    {
      Distinct(answers)
    }

    constructor()
      ensures State() == EmptyState() && Valid()
    {
      loading, attemptId, questions, currentIndex, answers, result := false, None, [], 0, [], None;
    }

    /** `start`: `loading` is set while the call is pending; the call's outcome is
        `response`, and a failure is raised again as `raised`. */
    method Start(response: ApiResult<StartPayload>) returns (raised: Option<ApiError>)
      requires Valid()
      modifies this
      ensures Valid()
      ensures State() == AfterStart(old(State()), response)
      ensures raised == if response.Failed? then Some(response.error) else None
    {
      loading := true;
      match response {
        case Ok(p) =>
          loading, attemptId, questions, currentIndex, answers, result := false, Some(p.attemptId), p.questions, 0, [], None;
          raised := None;
        case Failed(e) =>
          loading := false;
          raised := Some(e);
      }
    }

    method Select(q: string, k: string)
      requires Valid()
      modifies this
      ensures Valid()
      ensures State() == Selected(old(State()), q, k)
    {
      PutKeepsDistinct(answers, q, k);
      answers := Put(answers, q, k);
    }

    method Next()
      requires Valid()
      modifies this
      ensures Valid()
      ensures State() == Advanced(old(State()))
    {
      currentIndex := Min(currentIndex + 1, |questions| - 1);
    }

    method Prev()
      requires Valid()
      modifies this
      ensures Valid()
      ensures State() == Retreated(old(State()))
    {
      currentIndex := Max(currentIndex - 1, 0);
    }

    /** `submit`: nothing happens without an attempt; otherwise the answers are
        sent as `request`, `response` is the call's outcome, and a failure is
        raised again as `raised`. */
    method Submit(response: ApiResult<GradeResult>) returns (request: Option<SubmitRequest>, raised: Option<ApiError>)
      requires Valid()
      modifies this
      ensures Valid()
      ensures request == SubmitPayload(old(State()))
      ensures State() == AfterSubmit(old(State()), response)
      ensures raised == if request.Some? && response.Failed? then Some(response.error) else None
    {
      if attemptId.None? || attemptId.value == "" {
        return None, None;
      }
      loading := true;
      request := Some(SubmitRequest(attemptId.value, answers));
      match response {
        case Ok(g) =>
          loading, result := false, Some(g);
          raised := None;
        case Failed(e) =>
          loading := false;
          raised := Some(e);
      }
    }

    method Reset()
      modifies this
      ensures State() == EmptyState() && Valid()
    {
      loading, attemptId, questions, currentIndex, answers, result := false, None, [], 0, [], None;
    }
  }

  /** A whole session: two questions, an answer to each (the first one changed
      once), and a submit that sends both answers in the order they were first given. */
  method TwoQuestionSession(g: GradeResult) returns (request: Option<SubmitRequest>, index: int, graded: Option<GradeResult>)
    ensures request == Some(SubmitRequest("att-1", [Answer("q1", "C"), Answer("q2", "A")]))
    ensures index == 1
    ensures graded == Some(g)
  {
    var quiz := new QuizProvider();
    var q1 := Question("q1", "Hair", "First?", [QuizOption("A", "yes"), QuizOption("B", "no")]);
    var q2 := Question("q2", "Hair", "Second?", [QuizOption("A", "yes"), QuizOption("B", "no")]);
    var raised := quiz.Start(Ok(StartPayload("att-1", [q1, q2])));
    quiz.Select("q1", "B");
    assert quiz.answers == [Answer("q1", "B")];
    quiz.Next();
    quiz.Select("q2", "A");
    assert quiz.answers == [Answer("q1", "B")] + Put([], "q2", "A");
    quiz.Next();
    quiz.Select("q1", "C");
    assert quiz.answers == [Answer("q1", "C"), Answer("q2", "A")];
    assert HasAttempt(quiz.State()) && quiz.attemptId.value == "att-1";
    request, raised := quiz.Submit(Ok(g));
    index := quiz.currentIndex;
    graded := quiz.result;
  }
}
