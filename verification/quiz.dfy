/** Taking a test (src/screens/TestScreen.tsx): loading the questions and their
    answers, choosing answers, moving through the questions, and submitting
    and saving the result before handing over to the results screen. */
module Quiz {
  import opened Wrappers
  import opened Text
  import opened Json
  import ApiConfig
  import G = Gateway
  import Results

  const MissingTestId: string := "Chýba ID testu"
  const QuestionsRejected: string := "Nepodarilo sa načítať otázky"
  /** Written with the stray ` |` the screen shows. */
  const NoQuestions: string := "Test neobsahuje žiadne ot |ázky"
  const LoadFailed: string := "Nepodarilo sa načítať test"
  const SubmitRejected: string := "Nepodarilo sa odoslať test"
  const SubmitFailed: string := "Chyba pri odosielaní testu"

  datatype Answer = Answer(id: string, answerText: string)
  datatype QuestionRow = QuestionRow(id: string, question: string)
  datatype Question = Question(id: string, question: string, answers: seq<Answer>)

  // ---------------------------------------------------------------------------
  // The selection: `Record<string, string>` from question id to answer id
  // ---------------------------------------------------------------------------

  /** The chosen answers in the order their questions were first answered,
      which is the order `Object.entries` lists them. */
  type Selection = seq<(string, string)>

  predicate Has(s: Selection, key: string) {
    exists i :: 0 <= i < |s| && s[i].0 == key
  }

  predicate UniqueKeys(s: Selection) {
    forall i, j :: 0 <= i < j < |s| ==> s[i].0 != s[j].0
  }

  /** `selection[key]`. */
  function Get(s: Selection, key: string): (r: Option<string>)
    ensures r.Some? <==> Has(s, key)
    ensures r.Some? ==> exists i :: 0 <= i < |s| && s[i] == (key, r.value)
  {
    if s == [] then None
    else if s[0].0 == key then Some(s[0].1)
    else
      assert forall i :: 1 <= i < |s| ==> s[i] == s[1..][i - 1];
      Get(s[1..], key)
  }

  /** `{...s, [key]: value}`: an existing key keeps its place and takes the new
      value; a new key goes last. */
  function Put(s: Selection, key: string, value: string): (r: Selection)
    ensures |r| == if Has(s, key) then |s| else |s| + 1
    ensures forall i :: 0 <= i < |s| ==> r[i].0 == s[i].0
    ensures !Has(s, key) ==> r == s + [(key, value)]
  {
    if s == [] then [(key, value)]
    else if s[0].0 == key then [(key, value)] + s[1..]
    else
      assert forall i :: 1 <= i < |s| ==> s[i] == s[1..][i - 1];
      [s[0]] + Put(s[1..], key, value)
  }

  /** Reading after writing: the written key has the new value and every other
      key keeps its old one. */
  lemma {:induction false} GetPut(s: Selection, key: string, value: string, k: string)
    ensures Get(Put(s, key, value), k) == if k == key then Some(value) else Get(s, k)
  {
    if s != [] && s[0].0 != key {
      GetPut(s[1..], key, value, k);
      var r := Put(s, key, value);
      assert r[1..] == Put(s[1..], key, value);
    }
  }

  /** Writing never duplicates a key. */
  lemma PutKeepsUnique(s: Selection, key: string, value: string)
    requires UniqueKeys(s)
    ensures UniqueKeys(Put(s, key, value))
  {
    var r := Put(s, key, value);
    forall i, j | 0 <= i < j < |r|
      ensures r[i].0 != r[j].0
    {
      if j < |s| {
        assert r[i].0 == s[i].0 && r[j].0 == s[j].0;
      } else {
        assert !Has(s, key) && r == s + [(key, value)];
        assert r[j].0 == key && r[i] == s[i];
      }
    }
  }

  /** Later choices for a question replace earlier ones. */
  lemma {:induction false} PutOverwrites(s: Selection, key: string, a: string, b: string)
    ensures Put(Put(s, key, a), key, b) == Put(s, key, b)
  {
    if s != [] && s[0].0 != key {
      PutOverwrites(s[1..], key, a, b);
      assert Put(s, key, a)[1..] == Put(s[1..], key, a);
    }
  }

  // ---------------------------------------------------------------------------
  // Answering
  // ---------------------------------------------------------------------------

  datatype Quiz = Quiz(questions: seq<Question>, index: nat, selected: Selection)

  /** The screen right after the questions arrived. */
  function Start(questions: seq<Question>): (q: Quiz)
    ensures q.index == 0 && q.selected == []
  {
    Quiz(questions, 0, [])
  }

  /** `handleSelectAnswer(answerId)`: records the choice for the current
      question; with no current question nothing happens. */
  function SelectAnswer(q: Quiz, answerId: string): (q': Quiz)
    ensures q'.questions == q.questions && q'.index == q.index
    ensures q.index >= |q.questions| ==> q' == q
    ensures q.index < |q.questions| ==>
      && Get(q'.selected, q.questions[q.index].id) == Some(answerId)
      && forall k :: k != q.questions[q.index].id ==> Get(q'.selected, k) == Get(q.selected, k)
  {
    if q.index >= |q.questions| then q
    else
      var key := q.questions[q.index].id;
      forall k ensures Get(Put(q.selected, key, answerId), k) == if k == key then Some(answerId) else Get(q.selected, k) {
        GetPut(q.selected, key, answerId, k);
      }
      q.(selected := Put(q.selected, key, answerId))
  }

  /** The next button is enabled when the current question has a non-empty
      answer id chosen. */
  predicate CanAdvance(q: Quiz) {
    q.index < |q.questions| && Truthy(Get(q.selected, q.questions[q.index].id))
  }

  datatype Press = Disabled | Advanced | SubmitNow

  /** Pressing the next button: nothing while disabled, then `handleNext()`:
      the following question, or the submission on the last one. */
  function PressNext(q: Quiz): (r: (Quiz, Press))
    ensures r.1 == Disabled <==> !CanAdvance(q)
    ensures r.1 == Advanced <==> CanAdvance(q) && q.index + 1 < |q.questions|
    ensures r.1 == SubmitNow <==> CanAdvance(q) && q.index + 1 == |q.questions|
    ensures r.0 == if r.1 == Advanced then q.(index := q.index + 1) else q
  {
    if !CanAdvance(q) then (q, Disabled)
    else if q.index < |q.questions| - 1 then (q.(index := q.index + 1), Advanced)
    else (q, SubmitNow)
  }

  /** Every question before the current one has an entry in the selection, and
      the current one is a real question. */
  predicate Answered(q: Quiz) {
    && (q.questions != [] ==> q.index < |q.questions|)
    && forall j :: 0 <= j < q.index && j < |q.questions| ==> Has(q.selected, q.questions[j].id)
  }

  lemma StartAnswered(questions: seq<Question>)
    ensures Answered(Start(questions))
  {
  }

  lemma SelectKeepsAnswered(q: Quiz, answerId: string)
    requires Answered(q)
    ensures Answered(SelectAnswer(q, answerId))
  {
    var q' := SelectAnswer(q, answerId);
    if q.index < |q.questions| {
      forall j | 0 <= j < q.index && j < |q.questions|
        ensures Has(q'.selected, q.questions[j].id)
      {
        var k := q.questions[j].id;
        if k != q.questions[q.index].id {
          assert Get(q'.selected, k) == Get(q.selected, k);
        }
      }
    }
  }

  lemma PressKeepsAnswered(q: Quiz)
    requires Answered(q)
    ensures Answered(PressNext(q).0)
  {
  }

  /** The test is only ever submitted with an answer for every question. */
  lemma SubmitCoversAllQuestions(q: Quiz)
    requires Answered(q)
    requires PressNext(q).1 == SubmitNow
    ensures forall j :: 0 <= j < |q.questions| ==> Has(q.selected, q.questions[j].id)
  {
    forall j | 0 <= j < |q.questions|
      ensures Has(q.selected, q.questions[j].id)
    {
      if j == q.index {
        assert Get(q.selected, q.questions[j].id).Some?;
      }
    }
  }

  // ---------------------------------------------------------------------------
  // Loading
  // ---------------------------------------------------------------------------

  datatype QuestionsReply = QuestionsThrew | QuestionsBody(success: bool, data: Option<seq<QuestionRow>>)
  datatype AnswersReply = AnswersThrew | AnswersBody(success: bool, data: Option<seq<Answer>>)
  datatype Load = Loaded(questions: seq<Question>) | LoadError(message: string)

  function QuestionsRequest(testId: string): G.Request {
    G.PostRequest(ApiConfig.Url(ApiConfig.TestsGetQuestions), JObj([("id", JStr(testId))]), G.NoOptions)
  }

  function AnswersRequest(questionId: string): G.Request {
    G.PostRequest(ApiConfig.Url(ApiConfig.TestsGetAnswers), JObj([("id", JStr(questionId))]), G.NoOptions)
  }

  /** The answers a question is shown with: the data of a successful reply,
      and none otherwise. */
  function AnswerList(reply: AnswersReply): seq<Answer>
    requires reply.AnswersBody?
  {
    if reply.success && reply.data.Some? then reply.data.value else []
  }

  /** The position of the first row whose answers request throws, or `|rows|`. */
  function ThrowsAt(rows: seq<QuestionRow>, answers: string -> AnswersReply): (k: nat)
    ensures k <= |rows|
    ensures forall j :: 0 <= j < k ==> answers(rows[j].id).AnswersBody?
    ensures k < |rows| ==> answers(rows[k].id).AnswersThrew?
  {
    if rows == [] then 0
    else if answers(rows[0].id).AnswersThrew? then 0
    else 1 + ThrowsAt(rows[1..], answers)
  }

  /** The per-question loop: one answers request per row, in order; the first
      reply that throws ends the load. Otherwise each question takes the
      answers its own request returned. */
  function FetchAnswers(rows: seq<QuestionRow>, answers: string -> AnswersReply): (r: (seq<G.Request>, Option<seq<Question>>))
    ensures 1 <= |r.0| <= |rows| || (rows == [] && r.0 == [])
    ensures forall i :: 0 <= i < |r.0| ==> r.0[i] == AnswersRequest(rows[i].id)
    ensures r.1.None? <==> exists i :: 0 <= i < |rows| && answers(rows[i].id).AnswersThrew?
    ensures r.1.None? ==> answers(rows[|r.0| - 1].id).AnswersThrew?
    ensures r.1.Some? ==>
      && |r.0| == |rows| && |r.1.value| == |rows|
      && forall i :: 0 <= i < |rows| ==>
           r.1.value[i] == Question(rows[i].id, rows[i].question, AnswerList(answers(rows[i].id)))
  {
    var k := ThrowsAt(rows, answers);
    var n := if k < |rows| then k + 1 else |rows|;
    var sent := seq(n, i requires 0 <= i < n => AnswersRequest(rows[i].id));
    if k < |rows| then (sent, None)
    else (sent, Some(seq(|rows|, i requires 0 <= i < |rows| => Question(rows[i].id, rows[i].question, AnswerList(answers(rows[i].id))))))
  }

  /** The loading effect: the requests sent and what the screen shows. */
  function LoadTest(testId: string, reply: QuestionsReply, answers: string -> AnswersReply): (r: (seq<G.Request>, Load))
    ensures testId == "" <==> r.0 == []
    ensures testId == "" ==> r.1 == LoadError(MissingTestId)
    ensures testId != "" ==> r.0[0] == QuestionsRequest(testId)
    ensures r.1.Loaded? <==>
      && testId != "" && reply.QuestionsBody? && reply.success
      && reply.data.Some? && reply.data.value != []
      && forall i :: 0 <= i < |reply.data.value| ==> answers(reply.data.value[i].id).AnswersBody?
    ensures r.1.Loaded? ==>
      && |r.1.questions| == |reply.data.value| == |r.0| - 1
      && forall i :: 0 <= i < |r.1.questions| ==>
           && r.1.questions[i].id == reply.data.value[i].id
           && r.0[i + 1] == AnswersRequest(reply.data.value[i].id)
    ensures r.1.LoadError? && testId != "" ==>
      r.1.message == (
        if reply.QuestionsThrew? then LoadFailed
        else if !reply.success then QuestionsRejected
        else if reply.data.None? || reply.data.value == [] then NoQuestions
        else LoadFailed)
  {
    if testId == "" then ([], LoadError(MissingTestId))
    else
      var first := [QuestionsRequest(testId)];
      match reply
      case QuestionsThrew => (first, LoadError(LoadFailed))
      case QuestionsBody(success, data) =>
        if !success then (first, LoadError(QuestionsRejected))
        else
          var rows := data.GetOr([]);
          if rows == [] then (first, LoadError(NoQuestions))
          else
            var (sent, qs) := FetchAnswers(rows, answers);
            (first + sent, if qs.None? then LoadError(LoadFailed) else Loaded(qs.value))
  }

  /** A loaded test has questions, so the screen starts on a real question. */
  lemma LoadedStartsAnswered(testId: string, reply: QuestionsReply, answers: string -> AnswersReply)
    requires LoadTest(testId, reply, answers).1.Loaded?
    ensures
      var q := Start(LoadTest(testId, reply, answers).1.questions);
      q.questions != [] && Answered(q)
  {
  }

  // ---------------------------------------------------------------------------
  // Submitting
  // ---------------------------------------------------------------------------

  /** `userAnswers`: one `{questionId, answerId}` object per entry, in order. */
  function AnswerItems(s: Selection): (items: seq<Json>)
    ensures |items| == |s|
    ensures forall i :: 0 <= i < |s| ==>
      items[i] == JObj([("questionId", JStr(s[i].0)), ("answerId", JStr(s[i].1))])
  {
    if s == [] then []
    else [JObj([("questionId", JStr(s[0].0)), ("answerId", JStr(s[0].1))])] + AnswerItems(s[1..])
  }

  function CheckRequest(testId: string, s: Selection): G.Request {
    G.PostRequest(ApiConfig.Url(ApiConfig.TestsSubmitAnswers),
                  JObj([("testId", JStr(testId)), ("userAnswers", JArr(AnswerItems(s)))]), G.NoOptions)
  }

  function SaveRequest(testId: string, score: int, maxScore: int, elapsed: nat): G.Request {
    G.PostRequest(ApiConfig.Url(ApiConfig.TestsSaveResults),
                  JObj([("testId", JStr(testId)), ("score", JNum(score)),
                        ("maxScore", JNum(maxScore)), ("timeSpent", JNum(elapsed))]), G.NoOptions)
  }

  datatype CheckData = CheckData(
    correctAnswers: int,
    totalQuestions: int,
    score: real,
    incorrectQuestions: Option<seq<Results.Incorrect>>)

  /** The evaluation answer: thrown (network or not JSON), or its `success`
      flag and its `data`, which may be missing. */
  datatype CheckReply = CheckThrew | CheckBody(success: bool, data: Option<CheckData>)

  /** The save answer: thrown, or the `data?.id` it carries. */
  datatype SaveReply = SaveThrew | SaveBody(id: Option<string>)

  datatype Submission = ShowResults(params: Results.Params) | SubmitError(message: string)

  /** `handleSubmit()` after `elapsed` whole seconds. A failed save still shows
      the results, with an empty result id. A successful evaluation without
      `data` fails while building the save payload: the save is never sent
      and the outer handler reports it. */
  function Submit(testId: string, testName: string, s: Selection, elapsed: nat,
                  check: CheckReply, save: SaveReply): (r: (seq<G.Request>, Submission))
    ensures 1 <= |r.0| <= 2 && r.0[0] == CheckRequest(testId, s)
    ensures r.1.ShowResults? <==> check.CheckBody? && check.success && check.data.Some?
    ensures |r.0| == 2 <==> r.1.ShowResults?
    ensures r.1.ShowResults? ==>
      var d := check.data.value;
      && r.0[1] == SaveRequest(testId, d.correctAnswers, d.totalQuestions, elapsed)
      && r.1.params == Results.Params(
           d.correctAnswers, d.totalQuestions, d.score, NatToString(elapsed) + "s",
           if save.SaveBody? && Truthy(save.id) then save.id.value else "",
           d.incorrectQuestions, testId, testName)
    ensures r.1.SubmitError? ==>
      r.1.message == if check.CheckBody? && !check.success then SubmitRejected else SubmitFailed
  {
    var sent := [CheckRequest(testId, s)];
    match check
    case CheckThrew => (sent, SubmitError(SubmitFailed))
    case CheckBody(success, data) =>
      if !success then (sent, SubmitError(SubmitRejected))
      else if data.None? then (sent, SubmitError(SubmitFailed))
      else
        var d := data.value;
        var resultId := if save.SaveBody? && Truthy(save.id) then save.id.value else "";
        (sent + [SaveRequest(testId, d.correctAnswers, d.totalQuestions, elapsed)],
         ShowResults(Results.Params(d.correctAnswers, d.totalQuestions, d.score,
                                    NatToString(elapsed) + "s", resultId,
                                    d.incorrectQuestions, testId, testName)))
  }

  /** The results screen reads back the elapsed seconds and shows them as
      its clock, counts the correct
      and incorrect answers against the total, and its retry button reopens
      the same test. */
  lemma ResultsReadSubmission(testId: string, testName: string, s: Selection, elapsed: nat,
                              check: CheckReply, save: SaveReply)
    requires Submit(testId, testName, s, elapsed, check, save).1.ShowResults?
    ensures
      var p := Submit(testId, testName, s, elapsed, check, save).1.params;
      && Results.TimeInSeconds(p.timeSpent) == elapsed
      && Results.Summarise(p).clock == Results.FormatMinSec(elapsed)
      && Results.Summarise(p).correct + Results.Summarise(p).incorrect == check.data.value.totalQuestions
      && Results.TryAgain(p) == Results.TestRoute(testId, testName)
  {
    Results.TimeSpentRoundTrip(elapsed);
  }

  // ---------------------------------------------------------------------------
  // The clock
  // ---------------------------------------------------------------------------

  /** `formatTime(seconds)`: zero-padded minutes and seconds, `mm:ss`. */
  function FormatClock(seconds: nat): string {
    PadStart2(NatToString(seconds / 60)) + ":" + PadStart2(NatToString(seconds % 60))
  }

  lemma ShortNumeral(n: nat)
    requires n < 100
    ensures |NatToString(n)| <= 2
  {
    if n >= 10 {
      assert NatToString(n) == NatToString(n / 10) + [DigitChar(n % 10)];
    }
  }

  /** The clock always ends in `:` and two digits, and reads back as the
      elapsed seconds. */
  lemma ClockReadsBack(seconds: nat)
    ensures
      var r := FormatClock(seconds);
      && |r| >= 5 && r[|r| - 3] == ':'
      && AllDigits(r[..|r| - 3]) && AllDigits(r[|r| - 2..])
      && DecimalValue(r[|r| - 2..]) < 60
      && 60 * DecimalValue(r[..|r| - 3]) + DecimalValue(r[|r| - 2..]) == seconds
  {
    var m, s := PadStart2(NatToString(seconds / 60)), PadStart2(NatToString(seconds % 60));
    ShortNumeral(seconds % 60);
    assert |s| == 2;
    var r := FormatClock(seconds);
    assert r == m + ":" + s;
    assert r[..|r| - 3] == m;
    assert r[|r| - 2..] == s;
    PadStart2Value(seconds / 60);
    PadStart2Value(seconds % 60);
  }
}
