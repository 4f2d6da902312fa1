/** One candidate's screening session, as the handlers of `bot/handlers.py`
    drive it through the states of `bot/states.py`: rules, six questions, the
    project link, then scoring, the spreadsheet row and the admin alert. */
module Conversation {
  import opened Wrappers
  import opened Text
  import opened Models
  import opened Classifier
  import opened Rendering
  import opened Scoring
  import opened Sheets
  import opened AdminStats

  /** `ScreeningStates` */
  datatype Step = Rules | Q1 | Q2 | Q3 | Q4 | Q5 | Q6 | Link {
    predicate IsQuestion() {
      !Rules? && !Link?
    }

    /** The question number: 1..6. */
    function Number(): nat
      requires IsQuestion()
    {
      match this
      case Q1 => 1 case Q2 => 2 case Q3 => 3
      case Q4 => 4 case Q5 => 5 case Q6 => 6
    }

    /** The state a question handler moves to. */
    function Next(): Step
      requires IsQuestion()
    {
      match this
      case Q1 => Q2 case Q2 => Q3 case Q3 => Q4
      case Q4 => Q5 case Q5 => Q6 case Q6 => Link
    }

    /** How many answers a session in this state has recorded. */
    function Answered(): nat {
      match this
      case Rules => 0
      case Link => 6
      case _ => Number() - 1
    }
  }

  /** The answer keys, in the order the questions are asked. */
  const AnswerKeys: seq<string> := ["q1", "q2", "q3", "q4", "q5", "q6"]

  /** The key question `s` records: `"q<n>"`. */
  function KeyOf(s: Step): string
    requires s.IsQuestion()
  {
    AnswerKeys[s.Number() - 1]
  }

  /** A stored answer: the stripped, non-empty text the candidate sent. */
  predicate IsAnswerText(v: string) {
    v != [] && !IsSpace(v[0]) && !IsSpace(v[|v| - 1])
  }

  /** The answers of a session that has passed `n` questions: the first `n`
      keys, each holding an answer text. */
  ghost predicate AnswersFor(answers: map<string, string>, n: nat)
    requires n <= |AnswerKeys|
  {
    && (forall k :: k in answers <==> k in AnswerKeys[..n])
    && (forall k :: k in answers ==> IsAnswerText(answers[k]))
  }

  /** Recording the answer to question `n` moves the session's data on by
      one question. */
  lemma RecordAnswer(answers: map<string, string>, n: nat, t: string)
    requires 1 <= n <= |AnswerKeys|
    requires AnswersFor(answers, n - 1) && IsAnswerText(t)
    ensures AnswersFor(answers[AnswerKeys[n - 1] := t], n)
  {
    assert AnswerKeys[..n] == AnswerKeys[..n - 1] + [AnswerKeys[n - 1]];
  }

  /** The answers dictionary as an ordered list of items (Python dictionaries
      keep insertion order, and the questions insert their keys in order). */
  function AnswerItems(answers: map<string, string>): (items: seq<(string, string)>)
    requires forall k :: k in AnswerKeys ==> k in answers
    ensures |items| == |AnswerKeys|
    ensures forall i :: 0 <= i < |items| ==> items[i] == (AnswerKeys[i], answers[AnswerKeys[i]])
  {
    seq(|AnswerKeys|, i requires 0 <= i < |AnswerKeys| => (AnswerKeys[i], answers[AnswerKeys[i]]))
  }

  /** Everything `link_handler` takes from outside: the clock, the configured
      model name, the JSON encoder and decoder, the language model and the
      spreadsheet's failure, if any. */
  datatype Env = Env(
    timestamp: string,
    latencyMs: int,
    llmModel: string,
    dumpsPayload: Payload -> string,
    dumpsAnswers: seq<(string, string)> -> string,
    dumpsScores: ScoreResult -> string,
    decode: string -> Result<ScoreResult>,
    oracle: Request -> Reply,
    sheetFailure: Option<string>)

  /** The scoring payload built from the accepted link decision. */
  function BuildPayload(user: Option<TgUser>, items: seq<(string, string)>, d: LinkDecision): (p: Payload)
    requires d.Accepted()
    ensures p.answers == items && p.projectLink == d.ProjectLink()
    ensures p.tgUserId.Some? <==> user.Some?
  {
    Payload(
      if user.Some? then Some(user.value.id) else None,
      if user.Some? then user.value.username else None,
      if user.Some? then Some(user.value.fullName) else None,
      items,
      d.ProjectLink())
  }

  /** The spreadsheet row for a scoring outcome. */
  function BuildRow(user: Option<TgUser>, items: seq<(string, string)>, d: LinkDecision,
                    score: Result<ScoreResult>, env: Env): (row: SheetRow)
    requires d.Accepted()
    requires score.Ok? ==> ValidScoreResult(score.value)
    ensures 0 <= row.overallScore <= 10 && row.projectLink.Some?
    ensures row.scoringFailed <==> score.Err?
    ensures row.topCandidate ==> !row.scoringFailed
  {
    SheetRow(
      env.timestamp,
      if user.Some? then user.value.id else 0,
      if user.Some? then user.value.username else None,
      if user.Some? then Some(user.value.fullName) else None,
      env.dumpsAnswers(items),
      Some(d.ProjectLink()),
      d.ProjectNote(),
      if score.Ok? then env.dumpsScores(score.value) else "{}",
      if score.Ok? then score.value.overallScore else 0,
      score.Ok? && score.value.hot,
      env.llmModel,
      env.latencyMs,
      score.Err?,
      if score.Err? then Some(SliceTo(score.message, 500)) else None)
  }

  /** What the completion step produces besides the new session state. */
  datatype Completion = Completion(
    row: SheetRow,
    appended: Result<seq<string>>,
    sheetError: Option<string>,
    alert: Option<Alert>)

  /** The completion step after scoring: the row is appended, and the admin
      alert is written when scoring failed, the append raised with a message,
      or the candidate is hot. */
  function Complete(user: Option<TgUser>, items: seq<(string, string)>, d: LinkDecision,
                    score: Result<ScoreResult>, env: Env): (c: Completion)
    requires d.Accepted()
    requires score.Ok? ==> ValidScoreResult(score.value)
    ensures c.sheetError.None? <==> c.appended.Ok?
    ensures c.alert.Some? ==>
      && c.alert.value.projectLink == d.ProjectLink()
      && c.alert.value.top == (score.Ok? && score.value.hot)
      && c.alert.value.scoringFailed == score.Err?
  {
    var row := BuildRow(user, items, d, score, env);
    var appended := AppendRow(row, env.sheetFailure);
    var sheetError := if appended.Err? then Some(SliceTo(appended.message, 500)) else None;
    var alertDue := row.scoringFailed || Truthy(sheetError) || row.topCandidate;
    var scores := if score.Ok? then Some(seq(3, i requires 0 <= i < 3 => score.value.criteria[i].score)) else None;
    var alert :=
      if alertDue then
        Some(Alert(user, row.topCandidate, scores, row.projectLink.value,
                   row.scoringFailed, sheetError, row.error))
      else None;
    Completion(row, appended, sheetError, alert)
  }

  /** The alert goes out exactly when scoring failed, the append failed with
      a non-empty message, or the scorer marked the candidate hot. */
  lemma AlertExactly(user: Option<TgUser>, items: seq<(string, string)>, d: LinkDecision,
                     score: Result<ScoreResult>, env: Env)
    requires d.Accepted()
    requires score.Ok? ==> ValidScoreResult(score.value)
    ensures var c := Complete(user, items, d, score, env);
      c.alert.Some? <==>
        || score.Err?
        || (c.appended.Err? && SliceTo(c.appended.message, 500) != [])
        || (score.Ok? && score.value.hot)
  {
  }

  /** The row passes `SheetRow` validation exactly when the user id and the
      latency are not negative; a rejected row is reported, never appended. */
  lemma RowValidExactly(user: Option<TgUser>, items: seq<(string, string)>, d: LinkDecision,
                        score: Result<ScoreResult>, env: Env)
    requires d.Accepted()
    requires score.Ok? ==> ValidScoreResult(score.value)
    ensures var c := Complete(user, items, d, score, env);
      && (ValidSheetRow(c.row) <==> (user.None? || user.value.id >= 0) && env.latencyMs >= 0)
      && (!ValidSheetRow(c.row) ==> c.appended == Err(RowValidationFailure) && c.sheetError.Some?)
      && (c.appended.Ok? ==> c.appended.value == SheetValues(c.row))
  {
  }

  /** When the spreadsheet accepts the row, the admin view reads back the
      score, the top flag and the failure flag this completion decided. */
  lemma StoredOutcome(user: Option<TgUser>, items: seq<(string, string)>, d: LinkDecision,
                      score: Result<ScoreResult>, env: Env)
    requires d.Accepted()
    requires score.Ok? ==> ValidScoreResult(score.value)
    requires (user.None? || user.value.id >= 0) && env.latencyMs >= 0 && env.sheetFailure.None?
    ensures var c := Complete(user, items, d, score, env);
      && c.appended.Ok?
      && var seen := NormaliseRow(RowDict(ColumnNames, c.appended.value));
         && seen.overall == (if score.Ok? then score.value.overallScore else 0)
         && seen.top == (score.Ok? && score.value.hot)
         && seen.failed == score.Err?
  {
    var c := Complete(user, items, d, score, env);
    ReadBack(c.row);
  }

  /** `score_candidate` as the link step sees it: the result, and the calls
      made to reach it. */
  method Score(payload: Payload, env: Env) returns (score: Result<ScoreResult>, calls: seq<Request>)
    ensures 1 <= |calls| <= 2
    ensures calls[0] == FirstRequest(payload, env.dumpsPayload)
    ensures |calls| == 2 ==> calls[1] == RetryRequest(calls[0])
    ensures |calls| == 1 <==>
      env.oracle(calls[0]).Raised? || Outcome(env.decode, env.oracle(calls[0])).Ok?
    ensures score == Outcome(env.decode, env.oracle(calls[|calls| - 1]))
    ensures score == ExpectedScore(calls[0], env.decode, env.oracle)
  {
    score, calls := ScoreCandidate(payload, env.dumpsPayload, env.decode, env.oracle);
  }

  /** The accepted link step after classification: scoring on this
      candidate's payload, then the completion on its result. */
  method Finish(user: Option<TgUser>, items: seq<(string, string)>, d: LinkDecision, env: Env)
    returns (calls: seq<Request>, score: Result<ScoreResult>, completion: Completion)
    requires d.Accepted()
    ensures 1 <= |calls| <= 2
    ensures calls[0] == FirstRequest(BuildPayload(user, items, d), env.dumpsPayload)
    ensures |calls| == 2 ==> calls[1] == RetryRequest(calls[0])
    ensures |calls| == 1 <==>
      env.oracle(calls[0]).Raised? || Outcome(env.decode, env.oracle(calls[0])).Ok?
    ensures score == ExpectedScore(calls[0], env.decode, env.oracle)
    ensures score.Ok? ==> ValidScoreResult(score.value)
    ensures completion == Complete(user, items, d, score, env)
  {
    score, calls := Score(BuildPayload(user, items, d), env);
    completion := Complete(user, items, d, score, env);
  }

  /** What the link step did. */
  datatype LinkOutcome =
    | Rejected(decision: LinkDecision)
    | Completed(decision: LinkDecision, calls: seq<Request>, score: Result<ScoreResult>,
                completion: Completion, deleted: Option<int>)

  /** One candidate's FSM state and data: `answers` and `last_bot_msg_id`. */
  class Session {
    var state: Option<Step>
    var answers: map<string, string>
    var lastPrompt: Option<int>

    /** In the rules state nothing is stored yet; in a question or the link
        state the answers are exactly those of the questions already passed,
        each a stripped non-empty text. After completion (`None`) the data
        stays as it was. */
    ghost predicate Valid()
      reads this
    {
      match state
      case None => true
      case Some(Rules) => answers == map[] && lastPrompt.None?
      case Some(s) => AnswersFor(answers, s.Answered())
    }

    /** A fresh user: no state, no data. */
    constructor()
      ensures state.None? && answers == map[] && lastPrompt.None?
      ensures Valid()
    {
      state := None;
      answers := map[];
      lastPrompt := None;
    }

    /** `start_handler`: clear the data and show the rules. */
    method Start()
      modifies this
      ensures state == Some(Rules) && answers == map[] && lastPrompt.None?
      ensures Valid()
    {
      answers := map[];
      lastPrompt := None;
      state := Some(Rules);
    }

    /** `restart_handler`: the same as `/start`, from any state. */
    method Restart()
      modifies this
      ensures state == Some(Rules) && answers == map[] && lastPrompt.None?
      ensures Valid()
    {
      Start();
    }

    /** `cancel_handler`: clear the state and the data. */
    method Cancel()
      modifies this
      ensures state.None? && answers == map[] && lastPrompt.None?
      ensures Valid()
    {
      state := None;
      answers := map[];
      lastPrompt := None;
    }

    /** `_send_replace`: the previous prompt is deleted when one is recorded
        (a zero id counts as none), and the new one is recorded. */
    method SendReplace(sent: int) returns (deleted: Option<int>)
      modifies this
      ensures deleted == if old(lastPrompt).Some? && old(lastPrompt).value != 0 then old(lastPrompt) else None
      ensures lastPrompt == Some(sent)
      ensures state == old(state) && answers == old(answers)
    {
      deleted := if lastPrompt.Some? && lastPrompt.value != 0 then lastPrompt else None;
      lastPrompt := Some(sent);
    }

    /** `go_start_cb`: only in the rules state does the button start the first
        question, with empty answers; elsewhere it does nothing. */
    method GoStart(sent: int) returns (deleted: Option<int>)
      requires Valid()
      modifies this
      ensures old(state) != Some(Rules) ==>
        state == old(state) && answers == old(answers) && lastPrompt == old(lastPrompt) && deleted.None?
      ensures old(state) == Some(Rules) ==>
        state == Some(Q1) && answers == map[] && lastPrompt == Some(sent) && deleted.None?
      ensures Valid()
    {
      if state != Some(Rules) {
        return None;
      }
      state := Some(Q1);
      answers := map[];
      lastPrompt := None;
      deleted := SendReplace(sent);
    }

    /** `q1_handler` … `q6_handler`: a blank answer changes nothing; otherwise
        the stripped text is stored under the question's key, no other key
        changes, and the next state is entered with its prompt recorded. */
    method Answer(text: Option<string>, sent: int) returns (accepted: bool, deleted: Option<int>)
      requires Valid() && state.Some? && state.value.IsQuestion()
      modifies this
      ensures accepted <==> Norm(text) != []
      ensures !accepted ==>
        state == old(state) && answers == old(answers) && lastPrompt == old(lastPrompt) && deleted.None?
      ensures accepted ==>
        && state == Some(old(state).value.Next())
        && answers == old(answers)[KeyOf(old(state).value) := Norm(text)]
        && lastPrompt == Some(sent)
        && deleted == (if old(lastPrompt).Some? && old(lastPrompt).value != 0 then old(lastPrompt) else None)
      ensures Valid()
    {
      var t := Norm(text);
      if t == [] {
        return false, None;
      }
      var s := state.value;
      RecordAnswer(answers, s.Number(), t);
      answers := answers[KeyOf(s) := t];
      state := Some(s.Next());
      accepted := true;
      deleted := SendReplace(sent);
    }

    /** `link_handler`. A blank or unrecognised text leaves the session as it
        is. An accepted one is scored, stored and maybe reported to the admin,
        and the session ends with its data kept. */
    method SubmitLink(user: Option<TgUser>, text: Option<string>, env: Env, sent: int)
      returns (outcome: LinkOutcome)
      requires Valid() && state == Some(Link)
      modifies this
      ensures !ClassifyLink(text).Accepted() ==>
        && outcome == Rejected(ClassifyLink(text))
        && state == old(state) && answers == old(answers) && lastPrompt == old(lastPrompt)
      ensures ClassifyLink(text).Accepted() ==>
        && state.None? && answers == old(answers) && lastPrompt == Some(sent)
        && outcome.Completed?
        && outcome.decision == ClassifyLink(text)
        && 1 <= |outcome.calls| <= 2
        && outcome.calls[0] == FirstRequest(BuildPayload(user, AnswerItems(old(answers)), outcome.decision), env.dumpsPayload)
        && (|outcome.calls| == 2 ==> outcome.calls[1] == RetryRequest(outcome.calls[0]))
        && (|outcome.calls| == 1 <==>
              env.oracle(outcome.calls[0]).Raised? || Outcome(env.decode, env.oracle(outcome.calls[0])).Ok?)
        && outcome.score == ExpectedScore(outcome.calls[0], env.decode, env.oracle)
        && outcome.deleted == (if old(lastPrompt).Some? && old(lastPrompt).value != 0 then old(lastPrompt) else None)
        && (outcome.score.Ok? ==> ValidScoreResult(outcome.score.value))
        && outcome.completion == Complete(user, AnswerItems(old(answers)), outcome.decision, outcome.score, env)
      ensures Valid()
    {
      var d := ClassifyLink(text);
      if !d.Accepted() {
        return Rejected(d);
      }
      assert AnswerKeys[..6] == AnswerKeys;
      var items := AnswerItems(answers);
      var calls, score, completion := Finish(user, items, d, env);
      var deleted := SendReplace(sent);
      state := None;
      outcome := Completed(d, calls, score, completion, deleted);
    }
  }

  /** At the link step the scorer is asked for Russian exactly when one of the
      stored answers contains a Cyrillic letter. */
  lemma LanguageOfSession(answers: map<string, string>, user: Option<TgUser>, d: LinkDecision)
    requires forall k :: k in answers <==> k in AnswerKeys
    requires d.Accepted()
    ensures DetectLanguage(BuildPayload(user, AnswerItems(answers), d)) == Russian <==>
      exists k :: k in answers && HasCyrillic(answers[k])
  {
    var items := AnswerItems(answers);
    if exists k :: k in answers && HasCyrillic(answers[k]) {
      var k :| k in answers && HasCyrillic(answers[k]);
      var i :| 0 <= i < |AnswerKeys| && AnswerKeys[i] == k;
      assert items[i].1 == answers[k];
    }
  }

  /** The state after `i` accepted answers. */
  function StepAfter(i: nat): Step {
    if i == 0 then Q1 else if i == 1 then Q2 else if i == 2 then Q3
    else if i == 3 then Q4 else if i == 4 then Q5 else if i == 5 then Q6 else Link
  }

  lemma StepAfterQuestion(i: nat)
    requires i < 6
    ensures StepAfter(i).IsQuestion() && StepAfter(i).Number() == i + 1
    ensures StepAfter(i).Next() == StepAfter(i + 1)
  {
  }

  lemma AnswerKeysDistinct()
    ensures forall j, k :: 0 <= j < k < |AnswerKeys| ==> AnswerKeys[j] != AnswerKeys[k]
  {
    forall j, k | 0 <= j < k < |AnswerKeys| ensures AnswerKeys[j] != AnswerKeys[k] {
      assert AnswerKeys[j][1] != AnswerKeys[k][1];
    }
  }

  /** A full interview: after the rules, six non-blank answers and an accepted
      link, the session has ended, every answer is stored stripped under its
      key, and the scorer was asked at most twice. */
  method Interview(session: Session, answersGiven: seq<string>, link: string,
                   user: Option<TgUser>, env: Env)
    returns (outcome: LinkOutcome)
    requires |answersGiven| == 6
    requires forall i :: 0 <= i < 6 ==> Norm(Some(answersGiven[i])) != []
    requires ClassifyLink(Some(link)).Accepted()
    modifies session
    ensures session.state.None?
    ensures forall i :: 0 <= i < 6 ==>
      AnswerKeys[i] in session.answers && session.answers[AnswerKeys[i]] == Norm(Some(answersGiven[i]))
    ensures outcome.Completed? && 1 <= |outcome.calls| <= 2
  {
    session.Start();
    var _ := session.GoStart(1);
    var i := 0;
    while i < 6
      invariant 0 <= i <= 6
      invariant session.Valid()
      invariant session.state == Some(StepAfter(i))
      invariant forall j :: 0 <= j < i ==>
        AnswerKeys[j] in session.answers && session.answers[AnswerKeys[j]] == Norm(Some(answersGiven[j]))
    {
      StepAfterQuestion(i);
      AnswerKeysDistinct();
      var accepted, _ := session.Answer(Some(answersGiven[i]), i + 2);
      i := i + 1;
    }
    outcome := session.SubmitLink(user, Some(link), env, 8);
  }
}
