/** `services/llm_scoring.py`: the language choice, the two prompts and the
    call-parse-retry control flow of `score_candidate`, over an oracle that
    stands for the language-model endpoint. */
module Scoring {
  import opened Wrappers
  import opened Text
  import opened Models

  /** The language the scorer is told to write its rationale in. */
  datatype Lang = Russian | English {
    function Name(): string {
      if Russian? then "Russian" else "English"
    }
  }

  /** The character class `[А-Яа-яЁё]`. */
  predicate IsCyrillicLetter(c: char) {
    ('\U{410}' <= c <= '\U{44F}') || c == '\U{401}' || c == '\U{451}'
  }

  /** `re.search(r"[А-Яа-яЁё]", s)` succeeds. */
  predicate HasCyrillic(s: string) {
    exists i :: 0 <= i < |s| && IsCyrillicLetter(s[i])
  }

  lemma HasCyrillicConcat(a: string, b: string)
    ensures HasCyrillic(a + b) <==> HasCyrillic(a) || HasCyrillic(b)
  {
    var ab := a + b;
    if HasCyrillic(ab) {
      var i :| 0 <= i < |ab| && IsCyrillicLetter(ab[i]);
      if i >= |a| {
        assert b[i - |a|] == ab[i];
      }
    }
    if HasCyrillic(b) {
      var j :| 0 <= j < |b| && IsCyrillicLetter(b[j]);
      assert ab[|a| + j] == b[j];
    }
    if HasCyrillic(a) {
      var j :| 0 <= j < |a| && IsCyrillicLetter(a[j]);
      assert ab[j] == a[j];
    }
  }

  /** Joining with spaces neither adds nor hides a Cyrillic letter. */
  lemma {:induction false} JoinHasCyrillic(parts: seq<string>)
    ensures HasCyrillic(Join(parts, " ")) <==> exists k :: 0 <= k < |parts| && HasCyrillic(parts[k])
  {
    if |parts| == 1 {
    } else if |parts| > 1 {
      var init := parts[..|parts| - 1];
      JoinHasCyrillic(init);
      HasCyrillicConcat(Join(init, " ") + " ", parts[|parts| - 1]);
      HasCyrillicConcat(Join(init, " "), " ");
      assert !HasCyrillic(" ");
      if exists k :: 0 <= k < |parts| && HasCyrillic(parts[k]) {
        var k :| 0 <= k < |parts| && HasCyrillic(parts[k]);
        if k < |parts| - 1 {
          assert init[k] == parts[k];
        }
      }
      forall k | 0 <= k < |init| && HasCyrillic(init[k])
        ensures HasCyrillic(parts[k])
      {
        assert init[k] == parts[k];
      }
    }
  }

  /** The scoring request's payload: the candidate's identity, the answers
      dictionary (its items in insertion order) and the stored project link. */
  datatype Payload = Payload(
    tgUserId: Option<int>,
    username: Option<string>,
    fullName: Option<string>,
    answers: seq<(string, string)>,
    projectLink: string)

  /** `answers.values()` */
  function AnswerValues(items: seq<(string, string)>): (vs: seq<string>)
    ensures |vs| == |items| && forall k :: 0 <= k < |items| ==> vs[k] == items[k].1
  {
    seq(|items|, k requires 0 <= k < |items| => items[k].1)
  }

  /** Russian when the space-joined answers contain a Cyrillic letter. */
  function DetectLanguage(payload: Payload): (lang: Lang)
    ensures lang == Russian <==>
      exists k :: 0 <= k < |payload.answers| && HasCyrillic(payload.answers[k].1)
  {
    var values := AnswerValues(payload.answers);
    JoinHasCyrillic(values);
    if HasCyrillic(Join(values, " ")) then Russian else English
  }

  /** The system prompt's fixed text, split around the two places that name the language. */
  const SystemHead: string :=
    "You are an HR screening scorer. Return JSON ONLY.\n"
    + "\n"
    + "IMPORTANT:\n"
    + "- Always write rationale and summary strictly in "
  const SystemMiddle: string :=
    ".\n"
    + "- Do NOT use any other language besides "
  const SystemTail: string :=
    " in explanations.\n"
    + "- Keep explanations concise and professional.\n"
    + "\n"
    + "You MUST follow this schema exactly:\n"
    + "{\n"
    + "  \"criteria\": [\n"
    + "    { \"name\": \"string\", \"score_0_10\": 0, \"rationale\": \"1-2 sentences\" },\n"
    + "    { \"name\": \"string\", \"score_0_10\": 0, \"rationale\": \"1-2 sentences\" },\n"
    + "    { \"name\": \"string\", \"score_0_10\": 0, \"rationale\": \"1-2 sentences\" }\n"
    + "  ],\n"
    + "  \"overall_score_0_10\": 0,\n"
    + "  \"hot\": false,\n"
    + "  \"summary_1_2_lines\": \"string\"\n"
    + "}\n"
    + "Rules:\n"
    + "- criteria must be exactly 3 items\n"
    + "- score_0_10 must be integer 0..10\n"
    + "- rationale must be 1-2 sentences\n"
    + "- summary_1_2_lines must be <= 2 lines\n"
    + "- If project_link is 'declined', mention it explicitly without silently penalizing.\n"

  function SystemPrompt(lang: Lang): string {
    SystemHead + lang.Name() + SystemMiddle + lang.Name() + SystemTail
  }

  /** The first user prompt's fixed text, before and after the payload's JSON text. */
  const UserHead: string :=
    "Score this candidate based on their answers.\n"
    + "Payload JSON:\n"
  const UserTail: string :=
    "\n"
    + "Use exactly these 3 criteria names:\n"
    + "1) Practical AI Application\n"
    + "2) AI Reasoning & Control\n"
    + "3) AI Product Thinking\n"
    + "Overall score must be round(mean(criteria scores)).\n"
    + "hot must be true if overall>=8 OR at least 2 criteria>=8.\n"
    + "Return JSON ONLY."

  /** The first user prompt, around the payload's JSON text. */
  function UserPrompt(payloadJson: string): string {
    UserHead + payloadJson + UserTail
  }

  const RetrySuffix: string := "\n\nreturn valid JSON only, no prose"

  /** One call of the language model: the system and the user message. */
  datatype Request = Request(system: string, user: string)

  /** What a call gives back: the output text, or the exception it raised. */
  datatype Reply = Reply(text: string) | Raised(message: string)

  /** The text of the `ValidationError` raised for a decoded result that breaks
      the field constraints. */
  const ValidationFailure: string := "ScoreResult validation failed"

  /** `json.loads` then `ScoreResult.model_validate`: `decode` stands for the
      JSON decoding into the model's shape, after which the constraints of
      `models.py` are checked. */
  function Validate(decode: string -> Result<ScoreResult>, text: string): (r: Result<ScoreResult>)
    ensures r.Ok? <==> decode(text).Ok? && ValidScoreResult(decode(text).value)
    ensures r.Ok? ==> r.value == decode(text).value
  {
    match decode(text)
    case Err(m) => Err(m)
    case Ok(v) => if ValidScoreResult(v) then Ok(v) else Err(ValidationFailure)
  }

  /** What one reply amounts to: the exception it raised, or its validation. */
  function Outcome(decode: string -> Result<ScoreResult>, reply: Reply): (r: Result<ScoreResult>)
    ensures r.Ok? ==> reply.Reply? && ValidScoreResult(r.value)
    ensures reply.Raised? ==> r == Err(reply.message)
  {
    if reply.Raised? then Err(reply.message) else Validate(decode, reply.text)
  }

  /** The first request of `score_candidate`: the system prompt in the
      detected language and the user prompt around the payload's JSON. */
  function FirstRequest(payload: Payload, dumps: Payload -> string): Request {
    Request(SystemPrompt(DetectLanguage(payload)), UserPrompt(dumps(payload)))
  }

  /** The retry: the same system prompt, the user prompt with the suffix. */
  function RetryRequest(first: Request): (r: Request)
    ensures r.system == first.system && StartsWith(r.user, first.user) && EndsWith(r.user, RetrySuffix)
    ensures |r.user| == |first.user| + |RetrySuffix|
  {
    var r := Request(first.system, first.user + RetrySuffix);
    assert r.user[..|first.user|] == first.user;
    assert r.user[|first.user|..] == RetrySuffix;
    r
  }

  /** The result `score_candidate` arrives at from its first request: the
      first reply's outcome when that reply raised or validated, the retry's
      outcome otherwise. */
  function ExpectedScore(first: Request, decode: string -> Result<ScoreResult>,
                         oracle: Request -> Reply): (r: Result<ScoreResult>)
    ensures r.Ok? ==> ValidScoreResult(r.value)
    ensures Outcome(decode, oracle(first)).Ok? ==> r == Outcome(decode, oracle(first))
    ensures oracle(first).Raised? ==> r == Err(oracle(first).message)
  {
    var o := Outcome(decode, oracle(first));
    if oracle(first).Raised? || o.Ok? then o
    else Outcome(decode, oracle(RetryRequest(first)))
  }

  /** `score_candidate`: one call; when its text does not decode and validate,
      one retry with the suffix appended to the user prompt, whose outcome is
      final. An exception from the first call is not retried. */
  method ScoreCandidate(payload: Payload, dumps: Payload -> string,
                        decode: string -> Result<ScoreResult>, oracle: Request -> Reply)
    returns (result: Result<ScoreResult>, calls: seq<Request>)
    ensures 1 <= |calls| <= 2
    ensures calls[0] == FirstRequest(payload, dumps)
    ensures |calls| == 2 ==> calls[1] == RetryRequest(calls[0])
    ensures |calls| == 1 <==> oracle(calls[0]).Raised? || Outcome(decode, oracle(calls[0])).Ok?
    ensures result == Outcome(decode, oracle(calls[|calls| - 1]))
    ensures result.Ok? ==> ValidScoreResult(result.value)
    ensures result == ExpectedScore(calls[0], decode, oracle)
  {
    var first := FirstRequest(payload, dumps);
    calls := [first];
    var reply := oracle(first);
    if reply.Raised? {
      result := Err(reply.message);
      return;
    }
    result := Validate(decode, reply.text);
    if result.Ok? {
      return;
    }
    var second := RetryRequest(first);
    calls := calls + [second];
    var reply2 := oracle(second);
    if reply2.Raised? {
      result := Err(reply2.message);
    } else {
      result := Validate(decode, reply2.text);
    }
  }
}
