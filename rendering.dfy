/** The pure rendering helpers of `bot/handlers.py` and the admin alert they
    are assembled into. */
module Rendering {
  import opened Wrappers
  import opened Text
  import opened Classifier

  /** The Telegram sender as the handlers read it: `full_name` is always a
      string, `username` may be missing. */
  datatype TgUser = TgUser(id: int, username: Option<string>, fullName: string)

  const StarGlyph: char := '⭐'
  const NoStars: string := "—"

  /** `max(0, min(10, score))` */
  function Clamp010(score: int): int {
    if score < 0 then 0 else if score > 10 then 10 else score
  }

  /** `ceil(s / 2)` of the clamped score: the least `n` with `2n` at or above it. */
  function StarCount(score: int): (n: nat)
    ensures n <= 5
    ensures 2 * n - 1 <= Clamp010(score) <= 2 * n
  {
    (Clamp010(score) + 1) / 2
  }

  /** `_stars_0_10`: one star per started pair of points, at most five, and the
      dash exactly when there is no star to show. */
  function Stars(score: int): (r: string)
    ensures r == NoStars <==> score <= 0
    ensures score > 0 ==> |r| == StarCount(score) && 1 <= |r| <= 5
    ensures score > 0 ==> forall i :: 0 <= i < |r| ==> r[i] == StarGlyph
  {
    var n := StarCount(score);
    if n > 0 then
      var r := Repeat(StarGlyph, n);
      assert r[0] != NoStars[0];
      r
    else NoStars
  }

  const NdaLine: string := "NDA (ссылка в анкете)."
  const DeclinedLine: string := "Отказался делиться ссылкой."
  const NdaTokens: set<string> := {"nda", "n/a", "na"}
  const DeclineTokens: set<string> := {"declined", "не хочу", "нехочу", "skip", "нет"}

  /** `_material_line`: how the alert shows the stored `project_link`. */
  function MaterialLine(projectLink: Option<string>): (r: string)
    ensures r != []
  {
    var link := projectLink.GetOr("");
    var t := Lower(Strip(link));
    if t in NdaTokens then NdaLine
    else if t in DeclineTokens then DeclinedLine
    else if StartsWith(link, "http://") || StartsWith(link, "https://") then link
    else
      var shown := Strip(projectLink.GetOr(NoStars));
      if shown == [] then NoStars else shown
  }

  /** The stored `project_link` of every accepted link decision is shown as
      the source intends: the refusal line, the NDA line, or the URL itself. */
  lemma MaterialLineOfDecision(text: Option<string>)
    requires ClassifyLink(text).Accepted()
    ensures var d := ClassifyLink(text);
      MaterialLine(Some(d.ProjectLink())) ==
        if d.Declined? then DeclinedLine
        else if d.Url? then d.url
        else NdaLine
  {
    var d := ClassifyLink(text);
    match d {
      case Declined =>
        DeclinedReadsAsDeclined();
      case Url(u) =>
        StripTrimmed(u);
        assert Lower(u)[0] == 'h';
        assert Lower(u) !in NdaTokens && Lower(u) !in DeclineTokens;
      case NdaMarker =>
        NdaReadsAsNda();
      case NdaNote(_) =>
        NdaReadsAsNda();
    }
  }

  lemma DeclinedReadsAsDeclined()
    ensures MaterialLine(Some("declined")) == DeclinedLine
  {
    StripTrimmed("declined");
    assert Lower("declined") == "declined";
  }

  lemma NdaReadsAsNda()
    ensures MaterialLine(Some("nda")) == NdaLine
  {
    StripTrimmed("nda");
    assert Lower("nda") == "nda";
  }

  /** The text `_shorten` works on: stripped, newlines turned into spaces. */
  function Flatten(text: Option<string>): string {
    ReplaceChar(Strip(text.GetOr("")), '\n', ' ')
  }

  /** `_shorten`: the flattened text when it fits; otherwise a prefix of it,
      right-stripped, followed by "...", within `maxLen` when `maxLen >= 3`. */
  function Shorten(text: Option<string>, maxLen: int): (r: string)
    ensures '\n' !in r
    ensures |Flatten(text)| <= maxLen ==> r == Flatten(text)
    ensures |Flatten(text)| > maxLen ==>
      && EndsWith(r, "...")
      && StartsWith(Flatten(text), r[..|r| - 3])
      && r[..|r| - 3] == RStrip(SliceTo(Flatten(text), maxLen - 3))
      && (maxLen >= 3 ==> |r| <= maxLen)
      && (maxLen >= 3 ==> forall i :: |r| - 3 <= i < maxLen - 3 ==> IsSpace(Flatten(text)[i]))
  {
    var t := Flatten(text);
    assert forall i :: 0 <= i < |t| ==> t[i] != '\n';
    if |t| <= maxLen then t
    else
      var head := SliceTo(t, maxLen - 3);
      var kept := RStrip(head);
      RStripDropsSpace(head);
      var r := kept + "...";
      assert r[..|r| - 3] == kept;
      assert forall i :: 0 <= i < |kept| ==> kept[i] == t[i];
      r
  }

  /** One element of the decoded `criteria` list: a dictionary, given by
      `str(...)` of its `rationale` entry ("" when the key is missing, "None"
      for a JSON null, the digits of a number), or anything else. */
  datatype CriterionJson = NotADict | Dict(rationaleText: string)

  /** The decoded `criteria` value: a list, or anything else. */
  datatype CriteriaJson = NotAList | List(items: seq<CriterionJson>)

  /** Flattening is idempotent, so flattening before `Shorten` changes nothing. */
  lemma FlattenFlat(t: string)
    ensures Flatten(Some(Flatten(Some(t)))) == Flatten(Some(t))
  {
    var st := Strip(t);
    var q := Flatten(Some(t));
    assert |q| == |st|;
    if q != [] {
      assert q[0] == st[0] && q[|q| - 1] == st[|st| - 1] by {
        assert IsSpace('\n');
      }
      StripTrimmed(q);
    }
    assert forall i :: 0 <= i < |q| ==> q[i] != '\n';
  }

  /** `_pick_signal`: a short quote from the rationale of criterion `idx`
      (Python indexing, so -3..2 are valid), or `fallback` whenever the shape
      is wrong, the index is out of range or the rationale is blank. */
  function PickSignal(crit: CriteriaJson, idx: int, fallback: string): (r: string)
    ensures !(crit.List? && |crit.items| == 3 && -3 <= idx < 3) ==> r == fallback
    ensures crit.List? && |crit.items| == 3 && -3 <= idx < 3 ==>
      var item := crit.items[if idx < 0 then idx + 3 else idx];
      && (item.NotADict? ==> r == fallback)
      && (item.Dict? && Flatten(Some(item.rationaleText)) == [] ==> r == fallback)
      && (item.Dict? && Flatten(Some(item.rationaleText)) != [] ==>
            r == Shorten(Some(item.rationaleText), 110))
    ensures r == fallback || (r != [] && |r| <= 110 && '\n' !in r)
  {
    if !crit.List? || |crit.items| != 3 || !(-3 <= idx < 3) then fallback
    else
      var item := crit.items[if idx < 0 then idx + 3 else idx];
      if item.NotADict? then fallback
      else
        var q := Flatten(Some(item.rationaleText));
        if q == [] then fallback
        else
          FlattenFlat(item.rationaleText);
          var s := Shorten(Some(q), 110);
          assert s != [] by {
            if |Flatten(Some(q))| <= 110 {
              assert Flatten(Some(q)) == q;
            }
          }
          s
  }

  /** The name shown for a candidate whose full name is blank. */
  const UnnamedCandidate: string := "Кандидат"

  /** The name the admin alert shows: the full name (or "Кандидат"), followed by
      the @-handle when there is one. */
  function AlertDisplayName(user: Option<TgUser>): (r: string)
    ensures r != []
  {
    var fullName := if user.Some? then Strip(user.value.fullName) else "";
    var username := if user.Some? then Strip(user.value.username.GetOr("")) else "";
    var display := if fullName != [] then fullName else UnnamedCandidate;
    if username != [] then display + " (@" + username + ")" else display
  }

  /** The alert's name starts with the stripped full name, or "Кандидат" when
      that is blank; the handle is appended as ` (@username)` exactly when the
      stripped username is non-empty, and nothing is appended otherwise. */
  lemma AlertDisplayNameShape(user: Option<TgUser>)
    ensures var fullName := if user.Some? then Strip(user.value.fullName) else "";
      var username := if user.Some? then Strip(user.value.username.GetOr("")) else "";
      var display := if fullName != [] then fullName else UnnamedCandidate;
      var r := AlertDisplayName(user);
      && StartsWith(r, display)
      && (username != [] ==> EndsWith(r, " (@" + username + ")") && |r| == |display| + |username| + 4)
      && (username == [] ==> r == display)
  {
    var fullName := if user.Some? then Strip(user.value.fullName) else "";
    var username := if user.Some? then Strip(user.value.username.GetOr("")) else "";
    var display := if fullName != [] then fullName else UnnamedCandidate;
    HandleAppended(display, username);
  }

  lemma HandleAppended(display: string, username: string)
    ensures var r := if username != [] then display + " (@" + username + ")" else display;
      && StartsWith(r, display)
      && (username != [] ==> EndsWith(r, " (@" + username + ")") && |r| == |display| + |username| + 4)
  {
    var suffix := " (@" + username + ")";
    assert (display + suffix)[..|display|] == display;
    assert (display + suffix)[|display|..] == suffix;
    assert display[..|display|] == display;
  }

  /** Python truthiness of an optional string: present and non-empty. */
  predicate Truthy(s: Option<string>) {
    s.Some? && s.value != []
  }

  function CriterionLine(icon: string, name: string, score: Option<int>): string {
    if score.Some? then
      icon + " " + name + ": " + Stars(score.value) + " (" + IntToString(score.value) + "/10)\n"
    else icon + " " + name + ": —\n"
  }

  const AlertSummary: string :=
    "Модель отмечает сильное AI-first мышление. Кандидат не просто «промптит», "
    + "а выстраивает систему: внедряет валидацию ответов и умеет бороться с галлюцинациями LLM "
    + "на уровне архитектуры."

  const TopHeader: string := "🎯 Топ-кандидат: "
  const AttentionHeader: string := "⚠️ Кандидат требует внимания: "
  const AlertFooter: string := "\n📥 Открыть полную анкету: /admin top"

  /** The body of the alert: the fixed summary, the three criterion lines
      (dashes when scoring failed) and the materials line. */
  function AlertBody(scores: Option<seq<int>>, projectLink: string): string {
    var s := if scores.Some? && |scores.value| == 3 then scores.value else [];
    "Краткое резюме:\n" + AlertSummary + "\n\n"
    + "Оценки по компетенциям:\n"
    + CriterionLine("🛠", "Практический опыт", if s != [] then Some(s[0]) else None)
    + CriterionLine("🧠", "Контроль и логика", if s != [] then Some(s[1]) else None)
    + CriterionLine("🚀", "Продуктовый подход", if s != [] then Some(s[2]) else None)
    + "\n" + "Материалы: " + MaterialLine(Some(projectLink)) + "\n"
  }

  /** The technical-details block, present only when something went wrong;
      each exception text is cut to 200 characters. */
  function TechDetails(scoringFailed: bool, sheetError: Option<string>, error: Option<string>): (r: string)
    ensures r == [] <==> !(Truthy(sheetError) || Truthy(error) || scoringFailed)
  {
    if Truthy(sheetError) || Truthy(error) || scoringFailed then
      "\nТех. детали:\n"
      + (if scoringFailed then "• scoring_failed: True\n" else "")
      + (if Truthy(sheetError) then "• sheets_error: " + SliceTo(sheetError.value, 200) + "\n" else "")
      + (if Truthy(error) then "• error: " + SliceTo(error.value, 200) + "\n" else "")
    else ""
  }

  lemma ConcatEnds(a: string, b: string, c: string)
    ensures StartsWith(a + b + c, a) && EndsWith(a + b + c, c)
  {
    assert (a + b + c)[..|a|] == a;
    assert (a + b + c)[|a + b|..] == c;
  }

  /** What the admin alert of `link_handler` reports: the candidate, the
      verdict, the three criterion scores when scoring succeeded, the stored
      link, and the failures with their exception texts. */
  datatype Alert = Alert(
    user: Option<TgUser>, top: bool, scores: Option<seq<int>>, projectLink: string,
    scoringFailed: bool, sheetError: Option<string>, error: Option<string>)

  /** The alert's text: a header naming the candidate, the body, the technical
      details when something failed, and the fixed footer. */
  function AlertText(a: Alert): (msg: string)
    ensures StartsWith(msg, if a.top then TopHeader else AttentionHeader)
    ensures EndsWith(msg, AlertFooter)
  {
    var head := if a.top then TopHeader else AttentionHeader;
    var rest := AlertDisplayName(a.user) + "\n\n" + AlertBody(a.scores, a.projectLink)
      + TechDetails(a.scoringFailed, a.sheetError, a.error);
    ConcatEnds(head, rest, AlertFooter);
    head + rest + AlertFooter
  }
}
