/** The three pydantic models of the bot and the field constraints pydantic
    enforces when it validates them (`Field(ge=…, le=…, min_length=…,
    max_length=…)` and the non-optional `str` fields). */
module Models {
  import opened Wrappers

  /** One scored criterion (`ScoreCriterion`). */
  datatype ScoreCriterion = ScoreCriterion(name: string, score: int, rationale: string)

  /** The scorer's verdict (`ScoreResult`), as decoded from its JSON before the
      field constraints are checked. */
  datatype ScoreResult = ScoreResult(
    criteria: seq<ScoreCriterion>,
    overallScore: int,
    hot: bool,
    summary: string)

  /** One spreadsheet record (`SheetRow`) as the completion handler builds it,
      before validation: `projectLink` may still be `None`. */
  datatype SheetRow = SheetRow(
    timestampUtcIso: string,
    tgUserId: int,
    username: Option<string>,
    fullName: Option<string>,
    answersJson: string,
    projectLink: Option<string>,
    projectNote: Option<string>,
    scoresJson: string,
    overallScore: int,
    topCandidate: bool,
    llmModel: string,
    latencyMs: int,
    scoringFailed: bool,
    error: Option<string>)

  /** `score_0_10: int = Field(ge=0, le=10)` */
  predicate ValidCriterion(c: ScoreCriterion) {
    0 <= c.score <= 10
  }

  /** Exactly three valid criteria and an overall score in 0..10. */
  predicate ValidScoreResult(r: ScoreResult) {
    && |r.criteria| == 3
    && (forall i :: 0 <= i < |r.criteria| ==> ValidCriterion(r.criteria[i]))
    && 0 <= r.overallScore <= 10
  }

  /** What `SheetRow.model_validate` demands of a row. */
  predicate ValidSheetRow(row: SheetRow) {
    && row.tgUserId >= 0
    && row.projectLink.Some?
    && 0 <= row.overallScore <= 10
    && row.latencyMs >= 0
  }
}
