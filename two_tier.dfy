/** How the retry controller's lightweight gate relates to the evaluation
    engine: both read the same expected decision, and the gate's opt-out rule
    is the engine's opt-out constraint. */
module TwoTier {
  import opened Wrappers
  import opened PyText
  import opened Records
  import opened TextSimilarity
  import Validation
  import EvalRunner

  /** For a task whose constraints ask for opt-out wording, the gate passes an
      output exactly when the engine passes its `channel_match` check and
      fails neither opt-out constraint. So an output the retry loop accepts
      cannot fail the engine on channel or opt-out, and one it rejects fails
      at least one of those three checks. */
  lemma GateAgreesWithEngine(ratio: RatioFn, record: EvalRecord, actual: Decision)
    requires record.assertions.constraints.includeOptOut
    requires Truthy(record.assertions.constraints.primaryCta) ==> !MessageOf(actual).cta.Null?
    ensures var outputMatch := EvalRunner.OutputMatchChecks(ratio, record.expected, actual);
      var constraints := EvalRunner.ConstraintChecks(record.assertions.constraints, actual, record);
      Validation.Errors(record.expected, actual) == [] <==>
        && outputMatch[0] == Check(ChannelMatch, Passed)
        && !Emits(constraints, ConstraintOptOutSms, Failed)
        && !Emits(constraints, ConstraintOptOutEmail, Failed)
  {
    Validation.ErrorsEmptyIff(record.expected, actual);
    EvalRunner.OutputMatchEnds(ratio, record.expected, actual);
    EvalRunner.ConstraintOptOutSmsRule(record.assertions.constraints, actual, record);
    EvalRunner.ConstraintOptOutEmailRule(record.assertions.constraints, actual, record);
  }
}
