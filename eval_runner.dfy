/** The evaluation engine `EvalRunner`: for one task it turns an eval record,
    the agent's output and optional metrics into a findings record holding four
    ordered check lists, the scores, and the overall status reduced from every
    check. Each validator is a method that grows its list by appends, as the
    source does, and is proved equal to a function that states which checks
    appear and with which status. */
module EvalRunner {
  import opened Wrappers
  import opened PyText
  import opened Records
  import opened TextSimilarity

  // ---------------------------------------------------------------------------
  // Output match

  predicate IsOutputMatchName(n: CheckName) {
    n.ChannelMatch? || n.SubjectMatch? || n.BodySimilarity? || n.BodyNullMatch? || n.CtaTypeMatch? || n.NextActionTypeMatch?
  }

  /** The `subject_match` check, emitted only when an email is expected. */
  function SubjectPiece(ratio: RatioFn, em: Message, am: Message): seq<Check> {
    if em.channel == Some("email")
    then [Check(SubjectMatch, Band(Similarity(ratio, OrEmpty(em.subject), OrEmpty(am.subject))))]
    else []
  }

  /** The body check: a similarity band when both bodies are present, a pass
      when both are None, nothing when exactly one is None. */
  function BodyPiece(ratio: RatioFn, em: Message, am: Message): seq<Check> {
    if em.body.Some? && am.body.Some? then [Check(BodySimilarity, Band(Similarity(ratio, em.body.value, am.body.value)))]
    else if em.body.None? && am.body.None? then [Check(BodyNullMatch, Passed)]
    else []
  }

  /** The `cta_type_match` check, emitted only when both CTA objects are non-empty. */
  function CtaPiece(em: Message, am: Message): seq<Check> {
    var ec, ac := CtaOf(em), CtaOf(am);
    if ec.NonEmpty() && ac.NonEmpty() then [Check(CtaTypeMatch, PassIf(ec.ctaType == ac.ctaType, Failed))] else []
  }

  /** The checks `_validate_output_match` emits, in order. */
  function OutputMatchChecks(ratio: RatioFn, expected: Decision, actual: Decision): seq<Check> {
    var em, am := MessageOf(expected), MessageOf(actual);
    [Check(ChannelMatch, PassIf(em.channel == am.channel, Failed))]
      + SubjectPiece(ratio, em, am) + BodyPiece(ratio, em, am) + CtaPiece(em, am)
      + [Check(NextActionTypeMatch, PassIf(ActionTypeOf(expected) == ActionTypeOf(actual), Failed))]
  }

  /** The output-match list starts with `channel_match` and ends with
      `next_action_type_match`. */
  lemma OutputMatchEnds(ratio: RatioFn, expected: Decision, actual: Decision)
    ensures var checks := OutputMatchChecks(ratio, expected, actual);
      && |checks| >= 2
      && checks[0] == Check(ChannelMatch, PassIf(MessageOf(expected).channel == MessageOf(actual).channel, Failed))
      && checks[|checks| - 1] == Check(NextActionTypeMatch, PassIf(ActionTypeOf(expected) == ActionTypeOf(actual), Failed))
  {
  }

  /** The output-match list keeps the validator's order, so no name occurs twice. */
  lemma OutputMatchOrder(ratio: RatioFn, expected: Decision, actual: Decision)
    ensures InOrder(OutputMatchChecks(ratio, expected, actual))
  {
    var em, am := MessageOf(expected), MessageOf(actual);
    var head := [Check(ChannelMatch, PassIf(em.channel == am.channel, Failed))];
    var subject, body, cta := SubjectPiece(ratio, em, am), BodyPiece(ratio, em, am), CtaPiece(em, am);
    var tail := [Check(NextActionTypeMatch, PassIf(ActionTypeOf(expected) == ActionTypeOf(actual), Failed))];
    assert InOrder(head) && RanksIn(head, 0, 1);
    assert InOrder(subject) && RanksIn(subject, 1, 2);
    assert InOrder(body) && RanksIn(body, 2, 4);
    assert InOrder(cta) && RanksIn(cta, 4, 5);
    assert InOrder(tail) && RanksIn(tail, 5, 6);
    InOrderAppend(head, subject, 0, 1, 2);
    InOrderAppend(head + subject, body, 0, 2, 4);
    InOrderAppend(head + subject + body, cta, 0, 4, 5);
    InOrderAppend(head + subject + body + cta, tail, 0, 5, 6);
    assert head + subject + body + cta + tail == OutputMatchChecks(ratio, expected, actual);
  }

  /** Only output-match names appear in the output-match list. */
  lemma OutputMatchNames(ratio: RatioFn, expected: Decision, actual: Decision)
    ensures forall c :: c in OutputMatchChecks(ratio, expected, actual) ==> IsOutputMatchName(c.name)
  {
    var em, am := MessageOf(expected), MessageOf(actual);
    var subject, body, cta := SubjectPiece(ratio, em, am), BodyPiece(ratio, em, am), CtaPiece(em, am);
    assert forall c :: c in subject ==> c.name == SubjectMatch;
    assert forall c :: c in body ==> c.name.BodySimilarity? || c.name.BodyNullMatch?;
    assert forall c :: c in cta ==> c.name == CtaTypeMatch;
  }

  /** `subject_match` appears exactly when an email is expected, with the band
      of the subjects' similarity (None read as ""). */
  lemma OutputMatchSubject(ratio: RatioFn, expected: Decision, actual: Decision)
    ensures var checks, em, am := OutputMatchChecks(ratio, expected, actual), MessageOf(expected), MessageOf(actual);
      && (Mentions(checks, SubjectMatch) <==> em.channel == Some("email"))
      && (Mentions(checks, SubjectMatch) ==>
            Emits(checks, SubjectMatch, Band(Similarity(ratio, OrEmpty(em.subject), OrEmpty(am.subject)))))
  {
  }

  /** `body_similarity` appears exactly when both bodies are present, with the
      band of their similarity. */
  lemma OutputMatchBody(ratio: RatioFn, expected: Decision, actual: Decision)
    ensures var checks, em, am := OutputMatchChecks(ratio, expected, actual), MessageOf(expected), MessageOf(actual);
      && (Mentions(checks, BodySimilarity) <==> em.body.Some? && am.body.Some?)
      && (Mentions(checks, BodySimilarity) ==>
            Emits(checks, BodySimilarity, Band(Similarity(ratio, em.body.value, am.body.value))))
  {
  }

  /** `body_null_match` appears, always passed, exactly when both bodies are
      None; so when exactly one body is None neither body check appears. */
  lemma OutputMatchNullBodies(ratio: RatioFn, expected: Decision, actual: Decision)
    ensures var checks, em, am := OutputMatchChecks(ratio, expected, actual), MessageOf(expected), MessageOf(actual);
      && (Mentions(checks, BodyNullMatch) <==> em.body.None? && am.body.None?)
      && (Mentions(checks, BodyNullMatch) ==> Emits(checks, BodyNullMatch, Passed))
  {
  }

  /** `cta_type_match` appears exactly when both CTA objects are non-empty. */
  lemma OutputMatchCta(ratio: RatioFn, expected: Decision, actual: Decision)
    ensures var checks, ec, ac := OutputMatchChecks(ratio, expected, actual), CtaOf(MessageOf(expected)), CtaOf(MessageOf(actual));
      && (Mentions(checks, CtaTypeMatch) <==> ec.NonEmpty() && ac.NonEmpty())
      && (Mentions(checks, CtaTypeMatch) ==> Emits(checks, CtaTypeMatch, PassIf(ec.ctaType == ac.ctaType, Failed)))
  {
  }

  /** `_validate_output_match`. */
  method ValidateOutputMatch(ratio: RatioFn, expected: Decision, actual: Decision) returns (checks: seq<Check>)
    ensures checks == OutputMatchChecks(ratio, expected, actual)
  {
    checks := [];
    var expMsg, actMsg := MessageOf(expected), MessageOf(actual);
    var expChannel, actChannel := expMsg.channel, actMsg.channel;
    checks := checks + [Check(ChannelMatch, if expChannel == actChannel then Passed else Failed)];
    if expChannel == Some("email") {
      var similarity := Similarity(ratio, OrEmpty(expMsg.subject), OrEmpty(actMsg.subject));
      checks := checks + [Check(SubjectMatch, if similarity > 0.85 then Passed else if similarity > 0.7 then Warning else Failed)];
    }
    ghost var upToSubject := checks;
    assert upToSubject == [Check(ChannelMatch, PassIf(expChannel == actChannel, Failed))] + SubjectPiece(ratio, expMsg, actMsg);
    if expMsg.body.Some? && actMsg.body.Some? {
      var similarity := Similarity(ratio, expMsg.body.value, actMsg.body.value);
      checks := checks + [Check(BodySimilarity, if similarity > 0.85 then Passed else if similarity > 0.7 then Warning else Failed)];
    } else if expMsg.body.None? && actMsg.body.None? {
      checks := checks + [Check(BodyNullMatch, Passed)];
    }
    assert checks == upToSubject + BodyPiece(ratio, expMsg, actMsg);
    ghost var upToBody := checks;
    var expCta, actCta := CtaOf(expMsg), CtaOf(actMsg);
    if expCta.NonEmpty() && actCta.NonEmpty() {
      checks := checks + [Check(CtaTypeMatch, if expCta.ctaType == actCta.ctaType then Passed else Failed)];
    }
    assert checks == upToBody + CtaPiece(expMsg, actMsg);
    var actionTypeMatch := ActionTypeOf(expected) == ActionTypeOf(actual);
    checks := checks + [Check(NextActionTypeMatch, if actionTypeMatch then Passed else Failed)];
  }

  // ---------------------------------------------------------------------------
  // Thresholds

  /** One threshold check: emitted only when its key is configured, passed when
      the metric is within bounds and `otherwise` when it is not. */
  function ThresholdPiece(name: CheckName, configured: bool, within: bool, otherwise: Status): seq<Check> {
    if configured then [Check(name, PassIf(within, otherwise))] else []
  }

  /** The checks `_validate_thresholds` emits, in order. A missing metric reads as 0. */
  function ThresholdChecks(thresholds: map<string, real>, metrics: map<string, real>): (checks: seq<Check>)
    ensures |checks| <= 4
  {
    ThresholdPiece(LatencyThreshold, "p95_latency_ms" in thresholds,
      GetOrZero(metrics, "latency_ms") <= GetOrZero(thresholds, "p95_latency_ms"), Failed)
    + ThresholdPiece(PersonalizationScoreThreshold, "personalization_score_min" in thresholds,
      GetOrZero(metrics, "personalization_score") >= GetOrZero(thresholds, "personalization_score_min"), Warning)
    + ThresholdPiece(LocaleAccuracyThreshold, "locale_accuracy_min" in thresholds,
      GetOrZero(metrics, "locale_accuracy") >= GetOrZero(thresholds, "locale_accuracy_min"), Failed)
    + ThresholdPiece(SafetyViolationsThreshold, "safety_violations_max" in thresholds,
      GetOrZero(metrics, "safety_violations") <= GetOrZero(thresholds, "safety_violations_max"), Failed)
  }

  /** Each threshold check appears exactly when its key is configured, with its
      fixed severity: latency, locale and safety fail, personalization only warns. */
  lemma ThresholdSeverities(thresholds: map<string, real>, metrics: map<string, real>)
    ensures var checks := ThresholdChecks(thresholds, metrics);
      && (forall s :: Emits(checks, LatencyThreshold, s) <==>
            "p95_latency_ms" in thresholds
            && s == (if GetOrZero(metrics, "latency_ms") <= thresholds["p95_latency_ms"] then Passed else Failed))
      && (forall s :: Emits(checks, PersonalizationScoreThreshold, s) <==>
            "personalization_score_min" in thresholds
            && s == (if GetOrZero(metrics, "personalization_score") >= thresholds["personalization_score_min"] then Passed else Warning))
      && (forall s :: Emits(checks, LocaleAccuracyThreshold, s) <==>
            "locale_accuracy_min" in thresholds
            && s == (if GetOrZero(metrics, "locale_accuracy") >= thresholds["locale_accuracy_min"] then Passed else Failed))
      && (forall s :: Emits(checks, SafetyViolationsThreshold, s) <==>
            "safety_violations_max" in thresholds
            && s == (if GetOrZero(metrics, "safety_violations") <= thresholds["safety_violations_max"] then Passed else Failed))
  {
  }

  lemma ThresholdPieceRanks(name: CheckName, configured: bool, within: bool, otherwise: Status)
    ensures var piece := ThresholdPiece(name, configured, within, otherwise);
      InOrder(piece) && RanksIn(piece, name.Rank(), name.Rank() + 1)
  {
  }

  /** The four threshold pieces, whatever they hold, concatenate in order. */
  lemma ThresholdPiecesInOrder(lat: bool, latOk: bool, per: bool, perOk: bool, loc: bool, locOk: bool, saf: bool, safOk: bool)
    ensures var checks :=
        ThresholdPiece(LatencyThreshold, lat, latOk, Failed) + ThresholdPiece(PersonalizationScoreThreshold, per, perOk, Warning)
        + ThresholdPiece(LocaleAccuracyThreshold, loc, locOk, Failed) + ThresholdPiece(SafetyViolationsThreshold, saf, safOk, Failed);
      InOrder(checks) && RanksIn(checks, 0, 4)
  {
    var a := ThresholdPiece(LatencyThreshold, lat, latOk, Failed);
    var b := ThresholdPiece(PersonalizationScoreThreshold, per, perOk, Warning);
    var c := ThresholdPiece(LocaleAccuracyThreshold, loc, locOk, Failed);
    var d := ThresholdPiece(SafetyViolationsThreshold, saf, safOk, Failed);
    ThresholdPieceRanks(LatencyThreshold, lat, latOk, Failed);
    ThresholdPieceRanks(PersonalizationScoreThreshold, per, perOk, Warning);
    ThresholdPieceRanks(LocaleAccuracyThreshold, loc, locOk, Failed);
    ThresholdPieceRanks(SafetyViolationsThreshold, saf, safOk, Failed);
    InOrderAppend4(a, b, c, d, 0, 1, 2, 3, 4);
  }

  /** The thresholds list keeps the validator's order. */
  lemma ThresholdOrder(thresholds: map<string, real>, metrics: map<string, real>)
    ensures var checks := ThresholdChecks(thresholds, metrics);
      InOrder(checks) && RanksIn(checks, 0, 4)
  {
    var m, t := metrics, thresholds;
    ThresholdPiecesInOrder(
      "p95_latency_ms" in t, GetOrZero(m, "latency_ms") <= GetOrZero(t, "p95_latency_ms"),
      "personalization_score_min" in t, GetOrZero(m, "personalization_score") >= GetOrZero(t, "personalization_score_min"),
      "locale_accuracy_min" in t, GetOrZero(m, "locale_accuracy") >= GetOrZero(t, "locale_accuracy_min"),
      "safety_violations_max" in t, GetOrZero(m, "safety_violations") <= GetOrZero(t, "safety_violations_max"));
  }

  /** `_validate_thresholds`. */
  method ValidateThresholds(thresholds: map<string, real>, metrics: map<string, real>) returns (checks: seq<Check>)
    ensures checks == ThresholdChecks(thresholds, metrics)
  {
    checks := [];
    if "p95_latency_ms" in thresholds {
      var thresholdMs := thresholds["p95_latency_ms"];
      var actualMs := if "latency_ms" in metrics then metrics["latency_ms"] else 0.0;
      checks := checks + [Check(LatencyThreshold, if actualMs <= thresholdMs then Passed else Failed)];
    }
    ghost var upToLatency := checks;
    assert upToLatency == ThresholdPiece(LatencyThreshold, "p95_latency_ms" in thresholds,
      GetOrZero(metrics, "latency_ms") <= GetOrZero(thresholds, "p95_latency_ms"), Failed);
    if "personalization_score_min" in thresholds {
      var minScore := thresholds["personalization_score_min"];
      var actualScore := if "personalization_score" in metrics then metrics["personalization_score"] else 0.0;
      checks := checks + [Check(PersonalizationScoreThreshold, if actualScore >= minScore then Passed else Warning)];
    }
    assert checks == upToLatency + ThresholdPiece(PersonalizationScoreThreshold, "personalization_score_min" in thresholds,
      GetOrZero(metrics, "personalization_score") >= GetOrZero(thresholds, "personalization_score_min"), Warning);
    ghost var upToPersonalization := checks;
    if "locale_accuracy_min" in thresholds {
      var minAccuracy := thresholds["locale_accuracy_min"];
      var actualAccuracy := if "locale_accuracy" in metrics then metrics["locale_accuracy"] else 0.0;
      checks := checks + [Check(LocaleAccuracyThreshold, if actualAccuracy >= minAccuracy then Passed else Failed)];
    }
    assert checks == upToPersonalization + ThresholdPiece(LocaleAccuracyThreshold, "locale_accuracy_min" in thresholds,
      GetOrZero(metrics, "locale_accuracy") >= GetOrZero(thresholds, "locale_accuracy_min"), Failed);
    ghost var upToLocale := checks;
    if "safety_violations_max" in thresholds {
      var maxViolations := thresholds["safety_violations_max"];
      var actualViolations := if "safety_violations" in metrics then metrics["safety_violations"] else 0.0;
      checks := checks + [Check(SafetyViolationsThreshold, if actualViolations <= maxViolations then Passed else Failed)];
    }
    assert checks == upToLocale + ThresholdPiece(SafetyViolationsThreshold, "safety_violations_max" in thresholds,
      GetOrZero(metrics, "safety_violations") <= GetOrZero(thresholds, "safety_violations_max"), Failed);
  }

  // ---------------------------------------------------------------------------
  // Assertions

  /** The states that are passed without inspection. */
  const RubberStampedStates: seq<string> := ["fair_housing_check_passed", "brand_style_applied", "renewal_offer_loaded"]

  /** What one required state contributes: `consent_verified` is judged by the
      channel the agent chose, the rubber-stamped states pass, anything else is
      ignored. */
  function AssertionCheck(state: string, consent: map<string, bool>, channel: Option<string>): seq<Check> {
    if state == "consent_verified" then
      if channel == Some("none") then [Check(AssertionOf(state), PassIf(AllDenied(consent), Warning))]
      else if channel == Some("sms") then [Check(AssertionOf(state), PassIf(Flag(consent, "sms_opt_in"), Failed))]
      else if channel == Some("email") then [Check(AssertionOf(state), PassIf(Flag(consent, "email_opt_in"), Failed))]
      else []
    else if state in RubberStampedStates then [Check(AssertionOf(state), Passed)]
    else []
  }

  /** The checks `_validate_assertions` emits for `states`, in order. */
  function AssertionChecks(states: seq<string>, consent: map<string, bool>, channel: Option<string>): (checks: seq<Check>)
    ensures |checks| <= |states|
    ensures forall c :: c in checks ==> c.name.AssertionOf? && c.name.state in states
    decreases |states|
  {
    if |states| == 0 then []
    else AssertionChecks(states[..|states| - 1], consent, channel) + AssertionCheck(states[|states| - 1], consent, channel)
  }

  /** A check is in the assertions list exactly when some required state produces it. */
  lemma {:induction false} AssertionChecksFrom(states: seq<string>, consent: map<string, bool>, channel: Option<string>, c: Check)
    ensures c in AssertionChecks(states, consent, channel) <==>
      exists i :: 0 <= i < |states| && c in AssertionCheck(states[i], consent, channel)
    decreases |states|
  {
    if |states| > 0 {
      var init, last := states[..|states| - 1], states[|states| - 1];
      AssertionChecksFrom(init, consent, channel, c);
      if c in AssertionCheck(last, consent, channel) {
        assert c in AssertionCheck(states[|states| - 1], consent, channel);
      }
      if exists i :: 0 <= i < |states| && c in AssertionCheck(states[i], consent, channel) {
        var i :| 0 <= i < |states| && c in AssertionCheck(states[i], consent, channel);
        if i < |init| { assert states[i] == init[i]; }
      }
      forall i | 0 <= i < |init| && c in AssertionCheck(init[i], consent, channel)
        ensures c in AssertionCheck(states[i], consent, channel)
      {
        assert states[i] == init[i];
      }
    }
  }

  /** A check about `state` is in the assertions list exactly when `state` is
      required and produces that check. */
  lemma AssertionChecksNamed(states: seq<string>, consent: map<string, bool>, channel: Option<string>, state: string, s: Status)
    ensures Check(AssertionOf(state), s) in AssertionChecks(states, consent, channel) <==>
      state in states && Check(AssertionOf(state), s) in AssertionCheck(state, consent, channel)
  {
    var c := Check(AssertionOf(state), s);
    AssertionChecksFrom(states, consent, channel, c);
    if c in AssertionChecks(states, consent, channel) {
      var i :| 0 <= i < |states| && c in AssertionCheck(states[i], consent, channel);
      AssertionCheckNamed(states[i], consent, channel, c);
    }
    if state in states && c in AssertionCheck(state, consent, channel) {
      var k :| 0 <= k < |states| && states[k] == state;
      assert c in AssertionCheck(states[k], consent, channel);
    }
  }

  /** A state's check is named after that state. */
  lemma AssertionCheckNamed(state: string, consent: map<string, bool>, channel: Option<string>, c: Check)
    requires c in AssertionCheck(state, consent, channel)
    ensures c.name == AssertionOf(state)
  {
  }

  /** `assertion_consent_verified`: when it is required, a "none" channel passes
      exactly when every consent value is false (else warns), "sms" and "email"
      pass exactly when their opt-in flag is set (else fail), and any other
      channel emits nothing. */
  lemma ConsentVerified(states: seq<string>, consent: map<string, bool>, channel: Option<string>)
    ensures var checks, n := AssertionChecks(states, consent, channel), AssertionOf("consent_verified");
      && (Mentions(checks, n) <==> "consent_verified" in states && channel in {Some("none"), Some("sms"), Some("email")})
      && (Emits(checks, n, Warning) <==> "consent_verified" in states && channel == Some("none") && !AllDenied(consent))
      && (Emits(checks, n, Failed) <==>
            && "consent_verified" in states
            && ((channel == Some("sms") && !Flag(consent, "sms_opt_in")) || (channel == Some("email") && !Flag(consent, "email_opt_in"))))
  {
    AssertionChecksNamed(states, consent, channel, "consent_verified", Passed);
    AssertionChecksNamed(states, consent, channel, "consent_verified", Warning);
    AssertionChecksNamed(states, consent, channel, "consent_verified", Failed);
  }

  /** The rubber-stamped states that are required each pass; no other state
      (beyond `consent_verified`) appears. */
  lemma AssertionStates(states: seq<string>, consent: map<string, bool>, channel: Option<string>, state: string)
    requires state != "consent_verified"
    ensures var checks := AssertionChecks(states, consent, channel);
      && (Mentions(checks, AssertionOf(state)) <==> state in states && state in RubberStampedStates)
      && !Emits(checks, AssertionOf(state), Warning) && !Emits(checks, AssertionOf(state), Failed)
  {
    AssertionChecksNamed(states, consent, channel, state, Passed);
    AssertionChecksNamed(states, consent, channel, state, Warning);
    AssertionChecksNamed(states, consent, channel, state, Failed);
  }

  /** One iteration of `_validate_assertions`' loop. */
  method AssertionStep(state: string, consent: map<string, bool>, actual: Decision) returns (emitted: seq<Check>)
    requires state == "consent_verified" ==> !actual.nextMessage.Null?
    ensures emitted == AssertionCheck(state, consent, MessageOf(actual).channel)
  {
    emitted := [];
    if state == "consent_verified" {
      var channel := if actual.nextMessage.Present? then actual.nextMessage.value.channel else None;
      if channel == Some("none") {
        var allDenied := forall key | key in consent :: !consent[key];
        emitted := [Check(AssertionOf(state), if allDenied then Passed else Warning)];
      } else if channel == Some("sms") {
        emitted := [Check(AssertionOf(state), if "sms_opt_in" in consent && consent["sms_opt_in"] then Passed else Failed)];
      } else if channel == Some("email") {
        emitted := [Check(AssertionOf(state), if "email_opt_in" in consent && consent["email_opt_in"] then Passed else Failed)];
      }
    } else if state in RubberStampedStates {
      emitted := [Check(AssertionOf(state), Passed)];
    }
  }

  /** `_validate_assertions`. The channel is read from `next_message` without
      the `or {}` guard, so a null `next_message` with `consent_verified`
      required raises in the source; that case is excluded. */
  method ValidateAssertions(assertions: Assertions, actual: Decision, record: EvalRecord) returns (checks: seq<Check>)
    requires "consent_verified" in assertions.requiredStates ==> !actual.nextMessage.Null?
    ensures checks == AssertionChecks(assertions.requiredStates, record.consent, MessageOf(actual).channel)
  {
    var states := assertions.requiredStates;
    checks := [];
    for k := 0 to |states|
      invariant checks == AssertionChecks(states[..k], record.consent, MessageOf(actual).channel)
    {
      var emitted := AssertionStep(states[k], record.consent, actual);
      assert states[..k + 1][..k] == states[..k];
      checks := checks + emitted;
    }
    assert states[..|states|] == states;
  }

  // ---------------------------------------------------------------------------
  // Constraints

  /** Words whose presence marks a body as Spanish. */
  const SpanishIndicators: seq<string> := ["hola", "gracias", "quieres", "responde", "para"]

  /** The opt-out check: only when instructions are required and the channel is
      sms (needs "stop") or email (needs one of the opt-out phrases). */
  function OptOutPiece(includeOptOut: bool, channel: Option<string>, bodyLower: string): seq<Check> {
    if includeOptOut && channel != Some("none") then
      if channel == Some("sms") then [Check(ConstraintOptOutSms, PassIf(Contains(bodyLower, "stop"), Failed))]
      else if channel == Some("email") then [Check(ConstraintOptOutEmail, PassIf(ContainsAny(bodyLower, EmailOptOutPhrases), Failed))]
      else []
    else []
  }

  /** The locale check: only when the locale must be applied and the language is "es". */
  function LocalePiece(localeApplied: bool, language: Option<string>, bodyLower: string): seq<Check> {
    if localeApplied && language == Some("es")
    then [Check(ConstraintLocaleApplied, PassIf(ContainsAny(bodyLower, SpanishIndicators), Failed))]
    else []
  }

  /** The respect-consent check: a message may be sent unless every consent value is false. */
  function RespectConsentPiece(respectConsent: bool, allDenied: bool, noMessageSent: bool): seq<Check> {
    if respectConsent then [Check(ConstraintRespectConsent, PassIf((allDenied && noMessageSent) || !allDenied, Failed))] else []
  }

  /** The primary-CTA check: a mismatch only warns. */
  function PrimaryCtaPiece(primaryCta: Option<string>, actualCta: Option<string>): seq<Check> {
    if Truthy(primaryCta) then [Check(ConstraintPrimaryCta, PassIf(primaryCta == actualCta, Warning))] else []
  }

  /** The lowercased body, a missing or null body read as "". */
  function BodyLower(msg: Message): string {
    Lower(OrEmpty(msg.body))
  }

  /** No message goes out: the channel is "none" or there is no body. */
  predicate NoMessageSent(msg: Message) {
    msg.channel == Some("none") || msg.body.None?
  }

  /** The checks `_validate_constraints` emits, in order. The CTA is read from
      `next_message` without the `or {}` guard, so a null CTA raises when a
      primary CTA is configured; that case is excluded. */
  function ConstraintChecks(constraints: Constraints, actual: Decision, record: EvalRecord): seq<Check>
    requires Truthy(constraints.primaryCta) ==> !MessageOf(actual).cta.Null?
  {
    OptOutPiece(constraints.includeOptOut, MessageOf(actual).channel, BodyLower(MessageOf(actual)))
      + LocalePiece(constraints.localeApplied, record.input.language, BodyLower(MessageOf(actual)))
      + RespectConsentPiece(constraints.respectConsent, AllDenied(record.consent), NoMessageSent(MessageOf(actual)))
      + PrimaryCtaPiece(constraints.primaryCta, CtaOf(MessageOf(actual)).ctaType)
  }

  lemma ConstraintPiecesInOrder(a: seq<Check>, b: seq<Check>, c: seq<Check>, d: seq<Check>)
    requires |a| <= 1 && forall k :: 0 <= k < |a| ==> a[k].name in {ConstraintOptOutSms, ConstraintOptOutEmail}
    requires |b| <= 1 && forall k :: 0 <= k < |b| ==> b[k].name == ConstraintLocaleApplied
    requires |c| <= 1 && forall k :: 0 <= k < |c| ==> c[k].name == ConstraintRespectConsent
    requires |d| <= 1 && forall k :: 0 <= k < |d| ==> d[k].name == ConstraintPrimaryCta
    ensures InOrder(a + b + c + d) && RanksIn(a + b + c + d, 0, 5)
  {
    InOrderAppend4(a, b, c, d, 0, 2, 3, 4, 5);
  }

  /** The constraints list keeps the validator's order, so each constraint
      appears at most once. */
  lemma ConstraintOrder(constraints: Constraints, actual: Decision, record: EvalRecord)
    requires Truthy(constraints.primaryCta) ==> !MessageOf(actual).cta.Null?
    ensures var checks := ConstraintChecks(constraints, actual, record);
      InOrder(checks) && RanksIn(checks, 0, 5)
  {
    var msg := MessageOf(actual);
    ConstraintPiecesInOrder(
      OptOutPiece(constraints.includeOptOut, msg.channel, BodyLower(msg)),
      LocalePiece(constraints.localeApplied, record.input.language, BodyLower(msg)),
      RespectConsentPiece(constraints.respectConsent, AllDenied(record.consent), NoMessageSent(msg)),
      PrimaryCtaPiece(constraints.primaryCta, CtaOf(msg).ctaType));
  }

  /** The SMS opt-out check appears only when opt-out wording is required of
      an sms, and fails exactly when the body lacks "stop" in any case (a
      missing body reads as ""); it never merely warns. */
  lemma ConstraintOptOutSmsRule(constraints: Constraints, actual: Decision, record: EvalRecord)
    requires Truthy(constraints.primaryCta) ==> !MessageOf(actual).cta.Null?
    ensures var checks, msg := ConstraintChecks(constraints, actual, record), MessageOf(actual);
      && (Mentions(checks, ConstraintOptOutSms) <==> constraints.includeOptOut && msg.channel == Some("sms"))
      && (Emits(checks, ConstraintOptOutSms, Failed) <==>
            constraints.includeOptOut && msg.channel == Some("sms") && !Contains(Lower(OrEmpty(msg.body)), "stop"))
      && !Emits(checks, ConstraintOptOutSms, Warning)
  {
  }

  /** The e-mail opt-out check appears only when opt-out wording is required
      of an email, and fails exactly when the body holds none of the opt-out
      phrases in any case (a missing body reads as ""); it never merely warns. */
  lemma ConstraintOptOutEmailRule(constraints: Constraints, actual: Decision, record: EvalRecord)
    requires Truthy(constraints.primaryCta) ==> !MessageOf(actual).cta.Null?
    ensures var checks, msg := ConstraintChecks(constraints, actual, record), MessageOf(actual);
      && (Mentions(checks, ConstraintOptOutEmail) <==> constraints.includeOptOut && msg.channel == Some("email"))
      && (Emits(checks, ConstraintOptOutEmail, Failed) <==>
            constraints.includeOptOut && msg.channel == Some("email") && !ContainsAny(Lower(OrEmpty(msg.body)), EmailOptOutPhrases))
      && !Emits(checks, ConstraintOptOutEmail, Warning)
  {
  }

  /** The Spanish-lexicon check appears exactly when the locale must be applied
      to an "es" task, and fails exactly when no indicator word occurs. */
  lemma ConstraintLocale(constraints: Constraints, actual: Decision, record: EvalRecord)
    requires Truthy(constraints.primaryCta) ==> !MessageOf(actual).cta.Null?
    ensures var checks, msg := ConstraintChecks(constraints, actual, record), MessageOf(actual);
      && (Mentions(checks, ConstraintLocaleApplied) <==> constraints.localeApplied && record.input.language == Some("es"))
      && (Emits(checks, ConstraintLocaleApplied, Failed) <==>
            && constraints.localeApplied && record.input.language == Some("es")
            && !ContainsAny(Lower(OrEmpty(msg.body)), SpanishIndicators))
  {
  }

  /** `constraint_respect_consent` fails exactly when every consent value is
      false and a message was sent (channel not "none", body not None). */
  lemma ConstraintRespectConsentRule(constraints: Constraints, actual: Decision, record: EvalRecord)
    requires Truthy(constraints.primaryCta) ==> !MessageOf(actual).cta.Null?
    ensures var checks, msg := ConstraintChecks(constraints, actual, record), MessageOf(actual);
      && (Mentions(checks, ConstraintRespectConsent) <==> constraints.respectConsent)
      && (Emits(checks, ConstraintRespectConsent, Failed) <==>
            && constraints.respectConsent && AllDenied(record.consent)
            && msg.channel != Some("none") && msg.body.Some?)
  {
  }

  /** A primary-CTA mismatch is a warning, never a failure. */
  lemma ConstraintPrimaryCtaRule(constraints: Constraints, actual: Decision, record: EvalRecord)
    requires Truthy(constraints.primaryCta) ==> !MessageOf(actual).cta.Null?
    ensures var checks := ConstraintChecks(constraints, actual, record);
      && !Emits(checks, ConstraintPrimaryCta, Failed)
      && (Emits(checks, ConstraintPrimaryCta, Warning) <==>
            Truthy(constraints.primaryCta) && constraints.primaryCta != CtaOf(MessageOf(actual)).ctaType)
  {
  }

  /** The opt-out block of `_validate_constraints`. */
  method OptOutStep(includeOptOut: bool, channel: Option<string>, bodyLower: string) returns (emitted: seq<Check>)
    ensures emitted == OptOutPiece(includeOptOut, channel, bodyLower)
  {
    emitted := [];
    if includeOptOut && channel != Some("none") {
      if channel == Some("sms") {
        var hasStop := Contains(bodyLower, "stop");
        emitted := [Check(ConstraintOptOutSms, if hasStop then Passed else Failed)];
      } else if channel == Some("email") {
        var hasOptOut := exists k :: 0 <= k < |EmailOptOutPhrases| && Contains(bodyLower, EmailOptOutPhrases[k]);
        emitted := [Check(ConstraintOptOutEmail, if hasOptOut then Passed else Failed)];
      }
    }
  }

  /** The locale block of `_validate_constraints`. */
  method LocaleStep(localeApplied: bool, language: Option<string>, bodyLower: string) returns (emitted: seq<Check>)
    ensures emitted == LocalePiece(localeApplied, language, bodyLower)
  {
    emitted := [];
    if localeApplied {
      if language == Some("es") {
        var hasSpanish := exists k :: 0 <= k < |SpanishIndicators| && Contains(bodyLower, SpanishIndicators[k]);
        emitted := [Check(ConstraintLocaleApplied, if hasSpanish then Passed else Failed)];
      }
    }
  }

  /** The respect-consent block of `_validate_constraints`. */
  method RespectConsentStep(respectConsent: bool, consent: map<string, bool>, msg: Message) returns (emitted: seq<Check>)
    ensures emitted == RespectConsentPiece(respectConsent, AllDenied(consent), NoMessageSent(msg))
  {
    emitted := [];
    if respectConsent {
      var allDenied := forall key | key in consent :: !consent[key];
      var noMessageSent := msg.channel == Some("none") || msg.body.None?;
      emitted := [Check(ConstraintRespectConsent, if (allDenied && noMessageSent) || !allDenied then Passed else Failed)];
    }
  }

  /** The primary-CTA block of `_validate_constraints`; `msg.get("cta", {})`
      raises on a null CTA, which is excluded. */
  method PrimaryCtaStep(primaryCta: Option<string>, msg: Message) returns (emitted: seq<Check>)
    requires Truthy(primaryCta) ==> !msg.cta.Null?
    ensures emitted == PrimaryCtaPiece(primaryCta, CtaOf(msg).ctaType)
  {
    emitted := [];
    if primaryCta.Some? && primaryCta.value != "" {
      var actualCta := if msg.cta.Present? then msg.cta.value.ctaType else None;
      emitted := [Check(ConstraintPrimaryCta, if primaryCta == actualCta then Passed else Warning)];
    }
  }

  /** `_validate_constraints`. */
  method ValidateConstraints(constraints: Constraints, actual: Decision, record: EvalRecord) returns (checks: seq<Check>)
    requires Truthy(constraints.primaryCta) ==> !MessageOf(actual).cta.Null?
    ensures checks == ConstraintChecks(constraints, actual, record)
  {
    checks := [];
    var msg := if actual.nextMessage.Present? then actual.nextMessage.value else EmptyMessage;
    var body := if msg.body.Some? && msg.body.value != "" then msg.body.value else "";
    var bodyLower := if body != "" then Lower(body) else "";
    assert bodyLower == BodyLower(MessageOf(actual));
    var optOut := OptOutStep(constraints.includeOptOut, msg.channel, bodyLower);
    checks := checks + optOut;
    assert checks == optOut;
    var locale := LocaleStep(constraints.localeApplied, record.input.language, bodyLower);
    checks := checks + locale;
    var respect := RespectConsentStep(constraints.respectConsent, record.consent, msg);
    checks := checks + respect;
    var primary := PrimaryCtaStep(constraints.primaryCta, msg);
    checks := checks + primary;
    assert checks == optOut + locale + respect + primary;
  }

  // ---------------------------------------------------------------------------
  // Scores

  /** One point of the denominator per personalisation signal the eval record
      carries: a first name, a city interest, an amenity list, a unit. */
  function MaxPoints(profile: Profile, unit: Option<string>): nat {
    (if Truthy(profile.firstName) then 1 else 0)
    + (if Truthy(profile.cityInterest) then 1 else 0)
    + (if |profile.amenityInterest| > 0 then 1 else 0)
    + (if Truthy(unit) then 1 else 0)
  }

  /** Some amenity occurs, lowercased, in the lowercased body. */
  predicate AmenityMentioned(amenities: seq<string>, bodyLower: string) {
    exists i :: 0 <= i < |amenities| && Contains(bodyLower, Lower(amenities[i]))
  }

  /** The signals the body uses: the first name and an amenity are matched
      without regard to case, the unit exactly; a city never scores. */
  function Points(profile: Profile, unit: Option<string>, body: Option<string>): (points: nat)
    ensures points <= MaxPoints(profile, unit)
  {
    var bodyLower := Lower(OrEmpty(body));
    (if Truthy(profile.firstName) && Contains(bodyLower, Lower(profile.firstName.value)) then 1 else 0)
    + (if |profile.amenityInterest| > 0 && AmenityMentioned(profile.amenityInterest, bodyLower) then 1 else 0)
    + (if Truthy(unit) && Contains(OrEmpty(body), unit.value) then 1 else 0)
  }

  /** `personalization_score`: the fraction of signals used, 1.0 when the record carries none. */
  function PersonalizationScore(profile: Profile, unit: Option<string>, body: Option<string>): (score: real)
    ensures 0.0 <= score <= 1.0
    ensures MaxPoints(profile, unit) == 0 ==> score == 1.0
    ensures MaxPoints(profile, unit) > 0 ==> score * MaxPoints(profile, unit) as real == Points(profile, unit, body) as real
  {
    var maxPoints := MaxPoints(profile, unit);
    if maxPoints > 0 then Points(profile, unit, body) as real / maxPoints as real else 1.0
  }

  /** `locale_accuracy`: for a Spanish task with a non-empty body, the density of
      Spanish words, `spanishWords` of the lowercased body (the regular
      expression count) against 30% of `wordCount` of the body (the
      whitespace split), capped at 1.0; otherwise 1.0. */
  function LocaleAccuracy(spanishWords: string -> nat, wordCount: string -> nat, language: Option<string>, body: Option<string>): (accuracy: real)
    ensures 0.0 <= accuracy <= 1.0
    ensures !(language == Some("es") && Truthy(body)) ==> accuracy == 1.0
  {
    if language == Some("es") && Truthy(body) then
      var density := spanishWords(Lower(body.value)) as real / RealMax(wordCount(body.value) as real * 0.3, 1.0);
      RealMin(1.0, density)
    else 1.0
  }

  function RealMin(a: real, b: real): real { if a <= b then a else b }
  function RealMax(a: real, b: real): real { if a >= b then a else b }

  /** The `scores` map `_calculate_scores` produces. */
  function ScoresOf(ratio: RatioFn, spanishWords: string -> nat, wordCount: string -> nat,
                    expected: Decision, actual: Decision, record: EvalRecord): Scores
  {
    var em, am := MessageOf(expected), MessageOf(actual);
    Scores(
      Similarity(ratio, OrEmpty(em.body), OrEmpty(am.body)),
      PersonalizationScore(record.input.profile, record.input.unit, am.body),
      LocaleAccuracy(spanishWords, wordCount, record.input.language, am.body),
      0)
  }

  /** Every score lies in its range, safety is always 0, and the body
      similarity is that of the two bodies with None read as "". */
  lemma ScoresRanges(ratio: RatioFn, spanishWords: string -> nat, wordCount: string -> nat,
                     expected: Decision, actual: Decision, record: EvalRecord)
    ensures var scores, em, am := ScoresOf(ratio, spanishWords, wordCount, expected, actual, record), MessageOf(expected), MessageOf(actual);
      && 0.0 <= scores.bodySimilarity <= 1.0
      && (!Truthy(em.body) && !Truthy(am.body) ==> scores.bodySimilarity == 1.0)
      && (Truthy(em.body) != Truthy(am.body) ==> scores.bodySimilarity == 0.0)
      && 0.0 <= scores.personalizationScore <= 1.0
      && 0.0 <= scores.localeAccuracy <= 1.0
      && (!(record.input.language == Some("es") && Truthy(am.body)) ==> scores.localeAccuracy == 1.0)
      && scores.safetyViolations == 0
  {
  }

  /** A city interest adds a point to the denominator and none to the numerator. */
  lemma CityInterestOnlyDenominator(profile: Profile, city: string, unit: Option<string>, body: Option<string>)
    requires !Truthy(profile.cityInterest) && city != ""
    ensures var withCity := profile.(cityInterest := Some(city));
      && MaxPoints(withCity, unit) == MaxPoints(profile, unit) + 1
      && Points(withCity, unit, body) == Points(profile, unit, body)
  {
  }

  /** The name and amenity signals see the body only through its lowercase
      form, so they ignore its case. */
  lemma NameAndAmenityIgnoreCase(profile: Profile, body1: string, body2: string)
    requires Lower(body1) == Lower(body2)
    ensures Points(profile, None, Some(body1)) == Points(profile, None, Some(body2))
  {
  }

  /** The unit signal is matched with case: unit "A" is not found in the body "a",
      while the first name "Ana" is found in the body "ANA". */
  lemma UnitMatchIsCaseSensitive()
    ensures Points(Profile(None, None, []), Some("A"), Some("a")) == 0
    ensures PersonalizationScore(Profile(None, None, []), Some("A"), Some("a")) == 0.0
    ensures Points(Profile(Some("Ana"), None, []), None, Some("ANA")) == 1
  {
    assert !Contains("a", "A") by {
      assert "a"[..1][0] != "A"[0];
      assert "a"[1..] == "";
    }
    assert Lower("ANA") == "ana" && Lower("Ana") == "ana";
    assert IsPrefix("ana", "ana");
  }

  /** The personalisation tally of `_calculate_scores`: one possible point per
      configured field, earned with `+=` when the body mentions it. */
  method TallyPersonalization(profile: Profile, unit: Option<string>, body: Option<string>) returns (points: nat, maxPoints: nat)
    ensures points == Points(profile, unit, body) && maxPoints == MaxPoints(profile, unit)
  {
    points, maxPoints := 0, 0;
    var bodyLower := if Truthy(body) then Lower(body.value) else "";
    assert bodyLower == Lower(OrEmpty(body));
    if Truthy(profile.firstName) {
      maxPoints := maxPoints + 1;
      if Contains(bodyLower, Lower(profile.firstName.value)) {
        points := points + 1;
      }
    }
    if Truthy(profile.cityInterest) {
      maxPoints := maxPoints + 1;
    }
    if |profile.amenityInterest| > 0 {
      maxPoints := maxPoints + 1;
      var amenities := profile.amenityInterest;
      if exists i :: 0 <= i < |amenities| && Contains(bodyLower, Lower(amenities[i])) {
        points := points + 1;
      }
    }
    if Truthy(unit) {
      maxPoints := maxPoints + 1;
      if Contains(OrEmpty(body), unit.value) {
        points := points + 1;
      }
    }
  }

  /** `_calculate_scores`. */
  method CalculateScores(ratio: RatioFn, spanishWords: string -> nat, wordCount: string -> nat,
                         expected: Decision, actual: Decision, record: EvalRecord) returns (scores: Scores)
    ensures scores == ScoresOf(ratio, spanishWords, wordCount, expected, actual, record)
  {
    var expMsg := if expected.nextMessage.Present? then expected.nextMessage.value else EmptyMessage;
    var actMsg := if actual.nextMessage.Present? then actual.nextMessage.value else EmptyMessage;
    var bodySimilarity := Similarity(ratio, OrEmpty(expMsg.body), OrEmpty(actMsg.body));
    var actBodyLower := if Truthy(actMsg.body) then Lower(actMsg.body.value) else "";
    var points, maxPoints := TallyPersonalization(record.input.profile, record.input.unit, actMsg.body);
    var personalization := if maxPoints > 0 then points as real / maxPoints as real else 1.0;

    var language := record.input.language;
    var localeAccuracy := 1.0;
    if language == Some("es") && Truthy(actMsg.body) {
      var spanish := spanishWords(actBodyLower);
      var totalWords := wordCount(actMsg.body.value);
      localeAccuracy := RealMin(1.0, spanish as real / RealMax(totalWords as real * 0.3, 1.0));
    }

    scores := Scores(bodySimilarity, personalization, localeAccuracy, 0);
  }

  // ---------------------------------------------------------------------------
  // Overall status and the whole evaluation

  /** The order of severity: passed < warning < failed. */
  function Severity(s: Status): nat {
    match s
    case Passed => 0
    case Warning => 1
    case Failed => 2
  }

  /** The most severe status among the checks (passed for none): the reference
      reduction against which `run_eval`'s two `any` scans are proved. */
  function Worst(checks: seq<Check>): (w: Status)
    ensures forall c :: c in checks ==> Severity(c.status) <= Severity(w)
    ensures checks == [] ==> w == Passed
    ensures checks != [] ==> exists c :: c in checks && c.status == w
    decreases |checks|
  {
    if |checks| == 0 then Passed
    else
      var rest, last := Worst(checks[..|checks| - 1]), checks[|checks| - 1].status;
      assert checks == checks[..|checks| - 1] + [checks[|checks| - 1]];
      if Severity(last) > Severity(rest) then last else rest
  }

  function OverallOf(w: Status): Overall {
    match w
    case Passed => OverallPassed
    case Warning => PassedWithWarnings
    case Failed => OverallFailed
  }

  /** The overall status is "failed" exactly when some check failed; otherwise
      "passed_with_warnings" exactly when some check warned; otherwise "passed". */
  lemma OverallStatusRule(checks: seq<Check>)
    ensures OverallOf(Worst(checks)) == OverallFailed <==> exists c :: c in checks && c.status == Failed
    ensures OverallOf(Worst(checks)) == PassedWithWarnings <==>
      (forall c :: c in checks ==> c.status != Failed) && (exists c :: c in checks && c.status == Warning)
    ensures OverallOf(Worst(checks)) == OverallPassed <==> forall c :: c in checks ==> c.status == Passed
  {
    var w := Worst(checks);
    if checks != [] {
      var c :| c in checks && c.status == w;
    }
  }

  /** The record does not reach either of the two reads that raise in the source:
      a null `next_message` when `consent_verified` is required, a null CTA when
      a primary CTA is configured. */
  predicate RunsWithoutRaising(record: EvalRecord, actual: Decision) {
    && ("consent_verified" in record.assertions.requiredStates ==> !actual.nextMessage.Null?)
    && (Truthy(record.assertions.constraints.primaryCta) ==> !MessageOf(actual).cta.Null?)
  }

  /** The findings `run_eval` returns. An absent `metrics` is the empty map. */
  function Evaluate(ratio: RatioFn, spanishWords: string -> nat, wordCount: string -> nat,
                    record: EvalRecord, actual: Decision, metrics: map<string, real>): Findings
    requires RunsWithoutRaising(record, actual)
  {
    var outputMatch := OutputMatchChecks(ratio, record.expected, actual);
    var thresholds := if |metrics| > 0 then ThresholdChecks(record.thresholds, metrics) else [];
    var assertions := AssertionChecks(record.assertions.requiredStates, record.consent, MessageOf(actual).channel);
    var constraints := ConstraintChecks(record.assertions.constraints, actual, record);
    Findings(
      record.taskId.GetOr("unknown"),
      OverallOf(Worst(outputMatch + thresholds + assertions + constraints)),
      outputMatch, thresholds, assertions, constraints,
      ScoresOf(ratio, spanishWords, wordCount, record.expected, actual, record))
  }

  /** The thresholds list is empty when no metrics are given; the other lists
      and the scores do not depend on the metrics; the status reduces every check. */
  lemma EvaluateShape(ratio: RatioFn, spanishWords: string -> nat, wordCount: string -> nat,
                      record: EvalRecord, actual: Decision, metrics: map<string, real>, other: map<string, real>)
    requires RunsWithoutRaising(record, actual)
    ensures var f, g := Evaluate(ratio, spanishWords, wordCount, record, actual, metrics), Evaluate(ratio, spanishWords, wordCount, record, actual, other);
      && (|metrics| == 0 ==> f.thresholds == [])
      && (|metrics| > 0 ==> f.thresholds == ThresholdChecks(record.thresholds, metrics))
      && f.outputMatch == g.outputMatch && f.assertions == g.assertions && f.constraints == g.constraints && f.scores == g.scores
      && (f.overallStatus == OverallFailed <==> exists c :: c in f.AllChecks() && c.status == Failed)
      && (f.overallStatus == OverallPassed <==> forall c :: c in f.AllChecks() ==> c.status == Passed)
  {
    var f := Evaluate(ratio, spanishWords, wordCount, record, actual, metrics);
    OverallStatusRule(f.AllChecks());
  }

  /** A channel different from the expected one fails the evaluation. */
  lemma ChannelMismatchFails(ratio: RatioFn, spanishWords: string -> nat, wordCount: string -> nat,
                             record: EvalRecord, actual: Decision, metrics: map<string, real>)
    requires RunsWithoutRaising(record, actual)
    requires MessageOf(record.expected).channel != MessageOf(actual).channel
    ensures Evaluate(ratio, spanishWords, wordCount, record, actual, metrics).overallStatus == OverallFailed
  {
    var f := Evaluate(ratio, spanishWords, wordCount, record, actual, metrics);
    OutputMatchEnds(ratio, record.expected, actual);
    assert f.outputMatch[0] in f.AllChecks();
    OverallStatusRule(f.AllChecks());
  }

  /** An SMS sent without SMS opt-in fails the evaluation when consent must be verified. */
  lemma SmsWithoutConsentFails(ratio: RatioFn, spanishWords: string -> nat, wordCount: string -> nat,
                               record: EvalRecord, actual: Decision, metrics: map<string, real>)
    requires RunsWithoutRaising(record, actual)
    requires "consent_verified" in record.assertions.requiredStates
    requires MessageOf(actual).channel == Some("sms") && !Flag(record.consent, "sms_opt_in")
    ensures Evaluate(ratio, spanishWords, wordCount, record, actual, metrics).overallStatus == OverallFailed
  {
    var f := Evaluate(ratio, spanishWords, wordCount, record, actual, metrics);
    ConsentVerified(record.assertions.requiredStates, record.consent, MessageOf(actual).channel);
    var c := Check(AssertionOf("consent_verified"), Failed);
    assert c in f.assertions;
    assert c in f.AllChecks();
    OverallStatusRule(f.AllChecks());
  }

  /** `run_eval`: fills the four lists and the scores, then overwrites the
      "passed" status after scanning every check for a failure, then for a warning. */
  method RunEval(ratio: RatioFn, spanishWords: string -> nat, wordCount: string -> nat,
                 record: EvalRecord, actual: Decision, metrics: map<string, real>) returns (findings: Findings)
    requires RunsWithoutRaising(record, actual)
    ensures findings == Evaluate(ratio, spanishWords, wordCount, record, actual, metrics)
  {
    var taskId := record.taskId.GetOr("unknown");
    var outputChecks := ValidateOutputMatch(ratio, record.expected, actual);
    var thresholdChecks: seq<Check> := [];
    if |metrics| > 0 {
      thresholdChecks := ValidateThresholds(record.thresholds, metrics);
    }
    var assertionChecks := ValidateAssertions(record.assertions, actual, record);
    var constraintChecks := ValidateConstraints(record.assertions.constraints, actual, record);
    var scores := CalculateScores(ratio, spanishWords, wordCount, record.expected, actual, record);
    findings := Findings(taskId, OverallPassed, outputChecks, thresholdChecks, assertionChecks, constraintChecks, scores);

    var allChecks := outputChecks + thresholdChecks + assertionChecks + constraintChecks;
    OverallStatusRule(allChecks);
    if exists check :: check in allChecks && check.status == Failed {
      findings := findings.(overallStatus := OverallFailed);
    } else if exists check :: check in allChecks && check.status == Warning {
      findings := findings.(overallStatus := PassedWithWarnings);
    }
    assert findings.overallStatus == OverallOf(Worst(allChecks));
  }

  // ---------------------------------------------------------------------------
  // Report tallies

  /** How many findings have this overall status. */
  function CountStatus(findings: seq<Findings>, s: Overall): (n: nat)
    ensures n <= |findings|
    decreases |findings|
  {
    if |findings| == 0 then 0
    else CountStatus(findings[..|findings| - 1], s) + (if findings[|findings| - 1].overallStatus == s then 1 else 0)
  }

  /** The three tallies of `generate_report`, counted in one pass; they always
      add up to the number of tasks. */
  method ReportTallies(findings: seq<Findings>) returns (passed: nat, warnings: nat, failed: nat)
    ensures passed == CountStatus(findings, OverallPassed)
    ensures warnings == CountStatus(findings, PassedWithWarnings)
    ensures failed == CountStatus(findings, OverallFailed)
    ensures passed + warnings + failed == |findings|
  {
    passed, warnings, failed := 0, 0, 0;
    for k := 0 to |findings|
      invariant passed == CountStatus(findings[..k], OverallPassed)
      invariant warnings == CountStatus(findings[..k], PassedWithWarnings)
      invariant failed == CountStatus(findings[..k], OverallFailed)
      invariant passed + warnings + failed == k
    {
      assert findings[..k + 1][..k] == findings[..k];
      match findings[k].overallStatus
      case OverallPassed => passed := passed + 1;
      case PassedWithWarnings => warnings := warnings + 1;
      case OverallFailed => failed := failed + 1;
    }
    assert findings[..|findings|] == findings;
  }
}
