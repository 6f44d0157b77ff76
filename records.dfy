/** The data model shared by the evaluation engine, the validation gate, the
    retry controller and the comparison tool: decisions, eval records, checks
    and findings, with the source's `d.get(key, {}) or {}` reads spelled out. */
module Records {
  import opened Wrappers
  import opened PyText

  /** A call-to-action object. `ctaType` is its "type" entry (None when that key
      is missing or null); `otherEntries` counts every other entry of the dict
      ("options", "link", ...), a "type" entry whose value is null included, so
      `{"type": null}` is `Cta(None, 1)`. */
  datatype Cta = Cta(ctaType: Option<string>, otherEntries: nat) {
    /** Python truthiness of the dict: it has at least one entry. */
    predicate NonEmpty() {
      ctaType.Some? || otherEntries > 0
    }
  }

  const EmptyCta := Cta(None, 0)

  /** The `next_message` object of a decision. Channel is kept as the raw string
      ("email", "sms", "voice", "none", or anything else the agent produced). */
  datatype Message = Message(channel: Option<string>, subject: Option<string>, body: Option<string>, cta: Field<Cta>)

  const EmptyMessage := Message(None, None, None, Absent)

  /** The `next_action` object of a decision. */
  datatype Action = Action(actionType: Option<string>)

  /** A decision: the `expected` entry of an eval record, or the agent's output.
      `otherKeys` counts the object's keys other than `next_message` and `next_action`. */
  datatype Decision = Decision(nextMessage: Field<Message>, nextAction: Field<Action>, otherKeys: nat) {
    /** The object has no keys at all: the dict `{}`, the only object Python treats as false. */
    predicate IsEmpty() {
      nextMessage.Absent? && nextAction.Absent? && otherKeys == 0
    }
  }

  const EmptyDecision := Decision(Absent, Absent, 0)

  /** `d.get("next_message", {}) or {}`. */
  function MessageOf(d: Decision): Message {
    if d.nextMessage.Present? then d.nextMessage.value else EmptyMessage
  }

  /** `(d.get("next_action", {}) or {}).get("type")`. */
  function ActionTypeOf(d: Decision): Option<string> {
    if d.nextAction.Present? then d.nextAction.value.actionType else None
  }

  /** `m.get("cta", {}) or {}`. */
  function CtaOf(m: Message): Cta {
    if m.cta.Present? then m.cta.value else EmptyCta
  }

  /** The personalisation fields of `input.profile`. An `amenity_interest`
      that is missing or null is the empty list. */
  datatype Profile = Profile(firstName: Option<string>, cityInterest: Option<string>, amenityInterest: seq<string>)

  /** The `input` object of an eval record. */
  datatype Input = Input(profile: Profile, language: Option<string>, unit: Option<string>)

  /** `assertions.constraints`: the boolean flags and the expected primary CTA type. */
  datatype Constraints = Constraints(includeOptOut: bool, localeApplied: bool, respectConsent: bool, primaryCta: Option<string>)

  /** `assertions`: the ordered `required_states` and the constraints. */
  datatype Assertions = Assertions(requiredStates: seq<string>, constraints: Constraints)

  /** One eval record. `taskId` is None when the key is missing. */
  datatype EvalRecord = EvalRecord(
    taskId: Option<string>,
    expected: Decision,
    thresholds: map<string, real>,
    assertions: Assertions,
    consent: map<string, bool>,
    input: Input)

  /** `d.get(key)` is truthy for a consent record. */
  predicate Flag(consent: map<string, bool>, key: string) {
    key in consent && consent[key]
  }

  /** `not any(consent.values())`. */
  predicate AllDenied(consent: map<string, bool>) {
    forall k :: k in consent ==> !consent[k]
  }

  /** `m.get(key, 0)` for a map of numeric metrics. */
  function GetOrZero(m: map<string, real>, key: string): real {
    if key in m then m[key] else 0.0
  }

  /** Wording that counts as an e-mail opt-out instruction; the evaluation
      engine, the retry gate and the compliance tool each test for these three. */
  const EmailOptOutPhrases: seq<string> := ["opt", "unsubscribe", "reply stop"]

  datatype Status = Passed | Warning | Failed

  /** The stable identifiers of checks; `Text` is the name the source writes. */
  datatype CheckName =
    | ChannelMatch | SubjectMatch | BodySimilarity | BodyNullMatch | CtaTypeMatch | NextActionTypeMatch
    | LatencyThreshold | PersonalizationScoreThreshold | LocaleAccuracyThreshold | SafetyViolationsThreshold
    | AssertionOf(state: string)
    | ConstraintOptOutSms | ConstraintOptOutEmail | ConstraintLocaleApplied | ConstraintRespectConsent | ConstraintPrimaryCta
  {
    function Text(): string {
      match this
      case ChannelMatch => "channel_match"
      case SubjectMatch => "subject_match"
      case BodySimilarity => "body_similarity"
      case BodyNullMatch => "body_null_match"
      case CtaTypeMatch => "cta_type_match"
      case NextActionTypeMatch => "next_action_type_match"
      case LatencyThreshold => "latency_threshold"
      case PersonalizationScoreThreshold => "personalization_score_threshold"
      case LocaleAccuracyThreshold => "locale_accuracy_threshold"
      case SafetyViolationsThreshold => "safety_violations_threshold"
      case AssertionOf(s) => "assertion_" + s
      case ConstraintOptOutSms => "constraint_opt_out_sms"
      case ConstraintOptOutEmail => "constraint_opt_out_email"
      case ConstraintLocaleApplied => "constraint_locale_applied"
      case ConstraintRespectConsent => "constraint_respect_consent"
      case ConstraintPrimaryCta => "constraint_primary_cta"
    }

    /** Position of a check in the order its validator emits it. */
    function Rank(): nat {
      match this
      case ChannelMatch => 0
      case SubjectMatch => 1
      case BodySimilarity => 2
      case BodyNullMatch => 3
      case CtaTypeMatch => 4
      case NextActionTypeMatch => 5
      case LatencyThreshold => 0
      case PersonalizationScoreThreshold => 1
      case LocaleAccuracyThreshold => 2
      case SafetyViolationsThreshold => 3
      case AssertionOf(_) => 0
      case ConstraintOptOutSms => 0
      case ConstraintOptOutEmail => 1
      case ConstraintLocaleApplied => 2
      case ConstraintRespectConsent => 3
      case ConstraintPrimaryCta => 4
    }
  }

  /** The name and status of one check; its message and compared values are prose. */
  datatype Check = Check(name: CheckName, status: Status)

  /** `status` is "passed" when `ok` holds and `otherwise` when it does not. */
  function PassIf(ok: bool, otherwise: Status): Status {
    if ok then Passed else otherwise
  }

  /** Some check in the list has this name and this status. */
  predicate Emits(checks: seq<Check>, n: CheckName, s: Status) {
    Check(n, s) in checks
  }

  /** Some check in the list has this name. */
  predicate Mentions(checks: seq<Check>, n: CheckName) {
    Emits(checks, n, Passed) || Emits(checks, n, Warning) || Emits(checks, n, Failed)
  }

  /** Checks appear in their validator's order, so no name occurs twice. */
  predicate InOrder(checks: seq<Check>) {
    forall i, j :: 0 <= i < j < |checks| ==> checks[i].name.Rank() < checks[j].name.Rank()
  }

  /** Every check's rank lies in [lo, hi). */
  predicate RanksIn(checks: seq<Check>, lo: nat, hi: nat) {
    forall i :: 0 <= i < |checks| ==> lo <= checks[i].name.Rank() < hi
  }

  /** Two ordered lists whose ranks lie in consecutive ranges concatenate to an ordered list. */
  lemma InOrderAppend(a: seq<Check>, b: seq<Check>, lo: nat, mid: nat, hi: nat)
    requires lo <= mid <= hi
    requires InOrder(a) && InOrder(b) && RanksIn(a, lo, mid) && RanksIn(b, mid, hi)
    ensures InOrder(a + b) && RanksIn(a + b, lo, hi)
  {
    forall i, j | 0 <= i < j < |a + b|
      ensures (a + b)[i].name.Rank() < (a + b)[j].name.Rank()
    {
      if j < |a| {
        assert (a + b)[i] == a[i] && (a + b)[j] == a[j];
      } else if i < |a| {
        assert (a + b)[i] == a[i] && (a + b)[j] == b[j - |a|];
      } else {
        assert (a + b)[i] == b[i - |a|] && (a + b)[j] == b[j - |a|];
      }
    }
    forall i | 0 <= i < |a + b| ensures lo <= (a + b)[i].name.Rank() < hi {
      if i < |a| { assert (a + b)[i] == a[i]; } else { assert (a + b)[i] == b[i - |a|]; }
    }
  }

  /** Four ordered lists whose ranks lie in consecutive ranges concatenate to an ordered list. */
  lemma InOrderAppend4(a: seq<Check>, b: seq<Check>, c: seq<Check>, d: seq<Check>, k0: nat, k1: nat, k2: nat, k3: nat, k4: nat)
    requires k0 <= k1 <= k2 <= k3 <= k4
    requires InOrder(a) && RanksIn(a, k0, k1) && InOrder(b) && RanksIn(b, k1, k2)
    requires InOrder(c) && RanksIn(c, k2, k3) && InOrder(d) && RanksIn(d, k3, k4)
    ensures InOrder(a + b + c + d) && RanksIn(a + b + c + d, k0, k4)
  {
    InOrderAppend(a, b, k0, k1, k2);
    InOrderAppend(a + b, c, k0, k2, k3);
    InOrderAppend(a + b + c, d, k0, k3, k4);
  }

  datatype Overall = OverallPassed | PassedWithWarnings | OverallFailed

  /** The `scores` map of a findings record. */
  datatype Scores = Scores(bodySimilarity: real, personalizationScore: real, localeAccuracy: real, safetyViolations: nat)

  /** The verdict for one task: four ordered check lists and the scores. */
  datatype Findings = Findings(
    taskId: string,
    overallStatus: Overall,
    outputMatch: seq<Check>,
    thresholds: seq<Check>,
    assertions: seq<Check>,
    constraints: seq<Check>,
    scores: Scores)
  {
    /** The four lists in the order `run_eval` concatenates them. */
    function AllChecks(): seq<Check> {
      outputMatch + thresholds + assertions + constraints
    }
  }
}
