/** The two agent tools whose decisions are repository logic:
    `verify_channel_consent` (the channel-to-flag lookup and the GRANTED /
    DENIED verdict) and `check_compliance_rules` (opt-out wording and the
    Fair Housing keyword scan). */
module Tools {
  import opened Wrappers
  import opened PyText
  import opened Records
  import Validation

  // ---------------------------------------------------------------------------
  // verify_channel_consent

  /** The consent flag each known channel is governed by. */
  function ConsentKey(channel: string): (key: Option<string>)
    ensures key.Some? <==> channel in {"email", "sms", "voice"}
    ensures key.Some? ==> key.value == channel + "_opt_in"
  {
    if channel == "email" then Some("email_opt_in")
    else if channel == "sms" then Some("sms_opt_in")
    else if channel == "voice" then Some("voice_opt_in")
    else None
  }

  /** The tool's reply. `VerifyError` is the reply when the consent record is
      not a JSON object (the exception text itself is not modelled). */
  datatype ConsentReply = VerifyError | UnknownChannel(channel: string) | Granted(channel: string) | Denied(channel: string)
  {
    function Text(): string {
      match this
      case VerifyError => "Error verifying consent"
      case UnknownChannel(c) => "Error: Unknown channel '" + c + "'"
      case Granted(c) => "Consent for " + c + ": GRANTED"
      case Denied(c) => "Consent for " + c + ": DENIED"
    }
  }

  /** `verify_channel_consent`. `parsed` is `json.loads(consent_record)`, None
      when that raises; parsing comes before the channel lookup. */
  function VerifyChannelConsent(channel: string, parsed: Option<map<string, bool>>): ConsentReply {
    if parsed.None? then VerifyError
    else
      var key := ConsentKey(channel);
      if key.None? then UnknownChannel(channel)
      else if Flag(parsed.value, key.value) then Granted(channel)
      else Denied(channel)
  }

  /** For a parsed record, an unknown channel is an error; a known one is
      GRANTED exactly when its `*_opt_in` flag is set, and a missing flag
      means DENIED. */
  lemma ConsentDecision(channel: string, data: map<string, bool>)
    ensures var reply := VerifyChannelConsent(channel, Some(data));
      && (reply.UnknownChannel? <==> channel !in {"email", "sms", "voice"})
      && (reply == Granted(channel) <==> channel in {"email", "sms", "voice"} && Flag(data, channel + "_opt_in"))
      && (channel in {"email", "sms", "voice"} && channel + "_opt_in" !in data ==> reply == Denied(channel))
      && !reply.VerifyError?
  {
  }

  // ---------------------------------------------------------------------------
  // check_compliance_rules

  /** The Fair Housing terms scanned for, in scan order. */
  const DiscriminatoryTerms: seq<string> := ["adults only", "no children", "christian", "white", "bachelor"]

  datatype ComplianceIssue = SmsNeedsStop | EmailNeedsOptOut | FairHousing(term: string)
  {
    function Text(): string {
      match this
      case SmsNeedsStop => "SMS must include 'STOP' for opt-out"
      case EmailNeedsOptOut => "Email must include unsubscribe/opt-out instructions"
      case FairHousing(t) => "Potential Fair Housing violation found: '" + t + "'"
    }
  }

  datatype ComplianceReply = CompliancePassed | ComplianceFailed(issues: seq<ComplianceIssue>)

  /** The opt-out issue for the lowercased body, if any. */
  function OptOutIssues(channel: string, bodyLower: string): seq<ComplianceIssue> {
    if channel == "sms" then (if !Contains(bodyLower, "stop") then [SmsNeedsStop] else [])
    else if channel == "email" then
      (if !Contains(bodyLower, "unsubscribe") && !Contains(bodyLower, "opt") && !Contains(bodyLower, "reply stop")
       then [EmailNeedsOptOut] else [])
    else []
  }

  /** One issue per term found in the lowercased body, in the order of `terms`. */
  function TermIssues(terms: seq<string>, bodyLower: string): (issues: seq<ComplianceIssue>)
    ensures |issues| <= |terms|
    ensures forall k :: 0 <= k < |issues| ==> issues[k].FairHousing?
    decreases |terms|
  {
    if |terms| == 0 then []
    else
      var last := terms[|terms| - 1];
      TermIssues(terms[..|terms| - 1], bodyLower) + (if Contains(bodyLower, last) then [FairHousing(last)] else [])
  }

  /** Every issue `check_compliance_rules` finds, in order. */
  function ComplianceIssues(messageBody: string, channel: string): seq<ComplianceIssue> {
    OptOutIssues(channel, Lower(messageBody)) + TermIssues(DiscriminatoryTerms, Lower(messageBody))
  }

  /** A term yields an issue exactly when it is one of the scanned terms and
      occurs in the body. */
  lemma {:induction false} TermIssuesFound(terms: seq<string>, bodyLower: string, t: string)
    ensures FairHousing(t) in TermIssues(terms, bodyLower) <==> t in terms && Contains(bodyLower, t)
    decreases |terms|
  {
    if |terms| > 0 {
      var init := terms[..|terms| - 1];
      TermIssuesFound(init, bodyLower, t);
      assert terms == init + [terms[|terms| - 1]];
    }
  }

  /** Position of the first occurrence of `t` in `terms`. */
  function IndexOf(terms: seq<string>, t: string): (k: nat)
    requires t in terms
    ensures k < |terms| && terms[k] == t
    ensures forall j :: 0 <= j < k ==> terms[j] != t
  {
    if terms[0] == t then 0 else 1 + IndexOf(terms[1..], t)
  }

  /** The Fair Housing issues name terms of `terms` in their order there. */
  predicate FollowsTermOrder(issues: seq<ComplianceIssue>, terms: seq<string>) {
    forall i, j :: 0 <= i < j < |issues| && issues[i].FairHousing? && issues[j].FairHousing? ==>
      && issues[i].term in terms && issues[j].term in terms
      && IndexOf(terms, issues[i].term) < IndexOf(terms, issues[j].term)
  }

  /** With distinct terms, the issues follow the order of the terms. */
  lemma {:induction false} TermIssuesOrdered(terms: seq<string>, bodyLower: string)
    requires forall i, j :: 0 <= i < j < |terms| ==> terms[i] != terms[j]
    ensures FollowsTermOrder(TermIssues(terms, bodyLower), terms)
    decreases |terms|
  {
    if |terms| > 0 {
      var n := |terms|;
      var init, last := terms[..n - 1], terms[n - 1];
      TermIssuesOrdered(init, bodyLower);
      var prev := TermIssues(init, bodyLower);
      var issues := TermIssues(terms, bodyLower);
      assert issues == prev + (if Contains(bodyLower, last) then [FairHousing(last)] else []);
      forall k | 0 <= k < |prev| ensures prev[k].term in init && IndexOf(terms, prev[k].term) == IndexOf(init, prev[k].term) {
        assert prev[k] in prev;
        TermIssuesFound(init, bodyLower, prev[k].term);
        IndexPrefix(terms, n - 1, prev[k].term);
      }
      assert IndexOf(terms, last) == n - 1;
      forall i, j | 0 <= i < j < |issues| && issues[i].FairHousing? && issues[j].FairHousing?
        ensures && issues[i].term in terms && issues[j].term in terms
          && IndexOf(terms, issues[i].term) < IndexOf(terms, issues[j].term)
      {
        var ti := prev[i].term;
        assert issues[i] == prev[i];
        assert IndexOf(terms, ti) == IndexOf(init, ti) < n - 1;
        if j < |prev| {
          var tj := prev[j].term;
          assert issues[j] == prev[j];
          assert IndexOf(terms, tj) == IndexOf(init, tj);
          assert IndexOf(init, ti) < IndexOf(init, tj);
        } else {
          assert issues[j] == FairHousing(last);
        }
      }
      assert FollowsTermOrder(issues, terms);
    }
  }

  /** Indices into a sequence agree with those into a prefix holding the element. */
  lemma {:induction false} IndexPrefix(terms: seq<string>, m: nat, t: string)
    requires m <= |terms| && t in terms[..m]
    ensures t in terms && IndexOf(terms, t) == IndexOf(terms[..m], t)
    decreases m
  {
    if terms[0] != t {
      assert terms[1..][..m - 1] == terms[..m][1..];
      IndexPrefix(terms[1..], m - 1, t);
    }
  }

  /** The scanned terms are pairwise different. */
  lemma DiscriminatoryTermsDistinct()
    ensures forall i, j :: 0 <= i < j < |DiscriminatoryTerms| ==> DiscriminatoryTerms[i] != DiscriminatoryTerms[j]
  {
    var d := DiscriminatoryTerms;
    assert d[0][0] != d[1][0];
    assert |d[0]| != |d[2]| && |d[0]| != |d[3]| && |d[0]| != |d[4]|;
    assert |d[1]| != |d[2]| && |d[1]| != |d[3]| && |d[1]| != |d[4]|;
    assert |d[2]| != |d[3]| && |d[2]| != |d[4]| && |d[3]| != |d[4]|;
  }

  /** The compliance issues: at most one opt-out issue, then one issue per
      discriminatory term found; at most six in all. */
  lemma ComplianceIssuesShape(messageBody: string, channel: string)
    ensures var issues, bodyLower := ComplianceIssues(messageBody, channel), Lower(messageBody);
      && |issues| <= 6
      && (forall t :: FairHousing(t) in issues <==> t in DiscriminatoryTerms && Contains(bodyLower, t))
      && (forall k :: 0 < k < |issues| ==> issues[k].FairHousing?)
  {
    var bodyLower := Lower(messageBody);
    var opt, terms := OptOutIssues(channel, bodyLower), TermIssues(DiscriminatoryTerms, bodyLower);
    forall t ensures FairHousing(t) in opt + terms <==> t in DiscriminatoryTerms && Contains(bodyLower, t) {
      TermIssuesFound(DiscriminatoryTerms, bodyLower, t);
    }
  }

  /** The Fair Housing issues follow the order of the scanned terms. */
  lemma ComplianceIssuesOrdered(messageBody: string, channel: string)
    ensures FollowsTermOrder(ComplianceIssues(messageBody, channel), DiscriminatoryTerms)
  {
    var bodyLower := Lower(messageBody);
    var opt, terms := OptOutIssues(channel, bodyLower), TermIssues(DiscriminatoryTerms, bodyLower);
    var issues := opt + terms;
    DiscriminatoryTermsDistinct();
    TermIssuesOrdered(DiscriminatoryTerms, bodyLower);
    forall i, j | 0 <= i < j < |issues| && issues[i].FairHousing? && issues[j].FairHousing?
      ensures && issues[i].term in DiscriminatoryTerms && issues[j].term in DiscriminatoryTerms
        && IndexOf(DiscriminatoryTerms, issues[i].term) < IndexOf(DiscriminatoryTerms, issues[j].term)
    {
      assert i >= |opt|;
      assert issues[i] == terms[i - |opt|] && issues[j] == terms[j - |opt|];
    }
    assert FollowsTermOrder(issues, DiscriminatoryTerms);
  }

  /** The body's case does not affect the outcome. */
  lemma ComplianceIgnoresCase(messageBody: string, channel: string)
    ensures ComplianceIssues(Lower(messageBody), channel) == ComplianceIssues(messageBody, channel)
  {
    LowerIdempotent(messageBody);
  }

  /** The tool's opt-out rule is the retry gate's: an issue arises exactly when
      `validate_response`'s opt-out rule fails for the same channel and body. */
  lemma OptOutAgreesWithGate(messageBody: string, channel: string)
    ensures OptOutIssues(channel, Lower(messageBody)) == [] <==> Validation.OptOutRuleHolds(Some(channel), Some(messageBody))
  {
    var bodyLower := Lower(messageBody);
    assert ContainsAny(bodyLower, EmailOptOutPhrases) <==>
      Contains(bodyLower, "unsubscribe") || Contains(bodyLower, "opt") || Contains(bodyLower, "reply stop")
    by {
      if Contains(bodyLower, "opt") { assert EmailOptOutPhrases[0] == "opt"; }
      if Contains(bodyLower, "unsubscribe") { assert EmailOptOutPhrases[1] == "unsubscribe"; }
      if Contains(bodyLower, "reply stop") { assert EmailOptOutPhrases[2] == "reply stop"; }
    }
  }

  /** The opt-out half of `check_compliance_rules`, on the lower-cased body. */
  method ScanOptOut(channel: string, bodyLower: string) returns (issues: seq<ComplianceIssue>)
    ensures issues == OptOutIssues(channel, bodyLower)
  {
    issues := [];
    if channel == "sms" {
      if !Contains(bodyLower, "stop") {
        issues := issues + [SmsNeedsStop];
      }
    } else if channel == "email" {
      if !Contains(bodyLower, "unsubscribe") && !Contains(bodyLower, "opt") && !Contains(bodyLower, "reply stop") {
        issues := issues + [EmailNeedsOptOut];
      }
    }
  }

  /** The Fair Housing half of `check_compliance_rules`: one issue per term
      found, in the order of `terms`. */
  method ScanTerms(terms: seq<string>, bodyLower: string) returns (issues: seq<ComplianceIssue>)
    ensures issues == TermIssues(terms, bodyLower)
  {
    issues := [];
    for k := 0 to |terms|
      invariant issues == TermIssues(terms[..k], bodyLower)
    {
      var term := terms[k];
      assert terms[..k + 1][..k] == terms[..k];
      if Contains(bodyLower, term) {
        issues := issues + [FairHousing(term)];
      }
    }
    assert terms[..|terms|] == terms;
  }

  /** `check_compliance_rules`: the opt-out check, then a scan over the terms. */
  method CheckComplianceRules(messageBody: string, channel: string) returns (reply: ComplianceReply)
    ensures reply == CompliancePassed <==> ComplianceIssues(messageBody, channel) == []
    ensures reply.ComplianceFailed? ==> reply.issues == ComplianceIssues(messageBody, channel)
  {
    var bodyLower := Lower(messageBody);
    var optOut := ScanOptOut(channel, bodyLower);
    var found := ScanTerms(DiscriminatoryTerms, bodyLower);
    var issues := optOut + found;
    if |issues| == 0 {
      reply := CompliancePassed;
    } else {
      reply := ComplianceFailed(issues);
    }
  }
}
