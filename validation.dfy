/** The lightweight gate `validate_response` that the retry controller applies
    to each agent output: the channel must be the expected one and the body
    must carry the opt-out wording its channel needs. */
module Validation {
  import opened Wrappers
  import opened PyText
  import opened Records

  /** One entry of the error list, in the order the gate can add them. */
  datatype ValidationError =
    | ChannelMismatch(expected: Option<string>, actual: Option<string>)
    | SmsMissingStop
    | EmailMissingOptOut
  {
    function Text(): string {
      match this
      case ChannelMismatch(e, a) => "Channel mismatch: Expected '" + Str(e) + "', got '" + Str(a) + "'"
      case SmsMissingStop => "SMS missing opt-out 'STOP'"
      case EmailMissingOptOut => "Email missing opt-out instructions"
    }
  }

  /** The opt-out rule for an outgoing message: an SMS body must contain "stop"
      and an e-mail body one of the opt-out phrases, both ignoring case; other
      channels need nothing. A None body reads as "". */
  predicate OptOutRuleHolds(channel: Option<string>, body: Option<string>) {
    var bodyLower := Lower(OrEmpty(body));
    && (channel == Some("sms") ==> Contains(bodyLower, "stop"))
    && (channel == Some("email") ==> ContainsAny(bodyLower, EmailOptOutPhrases))
  }

  /** The errors `validate_response` returns. */
  function Errors(expected: Decision, actual: Decision): seq<ValidationError> {
    var em, am := MessageOf(expected), MessageOf(actual);
    var bodyLower := Lower(OrEmpty(am.body));
    (if em.channel != am.channel then [ChannelMismatch(em.channel, am.channel)] else [])
    + (if am.channel == Some("sms") && !Contains(bodyLower, "stop") then [SmsMissingStop] else [])
    + (if am.channel == Some("email") && !ContainsAny(bodyLower, EmailOptOutPhrases) then [EmailMissingOptOut] else [])
  }

  /** The gate passes (no errors) exactly when the channels agree and the
      opt-out rule holds for the actual message. */
  lemma ErrorsEmptyIff(expected: Decision, actual: Decision)
    ensures Errors(expected, actual) == [] <==>
      MessageOf(expected).channel == MessageOf(actual).channel
      && OptOutRuleHolds(MessageOf(actual).channel, MessageOf(actual).body)
  {
  }

  /** A channel-mismatch error is present exactly when the channels differ, and
      then it comes first; at most two errors are returned, never both opt-out
      errors. */
  lemma ErrorsShape(expected: Decision, actual: Decision)
    ensures var errors, e, a := Errors(expected, actual), MessageOf(expected).channel, MessageOf(actual).channel;
      && (ChannelMismatch(e, a) in errors <==> e != a)
      && (e != a ==> errors[0] == ChannelMismatch(e, a))
      && (forall k :: 0 < k < |errors| ==> !errors[k].ChannelMismatch?)
      && |errors| <= 2
      && !(SmsMissingStop in errors && EmailMissingOptOut in errors)
  {
  }

  /** An SMS whose body has no "stop" in any case gets exactly one opt-out
      error, after any channel mismatch. */
  lemma SmsWithoutStop(expected: Decision, actual: Decision)
    requires MessageOf(actual).channel == Some("sms") && !Contains(Lower(OrEmpty(MessageOf(actual).body)), "stop")
    ensures var errors := Errors(expected, actual);
      && errors[|errors| - 1] == SmsMissingStop && EmailMissingOptOut !in errors
      && |errors| == (if MessageOf(expected).channel == Some("sms") then 1 else 2)
  {
  }

  /** An e-mail whose body has none of the opt-out phrases in any case gets
      exactly one opt-out error, after any channel mismatch. */
  lemma EmailWithoutOptOut(expected: Decision, actual: Decision)
    requires MessageOf(actual).channel == Some("email") && !ContainsAny(Lower(OrEmpty(MessageOf(actual).body)), EmailOptOutPhrases)
    ensures var errors := Errors(expected, actual);
      && errors[|errors| - 1] == EmailMissingOptOut && SmsMissingStop !in errors
      && |errors| == (if MessageOf(expected).channel == Some("email") then 1 else 2)
  {
  }

  /** Channels other than sms and email never get an opt-out error. */
  lemma OtherChannelsNoOptOutError(expected: Decision, actual: Decision)
    requires MessageOf(actual).channel != Some("sms") && MessageOf(actual).channel != Some("email")
    ensures SmsMissingStop !in Errors(expected, actual) && EmailMissingOptOut !in Errors(expected, actual)
    ensures |Errors(expected, actual)| <= 1
  {
  }

  /** A None body is judged as the empty string, and the body's case never matters. */
  lemma BodyReadIgnoringCase(expected: Decision, m: Message, body1: Option<string>, body2: Option<string>)
    requires Lower(OrEmpty(body1)) == Lower(OrEmpty(body2))
    ensures Errors(expected, Decision(Present(m.(body := body1)), Absent, 0)) == Errors(expected, Decision(Present(m.(body := body2)), Absent, 0))
  {
  }

  /** `validate_response`, growing the error list by conditional appends. */
  method ValidateResponse(expected: Decision, actual: Decision) returns (errors: seq<ValidationError>)
    ensures errors == Errors(expected, actual)
  {
    errors := [];
    var expMsg := if expected.nextMessage.Present? then expected.nextMessage.value else EmptyMessage;
    var actMsg := if actual.nextMessage.Present? then actual.nextMessage.value else EmptyMessage;
    if expMsg.channel != actMsg.channel {
      errors := errors + [ChannelMismatch(expMsg.channel, actMsg.channel)];
    }
    ghost var mismatch := errors;
    var body := Lower(if actMsg.body.Some? then actMsg.body.value else "");
    var channel := actMsg.channel;
    if channel == Some("sms") && !Contains(body, "stop") {
      errors := errors + [SmsMissingStop];
    }
    ghost var sms := errors;
    if channel == Some("email") {
      var hasOptOut := exists k :: 0 <= k < |EmailOptOutPhrases| && Contains(body, EmailOptOutPhrases[k]);
      if !hasOptOut {
        errors := errors + [EmailMissingOptOut];
      }
    }
    assert sms == mismatch + (if channel == Some("sms") && !Contains(body, "stop") then [SmsMissingStop] else []);
  }
}
