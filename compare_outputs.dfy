/** The side-by-side comparison tool: an `OutputComparer` object indexes the
    eval records and the agent's results by task id, and reports either one
    task in detail or a ✅/⚠️/❌ line per task. The report's prose is left out;
    what is kept is every decision the report displays. */
module CompareOutputs {
  import opened Wrappers
  import opened PyText
  import opened Records
  import opened TextSimilarity

  // ----- indexing by task id, as the dict fields do -----

  /** One entry of the results file: its task id and its "output" entry. */
  datatype ResultRecord = ResultRecord(taskId: string, output: Field<Decision>)

  /** `record["task_id"]` of an eval record whose id is present. */
  function EvalKey(r: EvalRecord): string {
    r.taskId.GetOr("")
  }

  function ResultKey(r: ResultRecord): string {
    r.taskId
  }

  /** `m[key(r)] = r` for each `r` of `rs` in turn: the last record with a key wins. */
  function Index<T>(m: map<string, T>, rs: seq<T>, key: T -> string): map<string, T>
    decreases |rs|
  {
    if rs == [] then m
    else Index(m, rs[..|rs| - 1], key)[key(rs[|rs| - 1]) := rs[|rs| - 1]]
  }

  /** The key order of a Python dict after those assignments: a key is added
      at the end the first time it is assigned and keeps its place after. */
  function InsertOrder<T>(order: seq<string>, rs: seq<T>, key: T -> string): seq<string>
    decreases |rs|
  {
    if rs == [] then order
    else
      var before := InsertOrder(order, rs[..|rs| - 1], key);
      if key(rs[|rs| - 1]) in before then before else before + [key(rs[|rs| - 1])]
  }

  predicate Distinct(s: seq<string>) {
    forall i, j :: 0 <= i < j < |s| ==> s[i] != s[j]
  }

  /** After indexing, a key is present iff it was present or some record has
      it, and then it maps to the last record that has it. */
  lemma {:induction false} IndexLookup<T>(m: map<string, T>, rs: seq<T>, key: T -> string, k: string)
    ensures k in Index(m, rs, key) <==> k in m || exists i :: 0 <= i < |rs| && key(rs[i]) == k
    ensures (exists i :: 0 <= i < |rs| && key(rs[i]) == k) ==>
      exists i :: 0 <= i < |rs| && key(rs[i]) == k && Index(m, rs, key)[k] == rs[i]
        && forall j :: i < j < |rs| ==> key(rs[j]) != k
    ensures (forall i :: 0 <= i < |rs| ==> key(rs[i]) != k) && k in m ==> Index(m, rs, key)[k] == m[k]
    decreases |rs|
  {
    if rs != [] {
      var before := rs[..|rs| - 1];
      assert forall i :: 0 <= i < |before| ==> before[i] == rs[i];
      IndexLookup(m, before, key, k);
      if key(rs[|rs| - 1]) != k && exists i :: 0 <= i < |rs| && key(rs[i]) == k {
        var i :| 0 <= i < |rs| && key(rs[i]) == k;
        assert i < |before| && key(before[i]) == k;
      }
    }
  }

  /** The key order starts with the old order, holds each key once if the old
      order did, and holds exactly the old keys and the records' keys. */
  lemma {:induction false} InsertOrderShape<T>(order: seq<string>, rs: seq<T>, key: T -> string)
    ensures |order| <= |InsertOrder(order, rs, key)| && InsertOrder(order, rs, key)[..|order|] == order
    ensures Distinct(order) ==> Distinct(InsertOrder(order, rs, key))
    ensures forall k :: k in InsertOrder(order, rs, key) <==> k in order || exists i :: 0 <= i < |rs| && key(rs[i]) == k
    decreases |rs|
  {
    if rs != [] {
      var before := rs[..|rs| - 1];
      assert forall i :: 0 <= i < |before| ==> before[i] == rs[i];
      InsertOrderShape(order, before, key);
      var o := InsertOrder(order, before, key);
      if key(rs[|rs| - 1]) !in o {
        assert (o + [key(rs[|rs| - 1])])[..|order|] == o[..|order|];
      }
      forall k | k in InsertOrder(order, rs, key) <==> k in order || exists i :: 0 <= i < |rs| && key(rs[i]) == k
        ensures k in InsertOrder(order, rs, key) <==> k in order || exists i :: 0 <= i < |rs| && key(rs[i]) == k
      {
      }
    }
  }

  // ----- _format_multiline -----

  /** `_format_multiline(text, indent)`: every line after the first is
      indented by `indent` spaces; "", None and "null" are returned as given. */
  function FormatMultiline(text: Option<string>, indent: nat): Option<string> {
    if !Truthy(text) || text == Some("null") then text
    else Some(Join(Split(text.value, '\n'), "\n" + Spaces(indent)))
  }

  /** Falsy texts and "null" pass through untouched. */
  lemma FormatMultilineKeeps(text: Option<string>, indent: nat)
    requires !Truthy(text) || text == Some("null")
    ensures FormatMultiline(text, indent) == text
  {
  }

  /** Formatting keeps the number of lines: it adds no line break and removes none. */
  lemma FormatMultilineLineCount(text: Option<string>, indent: nat)
    requires text.Some?
    ensures FormatMultiline(text, indent).Some?
    ensures CountChar(FormatMultiline(text, indent).value, '\n') == CountChar(text.value, '\n')
  {
    if Truthy(text) && text != Some("null") {
      var t := text.value;
      var sep := "\n" + Spaces(indent);
      CountCharAbsent(Spaces(indent), '\n');
      CountCharConcat("\n", Spaces(indent), '\n');
      SplitPieces(t, '\n');
      JoinCount(Split(t, '\n'), sep, '\n');
    }
  }

  /** With no indentation the text comes back unchanged. */
  lemma FormatMultilineNoIndent(text: Option<string>)
    ensures FormatMultiline(text, 0) == text
  {
    if Truthy(text) && text != Some("null") {
      assert "\n" + Spaces(0) == ['\n'];
      JoinSplit(text.value, '\n');
    }
  }

  // ----- _generate_diff -----

  const DiffLineLimit := 20
  const DiffIndent := "    "
  const NoDifferences := "    (No character-level differences)"
  const TruncationMarker := "    ... (diff truncated)"

  /** The "---" and "+++" file headers of a unified diff. */
  predicate IsDiffHeader(line: string) {
    IsPrefix("---", line) || IsPrefix("+++", line)
  }

  /** The non-header lines, indented and right-stripped, in order. */
  function KeptLines(lines: seq<string>): (kept: seq<string>)
    ensures |kept| <= |lines|
    decreases |lines|
  {
    if lines == [] then []
    else
      var last := lines[|lines| - 1];
      KeptLines(lines[..|lines| - 1]) + (if IsDiffHeader(last) then [] else [DiffIndent + RStrip(last)])
  }

  /** The lines `_generate_diff` joins: the kept lines among the first twenty,
      and the truncation marker when there were more than twenty. */
  function DiffReport(diffLines: seq<string>): seq<string> {
    KeptLines(FirstLines(diffLines)) + (if |diffLines| > DiffLineLimit then [TruncationMarker] else [])
  }

  /** `diff_lines[:20]`. */
  function FirstLines(diffLines: seq<string>): (first: seq<string>)
    ensures |first| <= |diffLines| && |first| <= DiffLineLimit && first == diffLines[..|first|]
    ensures |diffLines| <= DiffLineLimit ==> first == diffLines
  {
    if |diffLines| > DiffLineLimit then diffLines[..DiffLineLimit] else diffLines
  }

  /** `_generate_diff`, given the lines `unified_diff` produced. */
  function DiffText(diffLines: seq<string>): string {
    if diffLines == [] then NoDifferences else Join(DiffReport(diffLines), "\n")
  }

  /** Every kept line comes from a non-header line, indented and right-stripped;
      with no headers every line is kept, and with only headers none is. */
  lemma {:induction false} KeptLinesAre(lines: seq<string>)
    ensures forall l :: l in KeptLines(lines) ==>
      exists i :: 0 <= i < |lines| && !IsDiffHeader(lines[i]) && l == DiffIndent + RStrip(lines[i])
    ensures (forall i :: 0 <= i < |lines| ==> !IsDiffHeader(lines[i])) ==> |KeptLines(lines)| == |lines|
    ensures (forall i :: 0 <= i < |lines| ==> IsDiffHeader(lines[i])) ==> KeptLines(lines) == []
    decreases |lines|
  {
    if lines != [] {
      var before := lines[..|lines| - 1];
      assert forall i :: 0 <= i < |before| ==> before[i] == lines[i];
      KeptLinesAre(before);
    }
  }

  /** At most twenty diff lines are shown, and the truncation marker is
      appended exactly when the diff was longer than twenty lines. */
  lemma DiffReportBound(diffLines: seq<string>)
    ensures |DiffReport(diffLines)| <= DiffLineLimit + 1
    ensures |diffLines| <= DiffLineLimit ==> |DiffReport(diffLines)| <= |diffLines|
    ensures |diffLines| > DiffLineLimit <==> |DiffReport(diffLines)| == |KeptLines(FirstLines(diffLines))| + 1
    ensures |diffLines| > DiffLineLimit ==> DiffReport(diffLines)[|DiffReport(diffLines)| - 1] == TruncationMarker
  {
  }

  /** `_generate_diff` as the source writes it: a loop over the first twenty lines. */
  method GenerateDiff(diffLines: seq<string>) returns (text: string)
    ensures text == DiffText(diffLines)
  {
    if |diffLines| == 0 {
      return NoDifferences;
    }
    var first := if |diffLines| > DiffLineLimit then diffLines[..DiffLineLimit] else diffLines;
    assert first == FirstLines(diffLines);
    var formatted: seq<string> := [];
    for i := 0 to |first|
      invariant formatted == KeptLines(first[..i])
    {
      var line := first[i];
      assert first[..i + 1][..i] == first[..i];
      if !(IsPrefix("---", line) || IsPrefix("+++", line)) {
        formatted := formatted + [DiffIndent + RStrip(line)];
      }
    }
    assert first[..|first|] == first;
    assert formatted == KeptLines(FirstLines(diffLines));
    if |diffLines| > DiffLineLimit {
      formatted := formatted + [TruncationMarker];
    }
    assert formatted == DiffReport(diffLines);
    text := Join(formatted, "\n");
  }

  // ----- the per-task summary of compare_all -----

  /** The three marks of the summary. */
  datatype Mark = Match | Review | Mismatch

  /** ✅ when channel, body and action all agree, else ⚠️ while the bodies are
      more than 70% alike, else ❌. */
  function SummaryMark(channelMatch: bool, bodySimilarity: real, actionMatch: bool): Mark {
    if channelMatch && bodySimilarity > 0.85 && actionMatch then Match
    else if bodySimilarity > 0.7 then Review
    else Mismatch
  }

  /** The mark rule in full, and its agreement with the similarity band of the
      evaluation engine: ❌ is exactly a failed band, ✅ needs a passed one. */
  lemma SummaryMarkRule(channelMatch: bool, bodySimilarity: real, actionMatch: bool)
    ensures SummaryMark(channelMatch, bodySimilarity, actionMatch) == Match <==> channelMatch && bodySimilarity > 0.85 && actionMatch
    ensures SummaryMark(channelMatch, bodySimilarity, actionMatch) == Mismatch <==> Band(bodySimilarity) == Failed
    ensures SummaryMark(channelMatch, bodySimilarity, actionMatch) == Match ==> Band(bodySimilarity) == Passed
  {
  }

  /** A wrong channel is not a ❌ on its own: with similar bodies it is a ⚠️. */
  lemma ChannelMismatchStillReview(bodySimilarity: real, actionMatch: bool)
    requires bodySimilarity > 0.7
    ensures SummaryMark(false, bodySimilarity, actionMatch) == Review
  {
  }

  /** The summary's body similarity: the ratio when both bodies are truthy,
      1.0 when both are None, 0.0 otherwise. */
  function SummaryBodySimilarity(ratio: RatioFn, expBody: Option<string>, actBody: Option<string>): real {
    if Truthy(expBody) && Truthy(actBody) then Similarity(ratio, expBody.value, actBody.value)
    else if expBody.None? && actBody.None? then 1.0
    else 0.0
  }

  /** The summary agrees with `_calculate_similarity` on the bodies read as ""
      except when both are falsy but not both None (an empty body against a
      missing one): there the summary says 0.0 and the helper 1.0. */
  lemma SummaryBodySimilarityDefaults(ratio: RatioFn, expBody: Option<string>, actBody: Option<string>)
    ensures 0.0 <= SummaryBodySimilarity(ratio, expBody, actBody) <= 1.0
    ensures SummaryBodySimilarity(ratio, expBody, actBody) != Similarity(ratio, OrEmpty(expBody), OrEmpty(actBody)) <==>
      !Truthy(expBody) && !Truthy(actBody) && !(expBody.None? && actBody.None?)
    ensures SummaryBodySimilarity(ratio, Some(""), None) == 0.0 && Similarity(ratio, "", "") == 1.0
  {
  }

  /** The "output" entry of a result; a null one makes the tool raise. */
  function OutputOf(r: ResultRecord): Decision
    requires !r.output.Null?
  {
    if r.output.Present? then r.output.value else EmptyDecision
  }

  /** The result and the record can be summarised without raising: the output
      is not null, and neither `next_action` is null, since `compare_all`
      reads `.get("type")` on them without an `or {}`. */
  predicate Summarisable(record: EvalRecord, result: ResultRecord) {
    !result.output.Null? && !record.expected.nextAction.Null? && !OutputOf(result).nextAction.Null?
  }

  /** One task's entry of the summary. */
  datatype SummaryEntry =
    | NoResult(taskId: string)
    | Summary(taskId: string, mark: Mark, channelMatch: bool, bodySimilarity: real, actionMatch: bool)

  /** The summary entry of a task that has a result. */
  function SummaryOf(ratio: RatioFn, taskId: string, record: EvalRecord, result: ResultRecord): SummaryEntry
    requires Summarisable(record, result)
  {
    var expected, actual := record.expected, OutputOf(result);
    var em, am := MessageOf(expected), MessageOf(actual);
    var channelMatch := em.channel == am.channel;
    var bodySim := SummaryBodySimilarity(ratio, em.body, am.body);
    var actionMatch := ActionTypeOf(expected) == ActionTypeOf(actual);
    Summary(taskId, SummaryMark(channelMatch, bodySim, actionMatch), channelMatch, bodySim, actionMatch)
  }

  /** Every task in `order` can be summarised. */
  predicate AllSummarisable(order: seq<string>, records: map<string, EvalRecord>, results: map<string, ResultRecord>) {
    forall i :: 0 <= i < |order| ==>
      && order[i] in records
      && (order[i] in results ==> Summarisable(records[order[i]], results[order[i]]))
  }

  /** The summary entries for the task ids in `order`, one per task, in that order. */
  function Summaries(ratio: RatioFn, order: seq<string>, records: map<string, EvalRecord>, results: map<string, ResultRecord>): (entries: seq<SummaryEntry>)
    requires AllSummarisable(order, records, results)
    ensures |entries| == |order|
    ensures forall i :: 0 <= i < |order| ==> entries[i].taskId == order[i] && (entries[i].NoResult? <==> order[i] !in results)
    decreases |order|
  {
    if order == [] then []
    else
      var before := order[..|order| - 1];
      var k := order[|order| - 1];
      assert forall i :: 0 <= i < |before| ==> before[i] == order[i];
      Summaries(ratio, before, records, results)
        + [if k in results then SummaryOf(ratio, k, records[k], results[k]) else NoResult(k)]
  }

  // ----- the detailed comparison of compare_task -----

  /** How the bodies are shown: "Both: null", or both texts (a falsy one as
      "null"), their similarity when both are truthy, and a diff when that
      similarity is below 1. */
  datatype BodyView =
    | BothNull
    | Bodies(expected: string, actual: string, similarity: Option<real>, diff: Option<string>)

  /** What `compare_task` reports. For a found task: whether the channels
      match, the subject similarity (shown only when either subject is truthy),
      the bodies, whether the CTA types match (shown only when either CTA is
      non-empty), whether the next-action types match, and whether there is a
      thresholds section. */
  datatype TaskComparison =
    | NotInEvalRecords(taskId: string)
    | NotInResults(taskId: string)
    | Compared(
        taskId: string,
        channelMatch: bool,
        subjectSimilarity: Option<real>,
        body: BodyView,
        ctaTypeMatch: Option<bool>,
        actionTypeMatch: bool,
        showsThresholds: bool)

  /** `body or 'null'`, formatted with an indent of four. */
  function ShownBody(body: Option<string>): string {
    var text := if Truthy(body) then body.value else "null";
    FormatMultiline(Some(text), 4).GetOr(text)
  }

  /** The body section of the detailed comparison. */
  function BodyViewOf(ratio: RatioFn, unifiedDiff: (string, string) -> seq<string>, expBody: Option<string>, actBody: Option<string>): BodyView {
    if expBody.None? && actBody.None? then BothNull
    else
      var similarity := if Truthy(expBody) && Truthy(actBody) then Some(Similarity(ratio, expBody.value, actBody.value)) else None;
      var diff := if similarity.Some? && similarity.value < 1.0 then Some(DiffText(unifiedDiff(expBody.value, actBody.value))) else None;
      Bodies(ShownBody(expBody), ShownBody(actBody), similarity, diff)
  }

  /** The detailed comparison of a task found in both indexes. */
  function ComparedTask(ratio: RatioFn, unifiedDiff: (string, string) -> seq<string>, taskId: string, record: EvalRecord, result: ResultRecord): TaskComparison
    requires !result.output.Null?
  {
    var expected, actual := record.expected, OutputOf(result);
    var em, am := MessageOf(expected), MessageOf(actual);
    var expCta, actCta := CtaOf(em), CtaOf(am);
    Compared(
      taskId,
      em.channel == am.channel,
      if Truthy(em.subject) || Truthy(am.subject) then Some(Similarity(ratio, OrEmpty(em.subject), OrEmpty(am.subject))) else None,
      BodyViewOf(ratio, unifiedDiff, em.body, am.body),
      if expCta.NonEmpty() || actCta.NonEmpty() then Some(expCta.ctaType == actCta.ctaType) else None,
      ActionTypeOf(expected) == ActionTypeOf(actual),
      |record.thresholds| > 0)
  }

  /** `compare_task` on the two indexes: the eval records are consulted first. */
  function TaskComparisonOf(ratio: RatioFn, unifiedDiff: (string, string) -> seq<string>, taskId: string,
                            records: map<string, EvalRecord>, results: map<string, ResultRecord>): TaskComparison
    requires taskId in records && taskId in results ==> !results[taskId].output.Null?
  {
    if taskId !in records then NotInEvalRecords(taskId)
    else if taskId !in results then NotInResults(taskId)
    else ComparedTask(ratio, unifiedDiff, taskId, records[taskId], results[taskId])
  }

  /** The not-found guards: a task missing from the eval records is reported
      as such even when it is also missing from the results. */
  lemma TaskComparisonGuards(ratio: RatioFn, unifiedDiff: (string, string) -> seq<string>, taskId: string,
                            records: map<string, EvalRecord>, results: map<string, ResultRecord>)
    requires taskId in records && taskId in results ==> !results[taskId].output.Null?
    ensures TaskComparisonOf(ratio, unifiedDiff, taskId, records, results).NotInEvalRecords? <==> taskId !in records
    ensures TaskComparisonOf(ratio, unifiedDiff, taskId, records, results).NotInResults? <==> taskId in records && taskId !in results
    ensures TaskComparisonOf(ratio, unifiedDiff, taskId, records, results).Compared? <==> taskId in records && taskId in results
    ensures TaskComparisonOf(ratio, unifiedDiff, taskId, records, results).taskId == taskId
  {
  }

  /** The body section: "Both: null" only for two None bodies; a similarity
      only for two truthy bodies; a diff only below full similarity. */
  lemma BodyViewRule(ratio: RatioFn, unifiedDiff: (string, string) -> seq<string>, expBody: Option<string>, actBody: Option<string>)
    ensures BodyViewOf(ratio, unifiedDiff, expBody, actBody).BothNull? <==> expBody.None? && actBody.None?
    ensures BodyViewOf(ratio, unifiedDiff, expBody, actBody).Bodies? ==>
      var v := BodyViewOf(ratio, unifiedDiff, expBody, actBody);
      && (v.similarity.Some? <==> Truthy(expBody) && Truthy(actBody))
      && (v.diff.Some? <==> v.similarity.Some? && v.similarity.value < 1.0)
      && (!Truthy(expBody) ==> v.expected == "null")
      && (!Truthy(actBody) ==> v.actual == "null")
  {
  }

  /** The body section of `compare_task`. */
  method CompareBodies(ratio: RatioFn, unifiedDiff: (string, string) -> seq<string>, expBody: Option<string>, actBody: Option<string>)
    returns (body: BodyView)
    ensures body == BodyViewOf(ratio, unifiedDiff, expBody, actBody)
  {
    if expBody.None? && actBody.None? {
      return BothNull;
    }
    var similarity: Option<real> := None;
    var diff: Option<string> := None;
    if Truthy(expBody) && Truthy(actBody) {
      var s := Similarity(ratio, expBody.value, actBody.value);
      similarity := Some(s);
      if s < 1.0 {
        var text := GenerateDiff(unifiedDiff(expBody.value, actBody.value));
        diff := Some(text);
      }
    }
    body := Bodies(ShownBody(expBody), ShownBody(actBody), similarity, diff);
  }

  // ----- the comparer object -----

  class OutputComparer {
    /** The keys of `eval_records` in insertion order, the order `compare_all` visits. */
    var evalOrder: seq<string>
    var evalRecords: map<string, EvalRecord>
    var results: map<string, ResultRecord>

    /** The key order lists each indexed task once. */
    ghost predicate Valid()
      reads this
    {
      Distinct(evalOrder) && forall k :: k in evalRecords <==> k in evalOrder
    }

    /** A comparer with empty indexes; the file paths are left out. */
    constructor ()
      ensures Valid()
      ensures evalOrder == [] && evalRecords == map[] && results == map[]
    {
      evalOrder := [];
      evalRecords := map[];
      results := map[];
    }

    /** `load_data` on already parsed lines: every eval record with a task id,
        then every result, each overwriting an earlier entry with its id. */
    method LoadData(records: seq<EvalRecord>, resultList: seq<ResultRecord>)
      requires Valid()
      requires forall i :: 0 <= i < |records| ==> records[i].taskId.Some?
      modifies this
      ensures Valid()
      ensures evalRecords == Index(old(evalRecords), records, EvalKey)
      ensures evalOrder == InsertOrder(old(evalOrder), records, EvalKey)
      ensures results == Index(old(results), resultList, ResultKey)
    {
      for i := 0 to |records|
        invariant evalRecords == Index(old(evalRecords), records[..i], EvalKey)
        invariant evalOrder == InsertOrder(old(evalOrder), records[..i], EvalKey)
        invariant Distinct(evalOrder) && forall k :: k in evalRecords <==> k in evalOrder
        invariant results == old(results)
      {
        var record := records[i];
        var id := record.taskId.value;
        assert records[..i + 1][..i] == records[..i];
        if id !in evalRecords {
          evalOrder := evalOrder + [id];
        }
        evalRecords := evalRecords[id := record];
      }
      assert records[..|records|] == records;
      ghost var loadedRecords, loadedOrder := evalRecords, evalOrder;
      for i := 0 to |resultList|
        invariant results == Index(old(results), resultList[..i], ResultKey)
        invariant evalRecords == loadedRecords && evalOrder == loadedOrder
      {
        assert resultList[..i + 1][..i] == resultList[..i];
        results := results[resultList[i].taskId := resultList[i]];
      }
      assert resultList[..|resultList|] == resultList;
    }

    /** `compare_task`. */
    method CompareTask(ratio: RatioFn, unifiedDiff: (string, string) -> seq<string>, taskId: string) returns (r: TaskComparison)
      requires taskId in evalRecords && taskId in results ==> !results[taskId].output.Null?
      ensures r == TaskComparisonOf(ratio, unifiedDiff, taskId, evalRecords, results)
    {
      if taskId !in evalRecords {
        return NotInEvalRecords(taskId);
      }
      if taskId !in results {
        return NotInResults(taskId);
      }
      var record, result := evalRecords[taskId], results[taskId];
      var expected := record.expected;
      var actual := if result.output.Present? then result.output.value else EmptyDecision;
      var expMsg, actMsg := MessageOf(expected), MessageOf(actual);
      var subjectSimilarity: Option<real> := None;
      if Truthy(expMsg.subject) || Truthy(actMsg.subject) {
        subjectSimilarity := Some(Similarity(ratio, OrEmpty(expMsg.subject), OrEmpty(actMsg.subject)));
      }
      var body := CompareBodies(ratio, unifiedDiff, expMsg.body, actMsg.body);
      var expCta, actCta := CtaOf(expMsg), CtaOf(actMsg);
      var ctaTypeMatch: Option<bool> := None;
      if expCta.NonEmpty() || actCta.NonEmpty() {
        ctaTypeMatch := Some(expCta.ctaType == actCta.ctaType);
      }
      r := Compared(taskId, expMsg.channel == actMsg.channel, subjectSimilarity, body, ctaTypeMatch,
                    ActionTypeOf(expected) == ActionTypeOf(actual), |record.thresholds| > 0);
    }

    /** `compare_all`: one entry per eval record in insertion order; a task
        without a result gets "No result found" and nothing else. */
    method CompareAll(ratio: RatioFn) returns (entries: seq<SummaryEntry>)
      requires Valid()
      requires forall k :: k in evalRecords && k in results ==> Summarisable(evalRecords[k], results[k])
      ensures AllSummarisable(evalOrder, evalRecords, results)
      ensures entries == Summaries(ratio, evalOrder, evalRecords, results)
    {
      entries := [];
      for i := 0 to |evalOrder|
        invariant AllSummarisable(evalOrder[..i], evalRecords, results)
        invariant entries == Summaries(ratio, evalOrder[..i], evalRecords, results)
      {
        var taskId := evalOrder[i];
        assert evalOrder[..i + 1][..i] == evalOrder[..i];
        if taskId !in results {
          entries := entries + [NoResult(taskId)];
        } else {
          var record, result := evalRecords[taskId], results[taskId];
          var expected := record.expected;
          var actual := if result.output.Present? then result.output.value else EmptyDecision;
          var expMsg, actMsg := MessageOf(expected), MessageOf(actual);
          var channelMatch := expMsg.channel == actMsg.channel;
          var bodySim := SummaryBodySimilarity(ratio, expMsg.body, actMsg.body);
          var actionMatch := ActionTypeOf(expected) == ActionTypeOf(actual);
          var mark := SummaryMark(channelMatch, bodySim, actionMatch);
          entries := entries + [Summary(taskId, mark, channelMatch, bodySim, actionMatch)];
        }
      }
      assert evalOrder[..|evalOrder|] == evalOrder;
    }
  }
}
