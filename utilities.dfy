/**
 * `map_testcase_to_jira_payload` of projects/utilities.py: a test-case document
 * and a project key become the body of a Jira issue-create request.
 */
module Utilities {
  import opened Wrappers
  import opened Values

  /** The payload's fields, before they are rendered as the nested request dictionary. */
  datatype IssuePayload = IssuePayload(
    projectKey: Value,
    summary: Value,
    descriptionText: Value,
    issueType: string,
    priority: Value,
    labels: seq<Value>)

  const AcceptanceHeading: string := "\n\n*Acceptance Criteria:*\n"

  /** The labels every created issue carries, ahead of the test case's own id. */
  const FixedLabels: seq<Value> := [VStr("AI_Generated"), VStr("Created_by_Captain"), VStr("Testcase")]

  /**
   * `x += s` for a string `s`: a string is extended, a list gets one element per
   * character, and any other value raises TypeError.
   */
  function AppendText(x: Value, s: string): Result<Value, string> {
    match x
    case VStr(t) => Success(VStr(t + s))
    case VList(items) => Success(VList(items + Chars(s)))
    case _ => Failure("TypeError")
  }

  /** The description text: the description, followed by the acceptance criteria when there are any. */
  function DescriptionText(tc: Doc): Result<Value, string> {
    var description := Get(tc, "description", VStr(""));
    var acceptance := Get(tc, "acceptance_criteria", VNone);
    if Truthy(acceptance) then AppendText(description, AcceptanceHeading + PyStr(acceptance))
    else Success(description)
  }

  function MapTestcaseToJiraPayload(tc: Doc, projectKey: Value): Result<IssuePayload, string> {
    match DescriptionText(tc)
    case Failure(e) => Failure(e)
    case Success(text) =>
      Success(IssuePayload(
        projectKey,
        Get(tc, "title", VNone),
        if Truthy(text) then text else VStr(""),
        "Task",
        Get(tc, "priority", VStr("Medium")),
        FixedLabels + [Get(tc, "testcase_id", VNone)]))
  }

  /** A rich-text document of one paragraph holding one text node. */
  function DescriptionDocument(text: Value): Value {
    VDict([
      ("type", VStr("doc")),
      ("version", VInt(1)),
      ("content", VList([VDict([
        ("type", VStr("paragraph")),
        ("content", VList([VDict([("text", text), ("type", VStr("text"))])]))])]))])
  }

  /** The request body: `{'fields': {...}}` with the description as a one-paragraph document. */
  function ToJson(p: IssuePayload): Value {
    VDict([("fields", VDict([
      ("project", VDict([("key", p.projectKey)])),
      ("summary", p.summary),
      ("description", DescriptionDocument(p.descriptionText)),
      ("issuetype", VDict([("name", VStr(p.issueType))])),
      ("priority", VDict([("name", p.priority)])),
      ("labels", VList(p.labels))]))])
  }

  /** How a test case becomes an issue payload, or the exception that building it raises. */
  type Builder = Doc -> Result<IssuePayload, string>

  /** The mapper for one project key. */
  function PayloadBuilder(projectKey: Value): Builder {
    tc => MapTestcaseToJiraPayload(tc, projectKey)
  }

  /** `[build(tc) for tc in batch]`: the payloads in order; the first test case that raises fails the whole list. */
  function MapAll(batch: seq<Doc>, build: Builder): Result<seq<IssuePayload>, string>
    decreases |batch|
  {
    if batch == [] then Success([])
    else
      match build(batch[0])
      case Failure(e) => Failure(e)
      case Success(p) =>
        match MapAll(batch[1..], build)
        case Failure(e) => Failure(e)
        case Success(rest) => Success([p] + rest)
  }

  // ---- Properties ----

  /** `+=` on a value: text is extended, a list gets the characters, anything else raises. */
  lemma AppendTextCases(x: Value, s: string)
    ensures AppendText(x, s).Success? <==> x.VStr? || x.VList?
    ensures x.VStr? ==> AppendText(x, s) == Success(VStr(x.s + s))
    ensures x.VList? ==> AppendText(x, s) == Success(VList(x.items + Chars(s)))
  {
  }

  /**
   * The mapper fails only on the `+=` TypeError; otherwise the payload carries the
   * fixed labels and the id, the title, the priority (Medium by default), type
   * Task and the project key.
   */
  lemma PayloadFields(tc: Doc, projectKey: Value)
    ensures var r := MapTestcaseToJiraPayload(tc, projectKey);
            && (r.Success? <==> !Truthy(Get(tc, "acceptance_criteria", VNone))
                                || Get(tc, "description", VStr("")).VStr?
                                || Get(tc, "description", VStr("")).VList?)
            && (r.Success? ==>
                  && r.value.labels == FixedLabels + [Get(tc, "testcase_id", VNone)]
                  && r.value.summary == Get(tc, "title", VNone)
                  && r.value.priority == (if "priority" in tc then tc["priority"] else VStr("Medium"))
                  && r.value.issueType == "Task"
                  && r.value.projectKey == projectKey)
  {
  }

  /** The batch maps exactly when every test case maps, and then payload `k` is test case `k`'s. */
  lemma {:induction false} MapAllPayloads(batch: seq<Doc>, build: Builder)
    ensures var r := MapAll(batch, build);
            && (r.Success? <==> forall k :: 0 <= k < |batch| ==> build(batch[k]).Success?)
            && (r.Success? ==> |r.value| == |batch|)
            && (r.Success? ==> forall k :: 0 <= k < |batch| ==> r.value[k] == build(batch[k]).value)
    decreases |batch|
  {
    if batch != [] {
      MapAllPayloads(batch[1..], build);
      assert forall k :: 1 <= k < |batch| ==> batch[1..][k - 1] == batch[k];
    }
  }

  /**
   * The body sent for a payload: under `fields`, the project key, the summary,
   * the description as a one-paragraph document, the issue type, the priority
   * and the labels.
   */
  lemma ToJsonFields(p: IssuePayload)
    ensures DictLookup(ToJson(p), "fields").Some?
    ensures var f := DictLookup(ToJson(p), "fields").value;
            && DictLookup(f, "project") == Some(VDict([("key", p.projectKey)]))
            && DictLookup(f, "summary") == Some(p.summary)
            && DictLookup(f, "issuetype") == Some(VDict([("name", VStr(p.issueType))]))
            && DictLookup(f, "priority") == Some(VDict([("name", p.priority)]))
            && DictLookup(f, "labels") == Some(VList(p.labels))
            && DictLookup(f, "description") == Some(DescriptionDocument(p.descriptionText))
  {
    var top := ToJson(p).entries;
    assert top[0].0 == "fields";
    LookupFirst(top, "fields", 0);
    var f := top[0].1.entries;
    assert f[0].0 == "project" && f[1].0 == "summary" && f[2].0 == "description";
    assert f[3].0 == "issuetype" && f[4].0 == "priority" && f[5].0 == "labels";
    LookupFirst(f, "project", 0);
    LookupFirst(f, "summary", 1);
    LookupFirst(f, "description", 2);
    LookupFirst(f, "issuetype", 3);
    LookupFirst(f, "priority", 4);
    LookupFirst(f, "labels", 5);
  }

  /** The description document is of type `doc`, version 1, and its one paragraph's one text node holds the text. */
  lemma DescriptionDocumentText(text: Value)
    ensures var d := DescriptionDocument(text);
            && DictLookup(d, "type") == Some(VStr("doc"))
            && DictLookup(d, "version") == Some(VInt(1))
            && DictLookup(d, "content") == Some(VList([d.entries[2].1.items[0]]))
            && var para := d.entries[2].1.items[0];
               && DictLookup(para, "type") == Some(VStr("paragraph"))
               && DictLookup(para, "content") == Some(VList([para.entries[1].1.items[0]]))
               && DictLookup(para.entries[1].1.items[0], "text") == Some(text)
               && DictLookup(para.entries[1].1.items[0], "type") == Some(VStr("text"))
  {
    var d := DescriptionDocument(text).entries;
    LookupFirst(d, "type", 0);
    LookupFirst(d, "version", 1);
    LookupFirst(d, "content", 2);
    var para := d[2].1.items[0].entries;
    LookupFirst(para, "type", 0);
    LookupFirst(para, "content", 1);
    var node := para[1].1.items[0].entries;
    LookupFirst(node, "text", 0);
    LookupFirst(node, "type", 1);
  }

  /** With acceptance criteria, a string description is followed by the heading and the criteria as `str()` writes them. */
  lemma DescriptionWithAcceptance(tc: Doc, key: Value, description: string, acceptance: Value)
    requires Get(tc, "description", VStr("")) == VStr(description)
    requires Get(tc, "acceptance_criteria", VNone) == acceptance && Truthy(acceptance)
    ensures MapTestcaseToJiraPayload(tc, key).Success?
    ensures MapTestcaseToJiraPayload(tc, key).value.descriptionText
            == VStr(description + "\n\n*Acceptance Criteria:*\n" + PyStr(acceptance))
  {
    assert description + AcceptanceHeading + PyStr(acceptance) != "";
  }

  /** A list holding one plain criterion is appended as that list's `repr`, `['...']`. */
  lemma DescriptionWithCriteriaList(tc: Doc, key: Value, description: string, criterion: string)
    requires Get(tc, "description", VStr("")) == VStr(description)
    requires Get(tc, "acceptance_criteria", VNone) == VList([VStr(criterion)]) && PlainText(criterion)
    ensures MapTestcaseToJiraPayload(tc, key).Success?
    ensures MapTestcaseToJiraPayload(tc, key).value.descriptionText
            == VStr(description + "\n\n*Acceptance Criteria:*\n['" + criterion + "']")
  {
    PlainRepr(criterion);
    DescriptionWithAcceptance(tc, key, description, VList([VStr(criterion)]));
  }

  /** Without acceptance criteria the description is used unchanged, and a missing one becomes "". */
  lemma DescriptionWithoutAcceptance(tc: Doc, key: Value)
    requires !Truthy(Get(tc, "acceptance_criteria", VNone))
    ensures MapTestcaseToJiraPayload(tc, key).Success?
    ensures var text := MapTestcaseToJiraPayload(tc, key).value.descriptionText;
            && ("description" !in tc ==> text == VStr(""))
            && (Truthy(Get(tc, "description", VNone)) ==> text == tc["description"])
  {
  }

  /** The description raises TypeError only when criteria are present and it is neither text nor a list. */
  lemma DescriptionTypeError(tc: Doc, key: Value)
    requires Truthy(Get(tc, "acceptance_criteria", VNone))
    requires "description" in tc && !tc["description"].VStr? && !tc["description"].VList?
    ensures MapTestcaseToJiraPayload(tc, key).Failure?
  {
  }

  /** The provenance label and the test case's id are on every payload, the id last. */
  lemma PayloadCarriesId(tc: Doc, key: Value, id: string)
    requires Get(tc, "testcase_id", VNone) == VStr(id)
    requires MapTestcaseToJiraPayload(tc, key).Success?
    ensures var labels := MapTestcaseToJiraPayload(tc, key).value.labels;
            && |labels| == 4
            && VStr("Created_by_Captain") in labels
            && labels[3] == VStr(id)
  {
  }
}
