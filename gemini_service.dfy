/** The part of services/geminiService.ts that the application itself does:
    the prompt text built from the intake record, and the rule that an empty
    reply is an error. The hosted model, its schema and `JSON.parse` are an
    oracle: the call's outcome and the parser are parameters. */
module GeminiService {

  import opened Wrappers
  import opened Text
  import opened Types

  /** The indentation the template literal carries on every line. */
  const Indent: string := "      "

  const Header: string := "\n" + Indent + "Patient Profile:\n"

  const TaskBlock: string :=
    "\n" +
    Indent + "Task:\n" +
    Indent + "As a senior orthopedic advisor for Dr. Hwang, analyze this patient data.\n" +
    Indent + "Provide a structured clinical assessment suitable for a medical professional.\n" +
    Indent + "Use standard medical terminology (English/Korean mixed).\n" +
    Indent + "Focus on biomechanics, pathology, and clinical correlation.\n" +
    "    "

  /** The seven profile fields, in the order the prompt lists them. */
  function FieldLabels(): (labels: seq<string>)
    ensures |labels| == 7
  {
    [ "Age/Gender", "Pain Site", "Duration", "VAS Pain Score",
      "Symptom Keywords", "Medical History", "Chief Complaint Details" ]
  }

  /** The heading with which the field's line starts, after the indentation. */
  function FieldHead(k: nat): string
    requires k < |FieldLabels()|
  {
    "- " + FieldLabels()[k] + ": "
  }

  /** The value written after each heading; lists are joined with ", ",
      the complaint and the duration label go in verbatim. */
  function FieldValues(d: PatientData): (vs: seq<string>)
    ensures |vs| == |FieldLabels()|
  {
    [ IntToString(d.age) + " / " + GenderLabel(d.gender),
      Join(d.selectedBodyParts, ", "),
      DurationLabel(d.duration),
      IntToString(d.painScore) + "/10",
      Join(d.symptomKeywords, ", "),
      Join(d.history, ", "),
      d.mainComplaint ]
  }

  /** Field `k`'s heading, value and line break. */
  function FieldEntry(d: PatientData, k: nat): string
    requires k < |FieldLabels()|
  {
    FieldHead(k) + FieldValues(d)[k] + "\n"
  }

  function FieldLine(d: PatientData, k: nat): string
    requires k < |FieldLabels()|
  {
    Indent + FieldEntry(d, k)
  }

  /** The seven profile lines, in order. */
  function ProfileLines(d: PatientData): (ls: seq<string>)
    ensures |ls| == |FieldLabels()|
    ensures forall k :: 0 <= k < |ls| ==> ls[k] == FieldLine(d, k)
  {
    seq(|FieldLabels()|, k requires 0 <= k < |FieldLabels()| => FieldLine(d, k))
  }

  /** The prompt sent to the model: the profile header, the seven profile
      lines, then the task block. */
  function Prompt(d: PatientData): (p: string)
    ensures |p| >= |Header| + |TaskBlock|
    ensures p[..|Header|] == Header
    ensures p[|p| - |TaskBlock|..] == TaskBlock
  {
    Header + Concat(ProfileLines(d)) + TaskBlock
  }

  /** Where the heading of field `k` starts in the prompt. */
  function FieldOffset(d: PatientData, k: nat): nat
    requires k < |FieldLabels()|
  {
    |Header| + |Concat(ProfileLines(d)[..k])| + |Indent|
  }

  /** Field `k`'s whole line, heading and value, occurs in the prompt at
      the place `FieldOffset` names. */
  lemma FieldLineInPrompt(d: PatientData, k: nat)
    requires k < |FieldLabels()|
    ensures OccursAt(Prompt(d), FieldEntry(d, k), FieldOffset(d, k))
  {
    var ls := ProfileLines(d);
    ConcatOccurs(ls, k);
    OccursInMiddle(Header, Concat(ls), TaskBlock, ls[k], |Concat(ls[..k])|);
    OccursAfterPrefix(Indent, FieldEntry(d, k));
    OccursTransitive(Prompt(d), ls[k], FieldEntry(d, k), |Header| + |Concat(ls[..k])|, |Indent|);
  }

  /** The prompt lists the seven fields in the fixed order Age/Gender,
      Pain Site, Duration, VAS Pain Score, Symptom Keywords, Medical History,
      Chief Complaint Details: each heading, followed by its value, stands at
      an offset that grows with the field's position. */
  lemma PromptFieldsInOrder(d: PatientData)
    ensures forall k :: 0 <= k < |FieldLabels()| ==>
              OccursAt(Prompt(d), FieldEntry(d, k), FieldOffset(d, k))
    ensures forall j, k :: 0 <= j < k < |FieldLabels()| ==> FieldOffset(d, j) < FieldOffset(d, k)
  {
    forall k | 0 <= k < |FieldLabels()|
      ensures OccursAt(Prompt(d), FieldEntry(d, k), FieldOffset(d, k))
    {
      FieldLineInPrompt(d, k);
    }
    forall j, k | 0 <= j < k < |FieldLabels()| ensures FieldOffset(d, j) < FieldOffset(d, k) {
      FieldOffsetsIncrease(d, j, k);
    }
  }

  lemma FieldOffsetsIncrease(d: PatientData, j: nat, k: nat)
    requires j < k < |FieldLabels()|
    ensures FieldOffset(d, j) < FieldOffset(d, k)
  {
    var ls := ProfileLines(d);
    ConcatOccurs(ls[..k], j);
    assert ls[..k][..j] == ls[..j];
    assert |ls[j]| > 0;
  }

  lemma {:induction false} ValueInPrompt(d: PatientData, k: nat)
    requires k < |FieldLabels()|
    ensures Contains(Prompt(d), FieldValues(d)[k])
  {
    FieldLineInPrompt(d, k);
    var v := FieldValues(d)[k];
    OccursInLeft(FieldHead(k) + v, "\n", v, |FieldHead(k)|) by {
      OccursInRight(FieldHead(k), v, v, 0);
    }
    OccursTransitive(Prompt(d), FieldHead(k) + v + "\n", v, FieldOffset(d, k), |FieldHead(k)|);
  }

  /** The age, gender, duration label, score and complaint text all appear
      verbatim, with no escaping. */
  lemma PromptEmbedsScalars(d: PatientData)
    ensures Contains(Prompt(d), IntToString(d.age) + " / " + GenderLabel(d.gender))
    ensures Contains(Prompt(d), DurationLabel(d.duration))
    ensures Contains(Prompt(d), IntToString(d.painScore) + "/10")
    ensures Contains(Prompt(d), d.mainComplaint)
  {
    ValueInPrompt(d, 0);
    ValueInPrompt(d, 2);
    ValueInPrompt(d, 3);
    ValueInPrompt(d, 6);
  }

  /** Every selected body part, symptom keyword and history item appears in
      the prompt. */
  lemma PromptMentionsEveryListItem(d: PatientData)
    ensures forall p :: p in d.selectedBodyParts ==> Contains(Prompt(d), p)
    ensures forall t :: t in d.symptomKeywords ==> Contains(Prompt(d), t)
    ensures forall h :: h in d.history ==> Contains(Prompt(d), h)
  {
    ValueInPrompt(d, 1);
    ValueInPrompt(d, 4);
    ValueInPrompt(d, 5);
    JoinContainsAll(d.selectedBodyParts, ", ");
    JoinContainsAll(d.symptomKeywords, ", ");
    JoinContainsAll(d.history, ", ");
    forall p | p in d.selectedBodyParts ensures Contains(Prompt(d), p) {
      ContainsTransitive(Prompt(d), FieldValues(d)[1], p);
    }
    forall t | t in d.symptomKeywords ensures Contains(Prompt(d), t) {
      ContainsTransitive(Prompt(d), FieldValues(d)[4], t);
    }
    forall h | h in d.history ensures Contains(Prompt(d), h) {
      ContainsTransitive(Prompt(d), FieldValues(d)[5], h);
    }
  }

  /** An empty list renders as an empty value: its line is the heading and
      the line break alone. This holds for each of the three lists. */
  lemma EmptyListRendersEmpty(d: PatientData)
    ensures d.selectedBodyParts == [] ==> FieldEntry(d, 1) == "- Pain Site: \n"
    ensures d.symptomKeywords == [] ==> FieldEntry(d, 4) == "- Symptom Keywords: \n"
    ensures d.history == [] ==> FieldEntry(d, 5) == "- Medical History: \n"
  {
  }

  /** Why an analysis produced no result. They all reach the user as the
      same notice. */
  datatype Failure = RequestFailed | EmptyResponse | MalformedJson

  /** What the SDK call gave back: it threw, or it returned a response whose
      `text` may be absent. */
  datatype Reply = Threw | Responded(text: Option<string>)

  /** `if (!text) throw new Error(...)`: an absent or empty text is an error. */
  function ResponseText(text: Option<string>): (r: Result<string, Failure>)
    ensures r.Failure? <==> (text == None || text == Some(""))
    ensures r.Failure? ==> r.error == EmptyResponse
    ensures r.Success? ==> text == Some(r.value) && r.value != ""
  {
    if text.None? || text.value == "" then Failure(EmptyResponse) else Success(text.value)
  }

  /** `generateOrthopedicInsight` once the call has come back; `parse`
      stands for `JSON.parse` together with the model's schema. */
  function Insight(reply: Reply, parse: string -> Option<AnalysisResult>): (r: Result<AnalysisResult, Failure>)
    ensures reply.Threw? ==> r == Failure(RequestFailed)
    ensures reply.Responded? && (reply.text == None || reply.text == Some("")) ==> r == Failure(EmptyResponse)
    ensures r.Success? ==> reply.Responded? && reply.text.Some? && reply.text.value != ""
                           && parse(reply.text.value) == Some(r.value)
    ensures reply.Responded? && reply.text.Some? && reply.text.value != "" ==>
              r == (if parse(reply.text.value).Some? then Success(parse(reply.text.value).value)
                    else Failure(MalformedJson))
  {
    match reply
    case Threw => Failure(RequestFailed)
    case Responded(text) =>
      match ResponseText(text)
      case Failure(e) => Failure(e)
      case Success(body) =>
        match parse(body)
        case None => Failure(MalformedJson)
        case Some(result) => Success(result)
  }

  /** A sample intake: a 45-year-old man, right knee,
      score 7, acute, "Night Pain", complaint "sharp pain going upstairs".
      Its prompt mentions each of these. */
  lemma ExamplePromptMentionsEveryField(d: PatientData)
    requires d.age == 45 && d.gender == Male && d.painScore == 7 && d.duration == Acute
    requires "Knee (R)" in d.selectedBodyParts && "Night Pain" in d.symptomKeywords
    requires d.mainComplaint == "sharp pain going upstairs"
    ensures var p := Prompt(d);
            && Contains(p, "45") && Contains(p, "Male") && Contains(p, "Knee (R)")
            && Contains(p, "Acute") && Contains(p, "7") && Contains(p, "Night Pain")
            && Contains(p, "sharp pain going upstairs")
  {
    var p := Prompt(d);
    PromptEmbedsScalars(d);
    PromptMentionsEveryListItem(d);
    ExampleValues();
    ContainsTransitive(p, IntToString(45) + " / " + GenderLabel(Male), "45");
    ContainsTransitive(p, IntToString(45) + " / " + GenderLabel(Male), "Male");
    ContainsTransitive(p, DurationLabel(Acute), "Acute");
    ContainsTransitive(p, IntToString(7) + "/10", "7");
  }

  lemma ExampleValues()
    ensures Contains(IntToString(45) + " / " + GenderLabel(Male), "45")
    ensures Contains(IntToString(45) + " / " + GenderLabel(Male), "Male")
    ensures Contains(DurationLabel(Acute), "Acute")
    ensures Contains(IntToString(7) + "/10", "7")
  {
    var ageGender := IntToString(45) + " / " + GenderLabel(Male);
    assert ageGender == "45 / Male";
    assert OccursAt(ageGender, "45", 0);
    assert OccursAt(ageGender, "Male", 5);
    assert OccursAt(DurationLabel(Acute), "Acute", 0);
    assert OccursAt(IntToString(7) + "/10", "7", 0);
  }
}
