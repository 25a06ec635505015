/** The records and enumerations shared by the form, the prompt and the
    result view (types.ts). */
module Types {

  import opened Wrappers

  datatype Gender = Male | Female

  /** The string value of each `Gender` member. */
  function GenderLabel(g: Gender): string {
    match g
    case Male => "Male"
    case Female => "Female"
  }

  datatype PainDuration = Acute | Subacute | Chronic

  /** The string value of each `PainDuration` member: the label shown next
      to the radio button and embedded in the prompt. */
  function DurationLabel(d: PainDuration): string {
    match d
    case Acute => "Acute (< 6 weeks)"
    case Subacute => "Subacute (6-12 weeks)"
    case Chronic => "Chronic (> 12 weeks)"
  }

  /** `Object.values(PainDuration)`: the members in declaration order, the
      order in which the form lists the radio buttons. */
  function DurationChoices(): (ds: seq<PainDuration>)
    ensures |ds| == 3
    ensures forall d: PainDuration :: d in ds
    ensures ds[0] != ds[1] && ds[1] != ds[2] && ds[0] != ds[2]
    ensures ds[0] == Acute && ds[1] == Subacute && ds[2] == Chronic
  {
    var ds := [Acute, Subacute, Chronic];
    forall d: PainDuration ensures d in ds {
      if d.Acute? {
        assert ds[0] == d;
      } else if d.Subacute? {
        assert ds[1] == d;
      } else {
        assert ds[2] == d;
      }
    }
    ds
  }

  /** The member whose string value is `s`, if any. */
  function DurationFromLabel(s: string): Option<PainDuration> {
    if s == DurationLabel(Acute) then Some(Acute)
    else if s == DurationLabel(Subacute) then Some(Subacute)
    else if s == DurationLabel(Chronic) then Some(Chronic)
    else None
  }

  /** The three labels are distinct, so a label names exactly one member. */
  lemma DurationLabelRoundTrip(d: PainDuration)
    ensures DurationFromLabel(DurationLabel(d)) == Some(d)
  {
  }

  lemma GenderLabelInjective(g: Gender, h: Gender)
    ensures GenderLabel(g) == GenderLabel(h) <==> g == h
  {
  }

  /** A Visual Analog Scale pain score. */
  type VasScore = x: int | 0 <= x <= 10

  /** The intake record. `age` and `painScore` are plain numbers: nothing in
      the type bounds them. */
  datatype PatientData = PatientData(
    age: int,
    gender: Gender,
    symptomKeywords: seq<string>,
    painScore: int,
    duration: PainDuration,
    history: seq<string>,
    selectedBodyParts: seq<string>,
    mainComplaint: string)

  /** `probability` is documented as a percentage in 0..100 but is not
      constrained. */
  datatype Diagnosis = Diagnosis(name: string, probability: int, rationale: string)

  /** Four ordered lists; the first diagnosis is the most likely one. */
  datatype AnalysisResult = AnalysisResult(
    differentialDiagnoses: seq<Diagnosis>,
    criticalCheckpoints: seq<string>,
    redFlags: seq<string>,
    recommendedWorkup: seq<string>)
}
