/** The result panel (components/OutputPanel.tsx) as a projection from
    `(result, loading)` to what is shown. */
module OutputPanel {

  import opened Wrappers
  import opened Text
  import opened Types

  /** One diagnosis card: name, probability badge, rationale, and whether
      it carries the emphasised (most likely) style. */
  datatype DiagnosisCard = DiagnosisCard(name: string, badge: string, rationale: string, emphasized: bool)

  /** The three mutually exclusive screens. In a report, `warnings` is the
      red-flag region when it is drawn; the two checklists are drawn always. */
  datatype View =
    | Loading
    | AwaitingInput
    | Report(cards: seq<DiagnosisCard>, warnings: Option<seq<string>>,
             checkpoints: seq<string>, workup: seq<string>)

  /** The probability badge: the number as given, then `%`. */
  function Badge(probability: int): string {
    IntToString(probability) + "%"
  }

  /** The badge reads back as the probability itself: nothing clamps it to
      0..100. (Magnitudes of 10^21 and more, which `${n}` writes in exponent
      form, are outside the model.) */
  lemma BadgeShowsProbability(probability: int)
    ensures var b := Badge(probability);
            |b| > 0 && b[|b| - 1] == '%' && ParseInt(b[..|b| - 1]) == Some(probability)
  {
    var b := Badge(probability);
    assert b[..|b| - 1] == IntToString(probability);
    IntToStringRoundTrip(probability);
  }

  function Card(d: Diagnosis, rank: nat): DiagnosisCard {
    DiagnosisCard(d.name, Badge(d.probability), d.rationale, rank == 0)
  }

  function Render(result: Option<AnalysisResult>, loading: bool): (v: View)
    ensures loading ==> v == Loading
    ensures !loading && result.None? ==> v == AwaitingInput
    ensures !loading && result.Some? ==> v.Report?
    ensures v.Report? ==>
              var r := result.value;
              && |v.cards| == |r.differentialDiagnoses|
              && (forall i :: 0 <= i < |v.cards| ==>
                    && v.cards[i].name == r.differentialDiagnoses[i].name
                    && v.cards[i].rationale == r.differentialDiagnoses[i].rationale
                    && v.cards[i].badge == Badge(r.differentialDiagnoses[i].probability)
                    && (v.cards[i].emphasized <==> i == 0))
              && (v.warnings.Some? <==> |r.redFlags| > 0)
              && (v.warnings.Some? ==> v.warnings.value == r.redFlags)
              && v.checkpoints == r.criticalCheckpoints
              && v.workup == r.recommendedWorkup
  {
    if loading then Loading
    else if result.None? then AwaitingInput
    else
      var r := result.value;
      var ds := r.differentialDiagnoses;
      Report(seq(|ds|, i requires 0 <= i < |ds| => Card(ds[i], i)),
             if |r.redFlags| > 0 then Some(r.redFlags) else None,
             r.criticalCheckpoints,
             r.recommendedWorkup)
  }

  /** Exactly one card is emphasised when there is any diagnosis at all. */
  lemma OnlyFirstEmphasized(r: AnalysisResult)
    requires |r.differentialDiagnoses| > 0
    ensures var v := Render(Some(r), false);
            v.Report? && (set i | 0 <= i < |v.cards| && v.cards[i].emphasized) == {0}
  {
  }

  /** A sample reply: one diagnosis, one checkpoint, no red flags, one
      workup item. */
  function ExampleResult(): AnalysisResult {
    AnalysisResult(
      [Diagnosis("Patellofemoral Pain Syndrome", 60, "anterior knee pain on stairs")],
      ["Assess patellar tracking"],
      [],
      ["Weight-bearing X-ray"])
  }

  /** It renders as one emphasised diagnosis showing "60%", no warning
      region, one checkpoint and one workup item. */
  lemma ExampleRendering()
    ensures var v := Render(Some(ExampleResult()), false);
            && v.Report? && |v.cards| == 1 && v.cards[0].emphasized
            && v.cards[0].badge == "60%"
            && v.warnings == None && |v.checkpoints| == 1 && |v.workup| == 1
  {
  }
}
