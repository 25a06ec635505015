/** The intake form (components/InputPanel.tsx): the component state `data`
    and the custom-keyword text buffer `customTag`, the handlers that replace
    them, and the rule that enables the submit button. */
module InputPanel {

  import opened Wrappers
  import opened ListSet
  import opened Types
  import BodyChart

  /** The record the form starts with. */
  function InitialData(): (d: PatientData)
    ensures d.age == 45 && d.gender == Male && d.painScore == 5 && d.duration == Subacute
    ensures d.symptomKeywords == [] && d.history == [] && d.selectedBodyParts == []
    ensures d.mainComplaint == ""
  {
    PatientData(45, Male, [], 5, Subacute, [], [], "")
  }

  /** `parseInt(value) || 0`: `parsed` is what `parseInt` gave, `None` for
      `NaN`; `NaN` becomes 0 and every integer is kept, negative ones too. */
  function CoerceAge(parsed: Option<int>): (age: int)
    ensures parsed.None? ==> age == 0
    ensures parsed.Some? ==> age == parsed.value
  {
    parsed.GetOr(0)
  }

  /** The submit button is enabled exactly when no analysis is running and
      at least one body part is selected. */
  predicate SubmitEnabled(isAnalyzing: bool, d: PatientData) {
    !(isAnalyzing || |d.selectedBodyParts| == 0)
  }

  /** The form starts with its submit button disabled: nothing is selected. */
  lemma InitiallyDisabled(isAnalyzing: bool)
    ensures !SubmitEnabled(isAnalyzing, InitialData())
  {
  }

  /** `addCustomTag`'s guard: a non-empty tag that is not already a keyword.
      A tag of spaces only is accepted. */
  predicate AcceptsTag(keywords: seq<string>, tag: string) {
    tag != "" && tag !in keywords
  }

  /** The keyword list after `addCustomTag` with `tag` in the buffer. */
  function WithCustomTag(keywords: seq<string>, tag: string): (r: seq<string>)
    ensures AcceptsTag(keywords, tag) ==> |r| == |keywords| + 1 && r[..|keywords|] == keywords && r[|keywords|] == tag
    ensures !AcceptsTag(keywords, tag) ==> r == keywords
  {
    if AcceptsTag(keywords, tag) then keywords + [tag] else keywords
  }

  /** Adding a tag makes it a keyword (unless it is empty), adds nothing
      else, and keeps the list free of duplicates. */
  lemma WithCustomTagElements(keywords: seq<string>, tag: string)
    ensures Elements(WithCustomTag(keywords, tag)) == Elements(keywords) + (if tag == "" then {} else {tag})
    ensures NoDup(keywords) ==> NoDup(WithCustomTag(keywords, tag))
  {
  }

  class IntakeForm {
    var data: PatientData
    var customTag: string

    /** What the handlers keep true: the score lies on the slider's scale
        and none of the three lists repeats an entry. */
    ghost predicate Valid()
      reads this
    {
      && 0 <= data.painScore <= 10
      && NoDup(data.selectedBodyParts)
      && NoDup(data.symptomKeywords)
      && NoDup(data.history)
    }

    /** Every selected body part is a region of the chart. */
    ghost predicate SelectionInCatalog()
      reads this
    {
      BodyChart.WithinCatalog(data.selectedBodyParts)
    }

    constructor ()
      ensures data == InitialData() && customTag == ""
      ensures Valid() && SelectionInCatalog()
    {
      data := InitialData();
      customTag := "";
    }

    /** `toggleBodyPart`. */
    method ToggleBodyPart(partId: string)
      requires Valid()
      modifies this
      ensures data == old(data).(selectedBodyParts := Toggle(old(data.selectedBodyParts), partId))
      ensures customTag == old(customTag)
      ensures Valid()
      ensures old(SelectionInCatalog()) && partId in BodyChart.Catalog() ==> SelectionInCatalog()
    {
      ToggleNoDup(data.selectedBodyParts, partId);
      data := data.(selectedBodyParts := Toggle(data.selectedBodyParts, partId));
    }

    /** A click on the chart region at `index`, which the chart hands to
        `toggleBodyPart` as that region's id. */
    method ClickRegion(index: nat)
      requires Valid() && index < |BodyChart.Catalog()|
      modifies this
      ensures data == old(data).(selectedBodyParts :=
                Toggle(old(data.selectedBodyParts), BodyChart.ClickedId(index)))
      ensures customTag == old(customTag)
      ensures Valid()
      ensures old(SelectionInCatalog()) ==> SelectionInCatalog()
    {
      ToggleBodyPart(BodyChart.ClickedId(index));
    }

    /** `toggleTag`. */
    method ToggleTag(tag: string)
      requires Valid()
      modifies this
      ensures data == old(data).(symptomKeywords := Toggle(old(data.symptomKeywords), tag))
      ensures customTag == old(customTag)
      ensures Valid()
      ensures SelectionInCatalog() == old(SelectionInCatalog())
    {
      ToggleNoDup(data.symptomKeywords, tag);
      data := data.(symptomKeywords := Toggle(data.symptomKeywords, tag));
    }

    /** `toggleHistory`. */
    method ToggleHistory(item: string)
      requires Valid()
      modifies this
      ensures data == old(data).(history := Toggle(old(data.history), item))
      ensures customTag == old(customTag)
      ensures Valid()
      ensures SelectionInCatalog() == old(SelectionInCatalog())
    {
      ToggleNoDup(data.history, item);
      data := data.(history := Toggle(data.history, item));
    }

    /** Typing into the custom-keyword box. */
    method SetCustomTag(text: string)
      modifies this
      ensures customTag == text && data == old(data)
      ensures Valid() == old(Valid()) && SelectionInCatalog() == old(SelectionInCatalog())
    {
      customTag := text;
    }

    /** `addCustomTag`: when the buffer holds an acceptable tag it is
        appended and the buffer is emptied; otherwise nothing changes, the
        buffer included. */
    method AddCustomTag()
      requires Valid()
      modifies this
      ensures data == old(data).(symptomKeywords := WithCustomTag(old(data.symptomKeywords), old(customTag)))
      ensures customTag == if AcceptsTag(old(data.symptomKeywords), old(customTag)) then "" else old(customTag)
      ensures Valid()
      ensures SelectionInCatalog() == old(SelectionInCatalog())
    {
      if AcceptsTag(data.symptomKeywords, customTag) {
        WithCustomTagElements(data.symptomKeywords, customTag);
        data := data.(symptomKeywords := WithCustomTag(data.symptomKeywords, customTag));
        customTag := "";
      }
    }

    /** The age box; `parsed` is what `parseInt` made of the text. */
    method SetAge(parsed: Option<int>)
      requires Valid()
      modifies this
      ensures data == old(data).(age := CoerceAge(parsed)) && customTag == old(customTag)
      ensures Valid()
      ensures SelectionInCatalog() == old(SelectionInCatalog())
    {
      data := data.(age := CoerceAge(parsed));
    }

    method SetGender(g: Gender)
      requires Valid()
      modifies this
      ensures data == old(data).(gender := g) && customTag == old(customTag)
      ensures Valid()
      ensures SelectionInCatalog() == old(SelectionInCatalog())
    {
      data := data.(gender := g);
    }

    /** The pain slider, whose range control only produces 0..10. */
    method SetPainScore(score: VasScore)
      requires Valid()
      modifies this
      ensures data == old(data).(painScore := score) && customTag == old(customTag)
      ensures Valid()
      ensures SelectionInCatalog() == old(SelectionInCatalog())
    {
      data := data.(painScore := score);
    }

    method SetDuration(duration: PainDuration)
      requires Valid()
      modifies this
      ensures data == old(data).(duration := duration) && customTag == old(customTag)
      ensures Valid()
      ensures SelectionInCatalog() == old(SelectionInCatalog())
    {
      data := data.(duration := duration);
    }

    method SetComplaint(text: string)
      requires Valid()
      modifies this
      ensures data == old(data).(mainComplaint := text) && customTag == old(customTag)
      ensures Valid()
      ensures SelectionInCatalog() == old(SelectionInCatalog())
    {
      data := data.(mainComplaint := text);
    }

    /** A press on the submit button: the record is handed to `onAnalyze`
        by value when the button is enabled, and nothing happens otherwise. */
    method Submit(isAnalyzing: bool) returns (sent: Option<PatientData>)
      ensures sent.Some? <==> !isAnalyzing && |data.selectedBodyParts| > 0
      ensures sent.Some? ==> sent.value == data
    {
      if SubmitEnabled(isAnalyzing, data) {
        sent := Some(data);
      } else {
        sent := None;
      }
    }
  }
}
