/** The point-and-click body-region selector (components/BodyChart.tsx).
    It keeps no state: the selection is the form's `selectedBodyParts`, and
    a click hands the clicked region's id to the form's toggle. */
module BodyChart {

  import opened Text
  import opened ListSet

  /** The ids of the fixed region catalog, in drawing order. Each id is also
      the region's display name. The drawing coordinates are not modelled. */
  function Catalog(): (ids: seq<string>)
    ensures |ids| == 14
    ensures NoDup(ids)
  {
    [ "Neck (C-Spine)", "Shoulder (R)", "Shoulder (L)", "Back (T-Spine)",
      "Elbow (R)", "Elbow (L)", "Lower Back (L-Spine)", "Hip/Pelvis",
      "Wrist/Hand (R)", "Wrist/Hand (L)", "Knee (R)", "Knee (L)",
      "Ankle/Foot (R)", "Ankle/Foot (L)" ]
  }

  /** How one region is drawn: highlighted (with a check mark) or plain. */
  datatype Marker = Marker(id: string, selected: bool)

  /** The markers drawn for a selection: one per catalog region, in catalog
      order, highlighted exactly when the region's id is in the selection. */
  function Markers(selected: seq<string>): (ms: seq<Marker>)
    ensures |ms| == |Catalog()|
    ensures forall i :: 0 <= i < |ms| ==> ms[i].id == Catalog()[i]
    ensures forall i :: 0 <= i < |ms| ==> (ms[i].selected <==> Catalog()[i] in selected)
  {
    var ids := Catalog();
    seq(|ids|, i requires 0 <= i < |ids| => Marker(ids[i], ids[i] in selected))
  }

  /** The id handed to `onTogglePart` by a click on the region at `index`. */
  function ClickedId(index: nat): (id: string)
    requires index < |Catalog()|
    ensures id in Catalog()
  {
    Catalog()[index]
  }

  /** Every selected id is a catalog id. */
  ghost predicate WithinCatalog(selected: seq<string>) {
    forall p :: p in selected ==> p in Catalog()
  }

  /** A click toggles exactly the clicked region: that region's highlight
      flips and every other region keeps its highlight. */
  lemma ClickFlipsOnlyClickedRegion(selected: seq<string>, index: nat)
    requires index < |Catalog()|
    ensures var after := Markers(Toggle(selected, ClickedId(index)));
            var before := Markers(selected);
            && after[index].selected == !before[index].selected
            && forall j :: 0 <= j < |after| && j != index ==> after[j] == before[j]
  {
  }

  /** Since the only way into the selection is a click, the selection only
      ever holds catalog ids. */
  lemma ClickKeepsWithinCatalog(selected: seq<string>, index: nat)
    requires index < |Catalog()|
    requires WithinCatalog(selected)
    ensures WithinCatalog(Toggle(selected, ClickedId(index)))
  {
  }

  /** The "Selected:" caption under the chart. */
  function SummaryLabel(selected: seq<string>): (caption: string)
    ensures |selected| == 0 ==> caption == "Selected: None"
  {
    "Selected: " + (if |selected| > 0 then Join(selected, ", ") else "None")
  }

  /** For a non-empty selection the caption is the ids in selection order,
      joined with ", ", so every selected id appears in it. */
  lemma SummaryListsSelection(selected: seq<string>)
    requires |selected| > 0
    ensures SummaryLabel(selected) == "Selected: " + Join(selected, ", ")
    ensures forall k :: 0 <= k < |selected| ==> Contains(SummaryLabel(selected), selected[k])
  {
    forall k | 0 <= k < |selected| ensures Contains(SummaryLabel(selected), selected[k]) {
      JoinContainsElement(selected, ", ", k);
      ContainsInRight("Selected: ", Join(selected, ", "), selected[k]);
    }
  }
}
