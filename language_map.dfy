/**
  The interactive language map: five hoverable regions of Africa, the
  active-region and tooltip state the hover handlers maintain, the region
  colour, and the info panel that shows the languages of the active region.
 */
module LanguageMap {
  import opened JsValues

  /** A language card; the description and country list only feed the card's text. */
  datatype LanguageInfo = LanguageInfo(name: string, speakers: Option<string>)

  datatype Region = Region(id: string, name: string, languages: seq<LanguageInfo>)

  /** `regionData`, in its declared order, with each region's language names. */
  const RegionData: seq<Region> := [
    Region("east-africa", "East Africa", [
      LanguageInfo("Swahili", Some("Over 100 million speakers")),
      LanguageInfo("Kinyarwanda", Some("About 12 million speakers")),
      LanguageInfo("Kirundi", Some("About 9 million speakers"))]),
    Region("central-africa", "Central Africa", [
      LanguageInfo("Lingala", Some("About 40 million speakers")),
      LanguageInfo("Kikongo", Some("About 8 million speakers"))]),
    Region("southern-africa", "Southern Africa", [
      LanguageInfo("Chichewa", Some("About 12 million speakers")),
      LanguageInfo("Zulu", Some("About 12 million speakers")),
      LanguageInfo("Xhosa", Some("About 8 million speakers"))]),
    Region("west-africa", "West Africa", [
      LanguageInfo("Yoruba", Some("About 40 million speakers")),
      LanguageInfo("Igbo", Some("About 24 million speakers")),
      LanguageInfo("Hausa", Some("About 70 million speakers"))]),
    Region("north-africa", "North Africa", [
      LanguageInfo("Arabic", Some("Over 300 million speakers (worldwide)")),
      LanguageInfo("Berber", Some("About 30 million speakers"))])
  ]

  /** The ids passed by the five map paths' `onMouseEnter` handlers. */
  const HoverTargets: seq<string> := ["north-africa", "west-africa", "central-africa", "east-africa", "southern-africa"]

  const HighlightColor := "#0369a1"
  const NeutralColor := "#94a3b8"

  /** `getRegionColor`: the highlight colour exactly for the active region. */
  function RegionColor(activeRegion: Option<string>, regionId: string): (color: string)
    ensures color == HighlightColor <==> activeRegion == Some(regionId)
    ensures color == NeutralColor <==> activeRegion != Some(regionId)
  {
    if activeRegion == Some(regionId) then HighlightColor else NeutralColor
  }

  /** At most one region is highlighted at a time. */
  lemma OneHighlight(activeRegion: Option<string>, a: string, b: string)
    requires RegionColor(activeRegion, a) == HighlightColor && RegionColor(activeRegion, b) == HighlightColor
    ensures a == b
  {
  }

  predicate DistinctIds(regions: seq<Region>)
  {
    forall i, j :: 0 <= i < j < |regions| ==> regions[i].id != regions[j].id
  }

  /** `regions.find(region => region.id === activeRegion)`: `null` matches no id. */
  function FindRegion(regions: seq<Region>, activeRegion: Option<string>): (r: Option<Region>)
    ensures r.None? <==> forall i :: 0 <= i < |regions| ==> activeRegion != Some(regions[i].id)
    ensures r.Some? ==> activeRegion == Some(r.value.id)
    ensures r.Some? ==>
      exists i :: 0 <= i < |regions| && regions[i] == r.value &&
        forall j :: 0 <= j < i ==> activeRegion != Some(regions[j].id)
  {
    if regions == [] then None
    else if activeRegion == Some(regions[0].id) then Some(regions[0])
    else
      var rest := FindRegion(regions[1..], activeRegion);
      if rest.Some? then
        var k :| 0 <= k < |regions[1..]| && regions[1..][k] == rest.value &&
          forall j :: 0 <= j < k ==> activeRegion != Some(regions[1..][j].id);
        assert regions[k + 1] == rest.value;
        rest
      else rest
  }

  /** With distinct ids, the region found is the one region with that id. */
  lemma {:induction false} FindUnique(regions: seq<Region>, i: nat)
    requires DistinctIds(regions) && i < |regions|
    ensures FindRegion(regions, Some(regions[i].id)) == Some(regions[i])
  {
    var r := FindRegion(regions, Some(regions[i].id));
    assert r.Some?;
    var k :| 0 <= k < |regions| && regions[k] == r.value &&
      forall j :: 0 <= j < k ==> Some(regions[i].id) != Some(regions[j].id);
    assert regions[k].id == regions[i].id;
    assert k == i;
  }

  /** The ids of `regionData` are distinct. */
  lemma RegionIdsDistinct()
    ensures DistinctIds(RegionData)
  {
  }

  /** Every region on the map has an entry in `regionData`. */
  lemma HoverTargetsHaveData(k: nat)
    requires k < |HoverTargets|
    ensures FindRegion(RegionData, Some(HoverTargets[k])).Some?
    ensures FindRegion(RegionData, Some(HoverTargets[k])).value.id == HoverTargets[k]
  {
    RegionIdsDistinct();
    var i := if k == 0 then 4 else if k == 1 then 3 else if k == 2 then 1 else if k == 3 then 0 else 2;
    assert RegionData[i].id == HoverTargets[k];
    FindUnique(RegionData, i);
  }

  /** What the info panel shows. */
  datatype Panel =
    | Placeholder
    | RegionPanel(region: Option<Region>)

  /** `activeRegion ? <languages of getActiveRegionData()> : <placeholder>` */
  function PanelOf(activeRegion: Option<string>): (p: Panel)
    ensures p == Placeholder <==> !Truthy(activeRegion)
    ensures p.RegionPanel? ==> p.region == FindRegion(RegionData, activeRegion)
  {
    if Truthy(activeRegion) then RegionPanel(FindRegion(RegionData, activeRegion)) else Placeholder
  }

  /** Once a region of the map has been hovered, the panel lists that region's languages. */
  lemma PanelShowsHoveredRegion(k: nat)
    requires k < |HoverTargets|
    ensures PanelOf(Some(HoverTargets[k])).RegionPanel?
    ensures PanelOf(Some(HoverTargets[k])).region.Some?
    ensures PanelOf(Some(HoverTargets[k])).region.value.id == HoverTargets[k]
  {
    HoverTargetsHaveData(k);
    assert HoverTargets[k] != "";
  }

  /** The component's state, without the tooltip's screen position. */
  class MapView {
    var activeRegion: Option<string>
    var showTooltip: bool

    /** Initially no region is active, so the placeholder is shown. */
    constructor ()
      ensures activeRegion == None && !showTooltip
      ensures PanelOf(activeRegion) == Placeholder
    {
      activeRegion := None;
      showTooltip := false;
    }

    /** `handleRegionHover` */
    method Hover(regionId: string)
      modifies this
      ensures activeRegion == Some(regionId) && showTooltip
      ensures RegionColor(activeRegion, regionId) == HighlightColor
    {
      activeRegion := Some(regionId);
      showTooltip := true;
    }

    /** `handleRegionLeave`: hides the tooltip; the panel keeps the last region. */
    method Leave()
      modifies this
      ensures !showTooltip
      ensures activeRegion == old(activeRegion)
      ensures PanelOf(activeRegion) == PanelOf(old(activeRegion))
    {
      showTooltip := false;
    }
  }

  /** Hovering a map region and then leaving it keeps that region's languages on the panel. */
  method HoverThenLeave(view: MapView, k: nat)
    requires k < |HoverTargets|
    modifies view
    ensures !view.showTooltip
    ensures view.activeRegion == Some(HoverTargets[k])
    ensures PanelOf(view.activeRegion).RegionPanel? && PanelOf(view.activeRegion).region.Some?
    ensures PanelOf(view.activeRegion).region.value.id == HoverTargets[k]
  {
    view.Hover(HoverTargets[k]);
    view.Leave();
    PanelShowsHoveredRegion(k);
  }
}
