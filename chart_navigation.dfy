/**
 * The drill-down navigation of `SectorChart` (chart.js): three views, the
 * selected sector and subsector, the chart currently drawn, and the back
 * button's visibility, updated by bar clicks and the back button.
 *
 * The chart object of the charting library is modelled by what it shows
 * (which view, and the entries its bars were built from); destroying the old instance and creating a
 * new one becomes assigning the field.
 */
module ChartNavigation {
  import opened SectorData
  import opened ChartSeries

  /** The sector whose bar opens the subsector view instead of its measures. */
  const IndustrieKey: string := "C Industrie"

  datatype View = SectorsView | SubsectorsView | MeasuresView

  /** The chart on screen, recorded by the entries it was drawn from. Its click
      handler is determined by its kind: sector bars route to a sector,
      subsector bars to a subsector of the `sector` captured when the view was
      drawn, measure bars do nothing. */
  datatype Chart =
    | SectorBars(entries: seq<Item>)
    | SubsectorBars(sector: string, entries: seq<Item>)
    | MeasureBars(entries: seq<Item>)
  {
    /** The label formatter of the chart's view. */
    function Labels(): Labeling
    {
      match this
      case SectorBars(_) => SectorLabels
      case SubsectorBars(_, _) => SubsectorLabels
      case MeasureBars(_) => MeasureLabels
    }

    /** The parallel arrays the chart was given (`labels`, `data`,
        `backgroundColor`, `fullNames` and the original keys). */
    function Drawn(): Series
    {
      BuildSeries(entries, Labels())
    }
  }

  /** What an event handler did: drew a new chart, ignored the event, or
      showed one of the source's alerts (or stopped on a property read of a
      missing object) without touching the state. */
  datatype Notice =
    | Rendered
    | Ignored
    | NoSectorMeasures        // 'Geen maatregelen gevonden voor deze sector.'
    | NoSubsectorData         // 'Geen subsector data gevonden voor industrie.'
    | NoSubsectorMeasures     // 'Geen maatregelen gevonden voor deze subsector.'
    | MissingSubsectorDetails // TypeError reading `subsector_details` of a missing object

  /** `industrie_subsectors.subsector_totals`, when both are present. */
  function SubsectorTotals(d: Dataset): Option<seq<Item>>
  {
    if d.industrieSubsectors.Some? then d.industrieSubsectors.value.subsectorTotals else None
  }

  /** `industrie_subsectors.subsector_details`, when both are present. */
  function SubsectorDetails(d: Dataset): Option<map<string, seq<Item>>>
  {
    if d.industrieSubsectors.Some? then d.industrieSubsectors.value.subsectorDetails else None
  }

  /** JavaScript truthiness of a string-or-null field: null and "" are false. */
  predicate Truthy(s: Option<string>)
  {
    s.Some? && s.value != ""
  }

  class SectorChart {
    /** The loaded document; it is never changed after loading. */
    const data: Dataset
    var chart: Chart
    var currentView: View
    var currentSector: Option<string>
    var currentSubsector: Option<string>
    /** `backButton.style.display != 'none'`. */
    var backButtonShown: bool

    /** The invariant every method keeps. */
    ghost predicate Valid()
      reads this
    {
      // the chart drawn belongs to the current view
      && (currentView == SectorsView <==> chart.SectorBars?)
      && (currentView == SubsectorsView <==> chart.SubsectorBars?)
      && (currentView == MeasuresView <==> chart.MeasureBars?)
      // the sector and subsector bars are those of the document
      && (chart.SectorBars? ==> chart.entries == data.sectorTotals)
      && (chart.SubsectorBars? ==>
            && SubsectorTotals(data) == Some(chart.entries)
            && currentSector == Some(chart.sector))
      // a measure chart is never empty
      && (chart.MeasureBars? ==> |chart.entries| > 0)
      // a subsector is selected only on a measure chart, and only under a sector
      && (currentSubsector.Some? ==> currentView == MeasuresView && currentSector.Some?)
      // the back button is hidden exactly in the sector view
      && (backButtonShown <==> currentView != SectorsView)
    }

    /** The states reachable from construction by clicks and the back button:
        besides Valid, every selection is a key of the document, and the
        subsector level is entered only through the Industrie sector. */
    ghost predicate Reachable()
      reads this
    {
      && Valid()
      && (currentView != SectorsView ==> currentSector.Some? && currentSector.value in Names(data.sectorTotals))
      && (currentView == SubsectorsView || currentSubsector.Some? ==>
            currentSector == Some(IndustrieKey) && SubsectorTotals(data).Some?)
      && (currentSubsector.Some? ==> currentSubsector.value in Names(SubsectorTotals(data).value))
    }

    /** `new SectorChart()` after `loadData` produced `data`: draws the sector chart. */
    constructor (data: Dataset)
      ensures Reachable()
      ensures this.data == data
      ensures currentView == SectorsView && currentSector == None && currentSubsector == None
      ensures chart == SectorBars(data.sectorTotals)
      ensures !backButtonShown
    {
      this.data := data;
      chart := SectorBars(data.sectorTotals);
      currentView := SectorsView;
      currentSector := None;
      currentSubsector := None;
      backButtonShown := false;
    }

    /** `createSectorChart`: draws the sector bars and hides the back button.
        It leaves the sector and subsector selection untouched. */
    method CreateSectorChart()
      requires currentSubsector == None
      modifies this
      ensures Valid()
      ensures chart == SectorBars(data.sectorTotals)
      ensures currentView == SectorsView && !backButtonShown
      ensures currentSector == old(currentSector) && currentSubsector == None
    {
      chart := SectorBars(data.sectorTotals);
      currentView := SectorsView;
      backButtonShown := false;
      assert !chart.SubsectorBars? && !chart.MeasureBars?;
    }

    /** `showSectorView`: clears the subsector, then draws the sector chart. */
    method ShowSectorView()
      modifies this
      ensures Valid()
      ensures chart == SectorBars(data.sectorTotals)
      ensures currentView == SectorsView && !backButtonShown
      ensures currentSector == old(currentSector) && currentSubsector == None
    {
      currentSubsector := None;
      CreateSectorChart();
    }

    /** `showMeasureView(sector)`: the measures of `sector`, unless it has none. */
    method ShowMeasureView(sector: string) returns (notice: Notice)
      requires Valid()
      modifies this
      ensures Valid()
      ensures notice == (if |Lookup(data.sectorDetails, sector)| == 0 then NoSectorMeasures else Rendered)
      ensures notice != Rendered ==> unchanged(this)
      ensures notice == Rendered ==>
        && chart == MeasureBars(Lookup(data.sectorDetails, sector))
        && currentView == MeasuresView && currentSector == Some(sector)
        && currentSubsector == old(currentSubsector) && backButtonShown
    {
      var measures := Lookup(data.sectorDetails, sector);
      if |measures| == 0 {
        notice := NoSectorMeasures;
        return;
      }
      chart := MeasureBars(measures);
      currentView := MeasuresView;
      currentSector := Some(sector);
      backButtonShown := true;
      notice := Rendered;
      assert !chart.SectorBars? && !chart.SubsectorBars?;
    }

    /** `showSubsectorView(sector)`: the Industrie subsector bars, unless the
        document has no subsector totals. */
    method ShowSubsectorView(sector: string) returns (notice: Notice)
      requires Valid()
      modifies this
      ensures Valid()
      ensures notice == (if SubsectorTotals(data).None? then NoSubsectorData else Rendered)
      ensures notice != Rendered ==> unchanged(this)
      ensures notice == Rendered ==>
        && chart == SubsectorBars(sector, SubsectorTotals(data).value)
        && currentView == SubsectorsView && currentSector == Some(sector)
        && currentSubsector == None && backButtonShown
    {
      var subsectorData := data.industrieSubsectors;
      if subsectorData.None? || subsectorData.value.subsectorTotals.None? {
        notice := NoSubsectorData;
        return;
      }
      var totals := subsectorData.value.subsectorTotals.value;
      chart := SubsectorBars(sector, totals);
      currentView := SubsectorsView;
      currentSector := Some(sector);
      currentSubsector := None;
      backButtonShown := true;
      notice := Rendered;
      assert !chart.SectorBars? && !chart.MeasureBars?;
    }

    /** `showSubsectorMeasures(sector, subsector)`: the measures of `subsector`,
        unless it has none. */
    method ShowSubsectorMeasures(sector: string, subsector: string) returns (notice: Notice)
      requires Valid()
      modifies this
      ensures Valid()
      ensures notice ==
        if SubsectorDetails(data).None? then MissingSubsectorDetails
        else if |Lookup(SubsectorDetails(data).value, subsector)| == 0 then NoSubsectorMeasures
        else Rendered
      ensures notice != Rendered ==> unchanged(this)
      ensures notice == Rendered ==>
        && chart == MeasureBars(Lookup(SubsectorDetails(data).value, subsector))
        && currentView == MeasuresView && currentSector == Some(sector)
        && currentSubsector == Some(subsector) && backButtonShown
    {
      if data.industrieSubsectors.None? || data.industrieSubsectors.value.subsectorDetails.None? {
        notice := MissingSubsectorDetails;
        return;
      }
      var measures := Lookup(data.industrieSubsectors.value.subsectorDetails.value, subsector);
      if |measures| == 0 {
        notice := NoSubsectorMeasures;
        return;
      }
      chart := MeasureBars(measures);
      currentView := MeasuresView;
      currentSector := Some(sector);
      currentSubsector := Some(subsector);
      backButtonShown := true;
      notice := Rendered;
      assert !chart.SectorBars? && !chart.SubsectorBars?;
    }

    /** `goBack`: from a subsector's measures back to the subsector bars;
        from anywhere else (including measures under an empty-named subsector,
        which the source's truthiness test treats as none) back to the sector bars. */
    method GoBack() returns (notice: Notice)
      requires Valid()
      modifies this
      ensures Valid()
      ensures old(Reachable()) ==> Reachable()
      ensures old(currentView) == MeasuresView && Truthy(old(currentSubsector)) ==>
        && notice == (if SubsectorTotals(data).None? then NoSubsectorData else Rendered)
        && (notice != Rendered ==> unchanged(this))
        && (notice == Rendered ==>
              && chart == SubsectorBars(old(currentSector).value, SubsectorTotals(data).value)
              && currentView == SubsectorsView && currentSector == old(currentSector)
              && currentSubsector == None && backButtonShown)
      ensures !(old(currentView) == MeasuresView && Truthy(old(currentSubsector))) ==>
        && notice == Rendered
        && chart == SectorBars(data.sectorTotals)
        && currentView == SectorsView && currentSector == old(currentSector)
        && currentSubsector == None && !backButtonShown
      ensures old(Reachable()) && old(currentView) == MeasuresView && Truthy(old(currentSubsector)) ==>
        notice == Rendered && currentView == SubsectorsView
    {
      if currentView == MeasuresView && Truthy(currentSubsector) {
        notice := ShowSubsectorView(currentSector.value);
      } else {
        // the source has two further branches, both of which show the sector view
        ShowSectorView();
        notice := Rendered;
      }
    }

    /** The `onClick` handler of the chart on screen, given the index of the
        bar hit (none when the click missed every bar). The charting library
        only reports indices of bars it drew. */
    method OnBarClick(hit: Option<nat>) returns (notice: Notice)
      requires Valid()
      requires hit.Some? ==> hit.value < |chart.entries|
      modifies this
      ensures Valid()
      ensures old(Reachable()) ==> Reachable()
      ensures notice != Rendered ==> unchanged(this)
      ensures hit.None? || old(chart).MeasureBars? ==> notice == Ignored
      // a hit on a sector bar routes to the sector whose total the bar shows
      ensures hit.Some? && old(chart).SectorBars? ==>
        var key := old(chart).Drawn().keys[hit.value];
        && Item(key, old(chart).Drawn().amounts[hit.value]) in data.sectorTotals
        && (key == IndustrieKey ==>
              && notice == (if SubsectorTotals(data).None? then NoSubsectorData else Rendered)
              && (notice == Rendered ==>
                    currentView == SubsectorsView && currentSector == Some(key) && currentSubsector == None))
        && (key != IndustrieKey ==>
              && notice == (if |Lookup(data.sectorDetails, key)| == 0 then NoSectorMeasures else Rendered)
              && (notice == Rendered ==>
                    && chart == MeasureBars(Lookup(data.sectorDetails, key))
                    && currentView == MeasuresView && currentSector == Some(key)
                    && currentSubsector == old(currentSubsector)))
      // a hit on a subsector bar routes to that subsector of the captured sector
      ensures hit.Some? && old(chart).SubsectorBars? ==>
        var key := old(chart).Drawn().keys[hit.value];
        && Item(key, old(chart).Drawn().amounts[hit.value]) in SubsectorTotals(data).value
        && notice ==
             (if SubsectorDetails(data).None? then MissingSubsectorDetails
              else if |Lookup(SubsectorDetails(data).value, key)| == 0 then NoSubsectorMeasures
              else Rendered)
        && (notice == Rendered ==>
              && chart == MeasureBars(Lookup(SubsectorDetails(data).value, key))
              && currentView == MeasuresView && currentSector == Some(old(chart).sector)
              && currentSubsector == Some(key))
    {
      if hit.None? {
        notice := Ignored;
        return;
      }
      var index := hit.value;
      match chart
      case SectorBars(totals) =>
        BuildSeriesIsSorted(totals, SectorLabels);
        var originalSector := chart.Drawn().keys[index];
        if originalSector == IndustrieKey {
          notice := ShowSubsectorView(originalSector);
        } else {
          notice := ShowMeasureView(originalSector);
        }
      case SubsectorBars(sector, totals) =>
        BuildSeriesIsSorted(totals, SubsectorLabels);
        var originalSubsector := chart.Drawn().keys[index];
        notice := ShowSubsectorMeasures(sector, originalSubsector);
      case MeasureBars(_) =>
        notice := Ignored;
    }
  }
}
