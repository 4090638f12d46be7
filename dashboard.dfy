/**
 * The Dashboard's decisions: whether the year selector is shown, what its two buttons and the
 * intro button emit, and which panel it renders. Rendering itself is left to React; a panel is
 * described here by the choices it embodies.
 */
module Dashboard {
  import opened Intents

  /** One entry of the `yearlyPercentage` series. */
  datatype YearPercentage = YearPercentage(year: int, percentage: real)

  /** The properties of Dashboard that its logic reads. */
  datatype DashboardProps = DashboardProps(
    mode: Mode,
    selectedArea: Option<Bounds>,
    yearlyPercentage: Option<seq<YearPercentage>>)

  /** Some year of the series has a positive percentage. */
  predicate SomeYearHasData(series: seq<YearPercentage>) {
    exists i :: 0 <= i < |series| && series[i].percentage > 0.0
  }

  /** When the year selector is to be shown: a series with data, outside editing mode. */
  predicate YearSelectorVisible(yearlyPercentage: Option<seq<YearPercentage>>, mode: Mode) {
    yearlyPercentage.Some? && SomeYearHasData(yearlyPercentage.value) && mode != Editing
  }

  /**
   * `showYearSelector`: scan the series for a positive percentage, stopping at the first one, then
   * answer only outside editing mode.
   */
  method ShowYearSelector(yearlyPercentage: Option<seq<YearPercentage>>, mode: Mode) returns (show: bool)
    ensures show <==> YearSelectorVisible(yearlyPercentage, mode)
  {
    if yearlyPercentage.None? {
      return false;
    }
    var series := yearlyPercentage.value;
    var noData := true;
    var i, j := 0, |series|;
    while i < j
      invariant 0 <= i <= j == |series|
      invariant noData ==> forall k :: 0 <= k < i ==> series[k].percentage <= 0.0
      invariant !noData ==> SomeYearHasData(series)
      decreases j - i
    {
      if series[i].percentage > 0.0 {
        noData := false;
        break;
      }
      i := i + 1;
    }
    show := !noData && mode != Editing;
  }

  /** `onClickFirstButton` (the "Cancel" button): the callbacks it invokes, in order. */
  function FirstButtonClick(mode: Mode): (emitted: seq<Effect>)
    ensures mode == Editing ==> emitted == [SetAction(Cancel), SetMode(NoMode)]
    ensures mode != Editing ==> emitted == [SetSelectedArea(None)]
  {
    if mode == Editing then [SetAction(Cancel), SetMode(NoMode)] else [SetSelectedArea(None)]
  }

  /** `onClickSecondButton` (the "Save"/"Edit" button): the callbacks it invokes, in order. */
  function SecondButtonClick(mode: Mode): (emitted: seq<Effect>)
    ensures mode == Editing ==> emitted == [SetAction(Save), SetMode(NoMode)]
    ensures mode != Editing ==> emitted == [SetMode(Editing)]
  {
    if mode == Editing then [SetAction(Save), SetMode(NoMode)] else [SetMode(Editing)]
  }

  /** The label of the second button. */
  function SecondButtonLabel(mode: Mode): (caption: string)
    ensures caption == "Save" <==> mode == Editing
    ensures caption == "Edit" <==> mode != Editing
  {
    if mode == Editing then "Save" else "Edit"
  }

  /** The click of the draw button on the intro panel. */
  function IntroButtonClick(): (emitted: seq<Effect>)
    ensures |emitted| == 1 && emitted[0].SetMode? && emitted[0].mode == Drawing
  {
    [SetMode(Drawing)]
  }

  /** The panel `render` shows: the intro prompt, or the tools with their label and selector. */
  datatype Panel =
    | Intro
    | Tools(secondLabel: string, yearSelector: bool)

  function Render(p: DashboardProps): (panel: Panel)
    ensures panel.Tools? <==> p.selectedArea.Some?
    ensures panel.Tools? ==> panel.secondLabel == SecondButtonLabel(p.mode)
    ensures panel.Tools? ==> (panel.yearSelector <==> YearSelectorVisible(p.yearlyPercentage, p.mode))
  {
    if p.selectedArea.Some? then
      Tools(SecondButtonLabel(p.mode), YearSelectorVisible(p.yearlyPercentage, p.mode))
    else
      Intro
  }

  /** An absent series never shows the selector. */
  lemma NoSeriesNoSelector(mode: Mode)
    ensures !YearSelectorVisible(None, mode)
  {
  }

  /** A series whose percentages are all zero, the empty one included, never shows the selector. */
  lemma AllZeroNoSelector(series: seq<YearPercentage>, mode: Mode)
    requires forall i :: 0 <= i < |series| ==> series[i].percentage == 0.0
    ensures !YearSelectorVisible(Some(series), mode)
  {
  }

  /** In editing mode the selector is hidden whatever the percentages. */
  lemma EditingNoSelector(yearlyPercentage: Option<seq<YearPercentage>>)
    ensures !YearSelectorVisible(yearlyPercentage, Editing)
  {
  }

  /** The year selector can appear only on the tools panel, that is, only with an area selected. */
  lemma SelectorOnlyWithArea(p: DashboardProps)
    ensures Render(p).Tools? && Render(p).yearSelector ==> p.selectedArea.Some?
    ensures p.selectedArea.None? ==> Render(p) == Intro
  {
  }
}
