/** The state side of src/c/app/ui.c: which window is shown, whether the main and
    loading windows exist, and what the region and score text layers hold. The
    SDK's windows and layers are reduced to those values; the text and frame a
    layer is given are recorded as a `TextLayer`. */
module Ui {
  import opened IntTypes
  import opened Data
  import opened Utility
  import opened Layout
  import Graphics

  /** The window on top of the stack. */
  datatype View = NoWindow | Loading | Main

  /** What a score text layer has been given: its text and its frame. */
  datatype TextLayer = TextLayer(text: string, frame: Rect)

  /** The part of the UI a message or a click can change. `mainWindow` and
      `loadingWindow` say whether `s_main_window` and `s_loading_window` are set. */
  datatype UiState = UiState(
    view: View, mainWindow: bool, loadingWindow: bool,
    regionText: string, morning: TextLayer, afternoon: TextLayer)

  /** The bounds `update_score` lays the score rectangles out in, and the screen shape. */
  datatype Geometry = Geometry(bounds: Rect, screen: Screen)

  /** The region layer's text. */
  function RegionName(r: Region): (name: string)
    ensures name == "North" <==> r == North
    ensures name == "South" <==> r == South
  {
    assert "North"[0] != "South"[0];
    match r
    case North => "North"
    case South => "South"
  }

  /** The region the toggle switches to. */
  function Toggle(r: Region): (t: Region)
    ensures t != r
  {
    if r == North then South else North
  }

  /** Toggling twice restores the region. */
  lemma ToggleTwice(r: Region)
    ensures Toggle(Toggle(r)) == r
  {
  }

  /** The text and frame update_score gives the layer of `time` for `score`. */
  function ScoreLayer(g: Geometry, time: TimePeriod, score: int8): TextLayer {
    TextLayer(ScoreText(score), ScoreRect(time, g.bounds, LineCount(score), g.screen))
  }

  /** The display shows table `t` for region `r`: the region name and both scores. */
  predicate Shows(st: UiState, g: Geometry, t: Table, r: Region) {
    && st.regionText == RegionName(r)
    && st.morning == ScoreLayer(g, Morning, Get(t, r, Morning))
    && st.afternoon == ScoreLayer(g, Afternoon, Get(t, r, Afternoon))
  }

  /** update_score: the layer of `time` shows `score`; everything else is as before. */
  function WithScore(st: UiState, g: Geometry, time: TimePeriod, score: int8): UiState {
    if time == Morning then st.(morning := ScoreLayer(g, Morning, score))
    else st.(afternoon := ScoreLayer(g, Afternoon, score))
  }

  /** update_all: the region name and both scores for region `r` of table `t`. */
  function WithAll(st: UiState, g: Geometry, t: Table, r: Region): (st': UiState)
    ensures Shows(st', g, t, r)
    ensures st'.view == st.view && st'.mainWindow == st.mainWindow && st'.loadingWindow == st.loadingWindow
  {
    var st1 := st.(regionText := RegionName(r));
    var st2 := WithScore(st1, g, Morning, Get(t, r, Morning));
    WithScore(st2, g, Afternoon, Get(t, r, Afternoon))
  }

  /** show_main_window: the main window is created if it does not exist, the loading
      window is removed and released, and the main window is pushed. A newly created
      window is loaded on that push, and its load handler ends with update_all. */
  function Opened(st: UiState, g: Geometry, t: Table, r: Region): UiState {
    var st1 := st.(mainWindow := true, loadingWindow := false, view := Main);
    if st.mainWindow then st1 else WithAll(st1, g, t, r)
  }

  /** ui_init: the main window (loaded, then updated once more) when all four
      scores are loaded, the loading window otherwise. */
  function Initialised(st: UiState, g: Geometry, t: Table, r: Region): UiState {
    if Progress(t) == 4 then WithAll(st.(mainWindow := true, view := Main), g, t, r)
    else st.(loadingWindow := true, view := Loading)
  }

  /** ui_init shows the main window exactly when the table is fully loaded, the
      loading window otherwise, and a main window shown at start shows the table. */
  lemma InitialView(st: UiState, g: Geometry, t: Table, r: Region)
    ensures var st' := Initialised(st, g, t, r);
      && (st'.view == Main <==> forall r': Region, time: TimePeriod :: Get(t, r', time) != Unloaded)
      && (st'.view == Loading <==> Progress(t) < 4)
      && (st'.view == Main ==> st'.mainWindow && Shows(st', g, t, r))
  {
    ProgressFull(t);
  }

  /** Showing the main window always ends on the main window, with the loading window
      gone; a main window created by the call shows the table. */
  lemma OpenedShowsMain(st: UiState, g: Geometry, t: Table, r: Region)
    ensures var st' := Opened(st, g, t, r);
      && st'.view == Main && st'.mainWindow && !st'.loadingWindow
      && (!st.mainWindow ==> Shows(st', g, t, r))
      && (st.mainWindow ==> st'.regionText == st.regionText && st'.morning == st.morning && st'.afternoon == st.afternoon)
  {
  }

  /** Refreshing one time period keeps the display current after that cell of the
      current region changes: the other label already showed the right score. */
  lemma RefreshedCell(st: UiState, g: Geometry, t: Table, r: Region, time: TimePeriod, s: int8)
    requires Shows(st, g, t, r)
    ensures var t' := Set(t, r, time, s);
      Shows(WithScore(st, g, time, Get(t', r, time)), g, t', r)
  {
    var t' := Set(t, r, time, s);
    var other := if time == Morning then Afternoon else Morning;
    assert Get(t', r, other) == Get(t, r, other);
  }

  /** A score written for the other region leaves what the display shows correct. */
  lemma OtherRegionWrite(st: UiState, g: Geometry, t: Table, r: Region, r': Region, time: TimePeriod, s: int8)
    requires Shows(st, g, t, r) && r' != r
    ensures Shows(st, g, Set(t, r', time, s), r)
  {
    var t' := Set(t, r', time, s);
    assert Get(t', r, Morning) == Get(t, r, Morning);
    assert Get(t', r, Afternoon) == Get(t, r, Afternoon);
  }

  /** The label's text has exactly the number of lines the score rectangle is
      sized for: the `line_count` rule and the label texts agree. */
  lemma LabelFitsRect(score: int8)
    ensures LineCountOf(ScoreText(score)) == LineCount(score) as int
  {
    LabelLines(score);
  }

  /** The icon and the text follow one threshold chain: sun with "Visible", partly
      cloudy with "Partly\nVisible", mostly cloudy with "Barely\nVisible" and very
      cloudy with "Not\nVisible". */
  lemma IconMatchesLabel(score: int8)
    ensures Graphics.IconFor(score) == Graphics.SunIcon <==> ScoreText(score) == VisibleText
    ensures Graphics.IconFor(score) == Graphics.PartlyCloudyIcon <==> ScoreText(score) == PartlyVisibleText
    ensures Graphics.IconFor(score) == Graphics.MostlyCloudyIcon <==> ScoreText(score) == BarelyVisibleText
    ensures Graphics.IconFor(score) == Graphics.VeryCloudyIcon <==> ScoreText(score) == NotVisibleText
  {
    ScoreTextByClass(score, Visible);
    ScoreTextByClass(score, PartlyVisible);
    ScoreTextByClass(score, BarelyVisible);
    ScoreTextByClass(score, NotVisible);
  }

  /** On rectangular screens the afternoon icon is drawn PADDING below the afternoon
      bubble's top, at y = 106. The sun's `center_y` is an `int8_t`, so for every size
      of 44 or more it wraps to a negative value, far above the icon. */
  lemma AfternoonIconWraps(b: Rect, x: int16, size: int8)
    requires Proper(b) && size >= 0
    ensures var y := BubbleRect(Afternoon, b, Rectangular).y as int + Padding;
      y == 106 && (Graphics.CentreY(Graphics.Point(x, y as int16), size) < 0 <==> size >= 44)
  {
  }

  /** The static UI state of ui.c. */
  class Ui {
    const store: ScoreStore
    const geometry: Geometry
    const build: Build
    var view: View
    var mainWindow: bool
    var loadingWindow: bool
    var regionText: string
    var morningScore: TextLayer
    var afternoonScore: TextLayer

    ghost predicate Valid()
      reads this, store
    {
      store.Valid()
    }

    ghost function State(): UiState
      reads this
    {
      UiState(view, mainWindow, loadingWindow, regionText, morningScore, afternoonScore)
    }

    /** Before ui_init: no window, empty layers. */
    constructor (store: ScoreStore, geometry: Geometry, build: Build)
      requires store.Valid()
      ensures Valid() && this.store == store && this.geometry == geometry && this.build == build
      ensures view == NoWindow && !mainWindow && !loadingWindow
    {
      this.store := store;
      this.geometry := geometry;
      this.build := build;
      view := NoWindow;
      mainWindow := false;
      loadingWindow := false;
      regionText := "";
      morningScore := TextLayer("", Rect(0, 0, 0, 0));
      afternoonScore := TextLayer("", Rect(0, 0, 0, 0));
    }

    /** update_region */
    method UpdateRegion()
      modifies this
      ensures State() == old(State()).(regionText := RegionName(store.currentRegion))
    {
      var region := store.GetCurrentRegion();
      regionText := if region == North then "North" else "South";
    }

    /** update_score */
    method UpdateScore(time: TimePeriod)
      requires Valid()
      modifies this
      ensures Valid()
      ensures State() == WithScore(old(State()), geometry, time, Get(store.Contents(), store.currentRegion, time))
    {
      var score := store.GetCurrentRegionScore(time);
      var lineCount: int8 := if score >= 8 then 1 else 2;
      var layer := TextLayer(ScoreText(score), ScoreRect(time, geometry.bounds, lineCount, geometry.screen));
      if time == Morning {
        morningScore := layer;
      } else {
        afternoonScore := layer;
      }
    }

    /** update_all, without the date (see README). */
    method UpdateAll()
      requires Valid()
      modifies this
      ensures Valid()
      ensures State() == WithAll(old(State()), geometry, store.Contents(), store.currentRegion)
    {
      UpdateRegion();
      UpdateScore(Morning);
      UpdateScore(Afternoon);
    }

    /** region_toggle_click_handler: the other region, and the display redrawn for it;
        no score changes. */
    method RegionToggleClick()
      requires Valid()
      modifies this, store
      ensures Valid()
      ensures store.currentRegion == Toggle(old(store.currentRegion))
      ensures store.Contents() == old(store.Contents())
      ensures State() == WithAll(old(State()), geometry, store.Contents(), store.currentRegion)
    {
      var region := store.GetCurrentRegion();
      store.SetCurrentRegion(if region == North then South else North);
      UpdateAll();
    }

    /** draw_score_bubble: the fill colour and the rectangle of one score bubble on a
        layer with bounds `layerBounds`. */
    method DrawScoreBubble(time: TimePeriod, layerBounds: Rect) returns (fill: GColor, rect: Rect)
      requires Valid()
      ensures var score := Get(store.Contents(), store.currentRegion, time);
        && fill == ScoreBubbleColor(build, score)
        && rect == ScoreRect(time, layerBounds, LineCount(score), geometry.screen)
    {
      var score := store.GetCurrentRegionScore(time);
      var lineCount: int8 := if score >= 8 then 1 else 2;
      fill := ScoreBubbleColor(build, score);
      rect := ScoreRect(time, layerBounds, lineCount, geometry.screen);
    }

    /** show_main_window */
    method ShowMainWindow()
      requires Valid()
      modifies this
      ensures Valid()
      ensures State() == Opened(old(State()), geometry, store.Contents(), store.currentRegion)
    {
      var created := !mainWindow;
      if !mainWindow {
        mainWindow := true;
      }
      view := Main;
      loadingWindow := false;
      if created {
        UpdateAll();
      }
    }

    /** ui_init */
    method UiInit()
      requires Valid()
      modifies this
      ensures Valid()
      ensures State() == Initialised(old(State()), geometry, store.Contents(), store.currentRegion)
    {
      var progress := store.GetDataLoadedProgress();
      if progress == 4 {
        mainWindow := true;
        view := Main;
        UpdateAll();
        UpdateAll();
      } else {
        loadingWindow := true;
        view := Loading;
      }
    }
  }
}
