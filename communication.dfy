/** The phone-to-watch message handling of src/c/app/communication.c. An inbound
    message is a record of optional fields; `Decode` says which command it carries,
    `Apply` what that command does to the score table, and `EffectOf` which display
    update the handler then performs. `InboxReceived` is the handler itself, proved
    to follow those three functions. */
module Communication {
  import opened IntTypes
  import opened CInt
  import opened Data
  import opened Ui

  datatype Option<T> = None | Some(value: T)

  /** An inbound AppMessage dictionary: each key is present or absent. Text
      values are the tuples' C strings, numbers their `int32` values. */
  datatype Message = Message(
    kind: Option<string>, region: Option<string>, time: Option<string>, score: Option<int32>,
    northMorning: Option<int32>, northAfternoon: Option<int32>,
    southMorning: Option<int32>, southAfternoon: Option<int32>)

  /** What a message asks of the watch once its fields have been read. */
  datatype Command =
    | Ignore
    | Ready
    | NewScore(region: Region, time: TimePeriod, score: int8)
    | NewScores(northMorning: int8, northAfternoon: int8, southMorning: int8, southAfternoon: int8)

  /** The region string: "north" selects North, every other string South. */
  function ParseRegion(s: string): (r: Region)
    ensures r == North <==> s == "north"
  {
    if s == "north" then North else South
  }

  /** The time string: "morning" selects Morning, every other string Afternoon. */
  function ParseTime(s: string): (t: TimePeriod)
    ensures t == Morning <==> s == "morning"
  {
    if s == "morning" then Morning else Afternoon
  }

  /** The `(int8_t)` cast of a received `int32`: the value itself when it fits,
      and in any case a value congruent to it modulo 256. */
  function Narrow(v: int32): (n: int8)
    ensures IsInt8(v as int) ==> n as int == v as int
    ensures (n as int - v as int) % 256 == 0
  {
    Wrap8Congruent(v as int);
    Wrap8(v as int)
  }

  /** The command a message carries. A message is acted on only when its type is
      one of the three the handler knows and every field that type needs is there. */
  function Decode(msg: Message): (c: Command)
    ensures c.Ready? <==> msg.kind == Some("ready")
    ensures c.NewScore? <==>
      msg.kind == Some("new_score") && msg.region.Some? && msg.time.Some? && msg.score.Some?
    ensures c.NewScores? <==>
      && msg.kind == Some("new_scores")
      && msg.northMorning.Some? && msg.northAfternoon.Some?
      && msg.southMorning.Some? && msg.southAfternoon.Some?
  {
    assert "ready"[0] != "new_score"[0] && |"new_score"| != |"new_scores"|;
    match msg.kind
    case None => Ignore
    case Some(kind) =>
      if kind == "ready" then Ready
      else if kind == "new_score" then
        if msg.region.Some? && msg.time.Some? && msg.score.Some? then
          NewScore(ParseRegion(msg.region.value), ParseTime(msg.time.value), Narrow(msg.score.value))
        else Ignore
      else if kind == "new_scores" then
        if msg.northMorning.Some? && msg.northAfternoon.Some? && msg.southMorning.Some? && msg.southAfternoon.Some? then
          NewScores(Narrow(msg.northMorning.value), Narrow(msg.northAfternoon.value),
                    Narrow(msg.southMorning.value), Narrow(msg.southAfternoon.value))
        else Ignore
      else Ignore
  }

  /** The table after the command's `set_region_score` calls, in the handler's order. */
  function Apply(t: Table, c: Command): Table {
    match c
    case Ignore => t
    case Ready => t
    case NewScore(r, time, s) => Set(t, r, time, s)
    case NewScores(nm, na, sm, sa) =>
      Set(Set(Set(Set(t, North, Morning, nm), North, Afternoon, na), South, Morning, sm), South, Afternoon, sa)
  }

  /** What the handler does besides writing scores. */
  datatype Effect = NoEffect | SendUpdateAll | RefreshScore(time: TimePeriod) | RefreshAll | ShowMain

  /** The effect of command `c` received with table `t` and current region `region`. */
  function EffectOf(t: Table, region: Region, c: Command): Effect {
    match c
    case Ignore => NoEffect
    case Ready => SendUpdateAll
    case NewScore(r, time, _) => if r == region then RefreshScore(time) else NoEffect
    case NewScores(_, _, _, _) =>
      if Progress(t) != 4 && Progress(Apply(t, c)) == 4 then ShowMain else RefreshAll
  }

  /** The UI state after effect `e`, with `t` the table as the handler left it. */
  function Respond(st: UiState, g: Geometry, t: Table, region: Region, e: Effect): UiState {
    match e
    case NoEffect => st
    case SendUpdateAll => st
    case RefreshScore(time) => WithScore(st, g, time, Get(t, region, time))
    case RefreshAll => WithAll(st, g, t, region)
    case ShowMain => Opened(st, g, t, region)
  }

  /** The three calls of send_update_all_message. */
  datatype Step = Begin | Write | Send

  /** The result an SDK call reports: `APP_MSG_OK` / `DICT_OK`, or an error code. */
  datatype Status = Ok | Failed(code: int)

  /** The results the outbox would report for the three calls, if made. */
  datatype Link = Link(begin: Status, write: Status, send: Status)

  const AllSteps: seq<Step> := [Begin, Write, Send]

  function StatusOf(link: Link, step: Step): Status {
    match step
    case Begin => link.begin
    case Write => link.write
    case Send => link.send
  }

  /** The request goes out: all three calls succeed. */
  predicate Delivered(link: Link) {
    link.begin == Ok && link.write == Ok && link.send == Ok
  }

  /** send_update_all_message: opens the outbox, writes type "update_all" and sends,
      stopping at the first call that fails. `steps` lists the calls made. */
  method SendUpdateAllMessage(link: Link) returns (ok: bool, steps: seq<Step>)
    ensures 1 <= |steps| <= 3 && steps == AllSteps[..|steps|]
    ensures forall i :: 0 <= i < |steps| - 1 ==> StatusOf(link, steps[i]) == Ok
    ensures ok <==> Delivered(link)
    ensures ok ==> |steps| == 3 && StatusOf(link, steps[2]) == Ok
    ensures !ok ==> StatusOf(link, steps[|steps| - 1]) != Ok
  {
    steps := [Begin];
    var appMessageResult := link.begin;
    if appMessageResult != Ok {
      return false, steps;
    }
    steps := steps + [Write];
    var dictResult := link.write;
    if dictResult != Ok {
      return false, steps;
    }
    steps := steps + [Send];
    appMessageResult := link.send;
    if appMessageResult != Ok {
      return false, steps;
    }
    return true, steps;
  }

  /** inbox_received_callback. `sent` is the outcome of the update request a "ready"
      message triggers, and None for every other message. */
  method InboxReceived(ui: Ui, msg: Message, link: Link) returns (sent: Option<bool>)
    requires ui.Valid()
    modifies ui, ui.store.scores
    ensures ui.Valid()
    ensures ui.store.currentRegion == old(ui.store.currentRegion)
    ensures ui.store.Contents() == Apply(old(ui.store.Contents()), Decode(msg))
    ensures ui.State() ==
      Respond(old(ui.State()), ui.geometry, ui.store.Contents(), ui.store.currentRegion,
              EffectOf(old(ui.store.Contents()), ui.store.currentRegion, Decode(msg)))
    ensures sent.Some? <==> Decode(msg).Ready?
    ensures sent.Some? ==> (sent.value <==> Delivered(link))
  {
    if msg.kind.None? {
      return None;
    }
    var kind := msg.kind.value;
    if kind == "ready" {
      var ok, _ := SendUpdateAllMessage(link);
      return Some(ok);
    }
    if kind == "new_score" {
      if msg.region.Some? && msg.time.Some? && msg.score.Some? {
        var region := ParseRegion(msg.region.value);
        var time := ParseTime(msg.time.value);
        var score := Narrow(msg.score.value);
        ui.store.SetRegionScore(region, time, score);
        var current := ui.store.GetCurrentRegion();
        if region == current {
          ui.UpdateScore(time);
        }
      }
      return None;
    }
    if kind == "new_scores" {
      if msg.northMorning.Some? && msg.northAfternoon.Some? && msg.southMorning.Some? && msg.southAfternoon.Some? {
        var progress := ui.store.GetDataLoadedProgress();
        var alreadyLoaded := progress == 4;
        ui.store.SetRegionScore(North, Morning, Narrow(msg.northMorning.value));
        ui.store.SetRegionScore(North, Afternoon, Narrow(msg.northAfternoon.value));
        ui.store.SetRegionScore(South, Morning, Narrow(msg.southMorning.value));
        ui.store.SetRegionScore(South, Afternoon, Narrow(msg.southAfternoon.value));
        progress := ui.store.GetDataLoadedProgress();
        if !alreadyLoaded && progress == 4 {
          ui.ShowMainWindow();
        } else {
          ui.UpdateAll();
        }
      }
    }
    return None;
  }

  /** A message without a type, or with a type the handler does not know, changes
      neither the table nor the display. */
  lemma UnknownMessageIgnored(msg: Message, st: UiState, g: Geometry, t: Table, region: Region)
    requires msg.kind.None? || (msg.kind.value != "ready" && msg.kind.value != "new_score" && msg.kind.value != "new_scores")
    ensures Decode(msg) == Ignore
    ensures Apply(t, Decode(msg)) == t
    ensures Respond(st, g, t, region, EffectOf(t, region, Decode(msg))) == st
  {
  }

  /** "ready" changes no score and no label; its only effect is the update request. */
  lemma ReadyOnlyRequests(msg: Message, st: UiState, g: Geometry, t: Table, region: Region)
    requires msg.kind == Some("ready")
    ensures Apply(t, Decode(msg)) == t
    ensures EffectOf(t, region, Decode(msg)) == SendUpdateAll
    ensures Respond(st, g, t, region, SendUpdateAll) == st
  {
  }

  /** A "new_score" (or "new_scores") message missing any field it needs is dropped
      whole: no cell is written, whatever the fields that are present hold. */
  lemma IncompleteMessageDropped(msg: Message, t: Table, region: Region)
    requires msg.kind == Some("new_score") || msg.kind == Some("new_scores")
    requires msg.kind == Some("new_score") ==> msg.region.None? || msg.time.None? || msg.score.None?
    requires msg.kind == Some("new_scores") ==>
      msg.northMorning.None? || msg.northAfternoon.None? || msg.southMorning.None? || msg.southAfternoon.None?
    ensures Decode(msg) == Ignore
    ensures Apply(t, Decode(msg)) == t && EffectOf(t, region, Decode(msg)) == NoEffect
  {
    assert |"new_score"| != |"new_scores"|;
  }

  /** A complete "new_score" names North exactly for "north" and Morning exactly for
      "morning", and its score is the received value taken modulo 256, which is the
      value itself whenever that fits an `int8_t`. */
  lemma NewScoreFields(msg: Message)
    requires msg.kind == Some("new_score") && msg.region.Some? && msg.time.Some? && msg.score.Some?
    ensures Decode(msg).NewScore?
    ensures Decode(msg).region == North <==> msg.region.value == "north"
    ensures Decode(msg).time == Morning <==> msg.time.value == "morning"
    ensures (Decode(msg).score as int - msg.score.value as int) % 256 == 0
    ensures -128 <= msg.score.value < 128 ==> Decode(msg).score as int == msg.score.value as int
  {
    assert "ready"[0] != "new_score"[0];
    Wrap8Congruent(msg.score.value as int);
  }

  /** A complete "new_scores" puts each received value, cast to `int8_t`, into the
      cell its key names: northMorning into (North, Morning), northAfternoon into
      (North, Afternoon), southMorning into (South, Morning), southAfternoon into
      (South, Afternoon). */
  lemma NewScoresFields(msg: Message, t: Table)
    requires Decode(msg).NewScores?
    ensures Apply(t, Decode(msg)) ==
      Table(RegionScores(Narrow(msg.northMorning.value), Narrow(msg.northAfternoon.value)),
            RegionScores(Narrow(msg.southMorning.value), Narrow(msg.southAfternoon.value)))
  {
    assert "ready"[0] != "new_score"[0] && |"new_score"| != |"new_scores"|;
  }

  /** A "new_score" writes its one cell and no other, and asks for a refresh of the
      label for that time period exactly when the region is the one on screen. */
  lemma NewScoreWritesOneCell(t: Table, region: Region, r: Region, time: TimePeriod, s: int8)
    ensures var t' := Apply(t, NewScore(r, time, s));
      && Get(t', r, time) == s
      && forall r': Region, time': TimePeriod :: (r' != r || time' != time) ==> Get(t', r', time') == Get(t, r', time')
    ensures EffectOf(t, region, NewScore(r, time, s)) == (if r == region then RefreshScore(time) else NoEffect)
    ensures Progress(Apply(t, NewScore(r, time, s))) ==
      Progress(t) + (if s != Unloaded then 1 else 0) - (if Get(t, r, time) != Unloaded then 1 else 0)
  {
    ProgressAfterSet(t, r, time, s);
  }

  /** "new_scores" overwrites all four cells: the resulting table does not depend on
      the one before. */
  lemma NewScoresOverwrite(t: Table, nm: int8, na: int8, sm: int8, sa: int8)
    ensures Apply(t, NewScores(nm, na, sm, sa)) == Table(RegionScores(nm, na), RegionScores(sm, sa))
  {
  }

  /** The main window is shown exactly when a "new_scores" completes the table for the
      first time: progress was below 4 and is 4 afterwards. */
  lemma ShowMainOnFirstLoad(t: Table, region: Region, c: Command)
    ensures EffectOf(t, region, c) == ShowMain <==>
      c.NewScores? && Progress(t) < 4 && Progress(Apply(t, c)) == 4
  {
  }

  /** In terms of cells: the main window is shown exactly when some cell held -1
      before and none of the four received scores is -1. */
  lemma ShowMainByCells(t: Table, region: Region, nm: int8, na: int8, sm: int8, sa: int8)
    ensures EffectOf(t, region, NewScores(nm, na, sm, sa)) == ShowMain <==>
      && (exists r: Region, time: TimePeriod :: Get(t, r, time) == Unloaded)
      && nm != Unloaded && na != Unloaded && sm != Unloaded && sa != Unloaded
  {
    var t' := Apply(t, NewScores(nm, na, sm, sa));
    NewScoresOverwrite(t, nm, na, sm, sa);
    ProgressFull(t);
    ProgressFull(t');
    assert Get(t', North, Morning) == nm && Get(t', North, Afternoon) == na;
    assert Get(t', South, Morning) == sm && Get(t', South, Afternoon) == sa;
  }

  /** Receiving the same "new_scores" twice: the second changes nothing in the table
      and only redraws; it never shows the main window. */
  lemma RepeatedNewScores(t: Table, region: Region, nm: int8, na: int8, sm: int8, sa: int8)
    ensures var c := NewScores(nm, na, sm, sa);
      var t1 := Apply(t, c);
      Apply(t1, c) == t1 && EffectOf(t1, region, c) == RefreshAll
  {
    var c := NewScores(nm, na, sm, sa);
    NewScoresOverwrite(t, nm, na, sm, sa);
    NewScoresOverwrite(Apply(t, c), nm, na, sm, sa);
  }

  /** No effect but ShowMain changes which window is shown or which windows exist. */
  lemma OnlyShowMainSwitches(st: UiState, g: Geometry, t: Table, region: Region, e: Effect)
    ensures var st' := Respond(st, g, t, region, e);
      && (e != ShowMain ==> st'.view == st.view && st'.mainWindow == st.mainWindow && st'.loadingWindow == st.loadingWindow)
      && (e == ShowMain ==> st'.view == Main && st'.mainWindow && !st'.loadingWindow)
  {
    OpenedShowsMain(st, g, t, region);
  }

  /** A "new_score" never shows the main window: four of them, one per cell, take the
      table from all -1 to fully loaded while the loading window stays up. */
  lemma NewScoresOneByOneStayLoading(st: UiState, g: Geometry, nm: int8, na: int8, sm: int8, sa: int8)
    requires st.view == Loading
    requires nm != Unloaded && na != Unloaded && sm != Unloaded && sa != Unloaded
    ensures
      var c1 := NewScore(North, Morning, nm);
      var c2 := NewScore(North, Afternoon, na);
      var c3 := NewScore(South, Morning, sm);
      var c4 := NewScore(South, Afternoon, sa);
      var t1 := Apply(InitialTable, c1);
      var t2 := Apply(t1, c2);
      var t3 := Apply(t2, c3);
      var t4 := Apply(t3, c4);
      var st1 := Respond(st, g, t1, North, EffectOf(InitialTable, North, c1));
      var st2 := Respond(st1, g, t2, North, EffectOf(t1, North, c2));
      var st3 := Respond(st2, g, t3, North, EffectOf(t2, North, c3));
      var st4 := Respond(st3, g, t4, North, EffectOf(t3, North, c4));
      Progress(t4) == 4 && st4.view == Loading
  {
    var t4 := Table(RegionScores(nm, na), RegionScores(sm, sa));
    ProgressByCells(t4);
  }

  /** When the display showed the current region's scores, it still does after any
      message, apart from one case: a main window that already exists is brought back
      by a repeated first full load, and keeps the labels it had. */
  lemma DisplayStaysCurrent(st: UiState, g: Geometry, t: Table, region: Region, c: Command)
    requires Shows(st, g, t, region)
    requires EffectOf(t, region, c) == ShowMain ==> !st.mainWindow
    ensures Shows(Respond(st, g, Apply(t, c), region, EffectOf(t, region, c)), g, Apply(t, c), region)
  {
    match c
    case Ignore =>
    case Ready =>
    case NewScore(r, time, s) =>
      if r == region {
        RefreshedCell(st, g, t, region, time, s);
      } else {
        OtherRegionWrite(st, g, t, region, r, time, s);
      }
    case NewScores(_, _, _, _) =>
      OpenedShowsMain(st, g, Apply(t, c), region);
  }
}
