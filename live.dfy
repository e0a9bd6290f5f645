/**
 * The live stroke reconstructor of PenCommV2 as pure functions on a
 * snapshot of its fields: CheckEventCount, ParseDotPacket, MakeUpDot,
 * SendDotReceiveEvent, the items of ParseOnlineDataRequest and the
 * stroke part of OnDisconnected. The engine class runs the same steps
 * on its fields and is proved to agree with these functions.
 */
module Live {
  import opened Base
  import opened Codec
  import opened Model

  /** The fields of PenCommV2 the reconstructor reads and writes. */
  datatype LiveState = LiveState(
    time: int,               // mTime
    sessionTs: int,          // SessionTs
    startWithDown: bool,     // IsStartWithDown
    beforeMiddle: bool,      // IsBeforeMiddle
    startWithPaperInfo: bool,// IsStartWithPaperInfo
    downCreated: bool,       // IsDownCreated
    dotCount: int,           // mDotCount
    prevDot: Option<Dot>,    // mPrevDot
    eventCount: int,         // EventCount
    tip: TipType,            // mPenTipType
    tipColor: int,           // mPenTipColor
    section: int, owner: int, note: int, page: int, // mCurSection .. mCurPage
    hover: bool,             // HoverMode
    curStroke: Option<Stroke>, // curStroke
    prevIndex: int,          // mPrevIndex
    prevCount: byte)         // mPrevCount

  /** The field initialisers of PenCommV2. */
  const Initial := LiveState(-1, -1, false, false, false, false, -1, None, -1, Normal, -1,
                             -1, -1, -1, -1, false, None, -1, 0)

  /** MetadataManager.FindApplicableSymbols, when a metadata manager is present (null is the empty list). */
  type Matcher = Option<Stroke -> seq<Symbol>>

  /** Down, a dot seen after it, and a last dot at hand: a pen-up is owed. */
  predicate MidStroke(s: LiveState)
  {
    s.startWithDown && s.beforeMiddle && s.prevDot.Some?
  }

  function TipOf(b: byte): TipType
  {
    if b == 0 then Normal else Eraser
  }

  function Report(kind: ErrorType, ts: int, dot: Option<Dot>): Action
  {
    Notify(ErrorDetected(kind, ts, dot, NoDetail, None))
  }

  // ---------------------------------------------------------------------------
  // CheckEventCount

  /** The previous dot cloned as an error dot, when there is one. */
  function ErrorDotOf(s: LiveState): Option<Dot>
  {
    if s.prevDot.Some? then Some(s.prevDot.value.(dotType := PenError)) else None
  }

  function CheckEventCount(s: LiveState, c: int): Outcome<LiveState>
  {
    var p := s.eventCount;
    var out :=
      if c - p != 1 && (c != 0 || p != 255) then
        if c - p > 1 then
          [Notify(ErrorDetected(InvalidEventCount, s.sessionTs, ErrorDotOf(s), MissedEvents(p + 1, c - 1), None))]
        else if c < p then
          [Notify(ErrorDetected(InvalidEventCount, s.sessionTs, ErrorDotOf(s), CountWentBack(p, c), None))]
        else []
      else [];
    Outcome(s.(eventCount := c), out)
  }

  /**
   * The rolling event counter: a successor (or 255 followed by 0) is silent,
   * a jump forward reports the missed range, a step back reports both values,
   * a repeat is silently accepted, and the counter always becomes c.
   */
  lemma EventCountRule(s: LiveState, c: int)
    ensures CheckEventCount(s, c).st == s.(eventCount := c)
    ensures var p := s.eventCount;
            var out := CheckEventCount(s, c).out;
            var report := (d: Detail) => [Notify(ErrorDetected(InvalidEventCount, s.sessionTs, ErrorDotOf(s), d, None))];
            (out == [] <==> (c == p + 1 || (p == 255 && c == 0) || c == p)) &&
            (c > p + 1 ==> out == report(MissedEvents(p + 1, c - 1))) &&
            (c < p && !(p == 255 && c == 0) ==> out == report(CountWentBack(p, c)))
  {
  }

  // ---------------------------------------------------------------------------
  // SendDotReceiveEvent and MakeUpDot

  /** The current stroke after adding a dot: a pen-down (or no stroke yet) starts a new one. */
  function StrokeWith(cur: Option<Stroke>, dot: Dot): Stroke
  {
    if cur.None? || dot.dotType == PenDown then Stroke(dot.section, dot.owner, dot.note, dot.page, [dot])
    else cur.value.(dots := cur.value.dots + [dot])
  }

  function SymbolActions(m: Matcher, dot: Dot, k: Stroke): seq<Action>
  {
    if dot.dotType == PenUp && m.Some? && |m.value(k)| > 0 then [Notify(SymbolDetected(m.value(k)))] else []
  }

  /** SendDotReceiveEvent (the paper filter passes dots through unchanged). */
  function Deliver(s: LiveState, m: Matcher, dot: Dot, info: Option<ImageInfo>): Outcome<LiveState>
  {
    var k := StrokeWith(s.curStroke, dot);
    Outcome(s.(curStroke := Some(k)), [Notify(DotReceived(dot, info))] + SymbolActions(m, dot, k))
  }

  /**
   * Delivering a dot raises onReceiveDot for it first, then at most one
   * symbol callback (only for a pen-up), and leaves the dot last in the
   * current stroke, which is a fresh stroke on the dot's paper when the dot
   * is a pen-down or there was no stroke.
   */
  lemma DeliverRule(s: LiveState, m: Matcher, dot: Dot, info: Option<ImageInfo>)
    ensures var o := Deliver(s, m, dot, info);
            o.out[0] == Notify(DotReceived(dot, info)) &&
            1 <= |o.out| <= 2 && (dot.dotType != PenUp ==> |o.out| == 1) &&
            o.st.curStroke.Some? && o.st.curStroke.value.dots != [] &&
            o.st.curStroke.value.dots[|o.st.curStroke.value.dots| - 1] == dot &&
            (s.curStroke.None? || dot.dotType == PenDown ==>
               o.st.curStroke.value == Stroke(dot.section, dot.owner, dot.note, dot.page, [dot])) &&
            (s.curStroke.Some? && dot.dotType != PenDown ==>
               o.st.curStroke.value.dots == s.curStroke.value.dots + [dot]) &&
            o.st == s.(curStroke := o.st.curStroke)
  {
  }

  /** MakeUpDot: optionally report MissingPenUp with an error clone, then deliver a pen-up clone of the last dot. */
  function MakeUpDot(s: LiveState, m: Matcher, isError: bool): Outcome<LiveState>
    requires s.prevDot.Some?
  {
    var p := s.prevDot.value;
    var err := if isError then [Report(MissingPenUp, s.sessionTs, Some(p.(dotType := PenError)))] else [];
    var d := Deliver(s, m, p.(dotType := PenUp), None);
    Outcome(d.st, err + d.out)
  }

  // ---------------------------------------------------------------------------
  // ParseDotPacket

  function WithCount(s: LiveState, ecount: Option<int>): Outcome<LiveState>
  {
    if ecount.Some? then CheckEventCount(s, ecount.value) else Outcome(s, [])
  }

  /** MakeDot on the current paper, tip colour and the sample's coordinates. */
  function MakeDot(s: LiveState, t: int, d: DotSample, kind: DotType): Dot
  {
    Dot(s.owner, s.section, s.note, s.page, t, d.x, d.y, d.fx, d.fy, d.force, kind, s.tipColor)
  }

  /** The stroke flags, time, dot counter and last dot after a pen-up. */
  function Reset(s: LiveState): LiveState
  {
    s.(time := -1, sessionTs := -1, startWithDown := false, beforeMiddle := false,
       startWithPaperInfo := false, downCreated := false, dotCount := 0, prevDot := None)
  }

  function OnNewPenDown(s: LiveState, m: Matcher, ecount: int, time: int, tip: byte, color: int): Outcome<LiveState>
  {
    var a := if MidStroke(s) then MakeUpDot(s, m, true) else Outcome(s, []);
    var b := CheckEventCount(a.st, ecount);
    Outcome(b.st.(startWithDown := true, time := time, sessionTs := time, beforeMiddle := false,
                  startWithPaperInfo := false, downCreated := false, dotCount := 0,
                  tip := TipOf(tip), tipColor := color, prevDot := None),
            a.out + b.out)
  }

  /** What a pen-up emits for the stroke it closes (before the reset). */
  function CloseStroke(s: LiveState, m: Matcher, info: ImageInfo): Outcome<LiveState>
  {
    if MidStroke(s) then
      Deliver(s, m, s.prevDot.value.(dotType := PenUp), if !s.downCreated then Some(info) else None)
    else if !s.startWithDown && !s.beforeMiddle then Outcome(s, [Report(MissingPenDownPenMove, -1, None)])
    else if !s.beforeMiddle then Outcome(s, [Report(MissingPenMove, s.sessionTs, None)])
    else Outcome(s, [])
  }

  function OnNewPenUp(s: LiveState, m: Matcher, ecount: int, dotCount: int, total: int,
                      processed: int, success: int, transferred: int): Outcome<LiveState>
  {
    var b := CheckEventCount(s, ecount);
    var u := CloseStroke(b.st, m, ImageInfo(dotCount, total, processed, success, transferred));
    Outcome(Reset(u.st), b.out + u.out)
  }

  /** The old combined up/down event (no event counter). */
  function OnPenUpDown(s: LiveState, m: Matcher, isDown: bool, time: int, tip: byte, color: int): Outcome<LiveState>
  {
    var a :=
      if isDown then
        var u := if MidStroke(s) then MakeUpDot(s, m, true) else Outcome(s, []);
        Outcome(u.st.(startWithDown := true, time := time, sessionTs := time), u.out)
      else
        var u :=
          if MidStroke(s) then MakeUpDot(s, m, false)
          else if !s.startWithDown && !s.beforeMiddle then Outcome(s, [Report(MissingPenDownPenMove, -1, None)])
          else if !s.beforeMiddle then Outcome(s, [Report(MissingPenMove, s.sessionTs, None)])
          else Outcome(s, []);
        Outcome(u.st.(startWithDown := false, time := -1, sessionTs := -1), u.out);
    Outcome(a.st.(beforeMiddle := false, startWithPaperInfo := false, downCreated := false, dotCount := 0,
                  tip := TipOf(tip), tipColor := color, prevDot := None),
            a.out)
  }

  /** The missing-pen-down handling of a dot that arrives with hover off and no pen-down. */
  function RecoverDown(s: LiveState, now: int, d: DotSample): Outcome<LiveState>
  {
    if !s.hover && !s.startWithDown then
      if !s.startWithPaperInfo then Outcome(s, [Report(MissingPenDown, -1, None)])
      else
        var s1 := s.(time := now, sessionTs := now);
        Outcome(s1.(startWithDown := true, downCreated := true),
                [Report(MissingPenDown, now, Some(MakeDot(s1, now, d, PenError)))])
    else Outcome(s, [])
  }

  /** The dot a sample becomes, if any. */
  function DotFor(s: LiveState, d: DotSample): Option<Dot>
  {
    if s.hover && !s.startWithDown && s.startWithPaperInfo then Some(MakeDot(s, s.time, d, PenHover))
    else if s.startWithDown && s.startWithPaperInfo then
      Some(MakeDot(s, s.time, d, if s.dotCount == 0 then PenDown else PenMove))
    else None
  }

  function OnDot(s: LiveState, m: Matcher, now: int, ecount: Option<int>, d: DotSample): Outcome<LiveState>
  {
    var b := WithCount(s, ecount);
    var c := RecoverDown(b.st.(time := b.st.time + d.timeAdd), now, d);
    var s2 := c.st;
    var dot := DotFor(s2, d);
    var warn := if s2.startWithDown && !s2.startWithPaperInfo then [Report(MissingPageChange, s2.sessionTs, None)] else [];
    var e := if dot.Some? then Deliver(s2, m, dot.value, None) else Outcome(s2, []);
    Outcome(e.st.(beforeMiddle := true, prevDot := dot, dotCount := e.st.dotCount + 1),
            b.out + c.out + warn + e.out)
  }

  /** OnDot as its four steps, each named by its outcome. */
  lemma OnDotSteps(s: LiveState, m: Matcher, now: int, ecount: Option<int>, d: DotSample,
                   b: Outcome<LiveState>, c: Outcome<LiveState>, e: Outcome<LiveState>)
    requires b == WithCount(s, ecount)
    requires c == RecoverDown(b.st.(time := b.st.time + d.timeAdd), now, d)
    requires e == if DotFor(c.st, d).Some? then Deliver(c.st, m, DotFor(c.st, d).value, None) else Outcome(c.st, [])
    ensures OnDot(s, m, now, ecount, d) ==
            Outcome(e.st.(beforeMiddle := true, prevDot := DotFor(c.st, d), dotCount := e.st.dotCount + 1),
                    b.out + c.out +
                    (if c.st.startWithDown && !c.st.startWithPaperInfo
                     then [Report(MissingPageChange, c.st.sessionTs, None)] else []) +
                    e.out)
  {
  }

  function OnPaperInfo(s: LiveState, m: Matcher, ecount: Option<int>, a: PaperAddress): Outcome<LiveState>
  {
    var b := WithCount(s, ecount);
    var u := if MidStroke(b.st) then MakeUpDot(b.st, m, false) else Outcome(b.st, []);
    Outcome(u.st.(section := SectionOf(a.rb), owner := OwnerOf(a.rb), note := a.note, page := a.page,
                  dotCount := 0, startWithPaperInfo := true),
            b.out + u.out)
  }

  function OnPenError(s: LiveState, ecount: Option<int>, e: ErrorSample): Outcome<LiveState>
  {
    var b := WithCount(s, ecount);
    var s1 := b.st.(time := b.st.time + e.timeAdd);
    var info := ImageErrorInfo(s1.time, e.force, e.brightness, e.exposureTime, e.processTime,
                               e.labelCount, e.errorCode, e.classType, e.errorCount);
    var errorDot := if s1.prevDot.Some? then Some(s1.prevDot.value.(dotType := PenUp)) else None;
    Outcome(s1, b.out + [Notify(ErrorDetected(ImageProcessingError, s1.sessionTs, errorDot, NoDetail, Some(info)))])
  }

  /** ParseDotPacket. */
  function OnDotEvent(s: LiveState, m: Matcher, now: int, ev: DotEvent): Outcome<LiveState>
  {
    match ev
    case NewPenDown(c, t, tip, color) => OnNewPenDown(s, m, c, t, tip, color)
    case NewPenUp(c, _, n, total, processed, success, transferred) =>
      OnNewPenUp(s, m, c, n, total, processed, success, transferred)
    case PenUpDown(isDown, t, tip, color) => OnPenUpDown(s, m, isDown, t, tip, color)
    case DotMove(c, d) => OnDot(s, m, now, c, d)
    case PaperInfo(c, a) => OnPaperInfo(s, m, c, a)
    case PenErrorEvent(c, e) => OnPenError(s, c, e)
  }

  // ---------------------------------------------------------------------------
  // ParseOnlineDataRequest

  /** The dot an online dot item makes: a hover dot while hovering, a down or move dot inside a stroke. */
  function ItemDotOf(s: LiveState, d: DotSample): (r: Option<Dot>)
    ensures r.Some? <==> (s.hover && !s.startWithDown) || s.startWithDown
    ensures r.Some? ==> r.value.timestamp == s.time && r.value.dotType != PenUp && r.value.dotType != PenError
  {
    if s.hover && !s.startWithDown then Some(MakeDot(s, s.time, d, PenHover))
    else if s.startWithDown then Some(MakeDot(s, s.time, d, if s.dotCount == 0 then PenDown else PenMove))
    else None
  }

  /** One item of an online data request. */
  function OnItem(s: LiveState, m: Matcher, item: OnlineItem): Outcome<LiveState>
  {
    match item
    case ItemDown(t, tip, color) =>
      Outcome(s.(startWithDown := true, dotCount := 0, time := t, tip := TipOf(tip), tipColor := color), [])
    case ItemUp(_, total, processed, success, transferred) =>
      if s.prevDot.Some? then
        var u := s.prevDot.value.(dotType := PenUp);
        Deliver(s.(prevDot := Some(u)), m, u, Some(ImageInfo(0, total, processed, success, transferred)))
      else Outcome(s, [])
    case ItemPaper(a) =>
      Outcome(s.(section := SectionOf(a.rb), owner := OwnerOf(a.rb), note := a.note, page := a.page), [])
    case ItemDot(d) =>
      var s1 := s.(time := s.time + d.timeAdd);
      var dot := ItemDotOf(s1, d);
      if dot.Some? then
        if s1.prevDot.None? then Outcome(s1, [Fault])
        else
          var e := Deliver(s1, m, s1.prevDot.value, None);
          Outcome(e.st.(prevDot := dot, dotCount := e.st.dotCount + 1), e.out)
      else Outcome(s1.(prevDot := None, dotCount := s1.dotCount + 1), [])
    case ItemOther(_) => Outcome(s, [])
  }

  /** The items in order; a fault ends the run. */
  function OnItems(s: LiveState, m: Matcher, items: seq<OnlineItem>): Outcome<LiveState>
    decreases |items|
  {
    if items == [] then Outcome(s, [])
    else
      var r := OnItems(s, m, items[..|items| - 1]);
      if Faulted(r.out) then r
      else
        var e := OnItem(r.st, m, items[|items| - 1]);
        Outcome(e.st, r.out + e.out)
  }

  function OnOnlineData(s: LiveState, m: Matcher, index: int, count: byte, items: seq<OnlineItem>): Outcome<LiveState>
  {
    if index <= s.prevIndex then Outcome(s, [Transmit(OnlineDataAck(index, count))])
    else
      var r := OnItems(s.(prevCount := count, prevIndex := index), m, items);
      if Faulted(r.out) then r else Outcome(r.st, r.out + [Transmit(OnlineDataAck(index, count))])
  }

  // ---------------------------------------------------------------------------
  // OnDisconnected (stroke part)

  function OnDisconnect(s: LiveState, m: Matcher): Outcome<LiveState>
  {
    if MidStroke(s) then
      var u := MakeUpDot(s, m, true);
      Outcome(u.st.(time := -1, sessionTs := -1, startWithDown := false, beforeMiddle := false,
                    startWithPaperInfo := false, dotCount := 0, prevDot := None),
              u.out)
    else Outcome(s, [])
  }
}
