/**
 * Properties of the live stroke reconstructor, one packet at a time and
 * over whole pen strokes.
 */
module LiveProps {
  import opened Base
  import opened Codec
  import opened Model
  import opened Live

  // ---------------------------------------------------------------------------
  // One dot packet.

  /**
   * With a pen-down and paper info both seen, a dot is PEN_DOWN when the dot
   * counter is 0 and PEN_MOVE otherwise; its time is the running time plus
   * the unsigned delta, so it is never earlier; it becomes the last dot and
   * a pen-up is now owed.
   */
  lemma DotTyping(s: LiveState, m: Matcher, now: int, d: DotSample)
    requires s.startWithDown && s.startWithPaperInfo
    ensures var o := OnDot(s, m, now, None, d);
            var dot := MakeDot(s, s.time + d.timeAdd, d, if s.dotCount == 0 then PenDown else PenMove);
            o.out == [Notify(DotReceived(dot, None))] &&
            dot.timestamp >= s.time &&
            o.st.prevDot == Some(dot) && o.st.dotCount == s.dotCount + 1 &&
            o.st.time == dot.timestamp && MidStroke(o.st)
  {
  }

  /** Hover mode on, no pen-down, paper info seen: the dot is PEN_HOVER. */
  lemma HoverTyping(s: LiveState, m: Matcher, now: int, d: DotSample)
    requires s.hover && !s.startWithDown && s.startWithPaperInfo
    ensures var o := OnDot(s, m, now, None, d);
            var dot := MakeDot(s, s.time + d.timeAdd, d, PenHover);
            o.out == [Notify(DotReceived(dot, None))] && o.st.prevDot == Some(dot) &&
            !MidStroke(o.st)
  {
  }

  /** No pen-down and no paper info (hover off): MissingPenDown, no dot, no last dot. */
  lemma DotWithoutContext(s: LiveState, m: Matcher, now: int, d: DotSample)
    requires !s.hover && !s.startWithDown && !s.startWithPaperInfo
    ensures var o := OnDot(s, m, now, None, d);
            o.out == [Report(MissingPenDown, -1, None)] && o.st.prevDot.None? &&
            o.st.curStroke == s.curStroke
  {
  }

  /**
   * No pen-down but paper info known (hover off): the pen-down is
   * synthesised at the clock time, reported as MissingPenDown with an error
   * dot, and the dot is then typed as in a normal stroke.
   */
  lemma DotSynthesisesDown(s: LiveState, m: Matcher, now: int, d: DotSample)
    requires !s.hover && !s.startWithDown && s.startWithPaperInfo
    ensures var o := OnDot(s, m, now, None, d);
            var kind := if s.dotCount == 0 then PenDown else PenMove;
            var dot := MakeDot(s, now, d, kind);
            o.out == [Report(MissingPenDown, now, Some(MakeDot(s, now, d, PenError))),
                      Notify(DotReceived(dot, None))] &&
            o.st.startWithDown && o.st.downCreated && o.st.sessionTs == now &&
            o.st.prevDot == Some(dot)
  {
  }

  /** Pen-down seen but no paper info: MissingPageChange and the dot is dropped. */
  lemma DotWithoutPaper(s: LiveState, m: Matcher, now: int, d: DotSample)
    requires s.startWithDown && !s.startWithPaperInfo
    ensures var o := OnDot(s, m, now, None, d);
            o.out == [Report(MissingPageChange, s.sessionTs, None)] && o.st.prevDot.None? &&
            o.st.curStroke == s.curStroke && !MidStroke(o.st)
  {
  }

  // ---------------------------------------------------------------------------
  // Interruptions and pen-up.

  /** A new pen-down in the middle of a stroke first closes it: MissingPenUp, then a PEN_UP clone of the last dot. */
  lemma DownInterruptsStroke(s: LiveState, m: Matcher, c: int, t: int, tip: byte, color: int)
    requires MidStroke(s)
    ensures var o := OnNewPenDown(s, m, c, t, tip, color);
            var last := s.prevDot.value;
            |o.out| >= 2 &&
            o.out[0] == Report(MissingPenUp, s.sessionTs, Some(last.(dotType := PenError))) &&
            o.out[1] == Notify(DotReceived(last.(dotType := PenUp), None)) &&
            o.st.startWithDown && !o.st.beforeMiddle && !o.st.startWithPaperInfo &&
            o.st.dotCount == 0 && o.st.prevDot.None? && o.st.time == t && o.st.sessionTs == t &&
            o.st.eventCount == c
  {
    DeliverRule(s, m, s.prevDot.value.(dotType := PenUp), None);
  }

  /** A paper change in the middle of a stroke emits the PEN_UP clone but reports no error. */
  lemma PaperInterruptsStroke(s: LiveState, m: Matcher, a: PaperAddress)
    requires MidStroke(s)
    ensures var o := OnPaperInfo(s, m, None, a);
            o.out[0] == Notify(DotReceived(s.prevDot.value.(dotType := PenUp), None)) &&
            (forall i :: 0 <= i < |o.out| ==> !o.out[i].event.ErrorDetected?) &&
            o.st.startWithPaperInfo && o.st.dotCount == 0 &&
            o.st.section == SectionOf(a.rb) && o.st.owner == OwnerOf(a.rb)
  {
    DeliverRule(s, m, s.prevDot.value.(dotType := PenUp), None);
  }

  /**
   * A pen-up emits the PEN_UP clone of the last dot exactly when a pen-up
   * is owed; otherwise it reports MissingPenDownPenMove (nothing seen) or
   * MissingPenMove (a down without moves), or stays silent. Afterwards every
   * stroke flag, the dot counter and the last dot are reset.
   */
  lemma PenUpRule(s: LiveState, m: Matcher, n: int, total: int, processed: int, success: int, transferred: int)
    ensures var o := OnNewPenUp(s, m, s.eventCount + 1, n, total, processed, success, transferred);
            var info := ImageInfo(n, total, processed, success, transferred);
            (MidStroke(s) ==> o.out[0] == Notify(DotReceived(s.prevDot.value.(dotType := PenUp),
                                                            if !s.downCreated then Some(info) else None))) &&
            (!s.startWithDown && !s.beforeMiddle ==> o.out == [Report(MissingPenDownPenMove, -1, None)]) &&
            (s.startWithDown && !s.beforeMiddle ==> o.out == [Report(MissingPenMove, s.sessionTs, None)]) &&
            (s.beforeMiddle && !MidStroke(s) ==> o.out == []) &&
            (forall i :: 0 <= i < |o.out| ==> o.out[i].event.DotReceived? ==> MidStroke(s)) &&
            !o.st.startWithDown && !o.st.beforeMiddle && !o.st.startWithPaperInfo && !o.st.downCreated &&
            o.st.dotCount == 0 && o.st.prevDot.None? && o.st.time == -1 && o.st.sessionTs == -1
  {
    if MidStroke(s) {
      var b := CheckEventCount(s, s.eventCount + 1);
      assert b.out == [];
      DeliverRule(b.st, m, s.prevDot.value.(dotType := PenUp),
                  if !s.downCreated then Some(ImageInfo(n, total, processed, success, transferred)) else None);
    }
  }

  /** Closing a stroke on disconnect: MissingPenUp and the PEN_UP clone exactly when owed, and nothing is owed afterwards. */
  lemma DisconnectClosesStroke(s: LiveState, m: Matcher)
    ensures var o := OnDisconnect(s, m);
            !MidStroke(o.st) && o.st.eventCount == s.eventCount && o.st.downCreated == s.downCreated &&
            (MidStroke(s) ==>
               |o.out| >= 2 &&
               o.out[0] == Report(MissingPenUp, s.sessionTs, Some(s.prevDot.value.(dotType := PenError))) &&
               o.out[1] == Notify(DotReceived(s.prevDot.value.(dotType := PenUp), None))) &&
            (!MidStroke(s) ==> o == Outcome(s, []))
  {
    if MidStroke(s) {
      DeliverRule(s, m, s.prevDot.value.(dotType := PenUp), None);
    }
  }

  /**
   * The old combined up/down event. A down in the middle of a stroke
   * reports MissingPenUp before the PEN_UP clone; an up there emits the
   * clone without an error, and an up outside a stroke reports what is
   * missing as a counted pen-up does. Afterwards the pen is down exactly
   * for a down, the clock is the event's time for a down and -1 for an up,
   * the other stroke flags, the dot counter and the last dot are reset,
   * and the event counter is untouched.
   */
  lemma PenUpDownRule(s: LiveState, m: Matcher, isDown: bool, t: int, tip: byte, color: int)
    ensures var o := OnPenUpDown(s, m, isDown, t, tip, color);
            (MidStroke(s) && isDown ==>
               |o.out| >= 2 &&
               o.out[0] == Report(MissingPenUp, s.sessionTs, Some(s.prevDot.value.(dotType := PenError))) &&
               o.out[1] == Notify(DotReceived(s.prevDot.value.(dotType := PenUp), None))) &&
            (MidStroke(s) && !isDown ==>
               o.out[0] == Notify(DotReceived(s.prevDot.value.(dotType := PenUp), None)) &&
               (forall i :: 0 <= i < |o.out| ==> !o.out[i].event.ErrorDetected?)) &&
            (!MidStroke(s) && isDown ==> o.out == []) &&
            (!isDown && !s.startWithDown && !s.beforeMiddle ==> o.out == [Report(MissingPenDownPenMove, -1, None)]) &&
            (!isDown && s.startWithDown && !s.beforeMiddle ==> o.out == [Report(MissingPenMove, s.sessionTs, None)]) &&
            (!isDown && s.beforeMiddle && !MidStroke(s) ==> o.out == []) &&
            o.st.startWithDown == isDown &&
            o.st.time == (if isDown then t else -1) && o.st.sessionTs == o.st.time &&
            !o.st.beforeMiddle && !o.st.startWithPaperInfo && !o.st.downCreated &&
            o.st.dotCount == 0 && o.st.prevDot.None? && o.st.eventCount == s.eventCount &&
            o.st.tipColor == color
  {
    if MidStroke(s) {
      DeliverRule(s, m, s.prevDot.value.(dotType := PenUp), None);
    }
  }

  /**
   * A pen error event only reports: after any event-counter report comes
   * one ImageProcessingError carrying the advanced clock and a PEN_UP (not
   * PEN_ERROR) clone of the last dot. Only the event counter and the clock
   * change, so a pen-up still owed stays owed.
   */
  lemma PenErrorRule(s: LiveState, c: Option<int>, e: ErrorSample)
    ensures var o := OnPenError(s, c, e);
            var counted := WithCount(s, c);
            var r := o.out[|o.out| - 1];
            |o.out| >= 1 && o.out[..|o.out| - 1] == counted.out &&
            r.Notify? && r.event.ErrorDetected? && r.event.kind == ImageProcessingError &&
            r.event.ts == s.sessionTs &&
            r.event.imageError.Some? && r.event.imageError.value.timestamp == s.time + e.timeAdd as int &&
            (s.prevDot.None? ==> r.event.errorDot.None?) &&
            (s.prevDot.Some? ==> r.event.errorDot == Some(s.prevDot.value.(dotType := PenUp))) &&
            o.st == s.(eventCount := if c.Some? then c.value else s.eventCount, time := s.time + e.timeAdd as int) &&
            (MidStroke(o.st) <==> MidStroke(s))
  {
    var b := WithCount(s, c);
    var s1 := s.(eventCount := if c.Some? then c.value else s.eventCount, time := s.time + e.timeAdd as int);
    assert b.st.(time := b.st.time + e.timeAdd) == s1;
    var info := ImageErrorInfo(s1.time, e.force, e.brightness, e.exposureTime, e.processTime,
                               e.labelCount, e.errorCode, e.classType, e.errorCount);
    var errorDot := if s.prevDot.Some? then Some(s.prevDot.value.(dotType := PenUp)) else None;
    var r := Notify(ErrorDetected(ImageProcessingError, s.sessionTs, errorDot, NoDetail, Some(info)));
    assert OnPenError(s, c, e) == Outcome(s1, b.out + [r]);
  }

  // ---------------------------------------------------------------------------
  // Runs of dots and whole strokes.

  /** Packets processed in order, each handler starting from the state the previous one left. */
  function Fold<E>(s: LiveState, evs: seq<E>, f: (LiveState, E) -> Outcome<LiveState>): Outcome<LiveState>
    decreases |evs|
  {
    if evs == [] then Outcome(s, [])
    else
      var a := f(s, evs[0]);
      var b := Fold(a.st, evs[1..], f);
      Outcome(b.st, a.out + b.out)
  }

  lemma {:induction false} FoldAppend<E>(s: LiveState, e1: seq<E>, e2: seq<E>, f: (LiveState, E) -> Outcome<LiveState>)
    ensures Fold(s, e1 + e2, f) ==
            var a := Fold(s, e1, f); var b := Fold(a.st, e2, f); Outcome(b.st, a.out + b.out)
    decreases |e1|
  {
    if e1 == [] {
      assert e1 + e2 == e2;
    } else {
      assert (e1 + e2)[0] == e1[0];
      assert (e1 + e2)[1..] == e1[1..] + e2;
      FoldAppend(f(s, e1[0]).st, e1[1..], e2, f);
    }
  }

  lemma FoldThree<E>(s: LiveState, e1: seq<E>, e2: seq<E>, e3: seq<E>, f: (LiveState, E) -> Outcome<LiveState>)
    ensures Fold(s, e1 + e2 + e3, f) ==
            var a := Fold(s, e1, f); var b := Fold(a.st, e2, f); var c := Fold(b.st, e3, f);
            Outcome(c.st, a.out + b.out + c.out)
  {
    FoldAppend(s, e1, e2, f);
    FoldAppend(s, e1 + e2, e3, f);
  }

  function Handler(m: Matcher, now: int): (LiveState, DotEvent) -> Outcome<LiveState>
  {
    (st, ev) => OnDotEvent(st, m, now, ev)
  }

  /** ParseDotPacket over a sequence of packets. */
  function Run(s: LiveState, m: Matcher, now: int, evs: seq<DotEvent>): Outcome<LiveState>
  {
    Fold(s, evs, Handler(m, now))
  }

  lemma RunOne(s: LiveState, m: Matcher, now: int, ev: DotEvent)
    ensures Run(s, m, now, [ev]) == OnDotEvent(s, m, now, ev)
  {
    assert [ev][1..] == [];
    var a := OnDotEvent(s, m, now, ev);
    assert Handler(m, now)(s, ev) == a;
    assert Fold(a.st, [ev][1..], Handler(m, now)) == Outcome(a.st, []);
    assert a.out + [] == a.out;
  }

  /** Counted dot events numbered on from `first`. */
  function Moves(first: int, ds: seq<DotSample>): (r: seq<DotEvent>)
    ensures |r| == |ds|
  {
    if ds == [] then [] else Moves(first, ds[..|ds| - 1]) + [DotMove(Some(first + |ds| - 1), ds[|ds| - 1])]
  }

  /** The sum of the time deltas. */
  function Elapsed(ds: seq<DotSample>): int
  {
    if ds == [] then 0 else Elapsed(ds[..|ds| - 1]) + ds[|ds| - 1].timeAdd
  }

  lemma {:induction false} ElapsedMonotone(ds: seq<DotSample>, i: int, j: int)
    requires 0 <= i <= j <= |ds|
    ensures Elapsed(ds[..i]) <= Elapsed(ds[..j])
    decreases j
  {
    if i < j {
      ElapsedMonotone(ds, i, j - 1);
      assert ds[..j][..j - 1] == ds[..j - 1];
    }
  }

  function KindAt(s: LiveState, i: int): DotType
  {
    if s.dotCount + i == 0 then PenDown else PenMove
  }

  /** The dots delivered by a run of dot packets inside a stroke. */
  function StrokeDots(s: LiveState, ds: seq<DotSample>): (r: seq<Dot>)
    ensures |r| == |ds|
    decreases |ds|
  {
    if ds == [] then []
    else
      var n := |ds| - 1;
      StrokeDots(s, ds[..n]) + [MakeDot(s, s.time + Elapsed(ds), ds[n], KindAt(s, n))]
  }

  /**
   * The i-th dot of a run: its kind by position, its time the running time
   * plus the first i+1 deltas; the times never decrease along the run.
   */
  lemma {:induction false} StrokeDotsAt(s: LiveState, ds: seq<DotSample>, i: int)
    requires 0 <= i < |ds|
    ensures StrokeDots(s, ds)[i] == MakeDot(s, s.time + Elapsed(ds[..i + 1]), ds[i], KindAt(s, i))
    ensures s.time <= StrokeDots(s, ds)[i].timestamp
    decreases |ds|
  {
    var n := |ds| - 1;
    if i < n {
      StrokeDotsAt(s, ds[..n], i);
      assert ds[..n][..i + 1] == ds[..i + 1];
    } else {
      assert ds[..i + 1] == ds;
    }
    ElapsedMonotone(ds, 0, i + 1);
    assert ds[..0] == [];
  }

  lemma StrokeTimesNonDecreasing(s: LiveState, ds: seq<DotSample>, i: int, j: int)
    requires 0 <= i <= j < |ds|
    ensures StrokeDots(s, ds)[i].timestamp <= StrokeDots(s, ds)[j].timestamp
  {
    StrokeDotsAt(s, ds, i);
    StrokeDotsAt(s, ds, j);
    ElapsedMonotone(ds, i + 1, j + 1);
  }

  /** The onReceiveDot callbacks for the given dots, in order. */
  function Received(ds: seq<Dot>): (r: seq<Action>)
    ensures |r| == |ds|
  {
    if ds == [] then [] else Received(ds[..|ds| - 1]) + [Notify(DotReceived(ds[|ds| - 1], None))]
  }

  /** The fields a dot packet inside a stroke leaves alone. */
  predicate SameStroke(s: LiveState, t: LiveState)
  {
    t.startWithDown == s.startWithDown && t.startWithPaperInfo == s.startWithPaperInfo &&
    t.downCreated == s.downCreated && t.sessionTs == s.sessionTs && t.hover == s.hover &&
    t.section == s.section && t.owner == s.owner && t.note == s.note && t.page == s.page &&
    t.tip == s.tip && t.tipColor == s.tipColor && t.prevIndex == s.prevIndex && t.prevCount == s.prevCount
  }

  /** What a counted dot packet inside a stroke does, written out. */
  function DotStep(s: LiveState, d: DotSample): Outcome<LiveState>
  {
    var dot := MakeDot(s, s.time + d.timeAdd, d, if s.dotCount == 0 then PenDown else PenMove);
    Outcome(s.(time := s.time + d.timeAdd, eventCount := s.eventCount + 1, beforeMiddle := true,
               prevDot := Some(dot), dotCount := s.dotCount + 1, curStroke := Some(StrokeWith(s.curStroke, dot))),
            [Notify(DotReceived(dot, None))])
  }

  /** A counted dot packet inside a stroke is exactly DotStep. */
  lemma CountedDot(s: LiveState, m: Matcher, now: int, d: DotSample)
    requires s.startWithDown && s.startWithPaperInfo
    ensures Run(s, m, now, [DotMove(Some(s.eventCount + 1), d)]) == DotStep(s, d)
  {
    RunOne(s, m, now, DotMove(Some(s.eventCount + 1), d));
  }

  /** DotStep over a run of samples. */
  function DotsFrom(s: LiveState, ds: seq<DotSample>): Outcome<LiveState>
    decreases |ds|
  {
    if ds == [] then Outcome(s, [])
    else
      var a := DotsFrom(s, ds[..|ds| - 1]);
      var b := DotStep(a.st, ds[|ds| - 1]);
      Outcome(b.st, a.out + b.out)
  }

  /** Running a run of dot packets is running all but the last, then the last. */
  lemma MovesSnoc(s: LiveState, f: (LiveState, DotEvent) -> Outcome<LiveState>, first: int, ds: seq<DotSample>)
    requires ds != []
    ensures var n := |ds| - 1;
            var a := Fold(s, Moves(first, ds[..n]), f);
            var b := Fold(a.st, [DotMove(Some(first + n), ds[n])], f);
            Fold(s, Moves(first, ds), f) == Outcome(b.st, a.out + b.out)
  {
    var n := |ds| - 1;
    FoldAppend(s, Moves(first, ds[..n]), [DotMove(Some(first + n), ds[n])], f);
  }

  /** The flags DotStep never touches, and the counters it advances by one per dot. */
  lemma {:induction false} DotsFromKeeps(s: LiveState, ds: seq<DotSample>)
    ensures var o := DotsFrom(s, ds);
            o.st.eventCount == s.eventCount + |ds| && o.st.dotCount == s.dotCount + |ds| &&
            o.st.time == s.time + Elapsed(ds) && SameStroke(s, o.st)
    decreases |ds|
  {
    if ds != [] {
      DotsFromKeeps(s, ds[..|ds| - 1]);
    }
  }

  /** Any step function that agrees with DotStep on counted dots folds a run of them into DotsFrom. */
  lemma {:induction false} FoldMoves(s: LiveState, f: (LiveState, DotEvent) -> Outcome<LiveState>, ds: seq<DotSample>)
    requires s.startWithDown && s.startWithPaperInfo
    requires forall st: LiveState, d: DotSample :: st.startWithDown && st.startWithPaperInfo ==>
               Fold(st, [DotMove(Some(st.eventCount + 1), d)], f) == DotStep(st, d)
    ensures Fold(s, Moves(s.eventCount + 1, ds), f) == DotsFrom(s, ds)
    decreases |ds|
  {
    if ds == [] {
      assert Moves(s.eventCount + 1, ds) == [];
    } else {
      var n := |ds| - 1;
      FoldMoves(s, f, ds[..n]);
      DotsFromKeeps(s, ds[..n]);
      MovesSnoc(s, f, s.eventCount + 1, ds);
    }
  }

  /** Running counted dot packets inside a stroke is DotsFrom. */
  lemma RunMoves(s: LiveState, m: Matcher, now: int, ds: seq<DotSample>)
    requires s.startWithDown && s.startWithPaperInfo
    ensures Run(s, m, now, Moves(s.eventCount + 1, ds)) == DotsFrom(s, ds)
  {
    forall st: LiveState, d: DotSample | st.startWithDown && st.startWithPaperInfo
      ensures Fold(st, [DotMove(Some(st.eventCount + 1), d)], Handler(m, now)) == DotStep(st, d)
    {
      CountedDot(st, m, now, d);
    }
    FoldMoves(s, Handler(m, now), ds);
  }

  lemma StrokeDotsSnoc(s: LiveState, ds: seq<DotSample>)
    requires ds != []
    ensures var n := |ds| - 1;
            StrokeDots(s, ds) == StrokeDots(s, ds[..n]) + [MakeDot(s, s.time + Elapsed(ds), ds[n], KindAt(s, n))]
  {
  }

  /** The last step of DotsFrom delivers the last dot of StrokeDots. */
  lemma DotsFromStep(s: LiveState, ds: seq<DotSample>)
    requires ds != []
    ensures var n := |ds| - 1;
            var a := DotsFrom(s, ds[..n]);
            var o := DotsFrom(s, ds);
            var dot := StrokeDots(s, ds)[n];
            o.out == a.out + [Notify(DotReceived(dot, None))] && o.st.beforeMiddle &&
            o.st.prevDot == Some(dot) && o.st.curStroke == Some(StrokeWith(a.st.curStroke, dot))
  {
    var n := |ds| - 1;
    var init, d := ds[..n], ds[n];
    var a := DotsFrom(s, init);
    var dot := MakeDot(s, s.time + Elapsed(ds), d, KindAt(s, n));
    assert MakeDot(a.st, a.st.time + d.timeAdd, d, if a.st.dotCount == 0 then PenDown else PenMove) == dot by {
      DotsFromKeeps(s, init);
      assert Elapsed(ds) == Elapsed(init) + d.timeAdd by {
        assert ds[..n + 1] == ds;
      }
    }
    assert StrokeDots(s, ds)[n] == dot by {
      StrokeDotsSnoc(s, ds);
    }
    assert DotsFrom(s, ds) == Outcome(DotStep(a.st, d).st, a.out + DotStep(a.st, d).out);
  }

  /** DotsFrom raises onReceiveDot once per sample, for the dots of StrokeDots in order. */
  lemma {:induction false} DotsFromOut(s: LiveState, ds: seq<DotSample>)
    ensures DotsFrom(s, ds).out == Received(StrokeDots(s, ds))
    decreases |ds|
  {
    if ds != [] {
      var n := |ds| - 1;
      DotsFromOut(s, ds[..n]);
      DotsFromStep(s, ds);
      assert StrokeDots(s, ds)[..n] == StrokeDots(s, ds[..n]) by {
        StrokeDotsSnoc(s, ds);
      }
    }
  }

  /** From a fresh dot counter, the current stroke after DotsFrom holds exactly the dots of StrokeDots. */
  lemma {:induction false} DotsFromStroke(s: LiveState, ds: seq<DotSample>)
    requires s.dotCount == 0 && ds != []
    ensures DotsFrom(s, ds).st.curStroke == Some(Stroke(s.section, s.owner, s.note, s.page, StrokeDots(s, ds)))
    decreases |ds|
  {
    var n := |ds| - 1;
    DotsFromStep(s, ds);
    StrokeDotsSnoc(s, ds);
    if n > 0 {
      DotsFromStroke(s, ds[..n]);
    } else {
      var dot := StrokeDots(s, ds)[0];
      assert StrokeDots(s, ds) == [dot];
      assert dot == MakeDot(s, s.time + Elapsed(ds), ds[0], PenDown);
      assert StrokeWith(DotsFrom(s, ds[..n]).st.curStroke, dot) == Stroke(s.section, s.owner, s.note, s.page, [dot]);
    }
  }

  /**
   * A run of dot packets with consecutive event counts inside a stroke
   * delivers one dot per packet: the i-th is PEN_DOWN only when the dot
   * counter reaches it at 0, PEN_MOVE otherwise; its time is the running
   * time plus the deltas so far. Starting from a fresh counter the current
   * stroke ends up holding exactly these dots.
   */
  lemma DotRun(s: LiveState, m: Matcher, now: int, ds: seq<DotSample>)
    requires s.startWithDown && s.startWithPaperInfo && s.dotCount >= 0
    ensures var o := Run(s, m, now, Moves(s.eventCount + 1, ds));
            o.out == Received(StrokeDots(s, ds)) &&
            o.st.time == s.time + Elapsed(ds) && o.st.dotCount == s.dotCount + |ds| &&
            o.st.eventCount == s.eventCount + |ds| &&
            (ds != [] ==> o.st.beforeMiddle && o.st.prevDot == Some(StrokeDots(s, ds)[|ds| - 1])) &&
            SameStroke(s, o.st) &&
            (s.dotCount == 0 && ds != [] ==>
               o.st.curStroke == Some(Stroke(s.section, s.owner, s.note, s.page, StrokeDots(s, ds))))
  {
    RunMoves(s, m, now, ds);
    DotsFromKeeps(s, ds);
    DotsFromOut(s, ds);
    if ds != [] {
      DotsFromStep(s, ds);
      if s.dotCount == 0 {
        DotsFromStroke(s, ds);
      }
    }
  }

  /** The fields after a counted pen-down and paper info, with no stroke pending before them. */
  function Opened(s: LiveState, t: int, tip: byte, color: int, a: PaperAddress): LiveState
  {
    s.(eventCount := s.eventCount + 2, startWithDown := true, time := t, sessionTs := t, beforeMiddle := false,
       startWithPaperInfo := true, downCreated := false, dotCount := 0, tip := TipOf(tip), tipColor := color,
       prevDot := None, section := SectionOf(a.rb), owner := OwnerOf(a.rb), note := a.note, page := a.page)
  }

  /** Pen-down then paper info, counted, with no stroke pending: silent, and the stroke is open. */
  lemma OpenStroke(s: LiveState, m: Matcher, now: int, t: int, tip: byte, color: int, a: PaperAddress)
    requires !MidStroke(s)
    ensures var o := Run(s, m, now, [NewPenDown(s.eventCount + 1, t, tip, color), PaperInfo(Some(s.eventCount + 2), a)]);
            o.out == [] && o.st == Opened(s, t, tip, color, a)
  {
    var downEv := NewPenDown(s.eventCount + 1, t, tip, color);
    var paperEv := PaperInfo(Some(s.eventCount + 2), a);
    var o1 := OnDotEvent(s, m, now, downEv);
    assert o1.out == [] by {
      assert CheckEventCount(s, s.eventCount + 1).out == [];
    }
    var o2 := OnDotEvent(o1.st, m, now, paperEv);
    assert o2.out == [] && o2.st == Opened(s, t, tip, color, a) by {
      assert CheckEventCount(o1.st, s.eventCount + 2).out == [];
    }
    assert [downEv, paperEv] == [downEv] + [paperEv];
    FoldAppend(s, [downEv], [paperEv], Handler(m, now));
    RunOne(s, m, now, downEv);
    RunOne(o1.st, m, now, paperEv);
  }

  /** A counted pen-up with a pen-up owed: the UP clone first, then at most a symbol callback. */
  lemma CloseOwed(s: LiveState, m: Matcher, now: int, up: DotEvent)
    requires MidStroke(s) && !s.downCreated && s.curStroke.Some?
    requires up.NewPenUp? && up.ecount == s.eventCount + 1
    ensures var o := Run(s, m, now, [up]);
            var upDot := s.prevDot.value.(dotType := PenUp);
            |o.out| >= 1 &&
            o.out[0] == Notify(DotReceived(upDot, Some(ImageInfo(up.dotCount, up.total, up.processed, up.success, up.transferred)))) &&
            (forall i :: 1 <= i < |o.out| ==> o.out[i].Notify? && o.out[i].event.SymbolDetected?) &&
            o.st.curStroke == Some(s.curStroke.value.(dots := s.curStroke.value.dots + [upDot])) &&
            !MidStroke(o.st) && o.st.eventCount == up.ecount
  {
    var info := ImageInfo(up.dotCount, up.total, up.processed, up.success, up.transferred);
    var upDot := s.prevDot.value.(dotType := PenUp);
    var b := CheckEventCount(s, up.ecount);
    assert b.out == [] && b.st == s.(eventCount := up.ecount);
    DeliverRule(b.st, m, upDot, Some(info));
    RunOne(s, m, now, up);
  }

  /** The dots of a stroke as delivered: the run, then a PEN_UP clone of its last dot. */
  function WholeStroke(s: LiveState, t: int, tip: byte, color: int, a: PaperAddress, ds: seq<DotSample>): (r: seq<Dot>)
    requires ds != []
    ensures |r| == |ds| + 1
  {
    var run := StrokeDots(Opened(s, t, tip, color, a), ds);
    run + [run[|run| - 1].(dotType := PenUp)]
  }

  /**
   * A well-formed stroke (pen-down, paper info, one or more dots, pen-up,
   * with consecutive event counts and no stroke pending before it) raises
   * no error and delivers exactly PEN_DOWN, PEN_MOVE..., PEN_UP, followed by
   * at most one symbol callback; the current stroke then holds exactly those
   * dots on the announced paper, and nothing is pending afterwards.
   */
  lemma {:induction false} WellFormedStroke(s: LiveState, m: Matcher, now: int, t: int, tip: byte, color: int,
                                            a: PaperAddress, ds: seq<DotSample>, up: DotEvent)
    requires !MidStroke(s) && ds != []
    requires up.NewPenUp? && up.ecount == s.eventCount + 3 + |ds|
    ensures var evs := [NewPenDown(s.eventCount + 1, t, tip, color), PaperInfo(Some(s.eventCount + 2), a)]
                       + Moves(s.eventCount + 3, ds) + [up];
            var o := Run(s, m, now, evs);
            var dots := WholeStroke(s, t, tip, color, a, ds);
            |o.out| >= |dots| && o.out[..|dots|] == Received(dots[..|dots| - 1]) +
                [Notify(DotReceived(dots[|dots| - 1], Some(ImageInfo(up.dotCount, up.total, up.processed, up.success, up.transferred))))] &&
            (forall i :: |dots| <= i < |o.out| ==> o.out[i].Notify? && o.out[i].event.SymbolDetected?) &&
            dots[0].dotType == PenDown && dots[|dots| - 1].dotType == PenUp &&
            (forall i :: 0 < i < |dots| - 1 ==> dots[i].dotType == PenMove) &&
            o.st.curStroke == Some(Stroke(SectionOf(a.rb), OwnerOf(a.rb), a.note, a.page, dots)) &&
            !MidStroke(o.st) && o.st.eventCount == up.ecount
  {
    var s2 := Opened(s, t, tip, color, a);
    var run := StrokeDots(s2, ds);
    var info := ImageInfo(up.dotCount, up.total, up.processed, up.success, up.transferred);
    var upDot := run[|run| - 1].(dotType := PenUp);
    StrokeRun(s, m, now, t, tip, color, a, ds, up);
    var d := DotsFrom(s2, ds);
    DotsFromKeeps(s2, ds);
    DotsFromOut(s2, ds);
    DotsFromStep(s2, ds);
    DotsFromStroke(s2, ds);
    CloseOwed(d.st, m, now, up);
    var c := Run(d.st, m, now, [up]);
    var o := Outcome(c.st, d.out + c.out);
    var dots := WholeStroke(s, t, tip, color, a, ds);
    assert dots == run + [upDot];
    assert c.out[0] == Notify(DotReceived(upDot, Some(info)));
    assert o.out == [] + Received(run) + c.out;
    assert c.st.curStroke == Some(Stroke(SectionOf(a.rb), OwnerOf(a.rb), a.note, a.page, dots));
    StrokeOutput(run, upDot, Some(info), c.out);
    StrokeShape(s2, ds);
  }

  /** A whole stroke runs as its opening, DotsFrom on the samples, then the pen-up. */
  lemma StrokeRun(s: LiveState, m: Matcher, now: int, t: int, tip: byte, color: int,
                  a: PaperAddress, ds: seq<DotSample>, up: DotEvent)
    requires !MidStroke(s)
    ensures var evs := [NewPenDown(s.eventCount + 1, t, tip, color), PaperInfo(Some(s.eventCount + 2), a)]
                       + Moves(s.eventCount + 3, ds) + [up];
            var d := DotsFrom(Opened(s, t, tip, color, a), ds);
            var c := Run(d.st, m, now, [up]);
            Run(s, m, now, evs) == Outcome(c.st, d.out + c.out)
  {
    var opening := [NewPenDown(s.eventCount + 1, t, tip, color), PaperInfo(Some(s.eventCount + 2), a)];
    var moves := Moves(s.eventCount + 3, ds);
    var s2 := Opened(s, t, tip, color, a);
    var d := DotsFrom(s2, ds);
    var f := Handler(m, now);
    assert Fold(s, opening, f) == Outcome(s2, []) by {
      OpenStroke(s, m, now, t, tip, color, a);
    }
    assert Fold(s2, moves, f) == d by {
      RunMoves(s2, m, now, ds);
    }
    FoldThree(s, opening, moves, [up], f);
    assert [] + d.out == d.out;
  }

  /** The output of a stroke: its dots received in order, the last with the image info, then symbol callbacks. */
  lemma StrokeOutput(run: seq<Dot>, upDot: Dot, info: Option<ImageInfo>, upOut: seq<Action>)
    requires |upOut| >= 1 && upOut[0] == Notify(DotReceived(upDot, info))
    requires forall i :: 1 <= i < |upOut| ==> upOut[i].Notify? && upOut[i].event.SymbolDetected?
    ensures var out := [] + Received(run) + upOut;
            var dots := run + [upDot];
            |out| >= |dots| && out[..|dots|] == Received(dots[..|dots| - 1]) + [Notify(DotReceived(dots[|dots| - 1], info))] &&
            (forall i :: |dots| <= i < |out| ==> out[i].Notify? && out[i].event.SymbolDetected?)
  {
    var out := [] + Received(run) + upOut;
    var dots := run + [upDot];
    assert dots[..|dots| - 1] == run;
    assert out[..|dots|] == Received(run) + [upOut[0]] by {
      assert upOut == [upOut[0]] + upOut[1..];
    }
    forall i | |dots| <= i < |out| ensures out[i].Notify? && out[i].event.SymbolDetected? {
      assert out[i] == upOut[i - |run|];
    }
  }

  /** A stroke opens with PEN_DOWN, carries PEN_MOVE in between and closes with PEN_UP. */
  lemma StrokeShape(s: LiveState, ds: seq<DotSample>)
    requires s.dotCount == 0 && ds != []
    ensures var run := StrokeDots(s, ds);
            var dots := run + [run[|run| - 1].(dotType := PenUp)];
            dots[0].dotType == PenDown && dots[|dots| - 1].dotType == PenUp &&
            (forall i :: 0 < i < |dots| - 1 ==> dots[i].dotType == PenMove)
  {
    var run := StrokeDots(s, ds);
    var dots := run + [run[|run| - 1].(dotType := PenUp)];
    forall i | 0 < i < |dots| - 1 ensures dots[i].dotType == PenMove {
      StrokeDotsAt(s, ds, i);
    }
    StrokeDotsAt(s, ds, 0);
  }

  // ---------------------------------------------------------------------------
  // Online data requests.

  lemma ItemKeepsIndex(s: LiveState, m: Matcher, item: OnlineItem)
    ensures OnItem(s, m, item).st.prevIndex == s.prevIndex
    ensures OnItem(s, m, item).st.prevCount == s.prevCount
  {
    match item {
      case ItemDown(_, _, _) =>
      case ItemUp(_, _, _, _, _) =>
      case ItemPaper(_) =>
      case ItemDot(_) =>
      case ItemOther(_) =>
    }
  }

  /** Running the items never touches the request index. */
  lemma {:induction false} ItemsKeepIndex(s: LiveState, m: Matcher, items: seq<OnlineItem>)
    ensures OnItems(s, m, items).st.prevIndex == s.prevIndex
    ensures OnItems(s, m, items).st.prevCount == s.prevCount
    decreases |items|
  {
    if items != [] {
      ItemsKeepIndex(s, m, items[..|items| - 1]);
      var r := OnItems(s, m, items[..|items| - 1]);
      if !Faulted(r.out) {
        ItemKeepsIndex(r.st, m, items[|items| - 1]);
      }
    }
  }

  /**
   * An index at or below the last accepted one is only re-acknowledged,
   * with its own index and count; a new index is processed and, unless the
   * processing faults, acknowledged last. The accepted index never goes back.
   */
  lemma OnlineDataAckRule(s: LiveState, m: Matcher, index: int, count: byte, items: seq<OnlineItem>)
    ensures var o := OnOnlineData(s, m, index, count, items);
            (index <= s.prevIndex ==> o == Outcome(s, [Transmit(OnlineDataAck(index, count))])) &&
            (index > s.prevIndex ==>
               o.st.prevIndex == index && o.st.prevCount == count &&
               (Faulted(o.out) || o.out[|o.out| - 1] == Transmit(OnlineDataAck(index, count)))) &&
            o.st.prevIndex >= s.prevIndex
  {
    if index > s.prevIndex {
      ItemsKeepIndex(s.(prevCount := count, prevIndex := index), m, items);
    }
  }

  /**
   * A dot item is not delivered itself: the dot before it is (an item that
   * makes a dot while there is no previous dot faults), and the new dot
   * becomes the last dot.
   */
  lemma OnlineDotDeliversPrevious(s: LiveState, m: Matcher, d: DotSample)
    requires s.startWithDown
    ensures var o := OnItem(s, m, ItemDot(d));
            var dot := MakeDot(s, s.time + d.timeAdd, d, if s.dotCount == 0 then PenDown else PenMove);
            (s.prevDot.None? ==> o.out == [Fault]) &&
            (s.prevDot.Some? ==> o.out[0] == Notify(DotReceived(s.prevDot.value, None)) &&
                                 o.st.prevDot == Some(dot))
  {
    if s.prevDot.Some? {
      DeliverRule(s.(time := s.time + d.timeAdd), m, s.prevDot.value, None);
    }
  }
}
