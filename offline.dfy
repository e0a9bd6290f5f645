/**
 * The offline batch decoder of PenCommV2: the transfer header
 * (OFFLINE_DATA_RESPONSE) and the per-packet decode of
 * OFFLINE_PACKET_REQUEST with its size checks, retry counter, checksum
 * error counter, index-based dot types and the de-duplicated symbol list.
 */
module Offline {
  import opened Base
  import opened Codec
  import opened Model
  import opened State
  import Live

  // ---------------------------------------------------------------------------
  // Transfer header

  function OnDataResponse(e: Engine, total: int, totalSize: int): Outcome<Engine>
  {
    Outcome(e.(transfer := e.transfer.(total := total, received := 0, totalSize := totalSize)),
            if total == 0 then [Notify(OfflineDownloadFinished(false))] else [Notify(OfflineDownloadStarted)])
  }

  /** A transfer of zero strokes finishes with failure at once; any other starts; the counters restart. */
  lemma DataResponseRule(e: Engine, total: int, totalSize: int)
    ensures var o := OnDataResponse(e, total, totalSize);
            o.st.transfer == Transfer(total, 0, totalSize, e.transfer.retry) &&
            |o.out| == 1 &&
            (o.out[0] == Notify(OfflineDownloadFinished(false)) <==> total == 0) &&
            (o.out[0] == Notify(OfflineDownloadStarted) <==> total != 0)
  {
  }

  // ---------------------------------------------------------------------------
  // Dots of one stroke

  /** A dot whose stored checksum differs from the one computed over its bytes. */
  predicate Bad(d: RawDot)
  {
    d.computedChecksum != d.checksum
  }

  /** The number of bad dots among the first n. */
  function BadCount(ds: seq<RawDot>, n: nat): (r: nat)
    requires n <= |ds|
    ensures r <= n
  {
    if n == 0 then 0 else BadCount(ds, n - 1) + (if Bad(ds[n - 1]) then 1 else 0)
  }

  /** The number of bad dots in the first i strokes. */
  function BadTotal(ss: seq<RawStroke>, i: nat): nat
    requires i <= |ss|
  {
    if i == 0 then 0 else BadTotal(ss, i - 1) + BadCount(ss[i - 1].dots, |ss[i - 1].dots|)
  }

  lemma {:induction false} BadCountMonotone(ds: seq<RawDot>, j: nat, n: nat)
    requires j <= n <= |ds|
    ensures BadCount(ds, j) <= BadCount(ds, n)
    decreases n
  {
    if j < n {
      BadCountMonotone(ds, j, n - 1);
    }
  }

  /**
   * The bad dots counted up to dot j of stroke i never exceed those of the
   * whole packet, so a count that reaches 3 part-way means the packet holds 3.
   */
  lemma {:induction false} BadTotalBound(ss: seq<RawStroke>, i: nat, j: nat)
    requires i < |ss| && j <= |ss[i].dots|
    ensures BadTotal(ss, i) + BadCount(ss[i].dots, j) <= BadTotal(ss, |ss|)
  {
    BadCountMonotone(ss[i].dots, j, |ss[i].dots|);
    var k := i + 1;
    while k < |ss|
      invariant i + 1 <= k <= |ss|
      invariant BadTotal(ss, i + 1) <= BadTotal(ss, k)
    {
      k := k + 1;
    }
  }

  /** The sum of the time deltas of the first n dots. */
  function Elapsed(ds: seq<RawDot>, n: nat): (r: nat)
    requires n <= |ds|
  {
    if n == 0 then 0 else Elapsed(ds, n - 1) + ds[n - 1].timeAdd as int
  }

  /** The type of the dot at index j of a stroke of dotCount dots. */
  function TypeAt(j: int, dotCount: int): DotType
  {
    if j == 0 then PenDown else if j == dotCount - 1 then PenUp else PenMove
  }

  /** The paper a packet's strokes are on. */
  datatype Paper = Paper(section: int, owner: int, note: int)

  /** The dot at index j: its time is the stroke start plus the deltas of dots 0..j, good or bad. */
  function OfflineDot(pp: Paper, st: RawStroke, j: nat): Dot
    requires j < |st.dots|
  {
    var d := st.dots[j];
    Dot(pp.owner, pp.section, pp.note, st.pageId, st.timeStart + Elapsed(st.dots, j + 1),
        d.x, d.y, d.fx, d.fy, d.force, TypeAt(j, st.dotCount), st.color)
  }

  /** The dots kept from the first n: the good ones, in order. */
  function GoodDots(pp: Paper, st: RawStroke, n: nat): (r: seq<Dot>)
    requires n <= |st.dots|
    ensures |r| == n - BadCount(st.dots, n)
  {
    if n == 0 then []
    else GoodDots(pp, st, n - 1) + (if Bad(st.dots[n - 1]) then [] else [OfflineDot(pp, st, n - 1)])
  }

  function DecodeStroke(pp: Paper, st: RawStroke): Stroke
  {
    Stroke(pp.section, pp.owner, pp.note, st.pageId, GoodDots(pp, st, |st.dots|))
  }

  /** The first i strokes decoded. */
  function DecodeAll(pp: Paper, ss: seq<RawStroke>, i: nat): (r: seq<Stroke>)
    requires i <= |ss|
    ensures |r| == i
  {
    if i == 0 then [] else DecodeAll(pp, ss, i - 1) + [DecodeStroke(pp, ss[i - 1])]
  }

  lemma {:induction false} DecodeAllAt(pp: Paper, ss: seq<RawStroke>, i: nat, k: nat)
    requires k < i <= |ss|
    ensures DecodeAll(pp, ss, i)[k] == DecodeStroke(pp, ss[k])
  {
    if k < i - 1 {
      DecodeAllAt(pp, ss, i - 1, k);
    }
  }

  /** Time deltas are unsigned bytes, so the elapsed time never decreases. */
  lemma {:induction false} ElapsedMonotone(ds: seq<RawDot>, i: nat, j: nat)
    requires i <= j <= |ds|
    ensures Elapsed(ds, i) <= Elapsed(ds, j)
    decreases j
  {
    if i < j {
      ElapsedMonotone(ds, i, j - 1);
    }
  }

  /** Every kept dot comes from a good raw dot among the first n, at the time and of the type its index gives. */
  lemma {:induction false} GoodDotsFrom(pp: Paper, st: RawStroke, n: nat, k: nat)
    requires n <= |st.dots| && k < |GoodDots(pp, st, n)|
    ensures exists j :: 0 <= j < n && !Bad(st.dots[j]) && GoodDots(pp, st, n)[k] == OfflineDot(pp, st, j)
  {
    var prev := GoodDots(pp, st, n - 1);
    if k < |prev| {
      GoodDotsFrom(pp, st, n - 1, k);
      var j :| 0 <= j < n - 1 && !Bad(st.dots[j]) && prev[k] == OfflineDot(pp, st, j);
      assert GoodDots(pp, st, n)[k] == prev[k];
    } else {
      assert GoodDots(pp, st, n)[k] == OfflineDot(pp, st, n - 1);
    }
  }

  /** Without bad dots, the kept dots are all the dots, each at its own index. */
  lemma {:induction false} AllGood(pp: Paper, st: RawStroke, n: nat)
    requires n <= |st.dots| && BadCount(st.dots, n) == 0
    ensures |GoodDots(pp, st, n)| == n
    ensures forall j :: 0 <= j < n ==> GoodDots(pp, st, n)[j] == OfflineDot(pp, st, j)
  {
    if n > 0 {
      AllGood(pp, st, n - 1);
    }
  }

  /**
   * The shape of a decoded stroke (the reader reads at most dotCount dots):
   * its timestamps never decrease, a PEN_DOWN can only be its first dot and
   * a PEN_UP only its last.
   */
  lemma {:induction false} StrokeShape(pp: Paper, st: RawStroke, n: nat)
    requires n <= |st.dots| <= st.dotCount
    ensures forall a, b :: 0 <= a <= b < |GoodDots(pp, st, n)| ==>
              GoodDots(pp, st, n)[a].timestamp <= GoodDots(pp, st, n)[b].timestamp
    ensures forall a :: 0 <= a < |GoodDots(pp, st, n)| ==>
              GoodDots(pp, st, n)[a].timestamp <= st.timeStart + Elapsed(st.dots, n)
    ensures forall a :: 0 < a < |GoodDots(pp, st, n)| ==> GoodDots(pp, st, n)[a].dotType != PenDown
    ensures forall a :: 0 <= a < |GoodDots(pp, st, n)| - 1 ==> GoodDots(pp, st, n)[a].dotType != PenUp
  {
    if n > 0 {
      StrokeShape(pp, st, n - 1);
      var prev := GoodDots(pp, st, n - 1);
      var r := GoodDots(pp, st, n);
      ElapsedMonotone(st.dots, n - 1, n);
      if Bad(st.dots[n - 1]) {
        assert r == prev;
      } else {
        var last := OfflineDot(pp, st, n - 1);
        assert r == prev + [last];
        assert last.timestamp == st.timeStart + Elapsed(st.dots, n);
        forall a, b | 0 <= a <= b < |r|
          ensures r[a].timestamp <= r[b].timestamp
        {
          if b < |prev| {
            assert r[a] == prev[a] && r[b] == prev[b];
          } else if a < |prev| {
            assert r[a] == prev[a] && r[b] == last;
            assert prev[a].timestamp <= st.timeStart + Elapsed(st.dots, n - 1);
          }
        }
        forall a | 0 <= a < |r|
          ensures r[a].timestamp <= st.timeStart + Elapsed(st.dots, n)
        {
          if a < |prev| {
            assert r[a] == prev[a];
          }
        }
        forall a | 0 < a < |r|
          ensures r[a].dotType != PenDown
        {
          if a < |prev| {
            assert r[a] == prev[a];
          } else {
            assert r[a] == last && |prev| <= n - 1;
          }
        }
        forall a | 0 <= a < |r| - 1
          ensures r[a].dotType != PenUp
        {
          assert r[a] == prev[a];
          GoodDotsFrom(pp, st, n - 1, a);
          var j :| 0 <= j < n - 1 && !Bad(st.dots[j]) && prev[a] == OfflineDot(pp, st, j);
          assert j < st.dotCount - 1;
        }
      }
    }
  }

  // ---------------------------------------------------------------------------
  // Symbols

  predicate HasId(syms: seq<Symbol>, id: int)
  {
    exists k :: 0 <= k < |syms| && syms[k].id == id
  }

  /** The found symbols whose id is not yet listed are appended, in order. */
  function AddNew(acc: seq<Symbol>, found: seq<Symbol>, n: nat): (r: seq<Symbol>)
    requires n <= |found|
    ensures |acc| <= |r| && r[..|acc|] == acc
  {
    if n == 0 then acc
    else
      var r := AddNew(acc, found, n - 1);
      if HasId(r, found[n - 1].id) then r else r + [found[n - 1]]
  }

  /** The symbols of the first i strokes, each id once, the first one found winning. */
  function Collect(m: Stroke -> seq<Symbol>, strokes: seq<Stroke>, i: nat): seq<Symbol>
    requires i <= |strokes|
  {
    if i == 0 then [] else AddNew(Collect(m, strokes, i - 1), m(strokes[i - 1]), |m(strokes[i - 1])|)
  }

  function SymbolsOf(matcher: Live.Matcher, strokes: seq<Stroke>): seq<Symbol>
  {
    if matcher.None? then [] else Collect(matcher.value, strokes, |strokes|)
  }

  predicate DistinctIds(syms: seq<Symbol>)
  {
    forall a, b :: 0 <= a < b < |syms| ==> syms[a].id != syms[b].id
  }

  lemma {:induction false} AddNewRule(acc: seq<Symbol>, found: seq<Symbol>, n: nat)
    requires n <= |found| && DistinctIds(acc)
    ensures var r := AddNew(acc, found, n);
            DistinctIds(r) && r[..|acc|] == acc &&
            (forall k :: 0 <= k < n ==> HasId(r, found[k].id)) &&
            (forall k :: |acc| <= k < |r| ==> exists j :: 0 <= j < n && r[k] == found[j])
  {
    if n > 0 {
      AddNewRule(acc, found, n - 1);
      var p := AddNew(acc, found, n - 1);
      var r := AddNew(acc, found, n);
      if !HasId(p, found[n - 1].id) {
        assert r == p + [found[n - 1]];
        assert r[|r| - 1].id == found[n - 1].id;
        forall k | 0 <= k < n
          ensures HasId(r, found[k].id)
        {
          if k < n - 1 {
            var q :| 0 <= q < |p| && p[q].id == found[k].id;
            assert r[q] == p[q];
          }
        }
      }
    }
  }

  /**
   * The symbol list: ids are distinct, every symbol found for a stroke has
   * its id listed, and every listed symbol was found for some stroke.
   */
  lemma {:induction false} CollectRule(m: Stroke -> seq<Symbol>, strokes: seq<Stroke>, i: nat)
    requires i <= |strokes|
    ensures var r := Collect(m, strokes, i);
            DistinctIds(r) &&
            (forall s, k :: 0 <= s < i && 0 <= k < |m(strokes[s])| ==> HasId(r, m(strokes[s])[k].id)) &&
            (forall q :: 0 <= q < |r| ==> exists s, k :: 0 <= s < i && 0 <= k < |m(strokes[s])| && r[q] == m(strokes[s])[k])
  {
    if i > 0 {
      CollectRule(m, strokes, i - 1);
      var p := Collect(m, strokes, i - 1);
      var found := m(strokes[i - 1]);
      AddNewRule(p, found, |found|);
      var r := Collect(m, strokes, i);
      forall s, k | 0 <= s < i && 0 <= k < |m(strokes[s])|
        ensures HasId(r, m(strokes[s])[k].id)
      {
        if s < i - 1 {
          var q :| 0 <= q < |p| && p[q].id == m(strokes[s])[k].id;
          assert r[..|p|] == p;
          assert r[q] == p[q];
        }
      }
      forall q | 0 <= q < |r|
        ensures exists s, k :: 0 <= s < i && 0 <= k < |m(strokes[s])| && r[q] == m(strokes[s])[k]
      {
        if q < |p| {
          assert r[..|p|] == p;
          assert r[q] == p[q];
        } else {
          var j :| 0 <= j < |found| && r[q] == found[j];
          assert r[q] == m(strokes[i - 1])[j];
        }
      }
    }
  }

  // ---------------------------------------------------------------------------
  // OFFLINE_PACKET_REQUEST

  /** A size mismatch: NACK the packet while fewer than 3 retries were spent, else give up the download. */
  function Retry(e: Engine, packetId: int): Outcome<Engine>
  {
    var t := e.transfer;
    if t.retry < 3 then
      Outcome(e.(transfer := t.(retry := t.retry + 1)),
              [Transmit(OfflinePacketAck(e.session.encryptedMode, packetId, false))])
    else Outcome(e.(transfer := t.(retry := 0)), [Notify(OfflineDownloadFinished(false))])
  }

  /** The callbacks of a good packet: ACK, the strokes with their symbols, and the end when it is the last. */
  function Accepted(e: Engine, p: OfflinePacket, strokes: seq<Stroke>, syms: seq<Symbol>): seq<Action>
  {
    [Transmit(OfflinePacketAck(e.session.encryptedMode, p.packetId, true)),
     Notify(OfflineStrokes(e.transfer.total, e.transfer.received, strokes, syms))] +
    (if p.location == 2 then [Notify(OfflineDownloadFinished(true))] else [])
  }

  /** The decoded packet: None when the third bad dot aborts it, else its strokes. */
  function DecodePacket(pp: Paper, ss: seq<RawStroke>): Option<seq<Stroke>>
  {
    if BadTotal(ss, |ss|) >= 3 then None else Some(DecodeAll(pp, ss, |ss|))
  }

  function PaperOf(p: OfflinePacket): Paper
  {
    Paper(SectionOf(p.rb), OwnerOf(p.rb), p.note)
  }

  function OnPacket(e: Engine, x: Externals, p: OfflinePacket): Outcome<Engine>
  {
    var e1 := e.(transfer := e.transfer.(received := e.transfer.received + p.strCount));
    if p.sizeAfter != |p.body| then Retry(e1, p.packetId)
    else
      var inflated := x.inflate(p.body);
      if inflated.None? then Outcome(e1, [Fault])
      else if |inflated.value| != p.sizeBefore then Retry(e1, p.packetId)
      else
        var data := x.readStrokes(inflated.value, p.strCount);
        var decoded := DecodePacket(PaperOf(p), data.strokes);
        if decoded.None? then Outcome(e1, [Notify(OfflineDownloadFinished(false))])
        else if !data.complete then Outcome(e1, [Fault])
        else
          Outcome(e1.(transfer := e1.transfer.(retry := 0)),
                  Accepted(e1, p, decoded.value, SymbolsOf(x.matcher, decoded.value)))
  }

  /**
   * Retry and completion. The received count grows by the packet's stroke
   * count whatever happens. A size mismatch NACKs the packet id and counts a
   * retry while fewer than 3 were spent, and otherwise resets the counter and
   * finishes the download with failure. A good packet is ACKed first, resets
   * the counter, and finishes the download with success only at location 2.
   */
  lemma RetryRule(e: Engine, x: Externals, p: OfflinePacket)
    ensures var o := OnPacket(e, x, p);
            var inflated := x.inflate(p.body);
            var mismatch := p.sizeAfter != |p.body| || (inflated.Some? && |inflated.value| != p.sizeBefore);
            o.st.transfer.received == e.transfer.received + p.strCount &&
            o.st.transfer.total == e.transfer.total && o.st.session == e.session && o.st.live == e.live &&
            (mismatch && e.transfer.retry < 3 ==>
               o.out == [Transmit(OfflinePacketAck(e.session.encryptedMode, p.packetId, false))] &&
               o.st.transfer.retry == e.transfer.retry + 1) &&
            (mismatch && e.transfer.retry >= 3 ==>
               o.out == [Notify(OfflineDownloadFinished(false))] && o.st.transfer.retry == 0) &&
            (o.out != [] && o.out[0] == Transmit(OfflinePacketAck(e.session.encryptedMode, p.packetId, true)) ==>
               o.st.transfer.retry == 0 &&
               (Notify(OfflineDownloadFinished(true)) in o.out <==> p.location == 2))
  {
  }

  /** A data packet changes only the transfer counters. */
  lemma PacketKeepsSession(e: Engine, x: Externals, p: OfflinePacket)
    ensures OnPacket(e, x, p).st == e.(transfer := OnPacket(e, x, p).st.transfer)
  {
  }

  /**
   * The checksum rule: the first two bad dots of a packet are skipped, and
   * the packet is given up, with nothing delivered, exactly when it holds a
   * third. Otherwise each stroke keeps its good dots, each typed by its index
   * and timed by the deltas of all dots up to it, skipped ones included.
   */
  lemma ChecksumRule(e: Engine, x: Externals, p: OfflinePacket)
    requires p.sizeAfter == |p.body| && x.inflate(p.body).Some? && |x.inflate(p.body).value| == p.sizeBefore
    ensures var o := OnPacket(e, x, p);
            var data := x.readStrokes(x.inflate(p.body).value, p.strCount);
            var ss := data.strokes;
            (BadTotal(ss, |ss|) >= 3 ==> o.out == [Notify(OfflineDownloadFinished(false))] &&
                                         o.st.transfer.retry == e.transfer.retry) &&
            (BadTotal(ss, |ss|) < 3 && data.complete ==>
               o.out[1] == Notify(OfflineStrokes(e.transfer.total, e.transfer.received + p.strCount,
                                                 DecodeAll(PaperOf(p), ss, |ss|),
                                                 SymbolsOf(x.matcher, DecodeAll(PaperOf(p), ss, |ss|)))))
  {
  }
}
