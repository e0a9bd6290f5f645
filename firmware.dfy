/**
 * Firmware transfer: ReqPenSwUpgrade, ResponseChunkRequest,
 * SuspendSwUpgrade and the upload response and shutdown callbacks, over
 * IsUploading, SwUpgradeFailCallbacked and mFwChunk.
 */
module Firmware {
  import opened Base
  import opened Model
  import opened State
  import Auth

  /** The piece size ReqPenSwUpgrade creates its Chunk with. */
  const ChunkSize := 1024

  /** C# integer division, which truncates toward zero. */
  function TruncDiv(a: int, b: int): (q: int)
    requires b != 0
    ensures a >= 0 && b > 0 ==> q == a / b
  {
    var m := (if a < 0 then -a else a) / (if b < 0 then -b else b);
    if (a < 0) != (b < 0) then -m else m
  }

  /** The quotient rounds toward zero: |q * b| never exceeds |a| and the remainder keeps a's sign. */
  lemma TruncDivRounding(a: int, b: int)
    requires b != 0
    ensures var q := TruncDiv(a, b);
            var r := a - q * b;
            (a >= 0 ==> 0 <= r < (if b < 0 then -b else b)) &&
            (a < 0 ==> -(if b < 0 then -b else b) < r <= 0)
  {
  }

  /** The device name sent with an upgrade: an F121MG presents itself as an F121. */
  function UploadName(deviceName: string): string
  {
    if deviceName == Auth.F121MG then Auth.F121 else deviceName
  }

  /**
   * ReqPenSwUpgrade, given what loading the file yields (None when Load
   * fails). A load failure answers false but leaves the upload flag set.
   */
  function ReqPenSwUpgrade(e: Engine, load: Option<FirmwareFile>, version: string): Answered<Engine>
  {
    if e.upgrade.uploading then Answered(false, e, [])
    else
      var e1 := e.(upgrade := Upgrade(true, false, Some(ChunkSet(ChunkSize, load))));
      if load.None? then Answered(false, e1, [])
      else if e.session.ident.None? then Answered(false, e1, [Fault])
      else
        var f := load.value;
        Answered(true, e1, [Transmit(FirmwareUpload(UploadName(e.session.ident.value.deviceName), version,
                                                    f.fileSize, ChunkSize, f.totalChecksum))])
  }

  /**
   * While an upload is active a new one is refused and nothing changes.
   * Otherwise the upgrade state restarts with a fresh chunk set and a clear
   * failure flag, and stays active even when the file does not load.
   */
  lemma UpgradeStartRule(e: Engine, load: Option<FirmwareFile>, version: string)
    ensures var a := ReqPenSwUpgrade(e, load, version);
            (e.upgrade.uploading ==> a == Answered(false, e, [])) &&
            (!e.upgrade.uploading ==>
               a.st == e.(upgrade := Upgrade(true, false, Some(ChunkSet(ChunkSize, load)))) &&
               (a.ok <==> load.Some? && e.session.ident.Some?) &&
               (a.ok ==> a.out == [Transmit(FirmwareUpload(UploadName(e.session.ident.value.deviceName), version,
                                                            load.value.fileSize, ChunkSize, load.value.totalChecksum))]))
  {
  }

  /** The terminal branch of ResponseChunkRequest is taken on a stop status, a suspended upgrade or an inactive upload. */
  predicate Terminal(u: Upgrade, status: bool)
  {
    !status || u.chunk.None? || !u.uploading
  }

  function ResponseChunkRequest(e: Engine, x: Externals, offset: int, status: bool): Outcome<Engine>
  {
    var u := e.upgrade;
    if Terminal(u, status) then
      Outcome(e.(upgrade := u.(uploading := false, failCallbacked := true)),
              [Transmit(ChunkAbort(offset))] + (if u.failCallbacked then [] else [Notify(FirmwareUpdateResult(false))]))
    else
      var c := u.chunk.value;
      if c.chunkSize == 0 then Outcome(e, [Fault])
      else
        var index := TruncDiv(offset, c.chunkSize);
        if c.file.None? || index < 0 || index >= |c.file.value.pieces| then Outcome(e, [Fault])
        else
          var pieces := c.file.value.pieces;
          Outcome(e, [Transmit(ChunkData(offset, pieces[index].checksum, |pieces[index].data|,
                                         x.compress(pieces[index].data))),
                      Notify(FirmwareUpdateStatus(|pieces|, index + 1))])
  }

  /**
   * A chunk request that ends the upgrade sends the terminal response,
   * clears the upload and sets the failure flag; the failure callback
   * follows it exactly when it was not raised before.
   */
  lemma ChunkTerminal(e: Engine, x: Externals, offset: int, status: bool)
    requires Terminal(e.upgrade, status)
    ensures ResponseChunkRequest(e, x, offset, status) ==
            Outcome(e.(upgrade := e.upgrade.(uploading := false, failCallbacked := true)),
                    if e.upgrade.failCallbacked then [Transmit(ChunkAbort(offset))]
                    else [Transmit(ChunkAbort(offset)), Notify(FirmwareUpdateResult(false))])
  {
  }

  /**
   * Otherwise no state changes and the piece at offset / chunk size,
   * truncated toward zero, is served, reporting index + 1 of the pieces as
   * sent; for a non-negative offset that is the plain quotient.
   */
  lemma ChunkServe(e: Engine, x: Externals, offset: int, status: bool)
    requires !Terminal(e.upgrade, status)
    ensures var o := ResponseChunkRequest(e, x, offset, status);
            var c := e.upgrade.chunk.value;
            o.st == e &&
            (c.chunkSize != 0 && c.file.Some? && 0 <= TruncDiv(offset, c.chunkSize) < |c.file.value.pieces| ==>
               var pieces := c.file.value.pieces;
               var index := TruncDiv(offset, c.chunkSize);
               o.out == [Transmit(ChunkData(offset, pieces[index].checksum, |pieces[index].data|,
                                            x.compress(pieces[index].data))),
                         Notify(FirmwareUpdateStatus(|pieces|, index + 1))] &&
               (offset >= 0 && c.chunkSize > 0 ==> index == offset / c.chunkSize))
  {
  }

  function SuspendSwUpgrade(e: Engine): Answered<Engine>
  {
    Answered(true, e.(upgrade := e.upgrade.(chunk := None)), [])
  }

  /** FIRMWARE_UPLOAD_RESPONSE: a non-zero result or status ends the upload with failure. */
  function OnUploadResponse(e: Engine, result: byte, status: int): Outcome<Engine>
  {
    if result != 0 || status != 0 then
      Outcome(e.(upgrade := e.upgrade.(uploading := false)), [Notify(FirmwareUpdateResult(false))])
    else Outcome(e, [])
  }

  // ---------------------------------------------------------------------------
  // At most one failure callback per upgrade

  /** What the application can do to an upgrade in progress, besides starting one. */
  datatype UpgradeOp = ChunkRequest(offset: int, status: bool) | Suspend

  function Apply(e: Engine, x: Externals, op: UpgradeOp): Outcome<Engine>
  {
    match op
    case ChunkRequest(offset, status) => ResponseChunkRequest(e, x, offset, status)
    case Suspend => var a := SuspendSwUpgrade(e); Outcome(a.st, a.out)
  }

  /** The operations applied in order (a fault ends the run). */
  function Ops(e: Engine, x: Externals, ops: seq<UpgradeOp>): Outcome<Engine>
    decreases |ops|
  {
    if ops == [] then Outcome(e, [])
    else
      var r := Ops(e, x, ops[..|ops| - 1]);
      if Faulted(r.out) then r
      else
        var a := Apply(r.st, x, ops[|ops| - 1]);
        Outcome(a.st, r.out + a.out)
  }

  /** The number of failure callbacks in a log. */
  function Failures(out: seq<Action>): nat
  {
    if out == [] then 0
    else Failures(out[..|out| - 1]) + (if out[|out| - 1] == Notify(FirmwareUpdateResult(false)) then 1 else 0)
  }

  lemma {:induction false} FailuresAppend(a: seq<Action>, b: seq<Action>)
    ensures Failures(a + b) == Failures(a) + Failures(b)
    decreases |b|
  {
    if b == [] {
      assert a + b == a;
    } else {
      FailuresAppend(a, b[..|b| - 1]);
      assert (a + b)[..|a + b| - 1] == a + b[..|b| - 1];
    }
  }

  /** One operation raises the failure callback at most once, and only while the flag is clear; it then sets it. */
  lemma ApplyFailures(e: Engine, x: Externals, op: UpgradeOp)
    ensures var a := Apply(e, x, op);
            Failures(a.out) <= (if e.upgrade.failCallbacked then 0 else 1) &&
            (e.upgrade.failCallbacked ==> a.st.upgrade.failCallbacked) &&
            (Failures(a.out) > 0 ==> a.st.upgrade.failCallbacked)
  {
    var a := Apply(e, x, op);
    var nf := [Notify(FirmwareUpdateResult(false))];
    assert Failures(nf) == 1 by {
      assert nf[..0] == [];
    }
    match op
    case ChunkRequest(offset, status) =>
      if Terminal(e.upgrade, status) {
        FailuresAppend([Transmit(ChunkAbort(offset))], if e.upgrade.failCallbacked then [] else nf);
        assert Failures([Transmit(ChunkAbort(offset))]) == 0 by {
          assert [Transmit(ChunkAbort(offset))][..0] == [];
        }
      } else {
        var out := a.out;
        if |out| == 2 {
          assert out[..1][..0] == [];
          assert Failures(out) == 0;
        } else {
          assert out == [Fault] && out[..0] == [];
        }
      }
    case Suspend =>
  }

  /**
   * Over any run of chunk requests and suspensions the failure callback is
   * raised at most once, and not at all once it was raised; since
   * ReqPenSwUpgrade clears the flag, that is at most once per upgrade.
   */
  lemma {:induction false} AtMostOneFailure(e: Engine, x: Externals, ops: seq<UpgradeOp>)
    ensures var r := Ops(e, x, ops);
            Failures(r.out) <= (if e.upgrade.failCallbacked then 0 else 1) &&
            (e.upgrade.failCallbacked ==> r.st.upgrade.failCallbacked) &&
            (Failures(r.out) > 0 ==> r.st.upgrade.failCallbacked)
    decreases |ops|
  {
    if ops != [] {
      var init := ops[..|ops| - 1];
      AtMostOneFailure(e, x, init);
      var r := Ops(e, x, init);
      if !Faulted(r.out) {
        var a := Apply(r.st, x, ops[|ops| - 1]);
        ApplyFailures(r.st, x, ops[|ops| - 1]);
        FailuresAppend(r.out, a.out);
      }
    }
  }

  /** After a new upgrade starts, the run that follows raises the failure callback at most once. */
  lemma OneFailurePerUpgrade(e: Engine, x: Externals, load: Option<FirmwareFile>, version: string, ops: seq<UpgradeOp>)
    requires !e.upgrade.uploading
    ensures Failures(Ops(ReqPenSwUpgrade(e, load, version).st, x, ops).out) <= 1
  {
    AtMostOneFailure(ReqPenSwUpgrade(e, load, version).st, x, ops);
  }

  /**
   * A failed FIRMWARE_UPLOAD_RESPONSE raises the failure callback without
   * setting the flag and clears the upload, so a chunk request after it
   * takes the terminal branch and raises the callback a second time: the
   * upload response is why the runs above exclude it.
   */
  lemma UploadFailureThenChunk(e: Engine, x: Externals, result: byte, status: int, offset: int, ok: bool)
    requires !e.upgrade.failCallbacked && (result != 0 || status != 0)
    ensures var a := OnUploadResponse(e, result, status);
            var b := ResponseChunkRequest(a.st, x, offset, ok);
            !a.st.upgrade.uploading && !a.st.upgrade.failCallbacked &&
            Failures(a.out) == 1 && Failures(b.out) == 1 && Failures(a.out + b.out) == 2
  {
    var a := OnUploadResponse(e, result, status);
    assert Failures(a.out) == 1 by {
      assert a.out[..0] == [];
    }
    ChunkTerminal(a.st, x, offset, ok);
    var b := ResponseChunkRequest(a.st, x, offset, ok);
    assert Failures(b.out) == 1 by {
      assert b.out[..1] == [Transmit(ChunkAbort(offset))];
      assert b.out[..1][..0] == [];
    }
    FailuresAppend(a.out, b.out);
  }
}
