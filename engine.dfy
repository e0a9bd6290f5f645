/**
 * The PenCommV2 object: its fields, the per-packet handlers that update
 * them in place and append to one output log, and the loops of the
 * offline decoder and the encrypted offline wrapper. Every method is
 * proved to leave the fields and the log exactly as the corresponding
 * function of Live, Auth, Offline, Firmware or Protocol says.
 */
module PenComm {
  import opened Base
  import opened Codec
  import opened Model
  import opened State
  import Codes
  import Live
  import Auth
  import Offline
  import Firmware
  import Protocol

  class PenCommV2 {
    /** The collaborators: packet readers, zlib, the ciphers, the version check, the symbol matcher. */
    const ext: Externals

    /** The stroke reconstructor's fields, mTime .. mPrevCount. */
    var live: Live.LiveState
    /** Identity, authentication and password fields. */
    var session: Session
    /** The offline download counters. */
    var transfer: Transfer
    /** IsUploading, SwUpgradeFailCallbacked and mFwChunk. */
    var upgrade: Upgrade
    /** Everything the engine has sent and raised, in order. */
    var log: seq<Action>

    function Snapshot(): Engine
      reads this
    {
      Engine(live, session, transfer, upgrade)
    }

    /** The stroke fields became o.st, o.out was appended to the log, and nothing else changed. */
    twostate predicate LiveStep(o: Outcome<Live.LiveState>)
      reads this
    {
      Snapshot() == old(Snapshot()).(live := o.st) && log == old(log) + o.out
    }

    /** The fields became o.st and o.out was appended to the log. */
    twostate predicate Stepped(o: Outcome<Engine>)
      reads this
    {
      Snapshot() == o.st && log == old(log) + o.out
    }

    /** The field initialisers. */
    constructor(ext: Externals)
      ensures this.ext == ext && Snapshot() == State.Initial && log == []
    {
      this.ext := ext;
      live := Live.Initial;
      session := InitialSession;
      transfer := InitialTransfer;
      upgrade := InitialUpgrade;
      log := [];
    }

    // -------------------------------------------------------------------------
    // The stroke reconstructor

    method CheckEventCount(ecount: int)
      modifies this
      ensures LiveStep(Live.CheckEventCount(old(live), ecount))
    {
      var previous := live.eventCount;
      if ecount - previous != 1 && (ecount != 0 || previous != 255) {
        var errorDot := if live.prevDot.Some? then Some(live.prevDot.value.(dotType := PenError)) else None;
        if ecount - previous > 1 {
          var detail := MissedEvents(previous + 1, ecount - 1);
          log := log + [Notify(ErrorDetected(InvalidEventCount, live.sessionTs, errorDot, detail, None))];
        } else if ecount < previous {
          var detail := CountWentBack(previous, ecount);
          log := log + [Notify(ErrorDetected(InvalidEventCount, live.sessionTs, errorDot, detail, None))];
        }
      }
      live := live.(eventCount := ecount);
    }

    method SendDotReceiveEvent(dot: Dot, info: Option<ImageInfo>)
      modifies this
      ensures LiveStep(Live.Deliver(old(live), ext.matcher, dot, info))
    {
      var stroke := if live.curStroke.None? || dot.dotType == PenDown
                    then Stroke(dot.section, dot.owner, dot.note, dot.page, [])
                    else live.curStroke.value;
      stroke := stroke.(dots := stroke.dots + [dot]);
      assert stroke == Live.StrokeWith(live.curStroke, dot);
      live := live.(curStroke := Some(stroke));
      log := log + [Notify(DotReceived(dot, info))];
      if dot.dotType == PenUp && ext.matcher.Some? {
        var symbols := ext.matcher.value(stroke);
        if |symbols| > 0 {
          log := log + [Notify(SymbolDetected(symbols))];
        }
      }
    }

    method MakeUpDot(isError: bool)
      requires live.prevDot.Some?
      modifies this
      ensures LiveStep(Live.MakeUpDot(old(live), ext.matcher, isError))
    {
      var last := live.prevDot.value;
      if isError {
        log := log + [Live.Report(MissingPenUp, live.sessionTs, Some(last.(dotType := PenError)))];
      }
      SendDotReceiveEvent(last.(dotType := PenUp), None);
    }

    method OnNewPenDown(ecount: int, t: int, tip: byte, color: int)
      modifies this
      ensures LiveStep(Live.OnNewPenDown(old(live), ext.matcher, ecount, t, tip, color))
    {
      if Live.MidStroke(live) {
        MakeUpDot(true);
      }
      CheckEventCount(ecount);
      live := live.(startWithDown := true, time := t, sessionTs := t, beforeMiddle := false,
                    startWithPaperInfo := false, downCreated := false, dotCount := 0,
                    tip := Live.TipOf(tip), tipColor := color, prevDot := None);
    }

    method OnNewPenUp(ecount: int, n: int, total: int, processed: int, success: int, transferred: int)
      modifies this
      ensures LiveStep(Live.OnNewPenUp(old(live), ext.matcher, ecount, n, total, processed, success, transferred))
    {
      CheckEventCount(ecount);
      if Live.MidStroke(live) {
        var info := if !live.downCreated then Some(ImageInfo(n, total, processed, success, transferred)) else None;
        SendDotReceiveEvent(live.prevDot.value.(dotType := PenUp), info);
      } else if !live.startWithDown && !live.beforeMiddle {
        log := log + [Live.Report(MissingPenDownPenMove, -1, None)];
      } else if !live.beforeMiddle {
        log := log + [Live.Report(MissingPenMove, live.sessionTs, None)];
      }
      live := live.(time := -1, sessionTs := -1, startWithDown := false, beforeMiddle := false,
                    startWithPaperInfo := false, downCreated := false, dotCount := 0, prevDot := None);
    }

    method OnPenUpDown(isDown: bool, t: int, tip: byte, color: int)
      modifies this
      ensures LiveStep(Live.OnPenUpDown(old(live), ext.matcher, isDown, t, tip, color))
    {
      if isDown {
        if Live.MidStroke(live) {
          MakeUpDot(true);
        }
        live := live.(startWithDown := true, time := t, sessionTs := t);
      } else {
        if Live.MidStroke(live) {
          MakeUpDot(false);
        } else if !live.startWithDown && !live.beforeMiddle {
          log := log + [Live.Report(MissingPenDownPenMove, -1, None)];
        } else if !live.beforeMiddle {
          log := log + [Live.Report(MissingPenMove, live.sessionTs, None)];
        }
        live := live.(startWithDown := false, time := -1, sessionTs := -1);
      }
      live := live.(beforeMiddle := false, startWithPaperInfo := false, downCreated := false, dotCount := 0,
                    tip := Live.TipOf(tip), tipColor := color, prevDot := None);
    }

    /** The missing-pen-down handling of a dot arriving with hover off and no pen-down. */
    method RecoverDown(now: int, d: DotSample)
      modifies this
      ensures LiveStep(Live.RecoverDown(old(live), now, d))
    {
      if !live.hover && !live.startWithDown {
        if !live.startWithPaperInfo {
          log := log + [Live.Report(MissingPenDown, -1, None)];
        } else {
          live := live.(time := now, sessionTs := now);
          var errorDot := Live.MakeDot(live, now, d, PenError);
          log := log + [Live.Report(MissingPenDown, now, Some(errorDot))];
          live := live.(startWithDown := true, downCreated := true);
        }
      }
    }

    /** The event counter check of the NEW_ events, which carry one. */
    method WithCount(ecount: Option<int>)
      modifies this
      ensures LiveStep(Live.WithCount(old(live), ecount))
    {
      if ecount.Some? {
        CheckEventCount(ecount.value);
      }
    }

    /** Deliver the dot, when there is one. */
    method DeliverSome(dot: Option<Dot>)
      modifies this
      ensures LiveStep(if dot.Some? then Live.Deliver(old(live), ext.matcher, dot.value, None) else Outcome(old(live), []))
    {
      if dot.Some? {
        SendDotReceiveEvent(dot.value, None);
      }
    }

    method OnDot(now: int, ecount: Option<int>, d: DotSample)
      modifies this
      ensures LiveStep(Live.OnDot(old(live), ext.matcher, now, ecount, d))
    {
      ghost var b := Live.WithCount(live, ecount);
      WithCount(ecount);
      live := live.(time := live.time + d.timeAdd as int);
      ghost var c := Live.RecoverDown(live, now, d);
      RecoverDown(now, d);
      // A hover dot before any pen-down, or a down/move dot once the paper is known.
      var dot := Live.DotFor(live, d);
      var warn := if live.startWithDown && !live.startWithPaperInfo
                  then [Live.Report(MissingPageChange, live.sessionTs, None)] else [];
      log := log + warn;
      ghost var e := if dot.Some? then Live.Deliver(live, ext.matcher, dot.value, None) else Outcome(live, []);
      DeliverSome(dot);
      live := live.(beforeMiddle := true, prevDot := dot, dotCount := live.dotCount + 1);
      Live.OnDotSteps(old(live), ext.matcher, now, ecount, d, b, c, e);
      Append3(old(log), b.out, c.out);
      Append3(old(log), b.out + c.out, warn);
      Append3(old(log), b.out + c.out + warn, e.out);
    }

    method OnPaperInfo(ecount: Option<int>, a: PaperAddress)
      modifies this
      ensures LiveStep(Live.OnPaperInfo(old(live), ext.matcher, ecount, a))
    {
      WithCount(ecount);
      if Live.MidStroke(live) {
        MakeUpDot(false);
      }
      live := live.(section := SectionOf(a.rb), owner := OwnerOf(a.rb), note := a.note, page := a.page,
                    dotCount := 0, startWithPaperInfo := true);
    }

    method OnPenError(ecount: Option<int>, e: ErrorSample)
      modifies this
      ensures LiveStep(Live.OnPenError(old(live), ecount, e))
    {
      WithCount(ecount);
      live := live.(time := live.time + e.timeAdd as int);
      var info := ImageErrorInfo(live.time, e.force, e.brightness, e.exposureTime, e.processTime,
                                 e.labelCount, e.errorCode, e.classType, e.errorCount);
      var errorDot := if live.prevDot.Some? then Some(live.prevDot.value.(dotType := PenUp)) else None;
      log := log + [Notify(ErrorDetected(ImageProcessingError, live.sessionTs, errorDot, NoDetail, Some(info)))];
    }

    method ParseDotPacket(now: int, ev: DotEvent)
      modifies this
      ensures LiveStep(Live.OnDotEvent(old(live), ext.matcher, now, ev))
    {
      match ev
      case NewPenDown(c, t, tip, color) => OnNewPenDown(c, t, tip, color);
      case NewPenUp(c, _, n, total, processed, success, transferred) =>
        OnNewPenUp(c, n, total, processed, success, transferred);
      case PenUpDown(isDown, t, tip, color) => OnPenUpDown(isDown, t, tip, color);
      case DotMove(c, d) => OnDot(now, c, d);
      case PaperInfo(c, a) => OnPaperInfo(c, a);
      case PenErrorEvent(c, e) => OnPenError(c, e);
    }

    /** A dot item: the previous dot is delivered and the new one kept; with no previous dot it throws. */
    method OnlineDot(d: DotSample) returns (faulted: bool)
      modifies this
      ensures LiveStep(Live.OnItem(old(live), ext.matcher, ItemDot(d)))
      ensures faulted <==> Faulted(Live.OnItem(old(live), ext.matcher, ItemDot(d)).out)
    {
      live := live.(time := live.time + d.timeAdd as int);
      // A hover dot while hovering, or a down/move dot inside a stroke.
      var dot := Live.ItemDotOf(live, d);
      if dot.Some? {
        if live.prevDot.None? {
          log := log + [Fault];
          return true;
        }
        SendDotReceiveEvent(live.prevDot.value, None);
      }
      live := live.(prevDot := dot, dotCount := live.dotCount + 1);
      return false;
    }

    /** One item of an online data request; `faulted` when it throws (a dot with no last dot). */
    method OnlineItem(item: OnlineItem) returns (faulted: bool)
      modifies this
      ensures LiveStep(Live.OnItem(old(live), ext.matcher, item))
      ensures faulted <==> Faulted(Live.OnItem(old(live), ext.matcher, item).out)
    {
      faulted := false;
      match item
      case ItemDown(t, tip, color) =>
        live := live.(startWithDown := true, dotCount := 0, time := t, tip := Live.TipOf(tip), tipColor := color);
      case ItemUp(_, total, processed, success, transferred) =>
        if live.prevDot.Some? {
          var up := live.prevDot.value.(dotType := PenUp);
          live := live.(prevDot := Some(up));
          SendDotReceiveEvent(up, Some(ImageInfo(0, total, processed, success, transferred)));
        }
      case ItemPaper(a) =>
        live := live.(section := SectionOf(a.rb), owner := OwnerOf(a.rb), note := a.note, page := a.page);
      case ItemDot(d) =>
        faulted := OnlineDot(d);
      case ItemOther(_) =>
    }

    /** The item loop of ParseOnlineDataRequest; it stops at the first item that throws. */
    method OnlineItems(items: seq<OnlineItem>) returns (faulted: bool)
      modifies this
      ensures LiveStep(Live.OnItems(old(live), ext.matcher, items))
      ensures faulted <==> Faulted(Live.OnItems(old(live), ext.matcher, items).out)
    {
      ghost var s0 := live;
      ghost var run := Outcome(live, []);
      faulted := false;
      var i := 0;
      while i < |items| && !faulted
        invariant 0 <= i <= |items|
        invariant run == Live.OnItems(s0, ext.matcher, items[..i]) && faulted == Faulted(run.out)
        invariant Snapshot() == old(Snapshot()).(live := run.st) && log == old(log) + run.out
      {
        ItemsStep(s0, ext.matcher, items, i);
        ghost var e := Live.OnItem(live, ext.matcher, items[i]);
        faulted := OnlineItem(items[i]);
        Append3(old(log), run.out, e.out);
        run := Outcome(e.st, run.out + e.out);
        i := i + 1;
      }
      if faulted {
        FaultEndsRun(s0, ext.matcher, items, i, |items|);
      }
      assert items[..|items|] == items;
    }

    method ParseOnlineDataRequest(index: int, count: byte, items: seq<OnlineItem>)
      modifies this
      ensures LiveStep(Live.OnOnlineData(old(live), ext.matcher, index, count, items))
    {
      if index <= live.prevIndex {
        log := log + [Transmit(OnlineDataAck(index, count))];
        return;
      }
      live := live.(prevCount := count, prevIndex := index);
      var faulted := OnlineItems(items);
      if !faulted {
        log := log + [Transmit(OnlineDataAck(index, count))];
      }
    }

    // -------------------------------------------------------------------------
    // Connection hooks and the session

    method OnConnected()
      modifies this
      ensures Stepped(Auth.OnConnected(old(Snapshot())))
    {
      live := live.(prevIndex := -1);
      log := log + [Transmit(VersionRequest)];
    }

    method OnDisconnected()
      modifies this
      ensures Stepped(Auth.OnDisconnected(old(Snapshot()), ext.matcher))
    {
      if Live.MidStroke(live) {
        MakeUpDot(true);
        live := live.(time := -1, sessionTs := -1, startWithDown := false, beforeMiddle := false,
                      startWithPaperInfo := false, dotCount := 0, prevDot := None);
      }
      session := session.(aesKey := None, authenticated := false, encryptedMode := false, gotAesKey := false);
      log := log + [Notify(Disconnected)];
    }

    method OnVersion(info: VersionInfo)
      modifies this
      ensures Stepped(Auth.OnVersion(old(Snapshot()), info))
    {
      session := session.(ident := Some(Auth.Identify(info)), maxForce := -1);
      upgrade := upgrade.(uploading := false);
      live := live.(eventCount := 0);
      log := log + [Transmit(StatusRequest)];
    }

    /** The lock and encryption decision of the first status after connecting. */
    method FirstStatus(now: int, r: StatusReport, encryptionType: int)
      modifies this
      ensures var a := Auth.FirstStatus(old(session), now, r, encryptionType);
              Stepped(Outcome(old(Snapshot()).(session := a.st), a.out))
    {
      if r.locked {
        log := log + [Notify(PasswordRequest(r.retry, r.maxRetry))];
      } else if encryptionType == 0 || session.gotAesKey {
        session := session.(authenticated := true);
        log := log + [Transmit(SetupTime(now)), Notify(PenAuthenticated)];
      } else if session.rsaKey.None? {
        log := log + [Notify(PrivateKeyRequest)];
      } else if encryptionType == 1 {
        log := log + [Transmit(EncryptionKeyRequest)];
      } else if encryptionType == 2 {
        log := log + [Notify(SecureCommunicationFailure(CertificateExpired))];
      } else {
        log := log + [Notify(SecureCommunicationFailure(SecureFailure.UnknownError)), Teardown];
      }
    }

    method OnStatus(now: int, r: StatusReport, reported: int)
      modifies this
      ensures Stepped(Auth.OnStatus(old(Snapshot()), ext, now, r, reported))
    {
      ghost var e0 := Snapshot();
      live := live.(hover := r.hover);
      var encryptionType := 0;
      if session.ident.Some? && ext.encryptionSupported(session.ident.value.protocolVersion) {
        encryptionType := reported;
        session := session.(encryptedMode := encryptionType != 0);
      }
      assert encryptionType == Auth.EncryptionType(e0, ext, reported);
      if !session.authenticated {
        session := session.(maxForce := r.maxForce);
        log := log + [Notify(Connected(session.ident, session.maxForce))];
        ghost var a := Auth.FirstStatus(session, now, r, encryptionType);
        FirstStatus(now, r, encryptionType);
        assert log == old(log) + ([Notify(Connected(e0.session.ident, r.maxForce))] + a.out);
      } else {
        log := log + [Notify(PenStatus(r, session.maxForce))];
      }
    }

    method OnSettingChange(code: int, result: byte)
      modifies this
      ensures Stepped(Outcome(old(Snapshot()), Auth.OnSettingChange(code, result)))
    {
      var setting := Codes.SettingOf(code);
      if setting.Some? {
        log := log + [Notify(SettingResult(setting.value, result == 0))];
      }
    }

    method OnPassword(now: int, status: int, retry: int, max: int)
      modifies this
      ensures Stepped(Auth.OnPassword(old(Snapshot()), now, status, retry, max))
    {
      if status == 1 {
        if session.reCheck {
          session := session.(reCheck := false);
          log := log + [Notify(PasswordSetUpResult(true))];
        } else {
          log := log + [Transmit(SetupTime(now)), Notify(PenAuthenticated)];
        }
      } else if session.reCheck {
        session := session.(reCheck := false);
        log := log + [Notify(PasswordSetUpResult(false))];
      } else {
        log := log + [Notify(PasswordRequest(retry, max))];
      }
    }

    /** ReqInputPassword: false, sending nothing, for a null or default password. */
    method ReqInputPassword(password: Option<string>) returns (ok: bool)
      modifies this
      ensures ok == Auth.InputPassword(password).Some?
      ensures Stepped(Outcome(old(Snapshot()), if ok then [Transmit(Auth.InputPassword(password).value)] else []))
    {
      if password.None? || password.value == Auth.DefaultPassword {
        return false;
      }
      log := log + [Transmit(PasswordInput(password.value))];
      return true;
    }

    method OnPasswordChange(result: byte)
      modifies this
      ensures Stepped(Auth.OnPasswordChange(old(Snapshot()), result))
    {
      if result == 0 {
        session := session.(reCheck := true);
        var _ := ReqInputPassword(session.newPassword);
      } else {
        session := session.(newPassword := Some(""));
        log := log + [Notify(PasswordSetUpResult(false))];
      }
    }

    method ReqSetUpPassword(oldPassword: Option<string>, newPassword: Option<string>) returns (ok: bool)
      modifies this
      ensures var a := Auth.SetUpPassword(old(session), oldPassword, newPassword);
              ok == a.ok && Stepped(Outcome(old(Snapshot()).(session := a.st), a.out))
    {
      if oldPassword.None? || newPassword.None? {
        return false;
      }
      if oldPassword.value == Auth.DefaultPassword || newPassword.value == Auth.DefaultPassword {
        return false;
      }
      session := session.(newPassword := newPassword);
      log := log + [Transmit(PasswordChange(oldPassword.value, newPassword.value))];
      return true;
    }

    method OnKey(result: byte, code: int, data: seq<byte>)
      modifies this
      ensures Stepped(Auth.OnKey(old(Snapshot()), ext, result, code, data))
    {
      if result != 0 || code != 0 {
        log := log + [Notify(SecureCommunicationFailure(SecureFailure.UnknownError)), Teardown];
        return;
      }
      if session.rsaKey.None? {
        log := log + [Notify(SecureCommunicationFailure(NoPrivateKey)), Teardown];
        return;
      }
      var key := ext.rsaDecrypt(session.rsaKey.value, data);
      if key.None? || |key.value| != 32 {
        log := log + [Notify(SecureCommunicationFailure(InvalidPrivateKey)), Teardown];
        return;
      }
      session := session.(gotAesKey := true, aesKey := key);
      log := log + [Transmit(StatusRequest)];
    }

    /** SetPrivateKey; `alive` is whether the connection is up. */
    method SetPrivateKey(alive: bool, key: Option<PrivateKey>) returns (ok: bool)
      modifies this
      ensures var a := Auth.SetPrivateKey(old(Snapshot()), alive, key);
              ok == a.ok && Stepped(Outcome(a.st, a.out))
    {
      if alive {
        if !session.authenticated {
          session := session.(rsaKey := key);
          log := log + [Transmit(StatusRequest)];
          return true;
        }
        return false;
      }
      session := session.(rsaKey := key);
      return true;
    }

    // -------------------------------------------------------------------------
    // The offline download

    method OnDataResponse(total: int, totalSize: int)
      modifies this
      ensures Stepped(Offline.OnDataResponse(old(Snapshot()), total, totalSize))
    {
      transfer := transfer.(total := total, received := 0, totalSize := totalSize);
      if total == 0 {
        log := log + [Notify(OfflineDownloadFinished(false))];
      } else {
        log := log + [Notify(OfflineDownloadStarted)];
      }
    }

    method RetryPacket(packetId: int)
      modifies this
      ensures Stepped(Offline.Retry(old(Snapshot()), packetId))
    {
      if transfer.retry < 3 {
        log := log + [Transmit(OfflinePacketAck(session.encryptedMode, packetId, false))];
        transfer := transfer.(retry := transfer.retry + 1);
      } else {
        transfer := transfer.(retry := 0);
        log := log + [Notify(OfflineDownloadFinished(false))];
      }
    }

    method OnOfflinePacket(p: OfflinePacket)
      modifies this
      ensures Stepped(Offline.OnPacket(old(Snapshot()), ext, p))
    {
      transfer := transfer.(received := transfer.received + p.strCount);
      if p.sizeAfter != |p.body| {
        RetryPacket(p.packetId);
        return;
      }
      var inflated := ext.inflate(p.body);
      if inflated.None? {
        log := log + [Fault];
        return;
      }
      if |inflated.value| != p.sizeBefore {
        RetryPacket(p.packetId);
        return;
      }
      var data := ext.readStrokes(inflated.value, p.strCount);
      var aborted, strokes := DecodeStrokes(Offline.PaperOf(p), data.strokes);
      if aborted {
        log := log + [Notify(OfflineDownloadFinished(false))];
        return;
      }
      if !data.complete {
        log := log + [Fault];
        return;
      }
      var symbols := CollectSymbols(ext.matcher, strokes);
      log := log + [Transmit(OfflinePacketAck(session.encryptedMode, p.packetId, true))];
      transfer := transfer.(retry := 0);
      log := log + [Notify(OfflineStrokes(transfer.total, transfer.received, strokes, symbols))];
      if p.location == 2 {
        log := log + [Notify(OfflineDownloadFinished(true))];
      }
    }

    // -------------------------------------------------------------------------
    // The encrypted wrappers

    method OnEncryptedDot(now: int, isDot: bool, block: seq<byte>)
      modifies this
      ensures Stepped(Protocol.OnEncryptedDot(old(Snapshot()), ext, now, isDot, block))
    {
      if session.aesKey.None? {
        log := log + [Notify(SecureCommunicationFailure(InvalidPrivateKey)), Teardown];
        return;
      }
      var plain := ext.aesDecode(session.aesKey.value, block);
      if plain.None? {
        log := log + [Notify(SecureCommunicationFailure(InvalidPrivateKey)), Teardown];
        return;
      }
      if isDot {
        OnDot(now, Some(ext.readDot(plain.value).0), ext.readDot(plain.value).1);
      } else {
        OnPaperInfo(Some(ext.readPaper(plain.value).0), ext.readPaper(plain.value).1);
      }
    }

    method OnEncryptedOffline(data: seq<byte>)
      modifies this
      ensures Stepped(Protocol.OnEncryptedOffline(old(Snapshot()), ext, data))
    {
      if session.aesKey.None? {
        log := log + [Notify(SecureCommunicationFailure(InvalidPrivateKey)), Teardown];
        return;
      }
      if (|data| - 9) % 16 != 0 {
        log := log + [Notify(SecureCommunicationFailure(SecureFailure.UnknownError))];
        return;
      }
      var plain := DecryptBlocks(ext, session.aesKey.value, data[9..]);
      if plain.None? {
        log := log + [Notify(SecureCommunicationFailure(InvalidPrivateKey)), Teardown];
        return;
      }
      var body := data[..8] + plain.value;
      var n := |body| - data[8] as int;
      if n < 0 {
        log := log + [Fault];
        return;
      }
      var packet := ext.readOffline(body[..n]);
      if packet.None? {
        log := log + [Fault];
        return;
      }
      OnOfflinePacket(packet.value);
    }

    // -------------------------------------------------------------------------
    // The firmware upgrade

    /** ReqPenSwUpgrade, given what loading the file yields. */
    method ReqPenSwUpgrade(load: Option<FirmwareFile>, version: string) returns (ok: bool)
      modifies this
      ensures var a := Firmware.ReqPenSwUpgrade(old(Snapshot()), load, version);
              ok == a.ok && Stepped(Outcome(a.st, a.out))
    {
      if upgrade.uploading {
        return false;
      }
      upgrade := Upgrade(true, false, Some(ChunkSet(Firmware.ChunkSize, load)));
      if load.None? {
        return false;
      }
      if session.ident.None? {
        log := log + [Fault];
        return false;
      }
      var deviceName := session.ident.value.deviceName;
      if deviceName == Auth.F121MG {
        deviceName := Auth.F121;
      }
      var file := load.value;
      log := log + [Transmit(FirmwareUpload(deviceName, version, file.fileSize, Firmware.ChunkSize, file.totalChecksum))];
      return true;
    }

    method ResponseChunkRequest(offset: int, status: bool)
      modifies this
      ensures Stepped(Firmware.ResponseChunkRequest(old(Snapshot()), ext, offset, status))
    {
      if !status || upgrade.chunk.None? || !upgrade.uploading {
        upgrade := upgrade.(uploading := false);
        log := log + [Transmit(ChunkAbort(offset))];
        if !upgrade.failCallbacked {
          log := log + [Notify(FirmwareUpdateResult(false))];
          upgrade := upgrade.(failCallbacked := true);
        }
        return;
      }
      var chunk := upgrade.chunk.value;
      if chunk.chunkSize == 0 {
        log := log + [Fault];
        return;
      }
      var index := Firmware.TruncDiv(offset, chunk.chunkSize);
      if chunk.file.None? || index < 0 || index >= |chunk.file.value.pieces| {
        log := log + [Fault];
        return;
      }
      var pieces := chunk.file.value.pieces;
      var compressed := ext.compress(pieces[index].data);
      log := log + [Transmit(ChunkData(offset, pieces[index].checksum, |pieces[index].data|, compressed))];
      log := log + [Notify(FirmwareUpdateStatus(|pieces|, index + 1))];
    }

    method SuspendSwUpgrade() returns (ok: bool)
      modifies this
      ensures var a := Firmware.SuspendSwUpgrade(old(Snapshot()));
              ok == a.ok && Stepped(Outcome(a.st, a.out))
    {
      upgrade := upgrade.(chunk := None);
      return true;
    }

    method OnUploadResponse(result: byte, status: int)
      modifies this
      ensures Stepped(Firmware.OnUploadResponse(old(Snapshot()), result, status))
    {
      if result != 0 || status != 0 {
        upgrade := upgrade.(uploading := false);
        log := log + [Notify(FirmwareUpdateResult(false))];
      }
    }

    // -------------------------------------------------------------------------
    // ParsePacket

    /** ParsePacket: dispatch on the command. */
    method ParsePacket(now: int, pk: Packet)
      modifies this
      ensures Stepped(Protocol.Step(old(Snapshot()), ext, now, pk))
    {
      if Protocol.SessionPacket(pk) {
        ParseSessionPacket(now, pk);
      } else if Protocol.PenPacket(pk) {
        ParsePenPacket(now, pk);
      } else {
        ParseTransferPacket(now, pk);
      }
    }

    /** The identity, status, setting, password, key and certificate responses. */
    method ParseSessionPacket(now: int, pk: Packet)
      requires Protocol.SessionPacket(pk)
      modifies this
      ensures Stepped(Protocol.Step(old(Snapshot()), ext, now, pk))
    {
      match pk
      case VersionResponse(info) => OnVersion(info);
      case StatusResponse(report, encryptionType) => OnStatus(now, report, encryptionType);
      case SettingChangeResponse(code, result) => OnSettingChange(code, result);
      case PasswordResponse(status, retry, max) => OnPassword(now, status, retry, max);
      case PasswordChangeResponse(_, _, result) => OnPasswordChange(result);
      case KeyResponse(result, code, data) => OnKey(result, code, data);
      case CertUpdateResponse(code) => log := log + [Notify(CertificateUpdated(Codes.CertUpdateOf(code)))];
      case CertDeleteResponse(code) => log := log + [Notify(CertificateDeleted(Codes.CertDeleteOf(code)))];
    }

    /** The pen's own events: online data, dot events (plain or encrypted), shutdown and low battery. */
    method ParsePenPacket(now: int, pk: Packet)
      requires Protocol.PenPacket(pk)
      modifies this
      ensures Stepped(Protocol.Step(old(Snapshot()), ext, now, pk))
    {
      match pk
      case OnlineDataRequest(index, count, items) => ParseOnlineDataRequest(index, count, items);
      case DotPacket(ev) => ParseDotPacket(now, ev);
      case EncryptedDotEvent(isDot, block) => OnEncryptedDot(now, isDot, block);
      case ShutdownEvent(reason) =>
        if reason == 2 {
          log := log + [Notify(FirmwareUpdateResult(true))];
        }
      case LowBatteryEvent(battery) => log := log + [Notify(BatteryAlarm(battery as int))];
    }

    /** The offline transfer, firmware and note-list responses, and anything unhandled. */
    method ParseTransferPacket(now: int, pk: Packet)
      requires !Protocol.SessionPacket(pk) && !Protocol.PenPacket(pk)
      modifies this
      ensures Stepped(Protocol.Step(old(Snapshot()), ext, now, pk))
    {
      match pk
      case OfflineNoteListResponse(entries) => log := log + [Notify(OfflineDataList(Protocol.NotesOf(entries)))];
      case OfflinePageListResponse(rb, note, pages) =>
        log := log + [Notify(OfflinePageList(SectionOf(rb), OwnerOf(rb), note, pages))];
      case OfflineDataResponse(_, total, size, _) => OnDataResponse(total, size);
      case OfflinePacketRequest(p) => OnOfflinePacket(p);
      case OfflineDeleteResponse(result) => log := log + [Notify(OfflineDataRemoved(result == 0))];
      case EncryptedOfflinePacket(data) => OnEncryptedOffline(data);
      case FirmwareUploadResponse(result, status) => OnUploadResponse(result, status);
      case FirmwarePacketRequest(status, offset) => ResponseChunkRequest(offset, status != 3);
      case OnlineDataResponse(result) => log := log + [Notify(AvailableNoteAccepted(result == 0))];
      case Unhandled =>
    }
  }

  /** Once a run of online items has faulted, the items after it change nothing. */
  lemma {:induction false} FaultEndsRun(s: Live.LiveState, m: Live.Matcher, items: seq<OnlineItem>, k: nat, j: nat)
    requires k <= j <= |items| && Faulted(Live.OnItems(s, m, items[..k]).out)
    ensures Live.OnItems(s, m, items[..j]) == Live.OnItems(s, m, items[..k])
    decreases j
  {
    if j > k {
      FaultEndsRun(s, m, items, k, j - 1);
      assert items[..j][..j - 1] == items[..j - 1];
    }
  }

  /** One more item of a run that has not faulted: its outcome is appended, and the run faults iff the item does. */
  lemma ItemsStep(s: Live.LiveState, m: Live.Matcher, items: seq<OnlineItem>, i: nat)
    requires i < |items| && !Faulted(Live.OnItems(s, m, items[..i]).out)
    ensures var r := Live.OnItems(s, m, items[..i]);
            var e := Live.OnItem(r.st, m, items[i]);
            Live.OnItems(s, m, items[..i + 1]) == Outcome(e.st, r.out + e.out) &&
            (Faulted(r.out + e.out) <==> Faulted(e.out))
  {
    assert items[..i + 1][..i] == items[..i];
    var r := Live.OnItems(s, m, items[..i]);
    var e := Live.OnItem(r.st, m, items[i]);
    if e.out == [] {
      assert r.out + e.out == r.out;
    }
  }

  // ---------------------------------------------------------------------------
  // The loops of the offline decoder and the encrypted offline wrapper

  /**
   * The stroke and dot loops of OFFLINE_PACKET_REQUEST: bad dots are
   * skipped and counted, the third one aborts the packet; each kept dot is
   * typed by its index and timed by the running sum of the deltas.
   */
  method DecodeStrokes(pp: Offline.Paper, ss: seq<RawStroke>) returns (aborted: bool, strokes: seq<Stroke>)
    ensures aborted <==> Offline.BadTotal(ss, |ss|) >= 3
    ensures !aborted ==> strokes == Offline.DecodeAll(pp, ss, |ss|)
  {
    var checksumErrorCount := 0;
    strokes := [];
    var i := 0;
    while i < |ss|
      invariant 0 <= i <= |ss|
      invariant checksumErrorCount == Offline.BadTotal(ss, i) < 3
      invariant strokes == Offline.DecodeAll(pp, ss, i)
    {
      var st := ss[i];
      var time := st.timeStart;
      var dots: seq<Dot> := [];
      var j := 0;
      while j < |st.dots|
        invariant 0 <= j <= |st.dots|
        invariant checksumErrorCount == Offline.BadTotal(ss, i) + Offline.BadCount(st.dots, j) < 3
        invariant time == st.timeStart + Offline.Elapsed(st.dots, j)
        invariant dots == Offline.GoodDots(pp, st, j)
      {
        var d := st.dots[j];
        time := time + d.timeAdd as int;
        if d.computedChecksum != d.checksum {
          if checksumErrorCount > 1 {
            Offline.BadTotalBound(ss, i, j + 1);
            return true, [];
          }
          checksumErrorCount := checksumErrorCount + 1;
          j := j + 1;
          continue;
        }
        var kind := if j == 0 then PenDown else if j == st.dotCount - 1 then PenUp else PenMove;
        dots := dots + [Dot(pp.owner, pp.section, pp.note, st.pageId, time, d.x, d.y, d.fx, d.fy, d.force, kind, st.color)];
        j := j + 1;
      }
      strokes := strokes + [Stroke(pp.section, pp.owner, pp.note, st.pageId, dots)];
      i := i + 1;
    }
    aborted := false;
  }

  /** Whether a symbol with this id is listed (a count of the matching entries, as the LINQ query does). */
  method ContainsId(symbols: seq<Symbol>, id: int) returns (found: bool)
    ensures found <==> Offline.HasId(symbols, id)
  {
    var count := 0;
    var q := 0;
    while q < |symbols|
      invariant 0 <= q <= |symbols| && count >= 0
      invariant count > 0 <==> exists k :: 0 <= k < q && symbols[k].id == id
    {
      if symbols[q].id == id {
        count := count + 1;
      }
      q := q + 1;
    }
    found := count > 0;
  }

  /** The symbols of a packet's strokes, each id once, the first one found winning. */
  method CollectSymbols(matcher: Live.Matcher, strokes: seq<Stroke>) returns (symbols: seq<Symbol>)
    ensures symbols == Offline.SymbolsOf(matcher, strokes)
  {
    symbols := [];
    if matcher.None? {
      return;
    }
    var i := 0;
    while i < |strokes|
      invariant 0 <= i <= |strokes|
      invariant symbols == Offline.Collect(matcher.value, strokes, i)
    {
      var found := matcher.value(strokes[i]);
      ghost var before := symbols;
      var k := 0;
      while k < |found|
        invariant 0 <= k <= |found|
        invariant symbols == Offline.AddNew(before, found, k)
      {
        var known := ContainsId(symbols, found[k].id);
        if !known {
          symbols := symbols + [found[k]];
        }
        k := k + 1;
      }
      i := i + 1;
    }
  }

  /** The block loop of the encrypted offline wrapper: 16 bytes at a time, stopping at the first that fails. */
  method DecryptBlocks(x: Externals, key: seq<byte>, blocks: seq<byte>) returns (plain: Option<seq<byte>>)
    requires |blocks| % 16 == 0
    ensures plain == Protocol.Blocks(x, key, blocks, |blocks| / 16)
  {
    var acc: seq<byte> := [];
    var n := 0;
    while 16 * n < |blocks|
      invariant 16 * n <= |blocks|
      invariant Protocol.Blocks(x, key, blocks, n) == Some(acc)
      decreases |blocks| - 16 * n
    {
      var d := x.aesDecode(key, blocks[16 * n..16 * (n + 1)]);
      if d.None? {
        Protocol.BlocksStop(x, key, blocks, n + 1, |blocks| / 16);
        return None;
      }
      acc := acc + d.value;
      n := n + 1;
    }
    return Some(acc);
  }

  /** Appending to the log in steps is appending the steps' actions at once. */
  lemma Append3<T>(a: seq<T>, b: seq<T>, c: seq<T>)
    ensures a + b + c == a + (b + c)
  {
  }
}
