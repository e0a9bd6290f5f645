/**
 * ParsePacket: one inbound packet dispatched to its handler, including the
 * two encrypted wrappers that decrypt a payload and hand it on as the
 * plain packet it carries.
 */
module Protocol {
  import opened Base
  import opened Codec
  import opened Model
  import opened State
  import Codes
  import Live
  import Auth
  import Offline
  import Firmware

  // ---------------------------------------------------------------------------
  // Encrypted wrappers

  /** ENCRYPTION_ONLINE_PEN_DOT_EVENT / _PAPER_INFO_EVENT: decrypt the 16-byte block and parse it as the NEW_ event. */
  function OnEncryptedDot(e: Engine, x: Externals, now: int, isDot: bool, block: seq<byte>): Outcome<Engine>
  {
    if e.session.aesKey.None? then Auth.Refuse(e, InvalidPrivateKey)
    else
      var plain := x.aesDecode(e.session.aesKey.value, block);
      if plain.None? then Auth.Refuse(e, InvalidPrivateKey)
      else
        var ev := if isDot then DotMove(Some(x.readDot(plain.value).0), x.readDot(plain.value).1)
                  else PaperInfo(Some(x.readPaper(plain.value).0), x.readPaper(plain.value).1);
        var o := Live.OnDotEvent(e.live, x.matcher, now, ev);
        Outcome(e.(live := o.st), o.out)
  }

  /**
   * Without an AES key, or with a block that does not decrypt, the wrapper
   * reports InvalidPrivateKey and tears down, changing nothing; otherwise it
   * is exactly the plain NEW_PEN_DOT / NEW_PAPER_INFO packet it carries,
   * handed back to ParsePacket, and leaves the session alone.
   */
  lemma EncryptedDotRule(e: Engine, x: Externals, now: int, isDot: bool, block: seq<byte>)
    ensures var o := OnEncryptedDot(e, x, now, isDot, block);
            var plain := if e.session.aesKey.Some? then x.aesDecode(e.session.aesKey.value, block) else None;
            (plain.None? ==> o == Outcome(e, [Notify(SecureCommunicationFailure(InvalidPrivateKey)), Teardown])) &&
            (plain.Some? && isDot ==>
               o == Step(e, x, now, DotPacket(DotMove(Some(x.readDot(plain.value).0), x.readDot(plain.value).1)))) &&
            (plain.Some? && !isDot ==>
               o == Step(e, x, now, DotPacket(PaperInfo(Some(x.readPaper(plain.value).0), x.readPaper(plain.value).1)))) &&
            o.st.session == e.session
  {
  }

  /** The first n 16-byte blocks of `data` decrypted and joined, or None when one of them does not decrypt. */
  function Blocks(x: Externals, key: seq<byte>, data: seq<byte>, n: nat): Option<seq<byte>>
    requires 16 * n <= |data|
  {
    if n == 0 then Some([])
    else
      var p := Blocks(x, key, data, n - 1);
      if p.None? then None
      else
        var d := x.aesDecode(key, data[16 * (n - 1)..16 * n]);
        if d.None? then None else Some(p.value + d.value)
  }

  /** When the cipher maps every block to a block, n blocks decrypt to 16 n bytes. */
  lemma {:induction false} BlocksLength(x: Externals, key: seq<byte>, data: seq<byte>, n: nat)
    requires 16 * n <= |data|
    requires forall b :: |b| == 16 && x.aesDecode(key, b).Some? ==> |x.aesDecode(key, b).value| == 16
    ensures Blocks(x, key, data, n).Some? ==> |Blocks(x, key, data, n).value| == 16 * n
  {
    if n > 0 {
      BlocksLength(x, key, data, n - 1);
    }
  }

  /** Once a block fails to decrypt, every longer prefix fails too. */
  lemma {:induction false} BlocksStop(x: Externals, key: seq<byte>, data: seq<byte>, n: nat, m: nat)
    requires n <= m && 16 * m <= |data| && Blocks(x, key, data, n).None?
    ensures Blocks(x, key, data, m).None?
    decreases m
  {
    if n < m {
      BlocksStop(x, key, data, n, m - 1);
    }
  }

  /** The plaintext of an encrypted offline packet: the 8 clear header bytes, then the decrypted blocks, less the padding. */
  function OnEncryptedOffline(e: Engine, x: Externals, data: seq<byte>): Outcome<Engine>
  {
    if e.session.aesKey.None? then Auth.Refuse(e, InvalidPrivateKey)
    else if (|data| - 9) % 16 != 0 then Outcome(e, [Notify(SecureCommunicationFailure(SecureFailure.UnknownError))])
    else
      var plain := Blocks(x, e.session.aesKey.value, data[9..], (|data| - 9) / 16);
      if plain.None? then Auth.Refuse(e, InvalidPrivateKey)
      else
        var body := data[..8] + plain.value;
        var n := |body| - data[8] as int;
        if n < 0 then Outcome(e, [Fault])
        else
          var p := x.readOffline(body[..n]);
          if p.None? then Outcome(e, [Fault]) else Offline.OnPacket(e, x, p.value)
  }

  /**
   * The encrypted offline wrapper: without an AES key it reports
   * InvalidPrivateKey and tears down; a length that is not 9 plus a multiple
   * of 16 reports UnknownError and does not tear down; a block that does not
   * decrypt reports InvalidPrivateKey and tears down. In all three cases
   * nothing else happens.
   */
  lemma EncryptedOfflineRule(e: Engine, x: Externals, data: seq<byte>)
    ensures var o := OnEncryptedOffline(e, x, data);
            (e.session.aesKey.None? ==>
               o == Outcome(e, [Notify(SecureCommunicationFailure(InvalidPrivateKey)), Teardown])) &&
            (e.session.aesKey.Some? && (|data| - 9) % 16 != 0 ==>
               o == Outcome(e, [Notify(SecureCommunicationFailure(SecureFailure.UnknownError))])) &&
            (e.session.aesKey.Some? && (|data| - 9) % 16 == 0 ==>
               |data| >= 9 &&
               (Blocks(x, e.session.aesKey.value, data[9..], (|data| - 9) / 16).None? ==>
                  o == Outcome(e, [Notify(SecureCommunicationFailure(InvalidPrivateKey)), Teardown])))
  {
  }

  /**
   * When every block decrypts to a block, the packet handed on is the data
   * without its padding byte and the last `padding` bytes: the clear header
   * followed by the plaintext.
   */
  lemma EncryptedOfflinePayload(e: Engine, x: Externals, data: seq<byte>)
    requires e.session.aesKey.Some? && (|data| - 9) % 16 == 0
    requires forall b :: |b| == 16 && x.aesDecode(e.session.aesKey.value, b).Some? ==>
                         |x.aesDecode(e.session.aesKey.value, b).value| == 16
    requires Blocks(x, e.session.aesKey.value, data[9..], (|data| - 9) / 16).Some?
    requires data[8] as int <= |data| - 1
    ensures var plain := Blocks(x, e.session.aesKey.value, data[9..], (|data| - 9) / 16).value;
            var body := data[..8] + plain;
            |body| == |data| - 1 &&
            (x.readOffline(body[..|body| - data[8] as int]).Some? ==>
               OnEncryptedOffline(e, x, data) ==
               Offline.OnPacket(e, x, x.readOffline(body[..|body| - data[8] as int]).value))
  {
    BlocksLength(x, e.session.aesKey.value, data[9..], (|data| - 9) / 16);
  }

  // ---------------------------------------------------------------------------
  // ParsePacket

  function NotesOf(entries: seq<(Quad, int)>): (r: seq<OfflineNote>)
    ensures |r| == |entries|
  {
    seq(|entries|, i requires 0 <= i < |entries| =>
      OfflineNote(SectionOf(entries[i].0), OwnerOf(entries[i].0), entries[i].1))
  }

  /**
   * A note list entry built by GetSectionOwnerByte reads back as the
   * section's low 8 bits and the owner's low 24 bits, with its note.
   */
  lemma NoteListEntry(entries: seq<(Quad, int)>, i: nat, section: int, owner: int)
    requires i < |entries| && entries[i].0 == SectionOwnerBytes(section, owner)
    ensures NotesOf(entries)[i] == OfflineNote(section % 256, owner % 0x100_0000, entries[i].1)
  {
    SectionOwnerRoundTrip(section, owner);
  }

  function Lift(e: Engine, o: Outcome<Live.LiveState>): Outcome<Engine>
  {
    Outcome(e.(live := o.st), o.out)
  }

  /** ParsePacket: the clock reading `now` stands for Time.GetUtcTimeStamp(). */
  function Step(e: Engine, x: Externals, now: int, pk: Packet): Outcome<Engine>
  {
    match pk
    case VersionResponse(info) => Auth.OnVersion(e, info)
    case OnlineDataRequest(index, count, items) => Lift(e, Live.OnOnlineData(e.live, x.matcher, index, count, items))
    case ShutdownEvent(reason) => Outcome(e, if reason == 2 then [Notify(FirmwareUpdateResult(true))] else [])
    case LowBatteryEvent(battery) => Outcome(e, [Notify(BatteryAlarm(battery as int))])
    case DotPacket(ev) => Lift(e, Live.OnDotEvent(e.live, x.matcher, now, ev))
    case StatusResponse(report, encryptionType) => Auth.OnStatus(e, x, now, report, encryptionType)
    case SettingChangeResponse(code, result) => Outcome(e, Auth.OnSettingChange(code, result))
    case PasswordResponse(status, retry, max) => Auth.OnPassword(e, now, status, retry, max)
    case PasswordChangeResponse(_, _, result) => Auth.OnPasswordChange(e, result)
    case OfflineNoteListResponse(entries) => Outcome(e, [Notify(OfflineDataList(NotesOf(entries)))])
    case OfflinePageListResponse(rb, note, pages) =>
      Outcome(e, [Notify(OfflinePageList(SectionOf(rb), OwnerOf(rb), note, pages))])
    case OfflineDataResponse(_, total, size, _) => Offline.OnDataResponse(e, total, size)
    case OfflinePacketRequest(p) => Offline.OnPacket(e, x, p)
    case OfflineDeleteResponse(result) => Outcome(e, [Notify(OfflineDataRemoved(result == 0))])
    case FirmwareUploadResponse(result, status) => Firmware.OnUploadResponse(e, result, status)
    case FirmwarePacketRequest(status, offset) => Firmware.ResponseChunkRequest(e, x, offset, status != 3)
    case OnlineDataResponse(result) => Outcome(e, [Notify(AvailableNoteAccepted(result == 0))])
    case CertUpdateResponse(code) => Outcome(e, [Notify(CertificateUpdated(Codes.CertUpdateOf(code)))])
    case CertDeleteResponse(code) => Outcome(e, [Notify(CertificateDeleted(Codes.CertDeleteOf(code)))])
    case KeyResponse(result, code, data) => Auth.OnKey(e, x, result, code, data)
    case EncryptedDotEvent(isDot, block) => OnEncryptedDot(e, x, now, isDot, block)
    case EncryptedOfflinePacket(data) => OnEncryptedOffline(e, x, data)
    case Unhandled => Outcome(e, [])
  }

  /** The identity, status, setting, password, key and certificate responses. */
  predicate SessionPacket(pk: Packet)
  {
    pk.VersionResponse? || pk.StatusResponse? || pk.SettingChangeResponse? || pk.PasswordResponse? ||
    pk.PasswordChangeResponse? || pk.KeyResponse? || pk.CertUpdateResponse? || pk.CertDeleteResponse?
  }

  /** The pen's own events: online data, dot events, shutdown and low battery. */
  predicate PenPacket(pk: Packet)
  {
    pk.OnlineDataRequest? || pk.DotPacket? || pk.EncryptedDotEvent? || pk.ShutdownEvent? || pk.LowBatteryEvent?
  }

  /**
   * The authenticated flag is raised only by a status response and never
   * lowered by a packet (only OnDisconnected lowers it); in particular an
   * accepted password does not raise it.
   */
  lemma AuthenticatedOnlyByStatus(e: Engine, x: Externals, now: int, pk: Packet)
    ensures var o := Step(e, x, now, pk);
            (e.session.authenticated ==> o.st.session.authenticated) &&
            (!e.session.authenticated && o.st.session.authenticated ==> pk.StatusResponse?)
  {
    if SessionPacket(pk) {
      SessionPacketAuthentication(e, x, now, pk);
    } else if PenPacket(pk) {
      PenPacketKeepsSession(e, x, now, pk);
    } else {
      TransferPacketKeepsSession(e, x, now, pk);
    }
  }

  lemma SessionPacketAuthentication(e: Engine, x: Externals, now: int, pk: Packet)
    requires SessionPacket(pk)
    ensures var o := Step(e, x, now, pk);
            (e.session.authenticated ==> o.st.session.authenticated) &&
            (!e.session.authenticated && o.st.session.authenticated ==> pk.StatusResponse?)
  {
  }

  lemma PenPacketKeepsSession(e: Engine, x: Externals, now: int, pk: Packet)
    requires PenPacket(pk)
    ensures Step(e, x, now, pk).st.session == e.session
  {
  }

  lemma TransferPacketKeepsSession(e: Engine, x: Externals, now: int, pk: Packet)
    requires !SessionPacket(pk) && !PenPacket(pk)
    ensures Step(e, x, now, pk).st.session == e.session
  {
    match pk
    case EncryptedOfflinePacket(data) =>
      if e.session.aesKey.Some? && (|data| - 9) % 16 == 0 {
        var plain := Blocks(x, e.session.aesKey.value, data[9..], (|data| - 9) / 16);
        if plain.Some? {
          var body := data[..8] + plain.value;
          var n := |body| - data[8] as int;
          if n >= 0 && x.readOffline(body[..n]).Some? {
            Offline.PacketKeepsSession(e, x, x.readOffline(body[..n]).value);
          }
        }
      }
    case OfflinePacketRequest(p) =>
      Offline.PacketKeepsSession(e, x, p);
    case _ =>
  }

  // ---------------------------------------------------------------------------
  // Failure callbacks across a whole session

  /** The log raises no firmware failure callback. */
  predicate NoFailure(out: seq<Action>)
  {
    forall a | a in out :: a != Notify(FirmwareUpdateResult(false))
  }

  lemma {:induction false} NoFailureCount(out: seq<Action>)
    requires NoFailure(out)
    ensures Firmware.Failures(out) == 0
    decreases |out|
  {
    if out != [] {
      var init := out[..|out| - 1];
      assert forall a | a in init :: a in out;
      assert out[|out| - 1] in out;
      NoFailureCount(init);
    }
  }

  /** The stroke reconstructor never raises the failure callback. */
  lemma DotEventNoFailure(s: Live.LiveState, m: Live.Matcher, now: int, ev: DotEvent)
    ensures NoFailure(Live.OnDotEvent(s, m, now, ev).out)
  {
    match ev
    case NewPenDown(c, t, tip, color) => PenDownNoFailure(s, m, c, t, tip, color);
    case NewPenUp(c, _, n, total, processed, success, transferred) =>
      PenUpNoFailure(s, m, c, n, total, processed, success, transferred);
    case PenUpDown(isDown, t, tip, color) => PenUpDownNoFailure(s, m, isDown, t, tip, color);
    case DotMove(c, d) => OnDotNoFailure(s, m, now, c, d);
    case PaperInfo(c, a) => PaperInfoNoFailure(s, m, c, a);
    case PenErrorEvent(c, e) => PenErrorNoFailure(s, c, e);
  }

  lemma PenDownNoFailure(s: Live.LiveState, m: Live.Matcher, c: int, t: int, tip: byte, color: int)
    ensures NoFailure(Live.OnNewPenDown(s, m, c, t, tip, color).out)
  {
    if Live.MidStroke(s) {
      MakeUpDotNoFailure(s, m, true);
    }
  }

  lemma PenUpNoFailure(s: Live.LiveState, m: Live.Matcher, c: int, n: int, total: int,
                       processed: int, success: int, transferred: int)
    ensures NoFailure(Live.OnNewPenUp(s, m, c, n, total, processed, success, transferred).out)
  {
  }

  lemma PenUpDownNoFailure(s: Live.LiveState, m: Live.Matcher, isDown: bool, t: int, tip: byte, color: int)
    ensures NoFailure(Live.OnPenUpDown(s, m, isDown, t, tip, color).out)
  {
    if Live.MidStroke(s) {
      MakeUpDotNoFailure(s, m, isDown);
    }
  }

  lemma PaperInfoNoFailure(s: Live.LiveState, m: Live.Matcher, c: Option<int>, a: PaperAddress)
    ensures NoFailure(Live.OnPaperInfo(s, m, c, a).out)
  {
    var b := Live.WithCount(s, c);
    if Live.MidStroke(b.st) {
      MakeUpDotNoFailure(b.st, m, false);
    }
  }

  lemma PenErrorNoFailure(s: Live.LiveState, c: Option<int>, e: ErrorSample)
    ensures NoFailure(Live.OnPenError(s, c, e).out)
  {
  }

  lemma MakeUpDotNoFailure(s: Live.LiveState, m: Live.Matcher, isError: bool)
    requires s.prevDot.Some?
    ensures NoFailure(Live.MakeUpDot(s, m, isError).out)
  {
  }

  lemma OnDotNoFailure(s: Live.LiveState, m: Live.Matcher, now: int, ecount: Option<int>, d: DotSample)
    ensures NoFailure(Live.OnDot(s, m, now, ecount, d).out)
  {
    var b := Live.WithCount(s, ecount);
    var c := Live.RecoverDown(b.st.(time := b.st.time + d.timeAdd), now, d);
    var e := if Live.DotFor(c.st, d).Some? then Live.Deliver(c.st, m, Live.DotFor(c.st, d).value, None)
             else Outcome(c.st, []);
    Live.OnDotSteps(s, m, now, ecount, d, b, c, e);
  }

  lemma {:induction false} ItemsNoFailure(s: Live.LiveState, m: Live.Matcher, items: seq<OnlineItem>)
    ensures NoFailure(Live.OnItems(s, m, items).out)
    decreases |items|
  {
    if items != [] {
      ItemsNoFailure(s, m, items[..|items| - 1]);
    }
  }

  lemma OfflineNoFailure(e: Engine, x: Externals, p: OfflinePacket)
    ensures var o := Offline.OnPacket(e, x, p);
            NoFailure(o.out) && o.st.upgrade == e.upgrade
  {
  }

  /**
   * Every packet other than FIRMWARE_UPLOAD_RESPONSE and
   * FIRMWARE_PACKET_REQUEST leaves the failure-reported flag as it was and
   * raises no failure callback.
   */
  lemma OtherPacketNoFailure(e: Engine, x: Externals, now: int, pk: Packet)
    requires !pk.FirmwarePacketRequest? && !pk.FirmwareUploadResponse?
    ensures var o := Step(e, x, now, pk);
            NoFailure(o.out) && o.st.upgrade.failCallbacked == e.upgrade.failCallbacked
  {
    if SessionPacket(pk) {
      SessionPacketNoFailure(e, x, now, pk);
    } else if PenPacket(pk) {
      PenPacketNoFailure(e, x, now, pk);
    } else {
      TransferPacketNoFailure(e, x, now, pk);
    }
  }

  lemma SessionPacketNoFailure(e: Engine, x: Externals, now: int, pk: Packet)
    requires SessionPacket(pk)
    ensures var o := Step(e, x, now, pk);
            NoFailure(o.out) && o.st.upgrade.failCallbacked == e.upgrade.failCallbacked
  {
  }

  lemma PenPacketNoFailure(e: Engine, x: Externals, now: int, pk: Packet)
    requires PenPacket(pk)
    ensures var o := Step(e, x, now, pk);
            NoFailure(o.out) && o.st.upgrade == e.upgrade
  {
    match pk
    case DotPacket(ev) =>
      DotEventNoFailure(e.live, x.matcher, now, ev);
    case OnlineDataRequest(index, count, items) =>
      ItemsNoFailure(e.live.(prevCount := count, prevIndex := index), x.matcher, items);
    case EncryptedDotEvent(isDot, block) =>
      if e.session.aesKey.Some? {
        var plain := x.aesDecode(e.session.aesKey.value, block);
        if plain.Some? {
          var ev := if isDot then DotMove(Some(x.readDot(plain.value).0), x.readDot(plain.value).1)
                    else PaperInfo(Some(x.readPaper(plain.value).0), x.readPaper(plain.value).1);
          DotEventNoFailure(e.live, x.matcher, now, ev);
        }
      }
    case _ =>
  }

  lemma TransferPacketNoFailure(e: Engine, x: Externals, now: int, pk: Packet)
    requires !SessionPacket(pk) && !PenPacket(pk) && !pk.FirmwarePacketRequest? && !pk.FirmwareUploadResponse?
    ensures var o := Step(e, x, now, pk);
            NoFailure(o.out) && o.st.upgrade == e.upgrade
  {
    match pk
    case OfflinePacketRequest(p) =>
      OfflineNoFailure(e, x, p);
    case EncryptedOfflinePacket(data) =>
      if e.session.aesKey.Some? && (|data| - 9) % 16 == 0 {
        var plain := Blocks(x, e.session.aesKey.value, data[9..], (|data| - 9) / 16);
        if plain.Some? {
          var body := data[..8] + plain.value;
          var n := |body| - data[8] as int;
          if n >= 0 && x.readOffline(body[..n]).Some? {
            OfflineNoFailure(e, x, x.readOffline(body[..n]).value);
          }
        }
      }
    case _ =>
  }

  /** What can happen to an upgrade: a packet from the pen, or a call to ReqPenSwUpgrade or SuspendSwUpgrade. */
  datatype SessionOp =
    | Inbound(now: int, pk: Packet)
    | StartUpgrade(load: Option<FirmwareFile>, version: string)
    | SuspendUpgrade

  function Do(e: Engine, x: Externals, op: SessionOp): Outcome<Engine>
  {
    match op
    case Inbound(now, pk) => Step(e, x, now, pk)
    case StartUpgrade(load, version) => var a := Firmware.ReqPenSwUpgrade(e, load, version); Outcome(a.st, a.out)
    case SuspendUpgrade => var a := Firmware.SuspendSwUpgrade(e); Outcome(a.st, a.out)
  }

  /** The operations in order, each on the state the previous one left. */
  function Run(e: Engine, x: Externals, ops: seq<SessionOp>): Outcome<Engine>
    decreases |ops|
  {
    if ops == [] then Outcome(e, [])
    else
      var r := Run(e, x, ops[..|ops| - 1]);
      var a := Do(r.st, x, ops[|ops| - 1]);
      Outcome(a.st, r.out + a.out)
  }

  /** One failure callback may still come while the failure-reported flag is clear. */
  function Budget(e: Engine): nat
  {
    if e.upgrade.failCallbacked then 0 else 1
  }

  /** A new upgrade and a failed FIRMWARE_UPLOAD_RESPONSE may each raise one callback more. */
  function Credit(op: SessionOp): nat
  {
    match op
    case StartUpgrade(_, _) => 1
    case Inbound(_, FirmwareUploadResponse(result, status)) => if result != 0 || status != 0 then 1 else 0
    case _ => 0
  }

  function Credits(ops: seq<SessionOp>): nat
    decreases |ops|
  {
    if ops == [] then 0 else Credits(ops[..|ops| - 1]) + Credit(ops[|ops| - 1])
  }

  /** One operation spends at most the budget it finds plus its own credit. */
  lemma DoFailures(e: Engine, x: Externals, op: SessionOp)
    ensures var a := Do(e, x, op);
            Firmware.Failures(a.out) + Budget(a.st) <= Budget(e) + Credit(op)
  {
    var a := Do(e, x, op);
    match op
    case Inbound(now, pk) =>
      if pk.FirmwarePacketRequest? {
        Firmware.ApplyFailures(e, x, Firmware.ChunkRequest(pk.offset, pk.status != 3));
      } else if pk.FirmwareUploadResponse? {
        if pk.result != 0 || pk.status != 0 {
          assert a.out[..0] == [];
        }
      } else {
        OtherPacketNoFailure(e, x, now, pk);
        NoFailureCount(a.out);
      }
    case StartUpgrade(load, version) =>
      assert Firmware.Failures(a.out) == 0 by {
        if a.out != [] {
          assert a.out[..0] == [];
        }
      }
    case SuspendUpgrade =>
  }

  /**
   * Over any run of packets, upgrade starts and suspensions, the failure
   * callbacks raised, plus the one still possible at the end, never exceed
   * the one possible at the start plus one per new upgrade and one per
   * failed FIRMWARE_UPLOAD_RESPONSE: every failure callback after the first
   * comes from a new upgrade or a failed upload response.
   */
  lemma {:induction false} SessionFailures(e: Engine, x: Externals, ops: seq<SessionOp>)
    ensures var r := Run(e, x, ops);
            Firmware.Failures(r.out) + Budget(r.st) <= Budget(e) + Credits(ops)
    decreases |ops|
  {
    if ops != [] {
      var init := ops[..|ops| - 1];
      SessionFailures(e, x, init);
      var r := Run(e, x, init);
      var a := Do(r.st, x, ops[|ops| - 1]);
      DoFailures(r.st, x, ops[|ops| - 1]);
      Firmware.FailuresAppend(r.out, a.out);
    }
  }

  /**
   * After ReqPenSwUpgrade starts an upgrade, any run of packets and
   * suspensions without a new upgrade or a failed upload response raises
   * the failure callback at most once.
   */
  lemma OneFailureInSession(e: Engine, x: Externals, load: Option<FirmwareFile>, version: string,
                            ops: seq<SessionOp>)
    requires !e.upgrade.uploading && Credits(ops) == 0
    ensures Firmware.Failures(Run(Firmware.ReqPenSwUpgrade(e, load, version).st, x, ops).out) <= 1
  {
    SessionFailures(Firmware.ReqPenSwUpgrade(e, load, version).st, x, ops);
  }
}
