/**
 * The request builders of PenCommV2. Each writes STX, the command byte,
 * sometimes a status byte, a declared 16-bit length, its payload fields and
 * ETX through a ByteUtil built with Escape. Each is proved to produce
 * `EncodeFrame` of a payload function, and the payload functions are proved
 * to hold exactly the number of bytes the builder declares, so the
 * reference decoder reads every frame back to its command and payload.
 *
 * Command numbers are not part of this model: every builder takes its
 * command byte as a parameter.
 */
module Requests {
  import opened Base
  import opened Codec
  import opened Buffers
  import opened Model
  import opened Codes

  // ---------------------------------------------------------------------------
  // Text.

  /** Encoding.UTF8.GetBytes of one Unicode scalar value. */
  function Utf8Char(c: char): (r: seq<byte>)
    ensures 1 <= |r| <= 4
  {
    var n := c as int;
    if n < 0x80 then [n as byte]
    else if n < 0x800 then [(0xC0 + n / 64) as byte, (0x80 + n % 64) as byte]
    else if n < 0x1_0000 then [(0xE0 + n / 4096) as byte, (0x80 + (n / 64) % 64) as byte, (0x80 + n % 64) as byte]
    else [(0xF0 + n / 0x4_0000) as byte, (0x80 + (n / 4096) % 64) as byte,
          (0x80 + (n / 64) % 64) as byte, (0x80 + n % 64) as byte]
  }

  /** Encoding.UTF8.GetBytes. */
  function Utf8(s: string): (r: seq<byte>)
    ensures |s| <= |r| <= 4 * |s|
  {
    if s == [] then [] else Utf8Char(s[0]) + Utf8(s[1..])
  }

  /** SupportedProtocolVersion, "2.12", as sent in the version request. */
  const SupportedProtocolVersion: string := "2.12"

  // ---------------------------------------------------------------------------
  // Frame plumbing shared by every builder.

  /** A frame whose length field is the payload size reads back to its command, status and payload exactly when that size fits 16 bits. */
  lemma DeclaredSize(cmd: byte, status: Option<byte>, payload: seq<byte>)
    ensures ParseFrame(EncodeFrame(cmd, status, |payload|, payload), status.Some?) ==
            if |payload| < 0x1_0000 then Some(Frame(cmd, status, payload)) else None
  {
    ParseEncodeFrame(cmd, status, |payload|, payload);
    if |payload| >= 0x1_0000 {
      assert |payload| % 0x1_0000 < 0x1_0000 <= |payload|;
    }
  }

  /** STX unescaped, then the command, optional status and declared length through Escape. */
  method Open(cmd: byte, status: Option<byte>, declared: int) returns (bf: ByteUtil)
    ensures fresh(bf) && bf.escaping && bf.Valid() && bf.settled == [STX]
    ensures bf.pending == [cmd] + StatusBytes(status) + LE(declared, 2)
  {
    bf := new ByteUtil(true);
    bf.PutRaw(STX);
    bf.Put(cmd);
    if status.Some? {
      bf.Put(status.value);
    }
    assert bf.pending == [cmd] + StatusBytes(status);
    bf.PutShort(declared);
  }

  /** ETX unescaped; the frame is everything written, which is the frame of the bytes put since Open. */
  method Close(bf: ByteUtil, ghost cmd: byte, ghost status: Option<byte>, ghost declared: int, ghost payload: seq<byte>)
    returns (frame: seq<byte>)
    requires bf.escaping && bf.Valid() && bf.settled == [STX]
    requires bf.pending == [cmd] + StatusBytes(status) + LE(declared, 2) + payload
    modifies bf
    ensures frame == EncodeFrame(cmd, status, declared, payload)
  {
    bf.PutRaw(ETX);
    frame := bf.wire;
  }

  /*
   * Regrouping lemmas: the bytes put one field at a time are the header
   * followed by the payload function's concatenation of the same fields.
   */
  lemma Cat2(h: seq<byte>, a: seq<byte>, b: seq<byte>)
    ensures h + a + b == h + (a + b)
  {
  }

  lemma Cat3(h: seq<byte>, a: seq<byte>, b: seq<byte>, c: seq<byte>)
    ensures h + a + b + c == h + (a + b + c)
  {
  }

  lemma Cat5(h: seq<byte>, a: seq<byte>, b: seq<byte>, c: seq<byte>, d: seq<byte>, e: seq<byte>)
    ensures h + a + b + c + d + e == h + (a + b + c + d + e)
  {
  }

  lemma Cat6(h: seq<byte>, a: seq<byte>, b: seq<byte>, c: seq<byte>, d: seq<byte>, e: seq<byte>, f: seq<byte>)
    ensures h + a + b + c + d + e + f == h + (a + b + c + d + e + f)
  {
  }

  // ---------------------------------------------------------------------------
  // Version, status, online data.

  function VersionPayload(appVersion: string): (r: seq<byte>)
    ensures |r| == 42
  {
    Zeros(16) + [0x12] + [0x01] + Fixed(Utf8(appVersion), 16) + Fixed(Utf8(SupportedProtocolVersion), 8)
  }

  /** ReqVersion: declared 42; `appVersion` is the version of the running assembly. */
  method ReqVersion(cmd: byte, appVersion: string) returns (frame: seq<byte>)
    ensures frame == EncodeFrame(cmd, None, 42, VersionPayload(appVersion))
  {
    var bf := Open(cmd, None, 42);
    ghost var h := bf.pending;
    bf.PutNull(16);
    bf.Put(0x12);
    bf.Put(0x01);
    bf.PutFixed(Utf8(appVersion), 16);
    bf.PutFixed(Utf8(SupportedProtocolVersion), 8);
    Cat5(h, Zeros(16), [0x12], [0x01], Fixed(Utf8(appVersion), 16), Fixed(Utf8(SupportedProtocolVersion), 8));
    frame := Close(bf, cmd, None, 42, VersionPayload(appVersion));
  }

  /**
   * ReqPenStatus uses a ByteUtil without Escape: nothing is stuffed. The
   * frame is still well formed whenever the command byte is not a marker.
   */
  method ReqPenStatus(cmd: byte) returns (frame: seq<byte>)
    ensures frame == [STX, cmd, 0, 0, ETX]
    ensures !IsMarker(cmd) ==> frame == EncodeFrame(cmd, None, 0, []) &&
                               ParseFrame(frame, false) == Some(Frame(cmd, None, []))
  {
    var bf := new ByteUtil(false);
    bf.Put(STX);
    bf.Put(cmd);
    assert LE(0, 2) == [0, 0];
    bf.PutShort(0);
    assert bf.wire == [STX, cmd, 0, 0];
    bf.Put(ETX);
    frame := bf.wire;
    if !IsMarker(cmd) {
      UnstuffedStatusFrame(cmd);
    }
  }

  /** With a command byte that is not a marker, the unstuffed status request is a well-formed empty frame. */
  lemma UnstuffedStatusFrame(cmd: byte)
    requires !IsMarker(cmd)
    ensures [STX, cmd, 0, 0, ETX] == EncodeFrame(cmd, None, 0, [])
    ensures ParseFrame([STX, cmd, 0, 0, ETX], false) == Some(Frame(cmd, None, []))
  {
    assert EscapeAll([cmd, 0, 0]) == [cmd, 0, 0] by {
      assert [cmd, 0, 0][1..] == [0, 0] && [0 as byte, 0][1..] == [0];
    }
    assert LE(0, 2) == [0, 0];
    assert [cmd] + StatusBytes(None) + LE(0, 2) + [] == [cmd, 0, 0];
    DeclaredSize(cmd, None, []);
  }

  function OnlineDataAckPayload(index: int, count: byte): (r: seq<byte>)
    ensures |r| == 5 && FromLE(r[..4]) == index % 0x1_0000_0000 && r[4] == count
  {
    FromLEOfLE(index, 4);
    assert Pow256(4) == 0x1_0000_0000 by {
      assert Pow256(2) == 0x1_0000;
    }
    var r := LE(index, 4) + [count];
    assert r[..4] == LE(index, 4);
    r
  }

  /** ResponseOnlineData: status 0, declared 5: the index and the count being acknowledged. */
  method ResponseOnlineData(cmd: byte, index: int, count: byte) returns (frame: seq<byte>)
    ensures frame == EncodeFrame(cmd, Some(0), 5, OnlineDataAckPayload(index, count))
  {
    var bf := Open(cmd, Some(0), 5);
    ghost var h := bf.pending;
    bf.PutInt(index);
    bf.Put(count);
    Cat2(h, LE(index, 4), [count]);
    frame := Close(bf, cmd, Some(0), 5, OnlineDataAckPayload(index, count));
  }

  // ---------------------------------------------------------------------------
  // Passwords.

  function PasswordChangePayload(oldPassword: string, newPassword: string): (r: seq<byte>)
    ensures |r| == 33 && (r[0] == 0 <==> newPassword == "")
    ensures r[1..17] == Fixed(Utf8(oldPassword), 16) && r[17..] == Fixed(Utf8(newPassword), 16)
  {
    [if newPassword == "" then 0 else 1] + Fixed(Utf8(oldPassword), 16) + Fixed(Utf8(newPassword), 16)
  }

  /** The frame of ReqSetUpPassword: declared 33, a flag for a non-empty new password, then both passwords in 16 bytes each. */
  method PasswordChangeFrame(cmd: byte, oldPassword: string, newPassword: string) returns (frame: seq<byte>)
    ensures frame == EncodeFrame(cmd, None, 33, PasswordChangePayload(oldPassword, newPassword))
  {
    var bf := Open(cmd, None, 33);
    ghost var h := bf.pending;
    bf.Put(if newPassword == "" then 0 else 1);
    bf.PutFixed(Utf8(oldPassword), 16);
    bf.PutFixed(Utf8(newPassword), 16);
    Cat3(h, [if newPassword == "" then 0 else 1], Fixed(Utf8(oldPassword), 16), Fixed(Utf8(newPassword), 16));
    frame := Close(bf, cmd, None, 33, PasswordChangePayload(oldPassword, newPassword));
  }

  /** The frame of ReqInputPassword: declared 16, the password in 16 bytes. */
  method PasswordInputFrame(cmd: byte, password: string) returns (frame: seq<byte>)
    ensures frame == EncodeFrame(cmd, None, 16, Fixed(Utf8(password), 16))
  {
    var bf := Open(cmd, None, 16);
    bf.PutFixed(Utf8(password), 16);
    frame := Close(bf, cmd, None, 16, Fixed(Utf8(password), 16));
  }

  // ---------------------------------------------------------------------------
  // Settings.

  /** The boxed value RequestChangeSetting receives. */
  datatype SettingValue = Number(n: int) | Flag(on: bool) | Name(text: string) | NoValue

  /** The cast each setting applies to its value succeeds (BeepAndLight ignores it). */
  predicate Fits(t: SettingType, v: SettingValue)
  {
    match t
    case PenCapOff | AutoPowerOn | Beep | Hover | OfflineData | DownSampling => v.Flag?
    case BtLocalName => v.Name?
    case BeepAndLight => true
    case _ => v.Number?
  }

  /** The length RequestChangeSetting declares for each setting. */
  function SettingDeclared(t: SettingType): int
  {
    match t
    case Timestamp => 9
    case AutoPowerOffTime => 3
    case LedColor => 5
    case BtLocalName => 18
    case _ => 2
  }

  /** The value bytes that follow the setting's code. */
  function SettingValueBytes(t: SettingType, v: SettingValue): seq<byte>
    requires Fits(t, v)
  {
    match t
    case Timestamp => LE(v.n, 8)
    case AutoPowerOffTime => LE(v.n, 2)
    case LedColor => LE(v.n, 4)
    case PenCapOff | AutoPowerOn | Beep | Hover | OfflineData | DownSampling => [if v.on then 1 else 0]
    case BtLocalName => [16] + Fixed(Utf8(v.text), 16)
    case BeepAndLight => [0]
    case _ => [(v.n % 256) as byte]
  }

  function SettingPayload(t: SettingType, v: SettingValue): seq<byte>
    requires Fits(t, v)
  {
    [SettingCode(t)] + SettingValueBytes(t, v)
  }

  /**
   * Every setting request declares exactly its payload size, and its first
   * payload byte is the setting's code, which SETTING_CHANGE_RESPONSE maps
   * back to the same setting.
   */
  lemma SettingPayloadShape(t: SettingType, v: SettingValue)
    requires Fits(t, v)
    ensures |SettingPayload(t, v)| == SettingDeclared(t)
    ensures SettingOf(SettingPayload(t, v)[0] as int) == Some(t)
  {
    SettingRoundTrip(t, 0);
  }

  /** RequestChangeSetting. */
  method RequestChangeSetting(cmd: byte, t: SettingType, v: SettingValue) returns (frame: seq<byte>)
    requires Fits(t, v)
    ensures frame == EncodeFrame(cmd, None, SettingDeclared(t), SettingPayload(t, v))
  {
    var bf := Open(cmd, None, SettingDeclared(t));
    ghost var h := bf.pending;
    bf.Put(SettingCode(t));
    ghost var h1 := bf.pending;
    match t {
      case Timestamp => bf.PutLong(v.n);
      case AutoPowerOffTime => bf.PutShort(v.n);
      case LedColor => bf.PutInt(v.n);
      case PenCapOff => bf.Put(if v.on then 1 else 0);
      case AutoPowerOn => bf.Put(if v.on then 1 else 0);
      case Beep => bf.Put(if v.on then 1 else 0);
      case Hover => bf.Put(if v.on then 1 else 0);
      case OfflineData => bf.Put(if v.on then 1 else 0);
      case DownSampling => bf.Put(if v.on then 1 else 0);
      case Sensitivity => bf.Put((v.n % 256) as byte);
      case UsbMode => bf.Put((v.n % 256) as byte);
      case BtLocalName =>
        bf.Put(16);
        bf.PutFixed(Utf8(v.text), 16);
        Cat2(h1, [16], Fixed(Utf8(v.text), 16));
      case FscSensitivity => bf.Put((v.n % 256) as byte);
      case DataTransmissionType => bf.Put((v.n % 256) as byte);
      case BeepAndLight => bf.Put(0);
    }
    assert bf.pending == h1 + SettingValueBytes(t, v);
    Cat2(h, [SettingCode(t)], SettingValueBytes(t, v));
    frame := Close(bf, cmd, None, SettingDeclared(t), SettingPayload(t, v));
    SettingPayloadShape(t, v);
  }

  // ---------------------------------------------------------------------------
  // Using notes (ONLINE_DATA_REQUEST).

  const AllOnes: seq<byte> := [0xFF, 0xFF, 0xFF, 0xFF]

  /** One packed paper address followed by a note id, per note. */
  function NoteEntries(so: Quad, notes: seq<int>): (r: seq<byte>)
    ensures |r| == 8 * |notes|
    decreases |notes|
  {
    if notes == [] then [] else NoteEntries(so, notes[..|notes| - 1]) + so + LE(notes[|notes| - 1], 4)
  }

  /** One packed paper address followed by FF FF FF FF (every note), for each of the first n section/owner pairs. */
  function AllNoteEntries(sections: seq<int>, owners: seq<int>, n: nat): (r: seq<byte>)
    requires n <= |sections| && n <= |owners|
    ensures |r| == 8 * n
  {
    if n == 0 then []
    else AllNoteEntries(sections, owners, n - 1) + SectionOwnerBytes(sections[n - 1], owners[n - 1]) + AllOnes
  }


  /** Which of its three shapes SendAddUsingNote writes: one paper address with all notes, a list of notes, or everything. */
  function UsingNoteDeclared(section: int, owner: int, notes: Option<seq<int>>): int
  {
    if section >= 0 && owner > 0 then
      if notes.None? then 2 + 8 else 2 + 8 * |notes.value|
    else 2
  }

  function UsingNotePayload(section: int, owner: int, notes: Option<seq<int>>): seq<byte>
  {
    if section >= 0 && owner > 0 then
      if notes.None? then LE(1, 2) + SectionOwnerBytes(section, owner) + AllOnes
      else LE(|notes.value|, 2) + NoteEntries(SectionOwnerBytes(section, owner), notes.value)
    else [0xFF, 0xFF]
  }

  lemma NoteEntriesSnoc(head: seq<byte>, so: Quad, xs: seq<int>, i: int)
    requires 0 <= i < |xs|
    ensures head + NoteEntries(so, xs[..i]) + so + LE(xs[i], 4) == head + NoteEntries(so, xs[..i + 1])
  {
    assert xs[..i + 1][..i] == xs[..i];
  }

  lemma AllNoteEntriesSnoc(head: seq<byte>, sections: seq<int>, owners: seq<int>, i: nat)
    requires i < |sections| && i < |owners|
    ensures head + AllNoteEntries(sections, owners, i) + SectionOwnerBytes(sections[i], owners[i]) + AllOnes ==
            head + AllNoteEntries(sections, owners, i + 1)
  {
    Cat3(head, AllNoteEntries(sections, owners, i), SectionOwnerBytes(sections[i], owners[i]), AllOnes);
  }

  /** The declared length of every shape counts its payload. */
  lemma UsingNoteSize(section: int, owner: int, notes: Option<seq<int>>)
    ensures |UsingNotePayload(section, owner, notes)| == UsingNoteDeclared(section, owner, notes)
  {
  }

  /** SendAddUsingNote(section, owner, notes); a null note array is `None`. */
  method SendAddUsingNote(cmd: byte, section: int, owner: int, notes: Option<seq<int>>) returns (frame: seq<byte>)
    ensures frame == EncodeFrame(cmd, None, UsingNoteDeclared(section, owner, notes), UsingNotePayload(section, owner, notes))
  {
    var bf := Open(cmd, None, UsingNoteDeclared(section, owner, notes));
    ghost var h := bf.pending;
    if section >= 0 && owner > 0 && notes.None? {
      bf.PutShort(1);
      bf.PutBytes(SectionOwnerBytes(section, owner));
      bf.PutBytes(AllOnes);
      Cat3(h, LE(1, 2), SectionOwnerBytes(section, owner), AllOnes);
    } else if section >= 0 && owner > 0 {
      var xs := notes.value;
      var so := SectionOwnerBytes(section, owner);
      bf.PutShort(|xs|);
      ghost var head := bf.pending;
      var i := 0;
      while i < |xs|
        invariant 0 <= i <= |xs|
        invariant bf.pending == head + NoteEntries(so, xs[..i])
        invariant bf.escaping && bf.Valid() && bf.settled == [STX]
      {
        bf.PutBytes(so);
        bf.PutInt(xs[i]);
        NoteEntriesSnoc(head, so, xs, i);
        i := i + 1;
      }
      assert xs[..i] == xs;
      Cat2(h, LE(|xs|, 2), NoteEntries(so, xs));
    } else {
      bf.PutBytes([0xFF, 0xFF]);
    }
    frame := Close(bf, cmd, None, UsingNoteDeclared(section, owner, notes), UsingNotePayload(section, owner, notes));
  }


  function UsingNoteListPayload(sections: seq<int>, owners: seq<int>): (r: seq<byte>)
    requires |sections| <= |owners|
    ensures |r| == 2 + 8 * |sections|
  {
    LE(|sections|, 2) + AllNoteEntries(sections, owners, |sections|)
  }

  /**
   * SendAddUsingNote(sectionIds, ownerIds): every note of each paper
   * address. An owner array shorter than the section array makes the loop
   * index past its end, and the exception reaches the caller: `None`.
   */
  method SendAddUsingNoteList(cmd: byte, sections: seq<int>, owners: seq<int>) returns (frame: Option<seq<byte>>)
    ensures frame.None? <==> |owners| < |sections|
    ensures frame.Some? ==> frame.value == EncodeFrame(cmd, None, 2 + 8 * |sections|, UsingNoteListPayload(sections, owners))
  {
    var length := 2 + 8 * |sections|;
    frame := WriteUsingNoteList(cmd, length, sections, owners);
  }

  /** The bytes of SendAddUsingNote(sectionIds, ownerIds) once its length is computed. */
  method WriteUsingNoteList(cmd: byte, length: int, sections: seq<int>, owners: seq<int>) returns (frame: Option<seq<byte>>)
    ensures frame.None? <==> |owners| < |sections|
    ensures frame.Some? ==> frame.value == EncodeFrame(cmd, None, length, UsingNoteListPayload(sections, owners))
  {
    var bf := Open(cmd, None, length);
    ghost var h := bf.pending;
    bf.PutShort(|sections|);
    var completed := PutAddresses(bf, sections, owners);
    if !completed {
      return None;
    }
    Cat2(h, LE(|sections|, 2), AllNoteEntries(sections, owners, |sections|));
    var f := Close(bf, cmd, None, length, UsingNoteListPayload(sections, owners));
    return Some(f);
  }

  /**
   * The loop of SendAddUsingNoteList: each paper address with all its notes.
   * It indexes both arrays, so it stops (throws) at the end of a shorter
   * owner array; `completed` says it wrote every section.
   */
  method PutAddresses(bf: ByteUtil, sections: seq<int>, owners: seq<int>) returns (completed: bool)
    requires bf.Valid()
    modifies bf
    ensures completed <==> |sections| <= |owners|
    ensures completed ==> bf.pending == old(bf.pending) + AllNoteEntries(sections, owners, |sections|)
    ensures bf.settled == old(bf.settled) && bf.Valid()
  {
    ghost var head := bf.pending;
    var i := 0;
    while i < |sections| && i < |owners|
      invariant 0 <= i <= |sections| && i <= |owners|
      invariant bf.pending == head + AllNoteEntries(sections, owners, i)
      invariant bf.settled == old(bf.settled) && bf.Valid()
    {
      bf.PutBytes(SectionOwnerBytes(sections[i], owners[i]));
      bf.PutBytes(AllOnes);
      AllNoteEntriesSnoc(head, sections, owners, i);
      i := i + 1;
    }
    completed := i == |sections|;
  }

  // ---------------------------------------------------------------------------
  // Offline data requests.

  /** The paper filter of ReqOfflineDataList: a packed address only when both ids are positive. */
  function NoteListPayload(section: int, owner: int): (r: seq<byte>)
    ensures |r| == 4
    ensures section > 0 && owner > 0 ==> SectionOf(r) == section % 256 && OwnerOf(r) == owner % 0x100_0000
    ensures !(section > 0 && owner > 0) ==> r == AllOnes
  {
    if section > 0 && owner > 0 then
      SectionOwnerRoundTrip(section, owner);
      SectionOwnerBytes(section, owner)
    else AllOnes
  }

  /** ReqOfflineDataList: declared 4. */
  method ReqOfflineDataList(cmd: byte, section: int, owner: int) returns (frame: seq<byte>)
    ensures frame == EncodeFrame(cmd, None, 4, NoteListPayload(section, owner))
  {
    var pInfo := if section > 0 && owner > 0 then SectionOwnerBytes(section, owner) else AllOnes;
    var bf := Open(cmd, None, 4);
    bf.PutBytes(pInfo);
    frame := Close(bf, cmd, None, 4, NoteListPayload(section, owner));
  }

  function PageListPayload(section: int, owner: int, note: int): (r: seq<byte>)
    ensures |r| == 8
  {
    SectionOwnerBytes(section, owner) + LE(note, 4)
  }

  /** ReqOfflineDataPageList: declared 8. */
  method ReqOfflineDataPageList(cmd: byte, section: int, owner: int, note: int) returns (frame: seq<byte>)
    ensures frame == EncodeFrame(cmd, None, 8, PageListPayload(section, owner, note))
  {
    var bf := Open(cmd, None, 8);
    ghost var h := bf.pending;
    bf.PutBytes(SectionOwnerBytes(section, owner));
    bf.PutInt(note);
    Cat2(h, SectionOwnerBytes(section, owner), LE(note, 4));
    frame := Close(bf, cmd, None, 8, PageListPayload(section, owner, note));
  }

  function OfflineDataPayload(section: int, owner: int, note: int, deleteOnFinished: bool, pages: seq<int>): (r: seq<byte>)
    ensures |r| == 14 + 4 * |pages|
    ensures r[0] == (if deleteOnFinished then 1 else 2) && r[1] == 1
  {
    [if deleteOnFinished then 1 else 2] + [1] + SectionOwnerBytes(section, owner) + LE(note, 4) + LE(|pages|, 4) + Ints(pages)
  }

  /**
   * ReqOfflineData: declared 14 + 4n for n pages (a null page array and an
   * empty one write the same bytes). The length field is a 16-bit short, so
   * the frame reads back only while 14 + 4n fits it.
   */
  method ReqOfflineData(cmd: byte, section: int, owner: int, note: int, deleteOnFinished: bool, pages: seq<int>)
    returns (frame: seq<byte>)
    ensures frame == EncodeFrame(cmd, None, 14 + 4 * |pages|, OfflineDataPayload(section, owner, note, deleteOnFinished, pages))
  {
    var length := 14 + 4 * |pages|;
    frame := WriteDataRequest(cmd, length, section, owner, note, deleteOnFinished, pages);
  }

  /** The bytes of ReqOfflineData once its length is computed. */
  method WriteDataRequest(cmd: byte, length: int, section: int, owner: int, note: int, deleteOnFinished: bool, pages: seq<int>)
    returns (frame: seq<byte>)
    ensures frame == EncodeFrame(cmd, None, length, OfflineDataPayload(section, owner, note, deleteOnFinished, pages))
  {
    var bf := Open(cmd, None, length);
    ghost var h := bf.pending;
    bf.Put(if deleteOnFinished then 1 else 2);
    bf.Put(1);
    bf.PutBytes(SectionOwnerBytes(section, owner));
    bf.PutInt(note);
    bf.PutInt(|pages|);
    ghost var head := bf.pending;
    var i := 0;
    while i < |pages|
      invariant 0 <= i <= |pages|
      invariant bf.pending == head + Ints(pages[..i])
      invariant bf.escaping && bf.Valid() && bf.settled == [STX]
    {
      bf.PutInt(pages[i]);
      IntsSnoc(head, pages, i);
      i := i + 1;
    }
    assert pages[..i] == pages;
    Cat6(h, [if deleteOnFinished then 1 else 2], [1], SectionOwnerBytes(section, owner), LE(note, 4), LE(|pages|, 4), Ints(pages));
    frame := Close(bf, cmd, None, length, OfflineDataPayload(section, owner, note, deleteOnFinished, pages));
  }

  function OfflineAckPayload(index: int): (r: seq<byte>)
    ensures |r| == 3 && r[2] == 1
  {
    LE(index, 2) + [1]
  }

  /**
   * SendOfflinePacketResponse: the status byte is 0 for an ACK and 1 for a
   * NACK, declared 3: the packet id and a 1. The command byte is the
   * encrypted or the plain offline-packet response, as the caller chooses.
   */
  method SendOfflinePacketResponse(cmd: byte, index: int, isSuccess: bool) returns (frame: seq<byte>)
    ensures frame == EncodeFrame(cmd, Some(if isSuccess then 0 else 1), 3, OfflineAckPayload(index))
  {
    var bf := Open(cmd, Some(if isSuccess then 0 else 1), 3);
    ghost var h := bf.pending;
    bf.PutShort(index);
    bf.Put(1);
    Cat2(h, LE(index, 2), [1]);
    frame := Close(bf, cmd, Some(if isSuccess then 0 else 1), 3, OfflineAckPayload(index));
  }

  function RemovePayload(section: int, owner: int, notes: seq<int>): (r: seq<byte>)
    ensures |r| == 5 + 4 * |notes|
    ensures r[4] as int == |notes| % 256
  {
    SectionOwnerBytes(section, owner) + [(|notes| % 256) as byte] + Ints(notes)
  }

  /**
   * ReqRemoveOfflineData: declared 5 + 4n. The note count travels as one
   * byte, `(byte)notes.Length`: from 256 notes on it no longer matches the
   * note ids that follow.
   */
  method ReqRemoveOfflineData(cmd: byte, section: int, owner: int, notes: seq<int>) returns (frame: seq<byte>)
    ensures frame == EncodeFrame(cmd, None, 5 + 4 * |notes|, RemovePayload(section, owner, notes))
  {
    var length := 5 + 4 * |notes|;
    frame := WriteRemoveRequest(cmd, length, section, owner, notes);
  }

  /** The bytes of ReqRemoveOfflineData once its length is computed. */
  method WriteRemoveRequest(cmd: byte, length: int, section: int, owner: int, notes: seq<int>) returns (frame: seq<byte>)
    ensures frame == EncodeFrame(cmd, None, length, RemovePayload(section, owner, notes))
  {
    var bf := Open(cmd, None, length);
    ghost var h := bf.pending;
    bf.PutBytes(SectionOwnerBytes(section, owner));
    bf.Put((|notes| % 256) as byte);
    ghost var head := bf.pending;
    var i := 0;
    while i < |notes|
      invariant 0 <= i <= |notes|
      invariant bf.pending == head + Ints(notes[..i])
      invariant bf.escaping && bf.Valid() && bf.settled == [STX]
    {
      bf.PutInt(notes[i]);
      IntsSnoc(head, notes, i);
      i := i + 1;
    }
    assert notes[..i] == notes;
    Cat3(h, SectionOwnerBytes(section, owner), [(|notes| % 256) as byte], Ints(notes));
    frame := Close(bf, cmd, None, length, RemovePayload(section, owner, notes));
  }

  // ---------------------------------------------------------------------------
  // Firmware.

  /** C# `(short)v`: the 16-bit two's-complement value. */
  function ToShort(v: int): (r: int)
    ensures -0x8000 <= r < 0x8000 && (r - v) % 0x1_0000 == 0
  {
    (v + 0x8000) % 0x1_0000 - 0x8000
  }

  function UploadPayload(device: string, version: string, fileSize: int, chunkSize: int, checksum: byte): (r: seq<byte>)
    ensures |r| == 42 && r[40] == 1 && r[41] == checksum
  {
    Fixed(Utf8(device), 16) + Fixed(Utf8(version), 16) + LE(fileSize, 4) + LE(ToShort(chunkSize), 4) + [1] + [checksum]
  }

  /** The frame of ReqPenSwUpgrade: declared 42; the chunk size is cut to a short and sign-extended. */
  method FirmwareUploadFrame(cmd: byte, device: string, version: string, fileSize: int, chunkSize: int, checksum: byte)
    returns (frame: seq<byte>)
    ensures frame == EncodeFrame(cmd, None, 42, UploadPayload(device, version, fileSize, chunkSize, checksum))
  {
    var bf := Open(cmd, None, 42);
    ghost var h := bf.pending;
    bf.PutFixed(Utf8(device), 16);
    bf.PutFixed(Utf8(version), 16);
    bf.PutInt(fileSize);
    bf.PutInt(ToShort(chunkSize));
    bf.Put(1);
    bf.Put(checksum);
    Cat6(h, Fixed(Utf8(device), 16), Fixed(Utf8(version), 16), LE(fileSize, 4), LE(ToShort(chunkSize), 4), [1], [checksum]);
    frame := Close(bf, cmd, None, 42, UploadPayload(device, version, fileSize, chunkSize, checksum));
  }

  function ChunkAbortPayload(offset: int): (r: seq<byte>)
    ensures |r| == 14 && r[0] == 1
  {
    [1] + LE(offset, 4) + [0] + Zeros(4) + Zeros(4)
  }

  /** The terminal FIRMWARE_PACKET_RESPONSE: status 0, declared 14, a stop flag, the offset and no data. */
  method ChunkAbortFrame(cmd: byte, offset: int) returns (frame: seq<byte>)
    ensures frame == EncodeFrame(cmd, Some(0), 14, ChunkAbortPayload(offset))
  {
    var bf := Open(cmd, Some(0), 14);
    ghost var h := bf.pending;
    bf.Put(1);
    bf.PutInt(offset);
    bf.Put(0);
    bf.PutNull(4);
    bf.PutNull(4);
    Cat5(h, [1], LE(offset, 4), [0], Zeros(4), Zeros(4));
    frame := Close(bf, cmd, Some(0), 14, ChunkAbortPayload(offset));
  }

  function ChunkDataPayload(offset: int, checksum: byte, rawLength: int, cdata: seq<byte>): (r: seq<byte>)
    ensures |r| == 14 + |cdata| && r[0] == 0 && r[14..] == cdata
  {
    [0] + LE(offset, 4) + [checksum] + LE(rawLength, 4) + LE(|cdata|, 4) + cdata
  }

  /**
   * A FIRMWARE_PACKET_RESPONSE carrying a chunk: status 0, declared
   * `(short)(cdata.Length + 14)`; it reads back while the compressed chunk
   * leaves the total under 64 KiB.
   */
  method ChunkDataFrame(cmd: byte, offset: int, checksum: byte, rawLength: int, cdata: seq<byte>) returns (frame: seq<byte>)
    ensures frame == EncodeFrame(cmd, Some(0), ToShort(|cdata| + 14), ChunkDataPayload(offset, checksum, rawLength, cdata))
  {
    var bf := Open(cmd, Some(0), ToShort(|cdata| + 14));
    ghost var h := bf.pending;
    bf.Put(0);
    bf.PutInt(offset);
    bf.Put(checksum);
    bf.PutInt(rawLength);
    bf.PutInt(|cdata|);
    bf.PutBytes(cdata);
    Cat6(h, [0], LE(offset, 4), [checksum], LE(rawLength, 4), LE(|cdata|, 4), cdata);
    frame := Close(bf, cmd, Some(0), ToShort(|cdata| + 14), ChunkDataPayload(offset, checksum, rawLength, cdata));
    ShortField(|cdata| + 14);
  }

  /** Cutting to a short first does not change the two bytes PutShort writes. */
  lemma ShortField(v: int)
    ensures LE(ToShort(v), 2) == LE(v, 2)
  {
    var s := ToShort(v);
    var k := (s - v) / 0x1_0000;
    assert s == v + 0x1_0000 * k;
    DivModUnique(s, 256, v / 256 + 256 * k, v % 256);
    DivModUnique(s / 256, 256, v / 256 / 256 + k, v / 256 % 256);
    assert (s / 256) % 256 == (v / 256) % 256;
  }

  // ---------------------------------------------------------------------------
  // Certificates and keys.

  /** ReqUpdateCertificate: nothing is sent for an empty certificate; declared `(short)certificate.Length`. */
  method ReqUpdateCertificate(cmd: byte, certificate: seq<byte>) returns (frame: Option<seq<byte>>)
    ensures frame.None? <==> certificate == []
    ensures frame.Some? ==> frame.value == EncodeFrame(cmd, None, ToShort(|certificate|), certificate)
  {
    if |certificate| <= 0 {
      return None;
    }
    var bf := Open(cmd, None, ToShort(|certificate|));
    bf.PutBytes(certificate);
    var f := Close(bf, cmd, None, ToShort(|certificate|), certificate);
    ShortField(|certificate|);
    return Some(f);
  }

  function DeletePayload(serial: seq<byte>): (r: seq<byte>)
    ensures |r| == 17 && r[0] as int == |serial| % 256
  {
    [(|serial| % 256) as byte] + Fixed(serial, 16)
  }

  /**
   * ReqDeleteCertificate: declared 17, the length of the serial number's
   * big-endian bytes and the bytes in 16. `None` in: the serial string was
   * empty or not a number; nothing is sent.
   */
  method ReqDeleteCertificate(cmd: byte, serial: Option<seq<byte>>) returns (frame: Option<seq<byte>>)
    ensures frame.None? <==> serial.None?
    ensures frame.Some? ==> frame.value == EncodeFrame(cmd, None, 17, DeletePayload(serial.value))
  {
    if serial.None? {
      return None;
    }
    var bf := Open(cmd, None, 17);
    ghost var h := bf.pending;
    bf.Put((|serial.value| % 256) as byte);
    bf.PutFixed(serial.value, 16);
    Cat2(h, [(|serial.value| % 256) as byte], Fixed(serial.value, 16));
    var f := Close(bf, cmd, None, 17, DeletePayload(serial.value));
    return Some(f);
  }

  /** ReqEncryptionKey: declared 8, eight zero bytes. */
  method ReqEncryptionKey(cmd: byte) returns (frame: seq<byte>)
    ensures frame == EncodeFrame(cmd, None, 8, Zeros(8))
  {
    var bf := Open(cmd, None, 8);
    bf.PutNull(8);
    frame := Close(bf, cmd, None, 8, Zeros(8));
  }
}
