/**
 * The small total mappings of PenCommV2: the certificate result codes, the
 * numeric values of SettingType, and the MAC-address range that identifies
 * an NWP-F121MG pen.
 */
module Codes {
  import opened Base
  import opened Codec
  import opened Model

  // ---------------------------------------------------------------------------
  // Certificate result codes.

  /** The result byte of ENCRYPTION_CERT_UPDATE_RESPONSE. */
  function CertUpdateOf(code: int): (r: CertUpdateResult)
    ensures r == CertUpdateResult.UnknownError <==> !(0 <= code <= 5)
    ensures r == CertUpdateResult.Success <==> code == 0
  {
    if code == 0 then CertUpdateResult.Success
    else if code == 1 then FileCopyFailed
    else if code == 2 then FileReplacementFailed
    else if code == 3 then InvalidExpirationDate
    else if code == 4 then CertUpdateResult.InvalidProtocolVersion
    else if code == 5 then InternalProcessingError
    else CertUpdateResult.UnknownError
  }

  /** The result byte of ENCRYPTION_CERT_DELETE_RESPONSE. */
  function CertDeleteOf(code: int): (r: CertDeleteResult)
    ensures r == CertDeleteResult.UnknownError <==> !(0 <= code <= 4)
    ensures r == CertDeleteResult.Success <==> code == 0
  {
    if code == 0 then CertDeleteResult.Success
    else if code == 1 then NoCertificate
    else if code == 2 then InvalidSerialCode
    else if code == 3 then FileDeleteFailed
    else if code == 4 then CertDeleteResult.InvalidProtocolVersion
    else CertDeleteResult.UnknownError
  }

  /** Distinct known codes give distinct results: the mapping loses nothing on 0..5. */
  lemma CertUpdateInjective(a: int, b: int)
    requires 0 <= a <= 5 && 0 <= b <= 5 && a != b
    ensures CertUpdateOf(a) != CertUpdateOf(b)
  {
  }

  /** Distinct known codes give distinct results: the mapping loses nothing on 0..4. */
  lemma CertDeleteInjective(a: int, b: int)
    requires 0 <= a <= 4 && 0 <= b <= 4 && a != b
    ensures CertDeleteOf(a) != CertDeleteOf(b)
  {
  }

  // ---------------------------------------------------------------------------
  // SettingType values.

  /** The byte a SettingType is sent as (the C# enum's underlying value). */
  function SettingCode(t: SettingType): (r: byte)
    ensures 1 <= r <= 16 && r != 15
  {
    match t
    case Timestamp => 1
    case AutoPowerOffTime => 2
    case PenCapOff => 3
    case AutoPowerOn => 4
    case Beep => 5
    case Hover => 6
    case OfflineData => 7
    case LedColor => 8
    case Sensitivity => 9
    case UsbMode => 10
    case DownSampling => 11
    case BtLocalName => 12
    case FscSensitivity => 13
    case DataTransmissionType => 14
    case BeepAndLight => 16
  }

  /** The cast `(SettingType)inttype` of SETTING_CHANGE_RESPONSE; a value outside the enum names nothing. */
  function SettingOf(code: int): (r: Option<SettingType>)
    ensures r.None? <==> !(1 <= code <= 16 && code != 15)
  {
    if code == 1 then Some(Timestamp)
    else if code == 2 then Some(AutoPowerOffTime)
    else if code == 3 then Some(PenCapOff)
    else if code == 4 then Some(AutoPowerOn)
    else if code == 5 then Some(Beep)
    else if code == 6 then Some(Hover)
    else if code == 7 then Some(OfflineData)
    else if code == 8 then Some(LedColor)
    else if code == 9 then Some(Sensitivity)
    else if code == 10 then Some(UsbMode)
    else if code == 11 then Some(DownSampling)
    else if code == 12 then Some(BtLocalName)
    else if code == 13 then Some(FscSensitivity)
    else if code == 14 then Some(DataTransmissionType)
    else if code == 16 then Some(BeepAndLight)
    else None
  }

  /** The value a setting is sent with reads back as the same setting, and every named value comes from one. */
  lemma SettingRoundTrip(t: SettingType, code: int)
    ensures SettingOf(SettingCode(t) as int) == Some(t)
    ensures SettingOf(code).Some? ==> SettingCode(SettingOf(code).value) as int == code
  {
  }

  // ---------------------------------------------------------------------------
  // The NWP-F121MG address range.

  /** The address bytes read as one big-endian number (the hex string of BitConverter, parsed base 16). */
  function FromBE(s: seq<byte>): (r: nat)
    ensures r < Pow256(|s|)
    decreases |s|
  {
    if s == [] then 0 else FromBE(s[..|s| - 1]) * 256 + s[|s| - 1] as int
  }

  const MgStart: nat := 0x9C7B_D222_0000 // 9C:7B:D2:22:00:00
  const MgEnd: nat := 0x9C7B_D222_1806   // 9C:7B:D2:22:18:06

  /** isF121MG: the address lies in the inclusive range MgStart..MgEnd. */
  predicate IsF121MG(mac: Mac)
  {
    MgStart <= FromBE(mac) <= MgEnd
  }

  /**
   * The range check is a prefix check on the bytes: the first four are
   * 9C 7B D2 22 and the last two, read big-endian, are at most 0x1806.
   */
  lemma F121MGBytes(mac: Mac)
    ensures IsF121MG(mac) <==>
            mac[..4] == [0x9C, 0x7B, 0xD2, 0x22] && mac[4] as int * 256 + mac[5] as int <= 0x1806
  {
    var hi := FromBE(mac[..4]);
    var lo := mac[4] as int * 256 + mac[5] as int;
    assert FromBE(mac) == hi * 0x1_0000 + lo by {
      assert mac[..6] == mac && mac[..6][..5] == mac[..5] && mac[..5][..4] == mac[..4];
    }
    assert hi == 0x9C7B_D222 <==> mac[..4] == [0x9C, 0x7B, 0xD2, 0x22] by {
      BEUnique4(mac[..4]);
    }
    if hi < 0x9C7B_D222 {
      assert FromBE(mac) < MgStart;
    } else if hi > 0x9C7B_D222 {
      assert FromBE(mac) > MgEnd;
    }
  }

  /** Four bytes denote 0x9C7BD222 exactly when they are 9C 7B D2 22. */
  lemma BEUnique4(s: seq<byte>)
    requires |s| == 4
    ensures FromBE(s) == 0x9C7B_D222 <==> s == [0x9C, 0x7B, 0xD2, 0x22]
  {
    assert s[..3][..2] == s[..2] && s[..2][..1] == s[..1] && s[..1][..0] == [];
    assert FromBE(s[..1]) == s[0] as int;
    assert FromBE(s[..2]) == s[0] as int * 256 + s[1] as int;
    assert FromBE(s[..3]) == (s[0] as int * 256 + s[1] as int) * 256 + s[2] as int;
    var v := FromBE(s);
    assert v == ((s[0] as int * 256 + s[1] as int) * 256 + s[2] as int) * 256 + s[3] as int;
    if v == 0x9C7B_D222 {
      assert s[3] as int == v % 256;
      assert s[2] as int == (v / 256) % 256;
      assert s[1] as int == (v / 0x1_0000) % 256;
      assert s[0] as int == v / 0x100_0000;
      assert s == [s[0], s[1], s[2], s[3]];
    }
  }
}
