/**
 * The session and authentication handlers of PenCommV2 as functions on the
 * engine snapshot: VERSION_RESPONSE, SETTING_INFO_RESPONSE (the first one
 * authenticates), SETTING_CHANGE_RESPONSE, the password responses and the
 * public password requests, ENCRYPTION_KEY_RESPONSE, SetPrivateKey, and
 * the connect and disconnect hooks.
 */
module Auth {
  import opened Base
  import opened Model
  import opened State
  import Codes
  import Live
  import LiveProps

  const F121 := "NWP-F121"
  const F121MG := "NWP-F121MG"
  const MgSubName := "Mbest_smartpenS"
  const DefaultPassword := "0000"

  // ---------------------------------------------------------------------------
  // Identity

  /** The identity a VERSION_RESPONSE records: an F121 in the MG address range with the MG sub-name is renamed. */
  function Identify(info: VersionInfo): VersionInfo
  {
    if Codes.IsF121MG(info.mac) && info.deviceName == F121 && info.subName == MgSubName
    then info.(deviceName := F121MG) else info
  }

  /**
   * Only the device name can change, and it changes exactly for an F121
   * whose address is in the MG range and whose sub-name is the MG one.
   */
  lemma IdentifyRule(info: VersionInfo)
    ensures Identify(info).(deviceName := info.deviceName) == info
    ensures Identify(info) != info <==>
            Codes.IsF121MG(info.mac) && info.deviceName == F121 && info.subName == MgSubName
    ensures Identify(info) != info ==> Identify(info).deviceName == F121MG
  {
  }

  function OnVersion(e: Engine, info: VersionInfo): Outcome<Engine>
  {
    Outcome(e.(live := e.live.(eventCount := 0),
               session := e.session.(ident := Some(Identify(info)), maxForce := -1),
               upgrade := e.upgrade.(uploading := false)),
            [Transmit(StatusRequest)])
  }

  /**
   * A version response records the identity, resets the event counter and
   * the upload flag, and asks for the status, touching nothing else.
   */
  lemma VersionRule(e: Engine, info: VersionInfo)
    ensures var o := OnVersion(e, info);
            o.out == [Transmit(StatusRequest)] &&
            o.st.session.ident == Some(Identify(info)) && o.st.session.maxForce == -1 &&
            o.st.live.eventCount == 0 && !o.st.upgrade.uploading &&
            o.st.transfer == e.transfer && o.st.upgrade.chunk == e.upgrade.chunk &&
            o.st.session.authenticated == e.session.authenticated
  {
  }

  // ---------------------------------------------------------------------------
  // SETTING_INFO_RESPONSE

  /** IsSupportEncryption: false while no protocol version is known (float.Parse(null) throws). */
  predicate EncryptionSupported(e: Engine, x: Externals)
  {
    e.session.ident.Some? && x.encryptionSupported(e.session.ident.value.protocolVersion)
  }

  /** The encryption type the handler acts on: the one reported, or 0 when encryption is not supported. */
  function EncryptionType(e: Engine, x: Externals, reported: int): int
  {
    if EncryptionSupported(e, x) then reported else 0
  }

  /** The first status after connecting: the lock and encryption decision. */
  function FirstStatus(s: Session, now: int, r: StatusReport, t: int): Outcome<Session>
  {
    if r.locked then Outcome(s, [Notify(PasswordRequest(r.retry, r.maxRetry))])
    else if t == 0 || s.gotAesKey then
      Outcome(s.(authenticated := true), [Transmit(SetupTime(now)), Notify(PenAuthenticated)])
    else if s.rsaKey.None? then Outcome(s, [Notify(PrivateKeyRequest)])
    else if t == 1 then Outcome(s, [Transmit(EncryptionKeyRequest)])
    else if t == 2 then Outcome(s, [Notify(SecureCommunicationFailure(CertificateExpired))])
    else Outcome(s, [Notify(SecureCommunicationFailure(SecureFailure.UnknownError)), Teardown])
  }

  function OnStatus(e: Engine, x: Externals, now: int, r: StatusReport, reported: int): Outcome<Engine>
  {
    var t := EncryptionType(e, x, reported);
    var s1 := if EncryptionSupported(e, x) then e.session.(encryptedMode := t != 0) else e.session;
    var e1 := e.(live := e.live.(hover := r.hover), session := s1);
    if s1.authenticated then Outcome(e1, [Notify(PenStatus(r, s1.maxForce))])
    else
      var a := FirstStatus(s1.(maxForce := r.maxForce), now, r, t);
      Outcome(e1.(session := a.st), [Notify(Connected(s1.ident, r.maxForce))] + a.out)
  }

  /**
   * The authentication rule. Before authentication a status response first
   * reports the connection with the reported maximum force; then, if the pen
   * is locked, it asks for the password; otherwise encryption type 0 or an
   * AES key already obtained authenticates, sending exactly one time sync
   * before onPenAuthenticated; with no private key it asks for one; type 1
   * requests the key, type 2 reports an expired certificate and any other
   * type reports an unknown error and tears the connection down.
   */
  lemma AuthenticationRule(e: Engine, x: Externals, now: int, r: StatusReport, reported: int)
    requires !e.session.authenticated
    ensures var o := OnStatus(e, x, now, r, reported);
            var t := EncryptionType(e, x, reported);
            var s := e.session;
            var rest := o.out[1..];
            |o.out| >= 2 &&
            o.out[0] == Notify(Connected(s.ident, r.maxForce)) &&
            o.st.session.maxForce == r.maxForce &&
            (o.st.session.authenticated <==> !r.locked && (t == 0 || s.gotAesKey)) &&
            (r.locked ==> rest == [Notify(PasswordRequest(r.retry, r.maxRetry))]) &&
            (!r.locked && (t == 0 || s.gotAesKey) ==> rest == [Transmit(SetupTime(now)), Notify(PenAuthenticated)]) &&
            (!r.locked && t != 0 && !s.gotAesKey ==>
               (s.rsaKey.None? ==> rest == [Notify(PrivateKeyRequest)]) &&
               (s.rsaKey.Some? && t == 1 ==> rest == [Transmit(EncryptionKeyRequest)]) &&
               (s.rsaKey.Some? && t == 2 ==> rest == [Notify(SecureCommunicationFailure(CertificateExpired))]) &&
               (s.rsaKey.Some? && t != 1 && t != 2 ==>
                  rest == [Notify(SecureCommunicationFailure(SecureFailure.UnknownError)), Teardown]))
  {
  }

  /**
   * Once authenticated, a status response only reports the status with the
   * stored maximum force; the hover flag and (when encryption is supported)
   * the encrypted mode are the only state it changes.
   */
  lemma StatusAfterAuthentication(e: Engine, x: Externals, now: int, r: StatusReport, reported: int)
    requires e.session.authenticated
    ensures var o := OnStatus(e, x, now, r, reported);
            o.out == [Notify(PenStatus(r, e.session.maxForce))] &&
            o.st.session.(encryptedMode := e.session.encryptedMode) == e.session &&
            o.st.live == e.live.(hover := r.hover) &&
            o.st.transfer == e.transfer && o.st.upgrade == e.upgrade
  {
  }

  // ---------------------------------------------------------------------------
  // SETTING_CHANGE_RESPONSE

  /** One callback for a known setting code, carrying whether the result byte is 0; nothing for an unknown code. */
  function OnSettingChange(code: int, result: byte): seq<Action>
  {
    match Codes.SettingOf(code)
    case Some(t) => [Notify(SettingResult(t, result == 0))]
    case None => []
  }

  /** The response to a setting change reports the very setting that was requested. */
  lemma SettingChangeAnswersRequest(t: SettingType, result: byte)
    ensures OnSettingChange(Codes.SettingCode(t) as int, result) == [Notify(SettingResult(t, result == 0))]
  {
    Codes.SettingRoundTrip(t, Codes.SettingCode(t) as int);
  }

  // ---------------------------------------------------------------------------
  // Passwords

  /** ReqInputPassword: the request it sends, or None when the password is null or the default one. */
  function InputPassword(password: Option<string>): Option<Request>
  {
    if password.None? || password.value == DefaultPassword then None
    else Some(PasswordInput(password.value))
  }

  /** ReqSetUpPassword: rejects a null or default password on either side, else records the new one and sends the change. */
  function SetUpPassword(s: Session, oldPassword: Option<string>, newPassword: Option<string>): Answered<Session>
  {
    if oldPassword.None? || newPassword.None? then Answered(false, s, [])
    else if oldPassword.value == DefaultPassword || newPassword.value == DefaultPassword then Answered(false, s, [])
    else Answered(true, s.(newPassword := newPassword),
                  [Transmit(PasswordChange(oldPassword.value, newPassword.value))])
  }

  /**
   * The password guards: a request is sent exactly when no password
   * involved is null or "0000", and a rejected call changes nothing.
   */
  lemma PasswordGuards(s: Session, password: Option<string>, oldPassword: Option<string>, newPassword: Option<string>)
    ensures InputPassword(password).Some? <==> password.Some? && password.value != DefaultPassword
    ensures InputPassword(password).Some? ==> InputPassword(password).value == PasswordInput(password.value)
    ensures var a := SetUpPassword(s, oldPassword, newPassword);
            (a.ok <==> oldPassword.Some? && newPassword.Some? &&
                       oldPassword.value != DefaultPassword && newPassword.value != DefaultPassword) &&
            (a.ok ==> a.out == [Transmit(PasswordChange(oldPassword.value, newPassword.value))] &&
                      a.st == s.(newPassword := newPassword)) &&
            (!a.ok ==> a.out == [] && a.st == s)
  {
  }

  function OnPassword(e: Engine, now: int, status: int, retry: int, max: int): Outcome<Engine>
  {
    var s := e.session;
    if status == 1 then
      if s.reCheck then Outcome(e.(session := s.(reCheck := false)), [Notify(PasswordSetUpResult(true))])
      else Outcome(e, [Transmit(SetupTime(now)), Notify(PenAuthenticated)])
    else if s.reCheck then Outcome(e.(session := s.(reCheck := false)), [Notify(PasswordSetUpResult(false))])
    else Outcome(e, [Notify(PasswordRequest(retry, max))])
  }

  function OnPasswordChange(e: Engine, result: byte): Outcome<Engine>
  {
    var s := e.session;
    if result == 0 then
      var q := InputPassword(s.newPassword);
      Outcome(e.(session := s.(reCheck := true)), if q.Some? then [Transmit(q.value)] else [])
    else Outcome(e.(session := s.(newPassword := Some(""))), [Notify(PasswordSetUpResult(false))])
  }

  /**
   * An accepted password outside a password change syncs the time and
   * reports the pen authenticated, yet leaves the session, and so the
   * authenticated flag, as it was.
   */
  lemma PasswordAcceptedKeepsFlag(e: Engine, now: int, retry: int, max: int)
    requires !e.session.reCheck
    ensures OnPassword(e, now, 1, retry, max) == Outcome(e, [Transmit(SetupTime(now)), Notify(PenAuthenticated)])
  {
  }

  /**
   * The two-step password change. An accepted ReqSetUpPassword sends the
   * change; when the pen accepts it, the new password is sent back for
   * checking with the re-check flag set; the pen's answer to that yields
   * exactly one set-up result, success iff the pen accepted the password,
   * and clears the flag, without authenticating.
   */
  lemma {:induction false} TwoStepPasswordChange(e: Engine, now: int, oldPassword: string, newPassword: string,
                                                 status: int, retry: int, max: int)
    requires oldPassword != DefaultPassword && newPassword != DefaultPassword
    ensures var a := SetUpPassword(e.session, Some(oldPassword), Some(newPassword));
            var b := OnPasswordChange(e.(session := a.st), 0);
            var c := OnPassword(b.st, now, status, retry, max);
            a.ok && a.out == [Transmit(PasswordChange(oldPassword, newPassword))] &&
            b.out == [Transmit(PasswordInput(newPassword))] && b.st.session.reCheck &&
            c.out == [Notify(PasswordSetUpResult(status == 1))] &&
            !c.st.session.reCheck && c.st.session.authenticated == e.session.authenticated &&
            c.st.live == e.live && c.st.transfer == e.transfer && c.st.upgrade == e.upgrade
  {
    var a := SetUpPassword(e.session, Some(oldPassword), Some(newPassword));
    assert a.st.newPassword == Some(newPassword);
    var b := OnPasswordChange(e.(session := a.st), 0);
    assert InputPassword(Some(newPassword)) == Some(PasswordInput(newPassword));
    assert b.st.session.reCheck;
  }

  /** A refused change reports failure once and blanks the stored new password. */
  lemma PasswordChangeRefused(e: Engine, result: byte)
    requires result != 0
    ensures var o := OnPasswordChange(e, result);
            o.out == [Notify(PasswordSetUpResult(false))] &&
            o.st == e.(session := e.session.(newPassword := Some("")))
  {
  }

  // ---------------------------------------------------------------------------
  // ENCRYPTION_KEY_RESPONSE and SetPrivateKey

  function Refuse(e: Engine, reason: SecureFailure): Outcome<Engine>
  {
    Outcome(e, [Notify(SecureCommunicationFailure(reason)), Teardown])
  }

  function OnKey(e: Engine, x: Externals, result: byte, code: int, data: seq<byte>): Outcome<Engine>
  {
    var s := e.session;
    if result != 0 || code != 0 then Refuse(e, SecureFailure.UnknownError)
    else if s.rsaKey.None? then Refuse(e, NoPrivateKey)
    else
      var key := x.rsaDecrypt(s.rsaKey.value, data);
      if key.None? || |key.value| != 32 then Refuse(e, InvalidPrivateKey)
      else Outcome(e.(session := s.(gotAesKey := true, aesKey := key)), [Transmit(StatusRequest)])
  }

  /**
   * The key rule: the AES key is taken, and the status asked for again,
   * exactly when both result codes are 0, a private key is set and it
   * unwraps the data to 32 bytes. Otherwise the reason is reported (an
   * unwrapped key of another length is InvalidPrivateKey), the connection
   * is torn down and the state is unchanged.
   */
  lemma KeyRule(e: Engine, x: Externals, result: byte, code: int, data: seq<byte>)
    ensures var o := OnKey(e, x, result, code, data);
            var s := e.session;
            var ok := result == 0 && code == 0 && s.rsaKey.Some? &&
                      x.rsaDecrypt(s.rsaKey.value, data).Some? && |x.rsaDecrypt(s.rsaKey.value, data).value| == 32;
            (ok ==> o.out == [Transmit(StatusRequest)] &&
                    o.st == e.(session := s.(gotAesKey := true, aesKey := x.rsaDecrypt(s.rsaKey.value, data)))) &&
            (!ok ==> o.st == e && |o.out| == 2 && o.out[1] == Teardown &&
                     o.out[0] == Notify(SecureCommunicationFailure(
                       if result != 0 || code != 0 then SecureFailure.UnknownError
                       else if s.rsaKey.None? then NoPrivateKey else InvalidPrivateKey)))
  {
  }

  /** SetPrivateKey: taken when disconnected, or when connected and not yet authenticated (then the status is asked for). */
  function SetPrivateKey(e: Engine, alive: bool, key: Option<PrivateKey>): Answered<Engine>
  {
    if alive then
      if !e.session.authenticated then
        Answered(true, e.(session := e.session.(rsaKey := key)), [Transmit(StatusRequest)])
      else Answered(false, e, [])
    else Answered(true, e.(session := e.session.(rsaKey := key)), [])
  }

  /** The key is stored exactly when the call answers true, and refused only on a live authenticated connection. */
  lemma PrivateKeyRule(e: Engine, alive: bool, key: Option<PrivateKey>)
    ensures var a := SetPrivateKey(e, alive, key);
            (a.ok <==> !alive || !e.session.authenticated) &&
            (a.ok ==> a.st == e.(session := e.session.(rsaKey := key))) &&
            (!a.ok ==> a.st == e && a.out == []) &&
            (a.out == [Transmit(StatusRequest)] <==> alive && a.ok)
  {
  }

  // ---------------------------------------------------------------------------
  // Connection hooks

  function OnConnected(e: Engine): Outcome<Engine>
  {
    Outcome(e.(live := e.live.(prevIndex := -1)), [Transmit(VersionRequest)])
  }

  /**
   * Connecting asks for the version and forgets the last accepted online
   * data index, and nothing else: the first online data request of the new
   * connection with a non-negative index is processed, however high the
   * index of the previous connection was.
   */
  lemma ConnectRule(e: Engine, m: Live.Matcher, index: int, count: byte, items: seq<OnlineItem>)
    requires index >= 0
    ensures var c := OnConnected(e);
            c.out == [Transmit(VersionRequest)] &&
            c.st == e.(live := e.live.(prevIndex := c.st.live.prevIndex)) &&
            Live.OnOnlineData(c.st.live, m, index, count, items).st.prevIndex == index
  {
    var c := OnConnected(e);
    LiveProps.ItemsKeepIndex(c.st.live.(prevCount := count, prevIndex := index), m, items);
  }

  function OnDisconnected(e: Engine, m: Live.Matcher): Outcome<Engine>
  {
    var u := Live.OnDisconnect(e.live, m);
    Outcome(e.(live := u.st,
               session := e.session.(aesKey := None, authenticated := false, encryptedMode := false, gotAesKey := false)),
            u.out + [Notify(Disconnected)])
  }

  /**
   * Disconnecting drops the AES key and the authentication, keeps the
   * private key, the identity, the offline counters and the upgrade state,
   * and raises onDisconnected last.
   */
  lemma DisconnectRule(e: Engine, m: Live.Matcher)
    ensures var o := OnDisconnected(e, m);
            o.out[|o.out| - 1] == Notify(Disconnected) &&
            o.st.session == e.session.(aesKey := None, authenticated := false, encryptedMode := false, gotAesKey := false) &&
            o.st.transfer == e.transfer && o.st.upgrade == e.upgrade
  {
  }
}
