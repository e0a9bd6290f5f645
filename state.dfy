/**
 * The per-connection state of PenCommV2 beyond the stroke reconstructor,
 * gathered into one snapshot, and the code outside the engine it calls:
 * packet readers, zlib, the ciphers, the version check and the symbol
 * matcher, each as a function given to it.
 */
module State {
  import opened Base
  import opened Model
  import Live

  /** Identity, authentication and password state. */
  datatype Session = Session(
    ident: Option<VersionInfo>,     // DeviceName .. MacAddress, set by a VERSION_RESPONSE
    maxForce: int,                  // MaxForce
    authenticated: bool,            // isPenAuthenticated
    encryptedMode: bool,            // isEncryptedMode
    gotAesKey: bool,                // doGetAesKey
    aesKey: Option<seq<byte>>,      // aes256Cipher, by the key it was made from
    rsaKey: Option<PrivateKey>,     // rsaKeys
    reCheck: bool,                  // reCheckPassword
    newPassword: Option<string>)    // newPassword (None is null)

  /** The offline download counters. */
  datatype Transfer = Transfer(
    total: int,      // mTotalOfflineStroke
    received: int,   // mReceivedOfflineStroke
    totalSize: int,  // mTotalOfflineDataSize
    retry: int)      // offlineDataPacketRetryCount

  /** The firmware upgrade state. */
  datatype Upgrade = Upgrade(
    uploading: bool,          // IsUploading
    failCallbacked: bool,     // SwUpgradeFailCallbacked
    chunk: Option<ChunkSet>)  // mFwChunk (None is null)

  datatype Engine = Engine(live: Live.LiveState, session: Session, transfer: Transfer, upgrade: Upgrade)

  /** The field initialisers (MaxForce has none and starts at 0). */
  const InitialSession := Session(None, 0, false, false, false, None, None, false, None)
  const InitialTransfer := Transfer(-1, 0, -1, 0)
  const InitialUpgrade := Upgrade(false, false, None)
  const Initial := Engine(Live.Initial, InitialSession, InitialTransfer, InitialUpgrade)

  /**
   * The collaborators. A function that returns an Option yields None where the
   * original returns null or throws.
   */
  datatype Externals = Externals(
    encryptionSupported: string -> bool,                        // IsSupportEncryption, on ProtocolVersion
    rsaDecrypt: (PrivateKey, seq<byte>) -> Option<seq<byte>>,   // RSACipher.Decrypt
    aesDecode: (seq<byte>, seq<byte>) -> Option<seq<byte>>,     // AES256Cipher.Decode: key, block
    readDot: seq<byte> -> (int, DotSample),                     // the NEW_PEN_DOT reader: count, sample
    readPaper: seq<byte> -> (int, PaperAddress),                // the NEW_PAPER_INFO reader: count, address
    readOffline: seq<byte> -> Option<OfflinePacket>,            // the OFFLINE_PACKET_REQUEST header reader
    inflate: seq<byte> -> Option<seq<byte>>,                    // ZlibStream.UncompressBuffer
    readStrokes: (seq<byte>, int) -> StrokeData,                // the stroke reader over a ByteUtil
    compress: seq<byte> -> seq<byte>,                           // ZlibStream.CompressBuffer
    matcher: Live.Matcher)                                      // MetadataManager.FindApplicableSymbols

  /** What a public request method leaves: its boolean answer, the new state and the actions. */
  datatype Answered<S> = Answered(ok: bool, st: S, out: seq<Action>)
}
