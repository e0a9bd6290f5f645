/**
 * The values PenCommV2 exchanges with its caller: dots and strokes, the
 * callbacks it raises (as `Event`s), the requests it sends (as `Request`s)
 * and the already-decoded inbound packets it dispatches on.
 */
module Model {
  import opened Base

  // ---------------------------------------------------------------------------
  // Dots and strokes.

  datatype DotType = PenDown | PenMove | PenUp | PenHover | PenError

  datatype TipType = Normal | Eraser

  /** A pen sample as built by MakeDot / Dot.Builder. */
  datatype Dot = Dot(owner: int, section: int, note: int, page: int, timestamp: int,
                     x: int, y: int, fx: int, fy: int, force: int,
                     dotType: DotType, color: int)

  /** A stroke: the paper it is on and the dots added to it, in order. */
  datatype Stroke = Stroke(section: int, owner: int, note: int, page: int, dots: seq<Dot>)

  datatype Symbol = Symbol(id: int, name: string)

  /** Image-processing statistics reported with a pen-up. */
  datatype ImageInfo = ImageInfo(dotCount: int, total: int, processed: int, success: int, transferred: int)

  /** Image-processing failure details of a pen-error event. */
  datatype ImageErrorInfo = ImageErrorInfo(timestamp: int, force: int, brightness: int, exposureTime: int,
                                           processTime: int, labelCount: int, errorCode: int,
                                           classType: int, errorCount: int)

  datatype ErrorType =
    | MissingPenUp | MissingPenDown | InvalidEventCount | MissingPenDownPenMove
    | MissingPenMove | MissingPageChange | ImageProcessingError

  /** The extra text of an InvalidEventCount report. */
  datatype Detail =
    | NoDetail
    | MissedEvents(first: int, last: int)        // "missed event count first-last"
    | CountWentBack(previous: int, current: int) // "invalid event count previous,current"

  // ---------------------------------------------------------------------------
  // Result codes.

  datatype SecureFailure = CertificateExpired | NoPrivateKey | InvalidPrivateKey | UnknownError

  datatype CertUpdateResult =
    | Success | FileCopyFailed | FileReplacementFailed | InvalidExpirationDate
    | InvalidProtocolVersion | InternalProcessingError | UnknownError

  datatype CertDeleteResult =
    | Success | NoCertificate | InvalidSerialCode | FileDeleteFailed
    | InvalidProtocolVersion | UnknownError

  /** PenCommV2.SettingType, whose numeric values are sent on the wire. */
  datatype SettingType =
    | Timestamp | AutoPowerOffTime | PenCapOff | AutoPowerOn | Beep | Hover | OfflineData
    | LedColor | Sensitivity | UsbMode | DownSampling | BtLocalName | FscSensitivity
    | DataTransmissionType | BeepAndLight

  // ---------------------------------------------------------------------------
  // Session values.

  /** The RSA private key the application hands in; its contents are opaque here. */
  datatype PrivateKey = PrivateKey(material: seq<byte>)

  /** The fields of a SETTING_INFO_RESPONSE, as decoded by the packet reader. */
  datatype StatusReport = StatusReport(
    locked: bool, maxRetry: int, retry: int, time: int, autoPowerOffTime: int, maxForce: int,
    usedStorage: int, penCapOff: bool, autoPowerOn: bool, beep: bool, hover: bool,
    battery: int, useOffline: bool, usbBulk: bool, downsampling: bool, btLocalName: string)

  /** The fields of a VERSION_RESPONSE. */
  datatype VersionInfo = VersionInfo(deviceName: string, firmwareVersion: string, protocolVersion: string,
                                     subName: string, deviceType: int, mac: Mac)

  /** One entry of an offline note list. */
  datatype OfflineNote = OfflineNote(section: int, owner: int, note: int)

  // ---------------------------------------------------------------------------
  // Firmware image.

  /** One piece of a loaded firmware image and its checksum (Chunk.Get / Chunk.GetChecksum). */
  datatype Piece = Piece(data: seq<byte>, checksum: byte)

  /** What Chunk.Load yields for a firmware file: the pieces, the file size and the whole-file checksum. */
  datatype FirmwareFile = FirmwareFile(pieces: seq<Piece>, fileSize: int, totalChecksum: byte)

  /** A Chunk object: the piece size it was created with and, once Load succeeded, the file it holds. */
  datatype ChunkSet = ChunkSet(chunkSize: int, file: Option<FirmwareFile>)

  // ---------------------------------------------------------------------------
  // Callbacks (PenCommV2Callbacks), in the order they are raised.

  datatype Event =
    | Connected(version: Option<VersionInfo>, maxForce: int) // None before any VERSION_RESPONSE
    | PasswordRequest(retry: int, max: int)
    | PenAuthenticated
    | PrivateKeyRequest
    | SecureCommunicationFailure(reason: SecureFailure)
    | PenStatus(report: StatusReport, maxForce: int)
    | SettingResult(setting: SettingType, ok: bool)
    | PasswordSetUpResult(ok: bool)
    | ErrorDetected(kind: ErrorType, ts: int, errorDot: Option<Dot>, detail: Detail, imageError: Option<ImageErrorInfo>)
    | DotReceived(dot: Dot, info: Option<ImageInfo>)
    | SymbolDetected(symbols: seq<Symbol>)
    | BatteryAlarm(level: int)
    | FirmwareUpdateResult(ok: bool)
    | FirmwareUpdateStatus(total: int, sent: int)
    | OfflineDataList(notes: seq<OfflineNote>)
    | OfflinePageList(section: int, owner: int, note: int, pages: seq<int>)
    | OfflineDownloadStarted
    | OfflineDownloadFinished(ok: bool)
    | OfflineStrokes(total: int, received: int, strokes: seq<Stroke>, symbols: seq<Symbol>)
    | OfflineDataRemoved(ok: bool)
    | AvailableNoteAccepted(ok: bool)
    | CertificateUpdated(updateResult: CertUpdateResult)
    | CertificateDeleted(deleteResult: CertDeleteResult)
    | Disconnected

  // ---------------------------------------------------------------------------
  // Requests the engine itself sends (each one is a builder of PenCommV2).

  datatype Request =
    | VersionRequest
    | StatusRequest
    | SetupTime(tick: int)
    | PasswordInput(password: string)
    | PasswordChange(oldPassword: string, newPassword: string)
    | EncryptionKeyRequest
    | OfflinePacketAck(encrypted: bool, index: int, ok: bool)
    | OnlineDataAck(index: int, count: byte)
    | FirmwareUpload(device: string, version: string, fileSize: int, chunkSize: int, checksum: byte)
    | ChunkData(offset: int, checksum: byte, rawLength: int, compressed: seq<byte>)
    | ChunkAbort(offset: int)

  /** One entry of the single output log. */
  datatype Action =
    | Notify(event: Event)    // a callback is raised
    | Transmit(request: Request) // a frame is written
    | Teardown                // base.Clean(): the connection is torn down
    | Fault                   // an exception escapes the handler; the rest of the packet is skipped

  // ---------------------------------------------------------------------------
  // Inbound packets, with their fields already read by the packet reader.

  /** The sample fields of a dot event. */
  datatype DotSample = DotSample(timeAdd: uint8, force: int, x: int, y: int, fx: int, fy: int)

  /** The paper fields of a paper-info event: packed section/owner, note, page. */
  datatype PaperAddress = PaperAddress(rb: Quad, note: int, page: int)

  /** The fields of a pen-error event after its time delta. */
  datatype ErrorSample = ErrorSample(timeAdd: uint8, force: int, brightness: int, exposureTime: int,
                                     processTime: int, labelCount: int, errorCode: int,
                                     classType: int, errorCount: int)

  /** The live pen events of ParseDotPacket; `ecount` is present on the NEW_ variants. */
  datatype DotEvent =
    | NewPenDown(ecount: int, time: int, tip: byte, color: int)
    | NewPenUp(ecount: int, time: int, dotCount: int, total: int, processed: int, success: int, transferred: int)
    | PenUpDown(isDown: bool, time: int, tip: byte, color: int)
    | DotMove(ecountOpt: Option<int>, sample: DotSample)
    | PaperInfo(ecountOpt: Option<int>, addr: PaperAddress)
    | PenErrorEvent(ecountOpt: Option<int>, err: ErrorSample)

  /** The items of an ONLINE_PEN_DATA_REQUEST, by their type byte. */
  datatype OnlineItem =
    | ItemDown(time: int, tip: byte, color: int)                                // 0x10
    | ItemUp(time: int, total: int, processed: int, success: int, transferred: int) // 0x20
    | ItemPaper(addr: PaperAddress)                                              // 0x30
    | ItemDot(sample: DotSample)                                                 // 0x40
    | ItemOther(kind: byte)                                                      // any other type byte

  /** One dot of an offline stroke, with the checksum computed over its 15 bytes. */
  datatype RawDot = RawDot(computedChecksum: byte, timeAdd: uint8, force: int, x: int, y: int,
                           fx: int, fy: int, checksum: byte)

  /**
   * One offline stroke: its header and the dots the reader got through. The
   * reader reads `dotCount` dots; fewer are present only when the data ran out.
   */
  datatype RawStroke = RawStroke(pageId: int, timeStart: int, timeEnd: int, tip: int, color: int,
                                 dotCount: int, dots: seq<RawDot>)

  /**
   * What reading `strCount` strokes from a decompressed offline body yields:
   * the strokes read, in order, and whether the data held all of them (when
   * it did not, the reader throws after the last dot it could read).
   */
  datatype StrokeData = StrokeData(strokes: seq<RawStroke>, complete: bool)

  /**
   * The 18 header bytes of an OFFLINE_PACKET_REQUEST, decoded, and the bytes
   * after them (so the packet's data length is |body| + 18).
   */
  datatype OfflinePacket = OfflinePacket(packetId: int, compressed: bool, sizeBefore: int, sizeAfter: int,
                                         location: int, rb: Quad, note: int, strCount: int,
                                         body: seq<byte>)

  datatype Packet =
    | VersionResponse(info: VersionInfo)
    | OnlineDataRequest(index: int, count: byte, items: seq<OnlineItem>)
    | ShutdownEvent(reason: int)
    | LowBatteryEvent(battery: uint8)
    | DotPacket(ev: DotEvent)
    | StatusResponse(report: StatusReport, encryptionType: int)
    | SettingChangeResponse(typeCode: int, result: byte)
    | PasswordResponse(status: int, retry: int, max: int)
    | PasswordChangeResponse(retry: int, max: int, result: byte)
    | OfflineNoteListResponse(entries: seq<(Quad, int)>)
    | OfflinePageListResponse(rb: Quad, note: int, pages: seq<int>)
    | OfflineDataResponse(result: byte, totalStrokes: int, totalSize: int, compressed: bool)
    | OfflinePacketRequest(packet: OfflinePacket)
    | OfflineDeleteResponse(result: byte)
    | FirmwareUploadResponse(result: byte, status: int)
    | FirmwarePacketRequest(status: int, offset: int)
    | OnlineDataResponse(result: byte)
    | CertUpdateResponse(code: int)
    | CertDeleteResponse(code: int)
    | KeyResponse(result: byte, code: int, data: seq<byte>)
    | EncryptedDotEvent(isDot: bool, block: seq<byte>)
    | EncryptedOfflinePacket(data: seq<byte>)
    | Unhandled

  /** What a handler leaves behind: the new state and the actions it appended, in order. */
  datatype Outcome<S> = Outcome(st: S, out: seq<Action>)

  /** A handler faulted when its last action is Fault. */
  predicate Faulted(out: seq<Action>)
  {
    |out| > 0 && out[|out| - 1] == Fault
  }
}
