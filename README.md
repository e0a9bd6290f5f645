# PenCommV2 in Dafny

A verified model of `PenCommV2`, the protocol engine of the Neosmartpen
Windows SDK 2.0 for version 2 pens. The engine talks to a smart pen over a
Bluetooth byte stream. It sends requests (version, status, settings,
passwords, using-note lists, offline data, firmware chunks, certificates,
encryption keys) and reacts to the packets the pen sends back. From those
packets it rebuilds strokes from live dot events, downloads offline strokes,
drives the firmware upgrade, and runs pen authentication with optional RSA/AES
encryption.

The project is organised as follows:

- `base.dfy`, `types.dfy` (module `Model`), `state.dfy` hold the data model:
  bytes, dots, strokes, callbacks (`Event`), written frames (`Request`), the
  decoded packets (`Packet`) and the engine's fields grouped into four
  records (`LiveState`, `Session`, `Transfer`, `Upgrade`).
- `codec.dfy` covers byte stuffing (`Escape`), little-endian fields, frame
  encoding and parsing, and the section/owner address bytes.
- `codes.dfy` covers result codes, setting codes and the F121MG address range.
- `buffers.dfy` is `ByteUtil`, a class whose methods append to a frame
  being built.
- `requests.dfy` has every request builder as a method over a `ByteUtil`,
  each proved to produce `EncodeFrame` of its payload.
- `live.dfy` is the live stroke reconstructor (ParseDotPacket,
  CheckEventCount, SendDotReceiveEvent, MakeUpDot, ParseOnlineDataRequest)
  as functions from state to state and log. `live_props.dfy` holds its
  properties, one packet at a time and over whole strokes.
- `auth.dfy` covers version, status, setting, password, key and connection
  handling.
- `offline.dfy` covers offline data download: retries, checksums, stroke
  decoding and symbol collection.
- `firmware.dfy` covers the firmware upgrade and its single failure callback.
- `protocol.dfy` covers the encrypted wrappers and `Step`, the whole
  ParsePacket dispatch.
- `engine.dfy` (module `PenComm`) is the class `PenCommV2`, with the C#
  fields and one method per handler. Each method is proved to leave the state
  and log that its specification function gives. The loops of the original
  are methods with invariants: `DecodeStrokes`, `CollectSymbols`,
  `ContainsId`, `DecryptBlocks` and `OnlineItems`.

Each callback raised, frame written, `Clean()` teardown, and exception that
escapes the handler is one entry of the engine's log (`Action`). Time, the
packet readers, zlib, RSA, AES, the protocol-version check and the metadata
manager's symbol matcher are inputs: the clock is a `now` parameter, and the
rest are function fields of `Externals`.

Some behaviour follows the code as written:

- The 16-bit declared length is compared modulo 2^16.
- The offline checksum check gives up on the third bad dot of a packet
  (`checksumErrorCount++ > 1`), not the second.
- The received offline stroke count grows before the packet is validated,
  so a NACKed packet still counts.
- An encrypted offline packet whose length is not 9 plus a multiple of 16
  reports UnknownError but does not tear the connection down.
- An accepted password (PASSWORD_RESPONSE status 1) reports the pen
  authenticated without setting the authenticated flag.
- OnDisconnected keeps the offline counters, the upgrade state and the
  private key.
- A file that fails to load in ReqPenSwUpgrade leaves the upload flag set.
- A repeated event counter is accepted silently.
- An online dot item delivers the previous dot, not the new one. With no
  previous dot this dereferences null, and the model logs that as a fault
  that ends the request without its ACK.
- A failed FIRMWARE_UPLOAD_RESPONSE does not set the failure-reported flag,
  so a later chunk request raises a second failure callback
  (`Firmware.UploadFailureThenChunk`).

## Model

| member | source | states |
|---|---|---|
| Codec.Flip | Neosmartpen.Net.Protocol.v2/Neosmartpen/Net/Protocol/v2/PenCommV2.cs:1736 | the escaped byte is the input with bit 5 inverted and every other bit kept |
| Codec.FlipFlip | Neosmartpen.Net.Protocol.v2/Neosmartpen/Net/Protocol/v2/PenCommV2.cs:1736 | XOR with 0x20 undoes itself, so the byte after DLE restores the original |
| Codec.Escape | Neosmartpen.Net.Protocol.v2/Neosmartpen/Net/Protocol/v2/PenCommV2.cs:1732-1742 | STX, ETX and DLE become DLE followed by the flipped byte, every other byte stays as it is; the output never holds STX or ETX and always decodes back to the input |
| Codec.EscapeAllNoMarkers | Neosmartpen.Net.Protocol.v2/Neosmartpen/Net/Protocol/v2/PenCommV2.cs:1732-1742 | a stuffed byte string never contains STX or ETX |
| Codec.UnescapeEscapeAll | Neosmartpen.Net.Protocol.v2/Neosmartpen/Net/Protocol/v2/PenCommV2.cs:1732-1742 | unstuffing inverts stuffing: Unescape(EscapeAll(s)) == Some(s) |
| Codec.ParseEncodeFrame | Neosmartpen.Net.Protocol.v2/Neosmartpen/Net/Protocol/v2/PenCommV2.cs:1704-1713 | a frame built as STX, escaped command, optional status, 16-bit little-endian length, payload and ETX parses back to its command, status and payload exactly when the declared length modulo 2^16 equals the payload size |
| Codec.FrameMarkersOnlyAtEnds | Neosmartpen.Net.Protocol.v2/Neosmartpen/Net/Protocol/v2/PenCommV2.cs:1704-1713 | inside an escaped frame, STX and ETX appear only as its first and last byte |
| Codec.SectionOwnerRoundTrip | Neosmartpen.Net.Protocol.v2/Neosmartpen/Net/Protocol/v2/PenCommV2.cs:2437-2443 | GetSectionOwnerByte followed by the unpacking used on receipt gives back the section's low 8 bits and the owner's low 24 bits |
| Codec.FromLEOfLE | Neosmartpen.Net.Protocol.v2/Neosmartpen/Net/Protocol/v2/PenCommV2.cs:1710-1711 | reading n little-endian bytes back gives the written value modulo 256^n |
| Codes.CertUpdateOf | Neosmartpen.Net.Protocol.v2/Neosmartpen/Net/Protocol/v2/PenCommV2.cs:955-975 | codes 0..5 map to the six named certificate-update results and 0 alone to Success; every other code is UnknownError |
| Codes.CertUpdateInjective | Neosmartpen.Net.Protocol.v2/Neosmartpen/Net/Protocol/v2/PenCommV2.cs:955-975 | different codes in 0..5 give different results |
| Codes.CertDeleteOf | Neosmartpen.Net.Protocol.v2/Neosmartpen/Net/Protocol/v2/PenCommV2.cs:977-995 | codes 0..4 map to the five named certificate-delete results and 0 alone to Success; every other code is UnknownError |
| Codes.CertDeleteInjective | Neosmartpen.Net.Protocol.v2/Neosmartpen/Net/Protocol/v2/PenCommV2.cs:977-995 | different codes in 0..4 give different results |
| Codes.SettingCode | Neosmartpen.Net.Protocol.v2/Neosmartpen/Net/Protocol/v2/PenCommV2.cs:1858 | each SettingType has a code in 1..16 other than 15 |
| Codes.SettingOf | Neosmartpen.Net.Protocol.v2/Neosmartpen/Net/Protocol/v2/PenCommV2.cs:476-478 | a code names a setting exactly when it is in 1..16 and not 15 |
| Codes.SettingRoundTrip | Neosmartpen.Net.Protocol.v2/Neosmartpen/Net/Protocol/v2/PenCommV2.cs:1858 | SettingCode and SettingOf are mutually inverse on the defined codes |
| Codes.F121MGBytes | Neosmartpen.Net.Protocol.v2/Neosmartpen/Net/Protocol/v2/PenCommV2.cs:2461-2474 | the MG address range check is the same as: the first four bytes are 9C 7B D2 22 and the last two, read big-endian, are at most 0x1806 |
| Requests.DeclaredSize | Neosmartpen.Net.Protocol.v2/Neosmartpen/Net/Protocol/v2/PenCommV2.cs:1704-1713 | a frame whose length field is its payload size reads back whole exactly when the payload fits in 16 bits |
| Requests.ReqVersion | Neosmartpen.Net.Protocol.v2/Neosmartpen/Net/Protocol/v2/PenCommV2.cs:1754-1775 | the version request is the encoded frame of the 42-byte payload: 16 zero bytes, 0x12 0x01, the app version in 16 bytes and the protocol version in 8 |
| Requests.ReqPenStatus | Neosmartpen.Net.Protocol.v2/Neosmartpen/Net/Protocol/v2/PenCommV2.cs:1846-1856 | the status request is written without escaping as STX, cmd, 0, 0, ETX, and it is a well-formed empty frame whenever the command byte is not a marker |
| Requests.UnstuffedStatusFrame | Neosmartpen.Net.Protocol.v2/Neosmartpen/Net/Protocol/v2/PenCommV2.cs:1846-1856 | for a non-marker command the unescaped status request equals the escaped encoding and parses to an empty frame |
| Requests.ResponseOnlineData | Neosmartpen.Net.Protocol.v2/Neosmartpen/Net/Protocol/v2/PenCommV2.cs:1703-1716 | the online-data ACK has status 0, declared length 5, the index as 4 little-endian bytes (mod 2^32) and the count |
| Requests.PasswordChangeFrame | Neosmartpen.Net.Protocol.v2/Neosmartpen/Net/Protocol/v2/PenCommV2.cs:1797-1809 | the change request has a 33-byte payload: a flag that is 0 exactly for an empty new password, then the old and new passwords in 16 bytes each |
| Requests.PasswordInputFrame | Neosmartpen.Net.Protocol.v2/Neosmartpen/Net/Protocol/v2/PenCommV2.cs:1825-1834 | the password request carries the UTF-8 password padded or cut to 16 bytes |
| Requests.SettingPayloadShape | Neosmartpen.Net.Protocol.v2/Neosmartpen/Net/Protocol/v2/PenCommV2.cs:1866-1907 | each setting's payload has the length its case declares and starts with the setting's own code |
| Requests.RequestChangeSetting | Neosmartpen.Net.Protocol.v2/Neosmartpen/Net/Protocol/v2/PenCommV2.cs:1860-1912 | the setting request is the encoded frame of the per-type payload with the per-type declared length |
| Requests.UsingNoteSize | Neosmartpen.Net.Protocol.v2/Neosmartpen/Net/Protocol/v2/PenCommV2.cs:2080-2105 | each of the three using-note layouts declares exactly its payload size |
| Requests.SendAddUsingNote | Neosmartpen.Net.Protocol.v2/Neosmartpen/Net/Protocol/v2/PenCommV2.cs:2073-2110 | the using-note request is the encoded frame of one of three layouts: one section/owner with all notes, one section/owner with listed notes, or all notes |
| Requests.SendAddUsingNoteList | Neosmartpen.Net.Protocol.v2/Neosmartpen/Net/Protocol/v2/PenCommV2.cs:2112-2130 | with at least as many owners as sections the frame lists each section/owner pair followed by FF FF FF FF; with fewer owners no frame is produced, where the source throws |
| Requests.WriteUsingNoteList | Neosmartpen.Net.Protocol.v2/Neosmartpen/Net/Protocol/v2/PenCommV2.cs:2114-2129 | the same result for a length computed beforehand |
| Requests.PutAddresses | Neosmartpen.Net.Protocol.v2/Neosmartpen/Net/Protocol/v2/PenCommV2.cs:2121-2125 | the loop completes exactly when every section has an owner, and then it has appended each pair's address bytes and FF FF FF FF in order |
| Requests.NoteListPayload | Neosmartpen.Net.Protocol.v2/Neosmartpen/Net/Protocol/v2/PenCommV2.cs:2178 | with a positive section and owner the 4 bytes unpack to them (mod 2^8 and 2^24); otherwise they are FF FF FF FF |
| Requests.ReqOfflineDataList | Neosmartpen.Net.Protocol.v2/Neosmartpen/Net/Protocol/v2/PenCommV2.cs:2174-2187 | the note-list request is the encoded 4-byte frame of that address |
| Requests.ReqOfflineDataPageList | Neosmartpen.Net.Protocol.v2/Neosmartpen/Net/Protocol/v2/PenCommV2.cs:2196-2208 | the page-list request is the encoded 8-byte frame of address and note |
| Requests.OfflineDataPayload | Neosmartpen.Net.Protocol.v2/Neosmartpen/Net/Protocol/v2/PenCommV2.cs:2223-2244 | the data request payload is 14 + 4*|pages| bytes and starts with 1 (delete on finish) or 2, then 1 |
| Requests.ReqOfflineData | Neosmartpen.Net.Protocol.v2/Neosmartpen/Net/Protocol/v2/PenCommV2.cs:2219-2249 | the offline data request is the encoded frame of that payload, declared length 14 + 4*|pages| |
| Requests.WriteDataRequest | Neosmartpen.Net.Protocol.v2/Neosmartpen/Net/Protocol/v2/PenCommV2.cs:2227-2248 | the loop over the pages appends each page as 4 little-endian bytes, giving exactly that payload |
| Requests.SendOfflinePacketResponse | Neosmartpen.Net.Protocol.v2/Neosmartpen/Net/Protocol/v2/PenCommV2.cs:2251-2267 | the offline packet ACK has status 0 on success and 1 otherwise, declared length 3, the packet id and 1 |
| Requests.RemovePayload | Neosmartpen.Net.Protocol.v2/Neosmartpen/Net/Protocol/v2/PenCommV2.cs:2282-2291 | the delete payload is 5 + 4*|notes| bytes with the note count, mod 256, in byte 4 |
| Requests.ReqRemoveOfflineData | Neosmartpen.Net.Protocol.v2/Neosmartpen/Net/Protocol/v2/PenCommV2.cs:2275-2296 | the delete request is the encoded frame of that payload, declared length 5 + 4*|notes| |
| Requests.WriteRemoveRequest | Neosmartpen.Net.Protocol.v2/Neosmartpen/Net/Protocol/v2/PenCommV2.cs:2277-2295 | the loop over the notes appends each note as 4 little-endian bytes, giving exactly that payload |
| Requests.ToShort | Neosmartpen.Net.Protocol.v2/Neosmartpen/Net/Protocol/v2/PenCommV2.cs:2403 | the (short) cast lands in -32768..32767 and is congruent to its input modulo 2^16 |
| Requests.ShortField | Neosmartpen.Net.Protocol.v2/Neosmartpen/Net/Protocol/v2/PenCommV2.cs:2403-2408 | writing the value cast to short writes the same two bytes as the uncast value |
| Requests.FirmwareUploadFrame | Neosmartpen.Net.Protocol.v2/Neosmartpen/Net/Protocol/v2/PenCommV2.cs:2346-2359 | the upload request is the encoded 42-byte frame: device and version in 16 bytes each, file size, chunk size, 1 and the total checksum |
| Requests.ChunkAbortFrame | Neosmartpen.Net.Protocol.v2/Neosmartpen/Net/Protocol/v2/PenCommV2.cs:2370-2379 | the terminal chunk response has status 0, declared length 14, a payload starting with 1 and the offset |
| Requests.ChunkDataFrame | Neosmartpen.Net.Protocol.v2/Neosmartpen/Net/Protocol/v2/PenCommV2.cs:2403-2415 | the chunk response has declared length (short)(|cdata| + 14) and a payload starting with 0 and ending with the compressed data |
| Requests.ReqUpdateCertificate | Neosmartpen.Net.Protocol.v2/Neosmartpen/Net/Protocol/v2/PenCommV2.cs:2815-2830 | an empty certificate gives no frame; otherwise the frame carries the certificate with its length cast to short |
| Requests.ReqDeleteCertificate | Neosmartpen.Net.Protocol.v2/Neosmartpen/Net/Protocol/v2/PenCommV2.cs:2837-2860 | no frame when the serial number cannot be converted; otherwise 17 bytes: the byte count then the bytes in 16 |
| Requests.ReqEncryptionKey | Neosmartpen.Net.Protocol.v2/Neosmartpen/Net/Protocol/v2/PenCommV2.cs:2862-2872 | the key request is an 8-byte frame of zeros |
| Live.EventCountRule | Neosmartpen.Net.Protocol.v2/Neosmartpen/Net/Protocol/v2/PenCommV2.cs:1242-1268 | the counter always becomes c; a successor, 255 then 0, or a repeat is silent; a jump forward reports the missed range; a step back reports both values |
| Live.DeliverRule | Neosmartpen.Net.Protocol.v2/Neosmartpen/Net/Protocol/v2/PenCommV2.cs:1577-1597 | onReceiveDot is raised first, a symbol callback can follow only for a PEN_UP, and the dot ends the current stroke, which is new when the dot is a PEN_DOWN or there was none |
| Live.ItemDotOf | Neosmartpen.Net.Protocol.v2/Neosmartpen/Net/Protocol/v2/PenCommV2.cs:1672-1681 | an online dot item makes a dot exactly while hovering or pen-down, at the running time, and never a PEN_UP or PEN_ERROR |
| LiveProps.DotTyping | Neosmartpen.Net.Protocol.v2/Neosmartpen/Net/Protocol/v2/PenCommV2.cs:1469-1474 | inside a stroke a dot is PEN_DOWN at dot counter 0 and PEN_MOVE after, never earlier than the clock, and leaves a pen-up owed |
| LiveProps.HoverTyping | Neosmartpen.Net.Protocol.v2/Neosmartpen/Net/Protocol/v2/PenCommV2.cs:1465-1468 | in hover mode with no pen-down a dot is PEN_HOVER and owes no pen-up |
| LiveProps.DotWithoutContext | Neosmartpen.Net.Protocol.v2/Neosmartpen/Net/Protocol/v2/PenCommV2.cs:1445-1451 | no pen-down and no paper info: MissingPenDown with no dot, and the stroke is untouched |
| LiveProps.DotSynthesisesDown | Neosmartpen.Net.Protocol.v2/Neosmartpen/Net/Protocol/v2/PenCommV2.cs:1452-1462 | with paper info but no pen-down the down is synthesised at the clock time and reported with an error dot, then the dot is delivered |
| LiveProps.DotWithoutPaper | Neosmartpen.Net.Protocol.v2/Neosmartpen/Net/Protocol/v2/PenCommV2.cs:1475-1479 | pen-down without paper info: MissingPageChange and the dot is dropped |
| LiveProps.DownInterruptsStroke | Neosmartpen.Net.Protocol.v2/Neosmartpen/Net/Protocol/v2/PenCommV2.cs:1275-1303 | a pen-down in the middle of a stroke first reports MissingPenUp and delivers the PEN_UP clone, then opens a fresh stroke |
| LiveProps.PaperInterruptsStroke | Neosmartpen.Net.Protocol.v2/Neosmartpen/Net/Protocol/v2/PenCommV2.cs:1493-1519 | a paper change in the middle of a stroke delivers the PEN_UP clone without reporting an error and takes the new address |
| LiveProps.PenUpRule | Neosmartpen.Net.Protocol.v2/Neosmartpen/Net/Protocol/v2/PenCommV2.cs:1305-1362 | a pen-up delivers the PEN_UP clone exactly when one is owed, with image info only when the down was not synthesised; otherwise it reports what is missing; every stroke flag is then reset |
| LiveProps.PenUpDownRule | Neosmartpen.Net.Protocol.v2/Neosmartpen/Net/Protocol/v2/PenCommV2.cs:1364-1419 | the old up/down event: a down mid-stroke reports MissingPenUp before the clone, an up delivers it silently or reports what is missing; the flags are reset and only the pen state and clock differ |
| LiveProps.PenErrorRule | Neosmartpen.Net.Protocol.v2/Neosmartpen/Net/Protocol/v2/PenCommV2.cs:1521-1566 | a pen error reports one ImageProcessingError with the advanced clock and a PEN_UP clone of the last dot, and changes only the counter and the clock |
| LiveProps.DisconnectClosesStroke | Neosmartpen.Net.Protocol.v2/Neosmartpen/Net/Protocol/v2/PenCommV2.cs:258-272 | disconnecting mid-stroke reports MissingPenUp and delivers the PEN_UP clone; otherwise it does nothing; afterwards no pen-up is owed |
| LiveProps.StrokeTimesNonDecreasing | Neosmartpen.Net.Protocol.v2/Neosmartpen/Net/Protocol/v2/PenCommV2.cs:1431-1433 | along a run of dots the timestamps never decrease |
| LiveProps.DotRun | Neosmartpen.Net.Protocol.v2/Neosmartpen/Net/Protocol/v2/PenCommV2.cs:1421-1490 | a run of counted dot packets inside a stroke delivers one dot per packet, typed by position and timed by the sum of the deltas, and from a fresh counter the current stroke holds exactly those dots |
| LiveProps.OpenStroke | Neosmartpen.Net.Protocol.v2/Neosmartpen/Net/Protocol/v2/PenCommV2.cs:1275-1303 | a counted pen-down and paper info with nothing pending are silent and open the stroke |
| LiveProps.CloseOwed | Neosmartpen.Net.Protocol.v2/Neosmartpen/Net/Protocol/v2/PenCommV2.cs:1319-1338 | a counted pen-up with a pen-up owed delivers the UP clone with its image info first, followed only by symbol callbacks |
| LiveProps.WellFormedStroke | Neosmartpen.Net.Protocol.v2/Neosmartpen/Net/Protocol/v2/PenCommV2.cs:1271-1568 | down, paper info, one or more dots and an up with consecutive counters raise no error and deliver exactly PEN_DOWN, PEN_MOVE..., PEN_UP, then at most symbol callbacks; the current stroke holds exactly those dots |
| LiveProps.StrokeShape | Neosmartpen.Net.Protocol.v2/Neosmartpen/Net/Protocol/v2/PenCommV2.cs:1473 | a delivered stroke opens with PEN_DOWN, carries only PEN_MOVE between and closes with PEN_UP |
| LiveProps.ItemsKeepIndex | Neosmartpen.Net.Protocol.v2/Neosmartpen/Net/Protocol/v2/PenCommV2.cs:1621-1697 | the items of an online data request never change the accepted index or count |
| LiveProps.OnlineDataAckRule | Neosmartpen.Net.Protocol.v2/Neosmartpen/Net/Protocol/v2/PenCommV2.cs:1606-1701 | an index at or below the last accepted one is only re-acknowledged; a new one is recorded, processed, and acknowledged last unless processing faults; the accepted index never goes back |
| LiveProps.OnlineDotDeliversPrevious | Neosmartpen.Net.Protocol.v2/Neosmartpen/Net/Protocol/v2/PenCommV2.cs:1687-1694 | a dot item delivers the previous dot, not itself, and faults when there is none; the new dot becomes the last dot |
| Auth.IdentifyRule | Neosmartpen.Net.Protocol.v2/Neosmartpen/Net/Protocol/v2/PenCommV2.cs:294-314 | only the device name can change, and it becomes NWP-F121MG exactly for an NWP-F121 in the MG address range with the MG sub-name |
| Auth.VersionRule | Neosmartpen.Net.Protocol.v2/Neosmartpen/Net/Protocol/v2/PenCommV2.cs:294-314 | a version response records the identity, resets MaxForce, the event counter and the upload flag, asks for the status, and changes nothing else |
| Auth.AuthenticationRule | Neosmartpen.Net.Protocol.v2/Neosmartpen/Net/Protocol/v2/PenCommV2.cs:424-461 | before authentication a status response reports the connection, then asks for the password, authenticates with one time sync, asks for a private key, requests the AES key, or reports the failure, by lock flag, encryption type and key state |
| Auth.StatusAfterAuthentication | Neosmartpen.Net.Protocol.v2/Neosmartpen/Net/Protocol/v2/PenCommV2.cs:462-465 | once authenticated a status response only reports the status with the stored MaxForce and updates hover and encrypted mode |
| Auth.SettingChangeAnswersRequest | Neosmartpen.Net.Protocol.v2/Neosmartpen/Net/Protocol/v2/PenCommV2.cs:473-546 | the response to a setting change raises the one callback for that setting, with whether the result byte is 0 |
| Auth.PasswordGuards | Neosmartpen.Net.Protocol.v2/Neosmartpen/Net/Protocol/v2/PenCommV2.cs:1785-1823 | a password request is sent exactly when no password involved is null or "0000"; a rejected call changes nothing |
| Auth.PasswordAcceptedKeepsFlag | Neosmartpen.Net.Protocol.v2/Neosmartpen/Net/Protocol/v2/PenCommV2.cs:548-560 | an accepted password outside a change syncs the time and reports authenticated but leaves every field, the authenticated flag included, unchanged |
| Auth.TwoStepPasswordChange | Neosmartpen.Net.Protocol.v2/Neosmartpen/Net/Protocol/v2/PenCommV2.cs:581-597 | an accepted change re-sends the new password with the re-check flag set; the answer to it gives exactly one set-up result and clears the flag |
| Auth.PasswordChangeRefused | Neosmartpen.Net.Protocol.v2/Neosmartpen/Net/Protocol/v2/PenCommV2.cs:588-596 | a refused change reports failure once and blanks the stored new password |
| Auth.KeyRule | Neosmartpen.Net.Protocol.v2/Neosmartpen/Net/Protocol/v2/PenCommV2.cs:997-1040 | the AES key is taken and the status asked for exactly when both result codes are 0, a private key is set and it unwraps the data to 32 bytes; otherwise the reason is reported and the connection torn down |
| Auth.PrivateKeyRule | Neosmartpen.Net.Protocol.v2/Neosmartpen/Net/Protocol/v2/PenCommV2.cs:2880-2898 | the private key is stored exactly when the call answers true, and refused only on a live authenticated connection; a live store asks for the status |
| Auth.ConnectRule | Neosmartpen.Net.Protocol.v2/Neosmartpen/Net/Protocol/v2/PenCommV2.cs:251-256 | connecting asks for the version and forgets only the last accepted online data index, so the next request with a non-negative index is processed |
| Auth.DisconnectRule | Neosmartpen.Net.Protocol.v2/Neosmartpen/Net/Protocol/v2/PenCommV2.cs:258-283 | disconnecting drops the AES key, the authentication and the encrypted mode, keeps the private key, identity, offline and upgrade state, and raises onDisconnected last |
| Offline.DataResponseRule | Neosmartpen.Net.Protocol.v2/Neosmartpen/Net/Protocol/v2/PenCommV2.cs:643-662 | the counters restart; a transfer of zero strokes finishes with failure at once and any other starts |
| Offline.BadTotalBound | Neosmartpen.Net.Protocol.v2/Neosmartpen/Net/Protocol/v2/PenCommV2.cs:779-790 | the bad dots counted part-way never exceed the packet's total |
| Offline.GoodDots | Neosmartpen.Net.Protocol.v2/Neosmartpen/Net/Protocol/v2/PenCommV2.cs:752-822 | a stroke keeps as many dots as it read less the bad ones |
| Offline.StrokeShape | Neosmartpen.Net.Protocol.v2/Neosmartpen/Net/Protocol/v2/PenCommV2.cs:746-805 | a decoded stroke's timestamps never decrease, PEN_DOWN can only be its first dot and PEN_UP only its last |
| Offline.DecodeAllAt | Neosmartpen.Net.Protocol.v2/Neosmartpen/Net/Protocol/v2/PenCommV2.cs:732-825 | the k-th decoded stroke is the decoding of the k-th raw stroke |
| Offline.AddNewRule | Neosmartpen.Net.Protocol.v2/Neosmartpen/Net/Protocol/v2/PenCommV2.cs:837-843 | adding found symbols keeps ids distinct, keeps the earlier list as prefix, lists every found id and adds only found symbols |
| Offline.CollectRule | Neosmartpen.Net.Protocol.v2/Neosmartpen/Net/Protocol/v2/PenCommV2.cs:827-846 | the packet's symbol list has distinct ids, lists every symbol found for a stroke, and holds only found symbols |
| Offline.RetryRule | Neosmartpen.Net.Protocol.v2/Neosmartpen/Net/Protocol/v2/PenCommV2.cs:690-726 | the received count grows by the stroke count whatever happens; a size mismatch NACKs up to three times and then finishes with failure; a good packet is ACKed, resets the retry counter and finishes with success only at location 2 |
| Offline.PacketKeepsSession | Neosmartpen.Net.Protocol.v2/Neosmartpen/Net/Protocol/v2/PenCommV2.cs:664-860 | an offline data packet changes only the transfer counters |
| Offline.ChecksumRule | Neosmartpen.Net.Protocol.v2/Neosmartpen/Net/Protocol/v2/PenCommV2.cs:779-851 | a third bad dot gives up the packet with failure and delivers nothing; otherwise the strokes delivered are the decoding of every raw stroke, with their symbols |
| Firmware.TruncDiv | Neosmartpen.Net.Protocol.v2/Neosmartpen/Net/Protocol/v2/PenCommV2.cs:2393 | C# integer division: on non-negative operands it is Euclidean division |
| Firmware.TruncDivRounding | Neosmartpen.Net.Protocol.v2/Neosmartpen/Net/Protocol/v2/PenCommV2.cs:2393 | the quotient rounds toward zero: the remainder has the dividend's sign and is smaller than the divisor in size |
| Firmware.UpgradeStartRule | Neosmartpen.Net.Protocol.v2/Neosmartpen/Net/Protocol/v2/PenCommV2.cs:2312-2360 | while uploading a new upgrade is refused and nothing changes; otherwise the state restarts with a fresh chunk set and clear failure flag, stays uploading even when loading fails, and sends the upload request exactly on a successful load |
| Firmware.ChunkTerminal | Neosmartpen.Net.Protocol.v2/Neosmartpen/Net/Protocol/v2/PenCommV2.cs:2368-2390 | on a stop status, a suspended upgrade or an inactive upload the terminal response is sent, the upload cleared, and the failure callback raised only if not raised before |
| Firmware.ChunkServe | Neosmartpen.Net.Protocol.v2/Neosmartpen/Net/Protocol/v2/PenCommV2.cs:2391-2420 | otherwise nothing changes and piece offset/chunk size, truncated toward zero, is sent with its checksum and sizes, reporting index + 1 pieces sent |
| Firmware.ApplyFailures | Neosmartpen.Net.Protocol.v2/Neosmartpen/Net/Protocol/v2/PenCommV2.cs:2364-2431 | one chunk request or suspension raises the failure callback at most once, only while the flag is clear, and sets it |
| Firmware.AtMostOneFailure | Neosmartpen.Net.Protocol.v2/Neosmartpen/Net/Protocol/v2/PenCommV2.cs:2362-2431 | over any run of chunk requests and suspensions the failure callback is raised at most once |
| Firmware.OneFailurePerUpgrade | Neosmartpen.Net.Protocol.v2/Neosmartpen/Net/Protocol/v2/PenCommV2.cs:2319 | after an upgrade starts, a run of chunk requests and suspensions raises the failure callback at most once (`Protocol.SessionFailures` covers runs with any packet) |
| Firmware.UploadFailureThenChunk | Neosmartpen.Net.Protocol.v2/Neosmartpen/Net/Protocol/v2/PenCommV2.cs:870-878 | a failed upload response raises the failure callback without setting the flag, so a chunk request after it raises it again: two callbacks |
| Protocol.EncryptedDotRule | Neosmartpen.Net.Protocol.v2/Neosmartpen/Net/Protocol/v2/PenCommV2.cs:1042-1069 | without an AES key or with a block that does not decrypt: InvalidPrivateKey and teardown; otherwise exactly the plain NEW_ dot or paper packet it carries, re-parsed |
| Protocol.BlocksLength | Neosmartpen.Net.Protocol.v2/Neosmartpen/Net/Protocol/v2/PenCommV2.cs:1093-1106 | when the cipher maps blocks to blocks, n blocks decrypt to 16n bytes |
| Protocol.BlocksStop | Neosmartpen.Net.Protocol.v2/Neosmartpen/Net/Protocol/v2/PenCommV2.cs:1100-1105 | once a block fails to decrypt, every longer prefix fails |
| Protocol.EncryptedOfflineRule | Neosmartpen.Net.Protocol.v2/Neosmartpen/Net/Protocol/v2/PenCommV2.cs:1071-1106 | without an AES key the wrapper reports InvalidPrivateKey and tears down; a length that is not 9 plus a multiple of 16 reports UnknownError without teardown; a block that does not decrypt reports InvalidPrivateKey and tears down |
| Protocol.EncryptedOfflinePayload | Neosmartpen.Net.Protocol.v2/Neosmartpen/Net/Protocol/v2/PenCommV2.cs:1088-1114 | when every block decrypts, the packet handed on is the 8 clear header bytes and the plaintext less the padding, processed as an OFFLINE_PACKET_REQUEST |
| Protocol.NotesOf | Neosmartpen.Net.Protocol.v2/Neosmartpen/Net/Protocol/v2/PenCommV2.cs:601-620 | the note list has one entry per entry read |
| Protocol.NoteListEntry | Neosmartpen.Net.Protocol.v2/Neosmartpen/Net/Protocol/v2/PenCommV2.cs:604-612 | a note entry built by GetSectionOwnerByte reads back as the section's low 8 bits and the owner's low 24 bits with its note |
| Protocol.AuthenticatedOnlyByStatus | Neosmartpen.Net.Protocol.v2/Neosmartpen/Net/Protocol/v2/PenCommV2.cs:286-1124 | the authenticated flag is raised only by a status response and no packet lowers it |
| Protocol.PenPacketKeepsSession | Neosmartpen.Net.Protocol.v2/Neosmartpen/Net/Protocol/v2/PenCommV2.cs:316-356 | online data, dot events, shutdown and low battery never change the session |
| Protocol.TransferPacketKeepsSession | Neosmartpen.Net.Protocol.v2/Neosmartpen/Net/Protocol/v2/PenCommV2.cs:601-1116 | offline, firmware and encrypted wrapper packets never change the session |
| Protocol.NoFailureCount | Neosmartpen.Net.Protocol.v2/Neosmartpen/Net/Protocol/v2/PenCommV2.cs:2385-2388 | a log with no failure callback in it counts zero failure callbacks |
| Protocol.DotEventNoFailure | Neosmartpen.Net.Protocol.v2/Neosmartpen/Net/Protocol/v2/PenCommV2.cs:1271-1568 | no dot, paper, pen-up/down or error event of the stroke reconstructor raises the firmware failure callback |
| Protocol.MakeUpDotNoFailure | Neosmartpen.Net.Protocol.v2/Neosmartpen/Net/Protocol/v2/PenCommV2.cs:1718-1730 | closing a stroke with a PEN_UP clone raises no firmware failure callback |
| Protocol.PenDownNoFailure | Neosmartpen.Net.Protocol.v2/Neosmartpen/Net/Protocol/v2/PenCommV2.cs:1275-1303 | a new pen-down, including the stroke it interrupts, raises no firmware failure callback |
| Protocol.PenUpNoFailure | Neosmartpen.Net.Protocol.v2/Neosmartpen/Net/Protocol/v2/PenCommV2.cs:1305-1362 | a new pen-up raises no firmware failure callback |
| Protocol.PenUpDownNoFailure | Neosmartpen.Net.Protocol.v2/Neosmartpen/Net/Protocol/v2/PenCommV2.cs:1364-1419 | the old combined up/down event raises no firmware failure callback |
| Protocol.PaperInfoNoFailure | Neosmartpen.Net.Protocol.v2/Neosmartpen/Net/Protocol/v2/PenCommV2.cs:1493-1519 | a paper change, including the stroke it interrupts, raises no firmware failure callback |
| Protocol.PenErrorNoFailure | Neosmartpen.Net.Protocol.v2/Neosmartpen/Net/Protocol/v2/PenCommV2.cs:1521-1566 | a pen error event raises no firmware failure callback |
| Protocol.OnDotNoFailure | Neosmartpen.Net.Protocol.v2/Neosmartpen/Net/Protocol/v2/PenCommV2.cs:1421-1490 | a dot event raises no firmware failure callback in any of its steps |
| Protocol.ItemsNoFailure | Neosmartpen.Net.Protocol.v2/Neosmartpen/Net/Protocol/v2/PenCommV2.cs:1621-1697 | no run of online data items raises the firmware failure callback |
| Protocol.OfflineNoFailure | Neosmartpen.Net.Protocol.v2/Neosmartpen/Net/Protocol/v2/PenCommV2.cs:664-860 | an offline packet raises no firmware failure callback and leaves the upgrade state unchanged |
| Protocol.OtherPacketNoFailure | Neosmartpen.Net.Protocol.v2/Neosmartpen/Net/Protocol/v2/PenCommV2.cs:286-1124 | every packet except FIRMWARE_UPLOAD_RESPONSE and FIRMWARE_PACKET_REQUEST keeps SwUpgradeFailCallbacked and raises no failure callback (a VERSION_RESPONSE may clear IsUploading, not the flag) |
| Protocol.SessionPacketNoFailure | Neosmartpen.Net.Protocol.v2/Neosmartpen/Net/Protocol/v2/PenCommV2.cs:286-1124 | version, status, setting, password, key and certificate responses keep the flag and raise no failure callback |
| Protocol.PenPacketNoFailure | Neosmartpen.Net.Protocol.v2/Neosmartpen/Net/Protocol/v2/PenCommV2.cs:286-1124 | online data, dot, encrypted dot, shutdown and battery packets leave the upgrade state alone and raise no failure callback |
| Protocol.TransferPacketNoFailure | Neosmartpen.Net.Protocol.v2/Neosmartpen/Net/Protocol/v2/PenCommV2.cs:601-1124 | note/page lists, offline data and packets, deletion and encrypted offline packets leave the upgrade state alone and raise no failure callback |
| Protocol.DoFailures | Neosmartpen.Net.Protocol.v2/Neosmartpen/Net/Protocol/v2/PenCommV2.cs:2312-2431 | one packet, upgrade start or suspension raises at most the callback the clear flag still allows, plus one for a new upgrade or a failed FIRMWARE_UPLOAD_RESPONSE |
| Protocol.SessionFailures | Neosmartpen.Net.Protocol.v2/Neosmartpen/Net/Protocol/v2/PenCommV2.cs:2362-2391 | over any run of packets, upgrade starts and suspensions, every failure callback after the first comes from a new upgrade or a failed FIRMWARE_UPLOAD_RESPONSE |
| Protocol.OneFailureInSession | Neosmartpen.Net.Protocol.v2/Neosmartpen/Net/Protocol/v2/PenCommV2.cs:2312-2320 | after ReqPenSwUpgrade, a run of any packets and suspensions with no new upgrade and no failed upload response raises the failure callback at most once |
| PenComm.PenCommV2.constructor | Neosmartpen.Net.Protocol.v2/Neosmartpen/Net/Protocol/v2/PenCommV2.cs:58-118 | every field starts at its initialiser and the log is empty |
| PenComm.PenCommV2.CheckEventCount | Neosmartpen.Net.Protocol.v2/Neosmartpen/Net/Protocol/v2/PenCommV2.cs:1242-1268 | the live state and log become those of Live.CheckEventCount |
| PenComm.PenCommV2.SendDotReceiveEvent | Neosmartpen.Net.Protocol.v2/Neosmartpen/Net/Protocol/v2/PenCommV2.cs:1577-1597 | the live state and log become those of Live.Deliver |
| PenComm.PenCommV2.MakeUpDot | Neosmartpen.Net.Protocol.v2/Neosmartpen/Net/Protocol/v2/PenCommV2.cs:1718-1730 | the live state and log become those of Live.MakeUpDot |
| PenComm.PenCommV2.OnNewPenDown | Neosmartpen.Net.Protocol.v2/Neosmartpen/Net/Protocol/v2/PenCommV2.cs:1275-1303 | the live state and log become those of Live.OnNewPenDown |
| PenComm.PenCommV2.OnNewPenUp | Neosmartpen.Net.Protocol.v2/Neosmartpen/Net/Protocol/v2/PenCommV2.cs:1305-1362 | the live state and log become those of Live.OnNewPenUp |
| PenComm.PenCommV2.OnPenUpDown | Neosmartpen.Net.Protocol.v2/Neosmartpen/Net/Protocol/v2/PenCommV2.cs:1364-1419 | the live state and log become those of Live.OnPenUpDown |
| PenComm.PenCommV2.OnDot | Neosmartpen.Net.Protocol.v2/Neosmartpen/Net/Protocol/v2/PenCommV2.cs:1421-1490 | the live state and log become those of Live.OnDot |
| PenComm.PenCommV2.OnPaperInfo | Neosmartpen.Net.Protocol.v2/Neosmartpen/Net/Protocol/v2/PenCommV2.cs:1493-1519 | the live state and log become those of Live.OnPaperInfo |
| PenComm.PenCommV2.OnPenError | Neosmartpen.Net.Protocol.v2/Neosmartpen/Net/Protocol/v2/PenCommV2.cs:1521-1566 | the live state and log become those of Live.OnPenError |
| PenComm.PenCommV2.ParseDotPacket | Neosmartpen.Net.Protocol.v2/Neosmartpen/Net/Protocol/v2/PenCommV2.cs:1271-1568 | the live state and log become those of Live.OnDotEvent |
| PenComm.PenCommV2.OnlineItems | Neosmartpen.Net.Protocol.v2/Neosmartpen/Net/Protocol/v2/PenCommV2.cs:1621-1697 | the loop over the items gives Live.OnItems, stopping at a fault, and reports whether it faulted |
| PenComm.PenCommV2.ParseOnlineDataRequest | Neosmartpen.Net.Protocol.v2/Neosmartpen/Net/Protocol/v2/PenCommV2.cs:1606-1701 | the live state and log become those of Live.OnOnlineData |
| PenComm.PenCommV2.OnConnected | Neosmartpen.Net.Protocol.v2/Neosmartpen/Net/Protocol/v2/PenCommV2.cs:251-256 | the state and log become those of Auth.OnConnected |
| PenComm.PenCommV2.OnDisconnected | Neosmartpen.Net.Protocol.v2/Neosmartpen/Net/Protocol/v2/PenCommV2.cs:258-283 | the state and log become those of Auth.OnDisconnected |
| PenComm.PenCommV2.OnVersion | Neosmartpen.Net.Protocol.v2/Neosmartpen/Net/Protocol/v2/PenCommV2.cs:294-314 | the state and log become those of Auth.OnVersion |
| PenComm.PenCommV2.OnStatus | Neosmartpen.Net.Protocol.v2/Neosmartpen/Net/Protocol/v2/PenCommV2.cs:361-471 | the state and log become those of Auth.OnStatus |
| PenComm.PenCommV2.OnSettingChange | Neosmartpen.Net.Protocol.v2/Neosmartpen/Net/Protocol/v2/PenCommV2.cs:473-546 | the log gains Auth.OnSettingChange and nothing else changes |
| PenComm.PenCommV2.OnPassword | Neosmartpen.Net.Protocol.v2/Neosmartpen/Net/Protocol/v2/PenCommV2.cs:548-580 | the state and log become those of Auth.OnPassword |
| PenComm.PenCommV2.ReqInputPassword | Neosmartpen.Net.Protocol.v2/Neosmartpen/Net/Protocol/v2/PenCommV2.cs:1817-1835 | answers whether the request was sent, and logs it then |
| PenComm.PenCommV2.OnPasswordChange | Neosmartpen.Net.Protocol.v2/Neosmartpen/Net/Protocol/v2/PenCommV2.cs:581-597 | the state and log become those of Auth.OnPasswordChange |
| PenComm.PenCommV2.ReqSetUpPassword | Neosmartpen.Net.Protocol.v2/Neosmartpen/Net/Protocol/v2/PenCommV2.cs:1785-1810 | answers and updates as Auth.SetUpPassword |
| PenComm.PenCommV2.OnKey | Neosmartpen.Net.Protocol.v2/Neosmartpen/Net/Protocol/v2/PenCommV2.cs:997-1040 | the state and log become those of Auth.OnKey |
| PenComm.PenCommV2.SetPrivateKey | Neosmartpen.Net.Protocol.v2/Neosmartpen/Net/Protocol/v2/PenCommV2.cs:2880-2898 | answers and updates as Auth.SetPrivateKey |
| PenComm.PenCommV2.OnDataResponse | Neosmartpen.Net.Protocol.v2/Neosmartpen/Net/Protocol/v2/PenCommV2.cs:643-662 | the state and log become those of Offline.OnDataResponse |
| PenComm.PenCommV2.OnOfflinePacket | Neosmartpen.Net.Protocol.v2/Neosmartpen/Net/Protocol/v2/PenCommV2.cs:664-860 | the state and log become those of Offline.OnPacket |
| PenComm.PenCommV2.OnEncryptedDot | Neosmartpen.Net.Protocol.v2/Neosmartpen/Net/Protocol/v2/PenCommV2.cs:1042-1069 | the state and log become those of Protocol.OnEncryptedDot |
| PenComm.PenCommV2.OnEncryptedOffline | Neosmartpen.Net.Protocol.v2/Neosmartpen/Net/Protocol/v2/PenCommV2.cs:1071-1116 | the state and log become those of Protocol.OnEncryptedOffline |
| PenComm.PenCommV2.ReqPenSwUpgrade | Neosmartpen.Net.Protocol.v2/Neosmartpen/Net/Protocol/v2/PenCommV2.cs:2312-2360 | answers and updates as Firmware.ReqPenSwUpgrade |
| PenComm.PenCommV2.ResponseChunkRequest | Neosmartpen.Net.Protocol.v2/Neosmartpen/Net/Protocol/v2/PenCommV2.cs:2364-2421 | the state and log become those of Firmware.ResponseChunkRequest |
| PenComm.PenCommV2.SuspendSwUpgrade | Neosmartpen.Net.Protocol.v2/Neosmartpen/Net/Protocol/v2/PenCommV2.cs:2427-2431 | answers true and drops the chunk set, as Firmware.SuspendSwUpgrade |
| PenComm.PenCommV2.OnUploadResponse | Neosmartpen.Net.Protocol.v2/Neosmartpen/Net/Protocol/v2/PenCommV2.cs:870-878 | the state and log become those of Firmware.OnUploadResponse |
| PenComm.PenCommV2.ParsePacket | Neosmartpen.Net.Protocol.v2/Neosmartpen/Net/Protocol/v2/PenCommV2.cs:286-1124 | the state and log become those of Protocol.Step, the dispatch over every modelled command |
| PenComm.DecodeStrokes | Neosmartpen.Net.Protocol.v2/Neosmartpen/Net/Protocol/v2/PenCommV2.cs:732-825 | the stroke loop aborts exactly when the packet holds three bad dots, and otherwise returns Offline.DecodeAll of every raw stroke |
| PenComm.ContainsId | Neosmartpen.Net.Protocol.v2/Neosmartpen/Net/Protocol/v2/PenCommV2.cs:839 | the search answers whether a symbol with that id is listed |
| PenComm.CollectSymbols | Neosmartpen.Net.Protocol.v2/Neosmartpen/Net/Protocol/v2/PenCommV2.cs:827-846 | the nested loop builds exactly Offline.SymbolsOf, whose properties CollectRule states |
| PenComm.DecryptBlocks | Neosmartpen.Net.Protocol.v2/Neosmartpen/Net/Protocol/v2/PenCommV2.cs:1093-1106 | the block loop returns Protocol.Blocks over all the blocks, None as soon as one fails |

## Left out

- Byte order is assumed, not read from the code. The source of `ByteUtil` and `ByteConverter` is not part of this model. The `ByteUtil` class in `buffers.dfy`, `Codec.LE`/`FromLE` and every builder in `requests.dfy` write multi-byte fields little-endian. The assumption follows from how the engine handles its own address bytes. PenCommV2.cs:611 rebuilds the owner from bytes 0-2 with a zero high byte and takes the section from byte 3, and `GetSectionOwnerByte` at PenCommV2.cs:2439-2440 packs them the same way. The protocol description gives the 16-bit length as big-endian, and the model does not follow that. A big-endian `ByteUtil` would reverse the bytes of every multi-byte field in the modelled frames.
- I/O: `Send`/`Write`, `Thread.Sleep` and the console output are not modelled. A written frame is a `Transmit` entry of the log, and the byte-level builders in `requests.dfy` give its bytes.
- The bytes of incoming packets are not parsed. `Packet` holds the decoded fields, and the field readers of `Packet`/`ByteUtil` are not part of this model.
- Command codes (`Cmd`) and the frame marker values (`Const`) are not part of this model. Builders take the command byte as a parameter. STX, ETX and DLE take the protocol's values 0xC0, 0xC1 and 0x7D, and the proofs use only that they are distinct and that flipping bit 5 of one never gives STX or ETX.
- zlib, RSA, AES, `BigInteger.Parse` and the metadata manager are foreign code. They are function fields of `Externals` or parameters, with None standing for null or an exception.
- IsSupportEncryption parses the protocol version as a float. The model takes that check as an input.
- `FilterForPaper` is not part of this model. Dots pass through it unchanged.
- `Dot.Builder` force scaling is not modelled. A dot keeps the raw force.
- `Chunk` (file loading, piece checksums, total checksum) is not part of this model. A loaded file is a `FirmwareFile` value of pieces.
- The pen profile commands (PEN_PROFILE_RESPONSE, the profile request builders and PenProfile* helpers) are not modelled. They form a separate sub-protocol outside the engine's stroke, offline, firmware and authentication core.
- The public ReqSetup* wrappers are not modelled separately. They only call RequestChangeSetting, which is modelled, and two of them always return false.
- Strings are sequences of Unicode scalar values encoded to UTF-8 one by one. C# strings holding unpaired UTF-16 surrogates cannot be represented.
- In-place mutation of the shared `mPrevDot` object is modelled by value. The model copies the dot where the code clones it, and where the code mutates it (the online pen-up item) the model writes the new type into the last dot.
- The engine's fields are grouped into four records rather than kept as separate fields.
- `base.Clean()` is the `Teardown` log entry. Its effect on the base class is not part of this model.
- `Requests.SendAddUsingNoteList` returns no frame where the code throws on an owner array shorter than the section array.
- `Requests.ReqDeleteCertificate` takes the already converted serial bytes (None when conversion fails). It does not model `BigInteger` conversion.
