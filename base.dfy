/** Shared vocabulary: bytes and optional values. */
module Base {
  /** One octet as it travels on the wire (C# `byte`). */
  newtype byte = x: int | 0 <= x < 256

  /** A C# reference that may be null, or a lookup that may fail. */
  datatype Option<+T> = None | Some(value: T)

  /** Four raw bytes: the packed section/owner word of a paper address. */
  type Quad = s: seq<byte> | |s| == 4 witness [0, 0, 0, 0]

  /** An unsigned byte read as an integer (C# `byte` widened to `int`). */
  type uint8 = x: int | 0 <= x < 256

  /** Six raw bytes: a Bluetooth device address. */
  type Mac = s: seq<byte> | |s| == 6 witness [0, 0, 0, 0, 0, 0]
}
