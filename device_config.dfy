/**
 * The path-order encoder of the mowing settings
 * (pymammotion/data/model/device_config.py, lines 18-85): eight bytes built
 * from the settings, with a device-family branch, decoded to a string.
 *
 * The family tests of `DeviceType` are not part of this model; they are
 * passed in as predicates on the device name.
 */
module DeviceConfig {
  import opened Results
  import Utf8

  /** The integer and boolean fields of `OperationSettings`. */
  datatype OperationSettings = OperationSettings(
    isMow: bool, isDump: bool, isEdge: bool,
    collectGrassFrequency: int,
    jobMode: int, jobVersion: int, jobId: int,
    ultraWave: int, channelMode: int, channelWidth: int, rainTactics: int, bladeHeight: int,
    toward: int, towardIncludedAngle: int, towardMode: int,
    borderMode: int, obstacleLaps: int, startProgress: int,
    areas: seq<int>)

  /** The settings a fresh `OperationSettings()` holds. */
  function DefaultOperationSettings(): (s: OperationSettings)
    ensures s.isMow && s.isDump && !s.isEdge && CalculateYukaMode(s) == 12
    ensures s.borderMode == 1 && s.obstacleLaps == 1 && s.collectGrassFrequency == 10
  {
    OperationSettings(
      isMow := true, isDump := true, isEdge := false,
      collectGrassFrequency := 10,
      jobMode := 0, jobVersion := 0, jobId := 0,
      ultraWave := 2, channelMode := 0, channelWidth := 25, rainTactics := 0, bladeHeight := 0,
      toward := 0, towardIncludedAngle := 0, towardMode := 0,
      borderMode := 1, obstacleLaps := 1, startProgress := 0,
      areas := [])
  }

  /** The family tests `DeviceType.is_luba1`, `is_yuka` and `is_luba_2`. */
  datatype DeviceType = DeviceType(isLuba1: string -> bool, isYuka: string -> bool, isLuba2: string -> bool)

  /** Why `create_path_order` raises. */
  datatype PathOrderError =
    /** A value stored into the byte array is outside 0..255 (`ValueError`). */
    | ByteOutOfRange
    /** The bytes are not valid UTF-8 (`UnicodeDecodeError`). */
    | UnicodeDecodeError

  function Bit(b: bool): int
  {
    if b then 1 else 0
  }

  /** The Yuka work mode: mowing, dumping and edge work as the bits 8, 4 and 2. */
  function CalculateYukaMode(op: OperationSettings): (mode: int)
    ensures mode == 8 * Bit(op.isMow) + 4 * Bit(op.isDump) + 2 * Bit(op.isEdge)
    ensures mode % 2 == 0 && 0 <= mode <= 14
  {
    if op.isMow && op.isDump && op.isEdge then 14
    else if op.isMow && op.isDump && !op.isEdge then 12
    else if op.isMow && !op.isDump && op.isEdge then 10
    else if op.isMow && !op.isDump && !op.isEdge then 8
    else if !op.isMow && op.isDump && op.isEdge then 6
    else if !op.isMow && !op.isDump && op.isEdge then 2
    else if !op.isMow && op.isDump && !op.isEdge then 4
    else 0
  }

  /** Byte 5 for a device that is not a Luba 1: the Yuka mode, 8 for a Luba 2, else 0. */
  function FamilyMode(op: OperationSettings, name: string, t: DeviceType): int
  {
    if t.isYuka(name) then CalculateYukaMode(op) else if t.isLuba2(name) then 8 else 0
  }

  /** Byte 6 for a device that is not a Luba 1: the grass-collection frequency when dumping, else 10. */
  function GrassByte(op: OperationSettings): int
  {
    if op.isDump then op.collectGrassFrequency else 10
  }

  /** The path-order bytes, family by family. */
  function PathOrderBytes(op: OperationSettings, name: string, t: DeviceType): (bs: seq<int>)
    ensures |bs| == 8 && bs[2] == 0 && bs[7] == 0
  {
    if t.isLuba1(name) then
      [op.borderMode, op.obstacleLaps, 0, op.startProgress, op.towardMode, 0, 0, 0]
    else
      [op.borderMode, op.obstacleLaps, 0, op.startProgress, 0, FamilyMode(op, name, t), GrassByte(op), 0]
  }

  /** The settings-derived values the encoder stores; every other stored value is a constant byte. */
  function StoredFields(op: OperationSettings, name: string, t: DeviceType): seq<int>
  {
    [op.borderMode, op.obstacleLaps, op.startProgress] +
    (if t.isLuba1(name) then [op.towardMode] else [GrassByte(op)])
  }

  /** The slot-by-slot layout of the path order. */
  lemma PathOrderLayout(op: OperationSettings, name: string, t: DeviceType)
    ensures var bs := PathOrderBytes(op, name, t);
            && |bs| == 8
            && bs[0] == op.borderMode && bs[1] == op.obstacleLaps && bs[2] == 0
            && bs[3] == op.startProgress && bs[7] == 0
            && (t.isLuba1(name) ==> bs[4] == op.towardMode && bs[5] == 0 && bs[6] == 0)
            && (!t.isLuba1(name) ==> bs[4] == 0 && bs[6] == (if op.isDump then op.collectGrassFrequency else 10))
            && (!t.isLuba1(name) && t.isYuka(name) ==> bs[5] == CalculateYukaMode(op))
            && (!t.isLuba1(name) && !t.isYuka(name) ==> bs[5] == (if t.isLuba2(name) then 8 else 0))
  {
  }

  /** When every stored field is a byte (an ASCII byte), so is every byte of the path order. */
  lemma {:induction false} StoredFieldsBound(op: OperationSettings, name: string, t: DeviceType)
    ensures Utf8.AllBytes(StoredFields(op, name, t)) ==> Utf8.AllBytes(PathOrderBytes(op, name, t))
    ensures Utf8.AllAscii(StoredFields(op, name, t)) ==> Utf8.AllAscii(PathOrderBytes(op, name, t))
  {
    var fs := StoredFields(op, name, t);
    assert fs[0] == op.borderMode && fs[1] == op.obstacleLaps && fs[2] == op.startProgress;
    if t.isLuba1(name) {
      assert fs[3] == op.towardMode;
    } else {
      assert fs[3] == GrassByte(op);
      assert 0 <= FamilyMode(op, name, t) <= 14;
    }
  }

  /**
   * Fills the eight-byte buffer of `create_path_order` (lines 46-66),
   * failing as Python's `bytearray` does when a stored value is not a byte.
   */
  method FillPathOrder(op: OperationSettings, name: string, t: DeviceType)
    returns (r: Result<seq<int>, PathOrderError>)
    ensures r.Failure? <==> !Utf8.AllBytes(StoredFields(op, name, t))
    ensures r.Failure? ==> r.error == ByteOutOfRange
    ensures r.Success? ==> r.value == PathOrderBytes(op, name, t)
  {
    var fields := StoredFields(op, name, t);
    assert fields[0] == op.borderMode && fields[1] == op.obstacleLaps && fields[2] == op.startProgress;
    var i := 8;
    var bArr := new int[8](_ => 0);
    if !Utf8.IsByte(op.borderMode) {
      return Failure(ByteOutOfRange);
    }
    bArr[0] := op.borderMode;
    if !Utf8.IsByte(op.obstacleLaps) {
      return Failure(ByteOutOfRange);
    }
    bArr[1] := op.obstacleLaps;
    if !Utf8.IsByte(op.startProgress) {
      return Failure(ByteOutOfRange);
    }
    bArr[3] := op.startProgress;
    bArr[2] := 0;
    if !t.isLuba1(name) {
      bArr[4] := 0;
      if t.isYuka(name) {
        i := CalculateYukaMode(op);
      } else if !t.isLuba2(name) {
        i := 0;
      }
      bArr[5] := i;
      var b: int;
      if op.isDump {
        b := op.collectGrassFrequency;
      } else {
        b := 10;
      }
      if !Utf8.IsByte(b) {
        assert fields[3] == b;
        return Failure(ByteOutOfRange);
      }
      bArr[6] := b;
    }
    if t.isLuba1(name) {
      if !Utf8.IsByte(op.towardMode) {
        assert fields[3] == op.towardMode;
        return Failure(ByteOutOfRange);
      }
      bArr[4] := op.towardMode;
    }
    r := Success(bArr[..]);
  }

  /** The result of decoding the buffer, as `bytearray.decode()` delivers it. */
  function DecodeBuffer(bs: seq<int>): Result<string, PathOrderError>
    requires Utf8.AllBytes(bs)
  {
    match Utf8.Decode(bs)
    case Some(s) => Success(s)
    case None => Failure(UnicodeDecodeError)
  }

  /**
   * `create_path_order`: the buffer decoded as UTF-8. With every stored field
   * in 0..127 the result is eight characters whose code points are the bytes.
   */
  method CreatePathOrder(op: OperationSettings, name: string, t: DeviceType)
    returns (r: Result<string, PathOrderError>)
    ensures r == Failure(ByteOutOfRange) <==> !Utf8.AllBytes(StoredFields(op, name, t))
    ensures Utf8.AllBytes(StoredFields(op, name, t)) ==>
              Utf8.AllBytes(PathOrderBytes(op, name, t)) && r == DecodeBuffer(PathOrderBytes(op, name, t))
    ensures Utf8.AllAscii(StoredFields(op, name, t)) ==>
              && r.Success? && |r.value| == 8
              && forall k | 0 <= k < 8 :: r.value[k] as int == PathOrderBytes(op, name, t)[k]
  {
    StoredFieldsBound(op, name, t);
    var bytes := FillPathOrder(op, name, t);
    if bytes.Failure? {
      return Failure(bytes.error);
    }
    r := DecodeBuffer(bytes.value);
    if Utf8.AllAscii(StoredFields(op, name, t)) {
      Utf8.DecodeAscii(bytes.value);
    }
  }

  /**
   * A byte of 0x80 or more does not always make decoding fail: border mode
   * 0xC3 with obstacle laps 0xA9 forms one two-byte character, and the
   * path order comes out seven characters long.
   */
  lemma NonAsciiPairDecodes(name: string, t: DeviceType)
    ensures var op := DefaultOperationSettings().(borderMode := 0xC3, obstacleLaps := 0xA9);
            && Utf8.AllBytes(PathOrderBytes(op, name, t))
            && Utf8.Decode(PathOrderBytes(op, name, t)).Some?
            && |Utf8.Decode(PathOrderBytes(op, name, t)).value| == 7
            && Utf8.Decode(PathOrderBytes(op, name, t)).value[0] == 'é'
  {
    var op := DefaultOperationSettings().(borderMode := 0xC3, obstacleLaps := 0xA9);
    var bs := PathOrderBytes(op, name, t);
    assert 0 <= FamilyMode(op, name, t) <= 14;
    assert Utf8.DecodeFirst(bs) == Some(('é', 2));
    Utf8.DecodeAscii(bs[2..]);
  }

  /** On a Luba 1, a toward mode of 200 is a byte but leaves invalid UTF-8: decoding fails. */
  lemma LargeTowardModeFails(name: string, t: DeviceType)
    requires t.isLuba1(name)
    ensures var op := DefaultOperationSettings().(towardMode := 200);
            && Utf8.AllBytes(PathOrderBytes(op, name, t))
            && Utf8.Decode(PathOrderBytes(op, name, t)) == None
  {
    var bs := PathOrderBytes(DefaultOperationSettings().(towardMode := 200), name, t);
    assert bs == [1, 1, 0, 0, 200, 0, 0, 0];
    assert Utf8.Decode(bs[4..]) == None;
    assert Utf8.Decode(bs[3..]) == None;
    assert Utf8.Decode(bs[2..]) == None;
    assert Utf8.Decode(bs[1..]) == None;
  }

  /** With the default settings on a Luba 2, the path order is the bytes 1 1 0 0 0 8 10 0. */
  lemma DefaultLuba2PathOrder(name: string, t: DeviceType)
    requires !t.isLuba1(name) && !t.isYuka(name) && t.isLuba2(name)
    ensures PathOrderBytes(DefaultOperationSettings(), name, t) == [1, 1, 0, 0, 0, 8, 10, 0]
  {
  }
}
