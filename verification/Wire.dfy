/** The structures that cross the wire. */
module Wire {
  import opened Merge

  datatype Option<+T> = None | Some(value: T)

  /** Bits<16>: two bytes, low byte first. */
  datatype Bits16 = Bits16(b0: bv8, b1: bv8)

  const NO_KEYS := Bits16(0, 0)

  function ReadFromInt(i: Word): Bits16 {
    Bits16((i & 0xFF) as bv8, ((i >> 8) & 0xFF) as bv8)
  }

  function WriteToInt(b: Bits16): Word {
    (b.b0 as Word) | ((b.b1 as Word) << 8)
  }

  lemma WordRoundTrip(i: Word)
    ensures WriteToInt(ReadFromInt(i)) == i
  {
  }

  lemma BytesRoundTrip(b: Bits16)
    ensures ReadFromInt(WriteToInt(b)) == b
  {
  }

  lemma BitsRoundTrip(i: Word, b: Bits16)
    ensures WriteToInt(ReadFromInt(i)) == i
    ensures ReadFromInt(WriteToInt(b)) == b
  {
    WordRoundTrip(i);
    BytesRoundTrip(b);
  }

  /** InGameCtrlType, in the order of the wire encoding (so the value-initialised one is QuickQuit). */
  datatype Igc =
    QuickQuit | QuickRestart | InfLife | InfBomb | InfPower | AddDelay | DecDelay | InsaneMode | IgcNone

  /** KeyPackFrameNum: how many frames one key packet carries. */
  const WINDOW: int := 15

  type KeyWindow = s: seq<Bits16> | |s| == WINDOW witness seq(WINDOW, _ => NO_KEYS)
  type IgcWindow = s: seq<Igc> | |s| == WINDOW witness seq(WINDOW, _ => IgcNone)
  type RngWindow = s: seq<Word> | |s| == WINDOW witness seq(WINDOW, _ => 0)

  /** CtrlPack, one constructor per ctrl_type (the discriminant of its union). */
  datatype CtrlPack =
    | NoCtrl
    | StartGame
    | Keys(frame: int, keys: KeyWindow, igc: IgcWindow, rng: RngWindow, senderDiff: int)
    | InitSetting(delay: int, ver: int, seed: Word)
    | TryResync(frameToResync: int)

  const PK_PING := 2
  const PK_PONG := 3
  const PK_USUAL := 4

  datatype Pack = Pack(kind: int, no: nat, sendTick: nat, echoTick: nat, epoch: nat, ctrl: CtrlPack)
}
