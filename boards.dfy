// Board capability model: the closed enumerations the raw-source codec
// depends on, the "unavailable" sentinels for input and switch
// descriptions, and the predicates that sort board types into families.

module Boards {

  const BoardTypeCount: int := 36
  const BoardTypeMax: int := BoardTypeCount - 1

  /** Board::Type: the enumerators are the consecutive values 0..BOARD_TYPE_MAX, and `Unknown` is -1. */
  newtype BoardType = v: int | -1 <= v <= BoardTypeMax

  const Unknown: BoardType := -1
  const Sky9x: BoardType := 0
  const NineXRPro: BoardType := 1
  const Ar9x: BoardType := 2
  const TaranisX7: BoardType := 3
  const TaranisX7Access: BoardType := 4
  const TaranisX9D: BoardType := 5
  const TaranisX9DP: BoardType := 6
  const TaranisX9DP2019: BoardType := 7
  const TaranisX9E: BoardType := 8
  const HorusX12S: BoardType := 9
  const X10: BoardType := 10
  const X10Express: BoardType := 11
  const TaranisXLite: BoardType := 12
  const TaranisXLiteS: BoardType := 13
  const TaranisX9Lite: BoardType := 14
  const TaranisX9LiteS: BoardType := 15
  const JumperT12: BoardType := 16
  const JumperT16: BoardType := 17
  const RadiomasterTX16S: BoardType := 18
  const JumperT18: BoardType := 19
  const JumperT20: BoardType := 20
  const RadiomasterTX12: BoardType := 21
  const RadiomasterTX12Mk2: BoardType := 22
  const RadiomasterBoxer: BoardType := 23
  const RadiomasterT8: BoardType := 24
  const JumperTLite: BoardType := 25
  const JumperTLiteF4: BoardType := 26
  const FlyskyNV14: BoardType := 27
  const FlyskyPL18: BoardType := 28
  const RadiomasterZorro: BoardType := 29
  const JumperTPro: BoardType := 30
  const BetafpvLR3Pro: BoardType := 31
  const IflightCommando8: BoardType := 32
  const FlyskyEL18: BoardType := 33
  const JumperTProV2: BoardType := 34
  const RadiomasterPocket: BoardType := 35

  /** Every board other than Unknown lies in 0..BOARD_TYPE_MAX; the last enumerator is BOARD_TYPE_MAX. */
  lemma BoardRange(b: BoardType)
    ensures b != Unknown <==> 0 <= b as int <= BoardTypeMax
    ensures Unknown as int == -1 && RadiomasterPocket as int == BoardTypeMax == BoardTypeCount - 1
  {
  }

  datatype SwitchType = SwitchNotAvailable | SwitchToggle | Switch2Pos | Switch3Pos | SwitchFunc

  datatype AnalogInputType = AitNone | AitStick | AitFlex | AitVBat | AitRtcBat | AitSwitch

  datatype FlexType =
    FlexNone | FlexPot | FlexPotCenter | FlexSlider | FlexMultipos | FlexAxisX | FlexAxisY | FlexSwitch

  /** LookupValueType: whether a lookup searches the tag (LVT_TAG) or the display name (LVT_NAME). */
  datatype LookupValueType = LvtTag | LvtName

  // SwitchTypeMasks
  const SwitchTypeFlagNone: bv32 := 1 << 1
  const SwitchTypeFlag2Pos: bv32 := 1 << 2
  const SwitchTypeFlag3Pos: bv32 := 1 << 3
  const SwitchTypeContextNone: bv32 := SwitchTypeFlagNone
  const SwitchTypeContext2Pos: bv32 := SwitchTypeContextNone | SwitchTypeFlag2Pos
  const SwitchTypeContext3Pos: bv32 := SwitchTypeContext2Pos | SwitchTypeFlag3Pos

  // FlexTypeMasks
  const FlexTypeFlagNotSwitch: bv32 := 1 << 1
  const FlexTypeFlagSwitch: bv32 := 1 << 2
  const FlexTypeContextNoSwitch: bv32 := FlexTypeFlagNotSwitch
  const FlexTypeContextSwitch: bv32 := FlexTypeContextNoSwitch | FlexTypeFlagSwitch

  /** Every flag of mask `inner` is also set in mask `outer`. */
  predicate MaskIncludes(outer: bv32, inner: bv32)
  {
    outer & inner == inner
  }

  /** The switch-type contexts nest strictly: 3-position admits all a 2-position context does, and more. */
  lemma SwitchContextsNest()
    ensures MaskIncludes(SwitchTypeContext3Pos, SwitchTypeContext2Pos) && SwitchTypeContext3Pos != SwitchTypeContext2Pos
    ensures MaskIncludes(SwitchTypeContext2Pos, SwitchTypeContextNone) && SwitchTypeContext2Pos != SwitchTypeContextNone
    ensures MaskIncludes(SwitchTypeContext3Pos, SwitchTypeFlag3Pos) && !MaskIncludes(SwitchTypeContext2Pos, SwitchTypeFlag3Pos)
    ensures !MaskIncludes(SwitchTypeContextNone, SwitchTypeFlag2Pos)
  {
  }

  /** The flex-type contexts nest strictly: the switch context admits everything the no-switch one does. */
  lemma FlexContextsNest()
    ensures MaskIncludes(FlexTypeContextSwitch, FlexTypeContextNoSwitch) && FlexTypeContextSwitch != FlexTypeContextNoSwitch
    ensures MaskIncludes(FlexTypeContextSwitch, FlexTypeFlagSwitch) && !MaskIncludes(FlexTypeContextNoSwitch, FlexTypeFlagSwitch)
  {
  }

  /** Board::InputInfo: the description of one analog input. */
  datatype InputInfo = InputInfo(
    kind: AnalogInputType, tag: string, name: string, inputLabel: string,
    shortName: string, flexType: FlexType, inverted: bool)

  /** Board::SwitchInfo: the description of one switch. */
  datatype SwitchInfo = SwitchInfo(kind: SwitchType, tag: string, name: string, inverted: bool)

  /** An input description denotes an existing input. */
  predicate InputAvailable(info: InputInfo)
  {
    info.kind != AitNone
  }

  /** A switch description denotes an existing switch. */
  predicate SwitchAvailable(info: SwitchInfo)
  {
    info.kind != SwitchNotAvailable
  }

  /** The default InputInfo(): the "unavailable" sentinel, with empty texts and no flex role. */
  function DefaultInputInfo(): (r: InputInfo)
    ensures !InputAvailable(r)
    ensures r.flexType == FlexNone && !r.inverted
    ensures r.tag == r.name == r.inputLabel == r.shortName == ""
  {
    InputInfo(AitNone, "", "", "", "", FlexNone, false)
  }

  /** The default SwitchInfo(): the "unavailable" sentinel, with empty texts. */
  function DefaultSwitchInfo(): (r: SwitchInfo)
    ensures !SwitchAvailable(r)
    ensures !r.inverted && r.tag == r.name == ""
  {
    SwitchInfo(SwitchNotAvailable, "", "", false)
  }

  // Family predicates.

  predicate IsSky9x(b: BoardType) { b == Sky9x || b == NineXRPro || b == Ar9x }
  predicate Is9XRPro(b: BoardType) { b == NineXRPro }
  predicate IsBetafpvLR3Pro(b: BoardType) { b == BetafpvLR3Pro }
  predicate IsIflightCommando8(b: BoardType) { b == IflightCommando8 }
  predicate IsJumperT12(b: BoardType) { b == JumperT12 }
  predicate IsJumperTLite(b: BoardType) { b == JumperTLite || b == JumperTLiteF4 }
  predicate IsJumperTPro(b: BoardType) { b == JumperTPro || b == JumperTProV2 }
  predicate IsJumperTProV1(b: BoardType) { b == JumperTPro }
  predicate IsJumperTProV2(b: BoardType) { b == JumperTProV2 }
  predicate IsJumperT16(b: BoardType) { b == JumperT16 }
  predicate IsJumperT18(b: BoardType) { b == JumperT18 }
  predicate IsJumperT20(b: BoardType) { b == JumperT20 }
  predicate IsRadiomasterTX16S(b: BoardType) { b == RadiomasterTX16S }
  predicate IsRadiomasterTX12(b: BoardType) { b == RadiomasterTX12 }
  predicate IsRadiomasterTX12Mk2(b: BoardType) { b == RadiomasterTX12Mk2 }
  predicate IsRadiomasterZorro(b: BoardType) { b == RadiomasterZorro }
  predicate IsRadiomasterBoxer(b: BoardType) { b == RadiomasterBoxer }
  predicate IsRadiomasterPocket(b: BoardType) { b == RadiomasterPocket }
  predicate IsRadiomasterT8(b: BoardType) { b == RadiomasterT8 }

  predicate IsFamilyT16(b: BoardType)
  {
    b == JumperT16 || b == RadiomasterTX16S || b == JumperT18
  }

  predicate IsFamilyT12(b: BoardType)
  {
    b == JumperT12 || b == JumperT20 || b == JumperTLite || b == JumperTLiteF4 ||
    b == JumperTPro || b == JumperTProV2 || b == RadiomasterTX12 || b == RadiomasterTX12Mk2 ||
    b == RadiomasterZorro || b == RadiomasterBoxer || b == RadiomasterPocket ||
    b == RadiomasterT8 || b == BetafpvLR3Pro || b == IflightCommando8
  }

  predicate IsFlyskyNV14(b: BoardType) { b == FlyskyNV14 }
  predicate IsFlyskyEL18(b: BoardType) { b == FlyskyEL18 }
  predicate IsFlyskyPL18(b: BoardType) { b == FlyskyPL18 }
  predicate IsTaranisXLite(b: BoardType) { b == TaranisXLite || b == TaranisXLiteS }
  predicate IsTaranisXLiteS(b: BoardType) { b == TaranisXLiteS }
  predicate IsTaranisX7(b: BoardType) { b == TaranisX7 || b == TaranisX7Access }
  predicate IsTaranisX7Access(b: BoardType) { b == TaranisX7Access }
  predicate IsTaranisX9Lite(b: BoardType) { b == TaranisX9Lite || b == TaranisX9LiteS }
  predicate IsTaranisX9LiteS(b: BoardType) { b == TaranisX9LiteS }

  predicate IsTaranisX9(b: BoardType)
  {
    b == TaranisX9D || b == TaranisX9DP || b == TaranisX9DP2019 || b == TaranisX9E
  }

  predicate IsTaranisX9D(b: BoardType) { b == TaranisX9D || b == TaranisX9DP || b == TaranisX9DP2019 }
  predicate IsTaranisPlus(b: BoardType) { b == TaranisX9DP || b == TaranisX9E }
  predicate IsTaranisX9E(b: BoardType) { b == TaranisX9E }

  predicate IsTaranisSmall(b: BoardType)
  {
    IsTaranisX7(b) || IsTaranisXLite(b) || IsTaranisX9Lite(b) || IsFamilyT12(b)
  }

  predicate IsTaranis(b: BoardType)
  {
    IsTaranisX9(b) || IsTaranisSmall(b)
  }

  predicate IsHorusX10(b: BoardType) { b == X10 || b == X10Express }
  predicate IsHorusX12S(b: BoardType) { b == HorusX12S }

  predicate IsFamilyHorus(b: BoardType)
  {
    IsHorusX12S(b) || IsHorusX10(b)
  }

  predicate IsFamilyHorusOrT16(b: BoardType)
  {
    IsFamilyHorus(b) || IsFamilyT16(b) || IsFlyskyNV14(b) || IsFlyskyEL18(b) || IsFlyskyPL18(b)
  }

  predicate IsHorusOrTaranis(b: BoardType)
  {
    IsFamilyHorusOrT16(b) || IsTaranis(b)
  }

  /** IS_STM32. Its trailing NV14/EL18/PL18 disjuncts add nothing: they are already Horus/T16-family boards. */
  predicate IsStm32(b: BoardType)
    ensures IsStm32(b) <==> IsTaranis(b) || IsFamilyHorusOrT16(b)
    ensures IsStm32(b) <==> IsHorusOrTaranis(b)
  {
    IsTaranis(b) || IsFamilyHorusOrT16(b) || IsFlyskyNV14(b) || IsFlyskyEL18(b) || IsFlyskyPL18(b)
  }

  predicate IsArm(b: BoardType)
  {
    IsStm32(b) || IsSky9x(b)
  }

  predicate HasLargeLcd(b: BoardType)
  {
    IsFamilyHorusOrT16(b) || IsTaranisX9(b)
  }

  predicate HasExternalAntenna(b: BoardType)
  {
    IsFamilyHorus(b) || IsFamilyT16(b) || (IsTaranisXLite(b) && !IsTaranisXLiteS(b))
  }

  predicate IsTaranisX9DP2019(b: BoardType) { b == TaranisX9DP2019 }

  predicate IsAccessRadio(b: BoardType)
  {
    IsTaranisXLiteS(b) || IsTaranisX9Lite(b) || b == TaranisX9DP2019 || b == X10Express || IsTaranisX7Access(b)
  }

  /** `pattern` occurs somewhere inside `text` (QString::contains, case sensitive). */
  predicate Contains(text: string, pattern: string)
  {
    exists i | 0 <= i <= |text| - |pattern| :: OccursAt(text, pattern, i)
  }

  predicate OccursAt(text: string, pattern: string, i: nat)
  {
    i + |pattern| <= |text| && text[i..i + |pattern|] == pattern
  }

  /** IS_ACCESS_RADIO(board, id): an ACCESS radio, or a Horus/T16-family board fitted with an internal ACCESS module. */
  predicate IsAccessRadioWithId(b: BoardType, id: string)
  {
    IsAccessRadio(b) || (IsFamilyHorusOrT16(b) && Contains(id, "internalaccess"))
  }

  /** HAS_EEPROM_YAML: exactly the Horus/T16 family, all of which have a large screen. */
  predicate HasEepromYaml(b: BoardType)
    ensures HasEepromYaml(b) ==> HasLargeLcd(b)
  {
    IsFamilyHorusOrT16(b)
  }

  // Family relations.

  lemma T12FamilyIsSmallTaranis(b: BoardType)
    ensures IsFamilyT12(b) ==> IsTaranisSmall(b)
    ensures IsTaranisSmall(b) ==> IsTaranis(b)
    ensures IsTaranisX9D(b) ==> IsTaranisX9(b)
    ensures IsTaranisX9E(b) ==> IsTaranisX9(b) && IsTaranisPlus(b)
  {
  }

  lemma T16AndT12FamiliesDisjoint(b: BoardType)
    ensures !(IsFamilyT16(b) && IsFamilyT12(b))
  {
  }

  /** The Taranis line and the Horus/T16 line share no board, and neither contains the legacy Sky9x boards. */
  lemma TaranisAndHorusDisjoint(b: BoardType)
    ensures !(IsTaranis(b) && IsFamilyHorusOrT16(b))
    ensures IsSky9x(b) ==> !IsStm32(b)
  {
  }

  /** Every board except Unknown is an ARM board. */
  lemma ArmIsStm32OrSky9x(b: BoardType)
    ensures IsArm(b) <==> b != Unknown
  {
  }

  /** The YAML-settings boards are the STM32 boards outside the Taranis line, and the large-screen boards other than the Taranis X9 ones. */
  lemma EepromYamlBoards(b: BoardType)
    ensures HasEepromYaml(b) <==> IsStm32(b) && !IsTaranis(b)
    ensures HasEepromYaml(b) <==> HasLargeLcd(b) && !IsTaranisX9(b)
  {
    TaranisAndHorusDisjoint(b);
  }

  /**
   * Every ACCESS radio, with or without an internal module id, is an STM32
   * board; the id never turns a Taranis into an ACCESS radio, and an id
   * that does not mention an internal ACCESS module adds no board at all.
   */
  lemma AccessRadioWithIdBoards(b: BoardType, id: string)
    ensures IsAccessRadioWithId(b, id) ==> IsStm32(b)
    ensures IsTaranis(b) ==> (IsAccessRadioWithId(b, id) <==> IsAccessRadio(b))
    ensures !Contains(id, "internalaccess") ==> (IsAccessRadioWithId(b, id) <==> IsAccessRadio(b))
  {
  }

  lemma ExternalAntennaXLite()
    ensures HasExternalAntenna(TaranisXLite)
    ensures !HasExternalAntenna(TaranisXLiteS)
    ensures forall b :: HasExternalAntenna(b) ==> IsFamilyHorus(b) || IsFamilyT16(b) || b == TaranisXLite
  {
  }
}
