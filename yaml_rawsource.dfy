// The raw-source text codec: a RawSource (a source type and an index) is
// written as one compact token and read back from one.
//
// The three ambient values the codec consults are explicit here: the
// current board's tag tables (Capabilities), the firmware's number of
// trainer inputs, and whether the settings being read predate the
// analog-input refactor (isLegacy). The CPN_MAX_* capacities are the
// fields of Limits.

module YamlRawSource {
  import opened Decimal
  import opened Streams
  import opened LookupTables
  import opened Boards

  datatype SourceType =
    | SourceNone
    | SourceVirtualInput
    | SourceLuaOutput
    | SourceStick
    | SourceTrim
    | SourceMin
    | SourceMax
    | SourceSwitch
    | SourceCustomSwitch
    | SourceCyclic
    | SourcePpm
    | SourceChannel
    | SourceGvar
    | SourceSpecial
    | SourceTelemetry
    | SourceSpacemouse

  datatype RawSource = RawSource(kind: SourceType, index: int)

  /** RawSource(): no source. */
  const DefaultSource := RawSource(SourceNone, 0)

  /** The CPN_MAX_* capacities the decoder checks indices against. */
  datatype Limits = Limits(
    maxInputs: int, maxScripts: int, maxScriptInputs: int, maxLogicalSwitches: int,
    maxChannels: int, maxGvars: int, maxSensors: int)

  /**
   * The current board's tables, as the codec queries them. Each table maps
   * an index to a tag by position.
   *   inputs            Boards::getInputInfo, getInputIndex(LVT_TAG), getInputName
   *   inputRefs         Boards::getInputYamlName / getInputYamlIndex (YLT_REF)
   *   switchRefs        Boards::getSwitchYamlName / getSwitchYamlIndex (YLT_REF)
   *   trimRefs          Boards::getTrimYamlName / getTrimYamlIndex (YLT_REF)
   *   legacyAnalogTags  Boards::getLegacyAnalogMappedInputTag (identity off the map)
   *   legacyTrimSources Boards::getLegacyTrimSourceIndex
   *   specialTags       Boards::getRawSourceSpecialTypeTag / Index
   *   cyclicTags        Boards::getRawSourceCyclicTag / Index
   */
  datatype Capabilities = Capabilities(
    inputs: seq<InputInfo>,
    inputRefs: seq<string>,
    switchRefs: seq<string>,
    trimRefs: seq<string>,
    legacyAnalogTags: map<string, string>,
    legacyTrimSources: seq<string>,
    specialTags: seq<string>,
    cyclicTags: seq<string>)

  /** Everything a decode depends on besides the token. */
  datatype Context = Context(caps: Capabilities, limits: Limits, trainerInputs: int, isLegacy: bool)

  // Board queries.

  /** Boards::getInputInfo: the description of an input, or the unavailable sentinel when there is none. */
  function InputInfoAt(caps: Capabilities, index: int): (r: InputInfo)
    ensures 0 <= index < |caps.inputs| ==> r == caps.inputs[index]
    ensures !(0 <= index < |caps.inputs|) ==> !InputAvailable(r) && r.kind != AitStick
  {
    if 0 <= index < |caps.inputs| then caps.inputs[index] else DefaultInputInfo()
  }

  /** Boards::isInputStick. */
  predicate IsInputStick(caps: Capabilities, index: int)
  {
    InputInfoAt(caps, index).kind == AitStick
  }

  /** Boards::getInputIndex(tag, LVT_TAG): the position of the first input with that tag, or -1. */
  function InputTagIndex(inputs: seq<InputInfo>, tag: string): (r: int)
    ensures -1 <= r < |inputs|
    ensures r == -1 <==> forall k :: 0 <= k < |inputs| ==> inputs[k].tag != tag
    ensures r >= 0 ==> inputs[r].tag == tag && forall k :: 0 <= k < r ==> inputs[k].tag != tag
  {
    if |inputs| == 0 then -1
    else if inputs[0].tag == tag then 0
    else
      var k := InputTagIndex(inputs[1..], tag);
      if k < 0 then -1 else k + 1
  }

  /** Boards::getLegacyAnalogMappedInputTag. */
  function LegacyAnalogMappedTag(caps: Capabilities, tag: string): string
  {
    if tag in caps.legacyAnalogTags then caps.legacyAnalogTags[tag] else tag
  }

  /** spacemouseLut: the six spacemouse axis names; a name's position is its index. */
  const SpacemouseLut: seq<string> := [
    "SPACEMOUSE_A", "SPACEMOUSE_B", "SPACEMOUSE_C",
    "SPACEMOUSE_D", "SPACEMOUSE_E", "SPACEMOUSE_F"
  ]

  // Integer operations as C++ performs them on int.

  /** C++ `/` on int: the quotient truncated toward zero. */
  function CDiv(a: int, b: int): (q: int)
    requires b > 0
    ensures a >= 0 ==> q == a / b
    ensures a < 0 ==> q <= 0 && -a - b < -q * b <= -a
  {
    if a >= 0 then a / b else -((-a) / b)
  }

  /** C++ `%` on int: the remainder that keeps the sign of the dividend. */
  function CRem(a: int, b: int): (r: int)
    requires b > 0
    ensures a == CDiv(a, b) * b + r
    ensures a >= 0 ==> r == a % b
    ensures -b < r < b && (a < 0 ==> r <= 0)
  {
    a - b * CDiv(a, b)
  }

  // Encoding.

  /** The sign written for a telemetry index remainder: 1 is '-', 2 is '+', anything else nothing. */
  function TelemetrySign(remainder: int): string
  {
    if remainder == 1 then "-" else if remainder == 2 then "+" else ""
  }

  /** `'A' + index` stored in a C++ char: the low byte of the sum. */
  function SpacemouseLetter(index: int): char
  {
    (('A' as int + index) % 256) as char
  }

  /** YamlRawSourceEncode: the token written for a source on the current board. */
  function Encode(src: RawSource, caps: Capabilities): string
  {
    var i := src.index;
    match src.kind
    case SourceVirtualInput => "I" + IntToString(i)
    case SourceLuaOutput => "lua(" + IntToString(CDiv(i, 16)) + "," + IntToString(CRem(i, 16)) + ")"
    case SourceStick => TagOf(caps.inputRefs, i)
    case SourceTrim => TagOf(caps.trimRefs, i)
    case SourceMin => "MIN"
    case SourceMax => "MAX"
    case SourceSwitch => TagOf(caps.switchRefs, i)
    case SourceCustomSwitch => "ls(" + IntToString(i + 1) + ")"
    case SourceCyclic => TagOf(caps.cyclicTags, i)
    case SourcePpm => "tr(" + IntToString(i) + ")"
    case SourceChannel => "ch(" + IntToString(i) + ")"
    case SourceGvar => "gv(" + IntToString(i) + ")"
    case SourceSpecial => TagOf(caps.specialTags, i)
    case SourceTelemetry => "tele(" + TelemetrySign(CRem(i, 3)) + IntToString(CDiv(i, 3)) + ")"
    case SourceSpacemouse => "SPACEMOUSE_" + [SpacemouseLetter(i)]
    case SourceNone => "NONE"
  }

  // Decoding: which rule a token selects.

  /** The branches of the decoder's if/else-if chain, in order. */
  datatype Rule =
    | InputRule
    | SwitchRule
    | LuaRule
    | LogicalSwitchRule
    | FunctionSwitchRule
    | TrainerRule
    | ChannelRule
    | GvarRule
    | TelemetryRule
    | NamedRule

  /** `I` followed by a digit. */
  predicate IsInputToken(t: string)
  {
    |t| > 1 && t[0] == 'I' && IsDigit(t[1])
  }

  /** `lua(` followed by at least one character. */
  predicate IsLuaToken(t: string)
  {
    |t| > 4 && t[0] == 'l' && t[1] == 'u' && t[2] == 'a' && t[3] == '('
  }

  /** The two letters `a` `b` and `(`, followed by at least one character. */
  predicate IsCallToken(t: string, a: char, b: char)
  {
    |t| > 3 && t[0] == a && t[1] == b && t[2] == '('
  }

  /** `tele(` followed by at least one character. */
  predicate IsTelemetryToken(t: string)
  {
    |t| > 5 && t[0] == 't' && t[1] == 'e' && t[2] == 'l' && t[3] == 'e' && t[4] == '('
  }

  /** The shape of a board switch tag: `S` and a capital letter, or `FL` / `SW` and a digit 1-9. */
  predicate IsSwitchTagShaped(t: string)
  {
    (|t| == 2 && t[0] == 'S' && 'A' <= t[1] <= 'Z') ||
    (|t| == 3 && ((t[0] == 'F' && t[1] == 'L') || (t[0] == 'S' && t[1] == 'W')) && '1' <= t[2] <= '9')
  }

  /** The first branch whose prefix and shape test the token passes; later branches are never tried. */
  function SelectRule(t: string): Rule
  {
    if IsInputToken(t) then InputRule
    else if IsSwitchTagShaped(t) then SwitchRule
    else if IsLuaToken(t) then LuaRule
    else if IsCallToken(t, 'l', 's') then LogicalSwitchRule
    else if IsCallToken(t, 'f', 's') then FunctionSwitchRule
    else if IsCallToken(t, 't', 'r') then TrainerRule
    else if IsCallToken(t, 'c', 'h') then ChannelRule
    else if IsCallToken(t, 'g', 'v') then GvarRule
    else if IsTelemetryToken(t) then TelemetryRule
    else NamedRule
  }

  /** Each prefixed branch is selected exactly by its own test: the tests of the chain exclude each other, so their order never matters. */
  lemma PrefixSelectsRule(t: string)
    ensures IsInputToken(t) <==> SelectRule(t) == InputRule
    ensures IsSwitchTagShaped(t) <==> SelectRule(t) == SwitchRule
    ensures IsLuaToken(t) <==> SelectRule(t) == LuaRule
    ensures IsCallToken(t, 'l', 's') <==> SelectRule(t) == LogicalSwitchRule
    ensures IsCallToken(t, 'f', 's') <==> SelectRule(t) == FunctionSwitchRule
    ensures IsCallToken(t, 't', 'r') <==> SelectRule(t) == TrainerRule
    ensures IsCallToken(t, 'c', 'h') <==> SelectRule(t) == ChannelRule
    ensures IsCallToken(t, 'g', 'v') <==> SelectRule(t) == GvarRule
    ensures IsTelemetryToken(t) <==> SelectRule(t) == TelemetryRule
  {
  }

  // Decoding: reading numbers.

  /** std::stoi, overflow aside: white space, an optional sign, the longest digit run. */
  function Stoi(s: string): int
  {
    ScanNumber(SkipSpaces(s)).value
  }

  /** The int left in a variable initialised to 0 after one `>>` from a fresh stream over `s`. */
  function LeadingInt(s: string): int
  {
    ExtractInt(Open(s), 0).value
  }

  /** The script and output numbers of a `lua(` token: `>> script; ignore(); >> output`. */
  function LuaFields(s: string): (int, int)
  {
    var script := ExtractInt(Open(s), 0);
    var output := ExtractInt(IgnoreOne(script.state), 0);
    (script.value, output.value)
  }

  /** The sign code (0, 1 for '-', 2 for '+') and sensor number of a `tele(` token. */
  function TelemetryFields(s: string): (int, int)
  {
    var peeked := PeekAt(Open(s));
    var sign := if peeked.c == '-' as int then 1 else if peeked.c == '+' as int then 2 else 0;
    var st := if sign != 0 then IgnoreOne(peeked.state) else peeked.state;
    (sign, ExtractInt(st, 0).value)
  }

  // Decoding: names.

  /** The text looked up among the input names: the token, or before the refactor its remapped legacy form. */
  function StickName(t: string, ctx: Context): string
  {
    if ctx.isLegacy then
      var mapped := LegacyAnalogMappedTag(ctx.caps, t);
      var idx := InputTagIndex(ctx.caps.inputs, mapped);
      if idx >= 0 && IsInputStick(ctx.caps, idx) then ctx.caps.inputs[idx].name else mapped
    else t
  }

  /** The text looked up among the trim names: the token, or before the refactor the trim its legacy name stands for. */
  function TrimName(t: string, ctx: Context): string
  {
    if ctx.isLegacy then
      var idx := IndexOf(ctx.caps.legacyTrimSources, t);
      if idx >= 0 then TagOf(ctx.caps.trimRefs, idx) else t
    else t
  }

  /** The text looked up among the special sources: before the refactor `TIMERn` is read as `Tmrn`. */
  function SpecialName(t: string, ctx: Context): string
  {
    if ctx.isLegacy && |t| == 6 && t[..5] == "TIMER" then "Tmr" + t[5..6] else t
  }

  /** The last branch: the reserved words, then the stick, trim, special, cyclic and spacemouse tables in that order. */
  function DecodeName(t: string, ctx: Context): RawSource
  {
    if t == "MAX" then RawSource(SourceMax, 0)
    else if t == "MIN" then RawSource(SourceMin, 0)
    else
      var stick := IndexOf(ctx.caps.inputRefs, StickName(t, ctx));
      if stick >= 0 then RawSource(SourceStick, stick)
      else
        var trim := IndexOf(ctx.caps.trimRefs, TrimName(t, ctx));
        if trim >= 0 then RawSource(SourceTrim, trim)
        else
          var special := IndexOf(ctx.caps.specialTags, SpecialName(t, ctx));
          if special >= 0 then RawSource(SourceSpecial, special)
          else
            var cyclic := IndexOf(ctx.caps.cyclicTags, t);
            if cyclic >= 0 then RawSource(SourceCyclic, cyclic)
            else if |t| == 12 && t[..11] == "SPACEMOUSE_" then
              var axis := IndexOf(SpacemouseLut, t);
              if axis >= 0 then RawSource(SourceSpacemouse, axis) else DefaultSource
            else DefaultSource
  }

  /** YamlRawSourceDecode: the source a token denotes, or DefaultSource when the selected branch rejects it. */
  function Decode(t: string, ctx: Context): RawSource
  {
    var lim := ctx.limits;
    match SelectRule(t)
    case InputRule =>
      var idx := Stoi(t[1..]);
      if idx < lim.maxInputs then RawSource(SourceVirtualInput, idx) else DefaultSource
    case SwitchRule =>
      var idx := IndexOf(ctx.caps.switchRefs, t);
      if idx >= 0 then RawSource(SourceSwitch, idx) else DefaultSource
    case LuaRule =>
      var (script, output) := LuaFields(t[4..]);
      if script < lim.maxScripts && output < lim.maxScriptInputs
      then RawSource(SourceLuaOutput, script * 16 + output) else DefaultSource
    case LogicalSwitchRule =>
      var ls := LeadingInt(t[3..]);
      if 0 < ls <= lim.maxLogicalSwitches then RawSource(SourceCustomSwitch, ls - 1) else DefaultSource
    case FunctionSwitchRule =>
      var fs := LeadingInt(t[3..]);
      if fs > 0 then
        var idx := IndexOf(ctx.caps.switchRefs, "SW" + IntToString(fs));
        if idx >= 0 then RawSource(SourceSwitch, idx) else DefaultSource
      else DefaultSource
    case TrainerRule =>
      var tr := LeadingInt(t[3..]);
      if tr < ctx.trainerInputs then RawSource(SourcePpm, tr) else DefaultSource
    case ChannelRule =>
      var ch := LeadingInt(t[3..]);
      if ch < lim.maxChannels then RawSource(SourceChannel, ch) else DefaultSource
    case GvarRule =>
      var gv := LeadingInt(t[3..]);
      if gv < lim.maxGvars then RawSource(SourceGvar, gv) else DefaultSource
    case TelemetryRule =>
      var (sign, sensor) := TelemetryFields(t[5..]);
      if sensor < lim.maxSensors then RawSource(SourceTelemetry, sensor * 3 + sign) else DefaultSource
    case NamedRule => DecodeName(t, ctx)
  }

  /** One `>>` into an int initialised to 0, from a fresh stream over `s`. */
  method ReadLeadingInt(s: string) returns (v: int)
    ensures v == LeadingInt(s)
  {
    var src := new StringStream(s);
    v := src.Extract(0);
  }

  /** The `lua(` branch's reads: `>> script; ignore(); >> output`. */
  method ReadLuaFields(s: string) returns (script: int, output: int)
    ensures (script, output) == LuaFields(s)
  {
    var src := new StringStream(s);
    script, output := 0, 0;
    script := src.Extract(script);
    src.Ignore();
    output := src.Extract(output);
  }

  /** The `tele(` branch's reads: an optional sign consumed after a peek, then `>> sensor`. */
  method ReadTelemetryFields(s: string) returns (sign: int, sensor: int)
    ensures (sign, sensor) == TelemetryFields(s)
  {
    var src := new StringStream(s);
    sign := 0;
    var c := src.Peek();
    if c == '-' as int {
      sign := 1;
      src.Ignore();
    } else if c == '+' as int {
      sign := 2;
      src.Ignore();
    }
    sensor := src.Extract(0);
  }

  /** The last branch of YamlRawSourceDecode: the legacy rewrites in place, and a return at the first table that knows the name. */
  method DecodeNamedSource(srcStr: string, ctx: Context) returns (rhs: RawSource)
    requires SelectRule(srcStr) == NamedRule
    ensures rhs == Decode(srcStr, ctx)
  {
    rhs := DefaultSource;
    if srcStr == "MAX" {
      rhs := rhs.(kind := SourceMax);
      rhs := rhs.(index := 0);
      return;
    }
    if srcStr == "MIN" {
      rhs := rhs.(kind := SourceMin);
      rhs := rhs.(index := 0);
      return;
    }

    var anaStr := srcStr;
    if ctx.isLegacy {
      anaStr := LegacyAnalogMappedTag(ctx.caps, anaStr);
      var idx := InputTagIndex(ctx.caps.inputs, anaStr);
      if idx >= 0 && IsInputStick(ctx.caps, idx) {
        anaStr := ctx.caps.inputs[idx].name;
      }
    }
    var anaIdx := IndexOf(ctx.caps.inputRefs, anaStr);
    if anaIdx >= 0 {
      rhs := rhs.(kind := SourceStick);
      rhs := rhs.(index := anaIdx);
      return;
    }

    var trimStr := srcStr;
    if ctx.isLegacy {
      var idx := IndexOf(ctx.caps.legacyTrimSources, srcStr);
      if idx >= 0 {
        trimStr := TagOf(ctx.caps.trimRefs, idx);
      }
    }
    var trmIdx := IndexOf(ctx.caps.trimRefs, trimStr);
    if trmIdx >= 0 {
      rhs := rhs.(kind := SourceTrim);
      rhs := rhs.(index := trmIdx);
      return;
    }

    var specialStr := srcStr;
    if ctx.isLegacy {
      if |specialStr| == 6 && specialStr[..5] == "TIMER" {
        specialStr := "Tmr" + specialStr[5..6];
      }
    }
    var spIdx := IndexOf(ctx.caps.specialTags, specialStr);
    if spIdx >= 0 {
      rhs := rhs.(kind := SourceSpecial);
      rhs := rhs.(index := spIdx);
      return;
    }

    var cycIdx := IndexOf(ctx.caps.cyclicTags, srcStr);
    if cycIdx >= 0 {
      rhs := rhs.(kind := SourceCyclic);
      rhs := rhs.(index := cycIdx);
      return;
    }

    if |srcStr| == 12 && srcStr[..11] == "SPACEMOUSE_" {
      var smIdx := IndexOf(SpacemouseLut, srcStr);
      if smIdx >= 0 {
        rhs := rhs.(kind := SourceSpacemouse);
        rhs := rhs.(index := smIdx);
        return;
      }
    }
  }

  /**
   * YamlRawSourceDecode, step by step: the if/else-if chain tests the token
   * against each branch in turn, and the first branch whose test passes
   * reads it. Each branch's block is a method of its own below.
   */
  method DecodeRawSource(srcStr: string, ctx: Context) returns (rhs: RawSource)
    ensures rhs == Decode(srcStr, ctx)
  {
    if IsInputToken(srcStr) {
      rhs := DecodeInputToken(srcStr, ctx);
    } else if IsSwitchTagShaped(srcStr) {
      rhs := DecodeSwitchToken(srcStr, ctx);
    } else if IsLuaToken(srcStr) {
      rhs := DecodeLuaToken(srcStr, ctx);
    } else if IsCallToken(srcStr, 'l', 's') {
      rhs := DecodeLogicalSwitchToken(srcStr, ctx);
    } else if IsCallToken(srcStr, 'f', 's') {
      rhs := DecodeFunctionSwitchToken(srcStr, ctx);
    } else if IsCallToken(srcStr, 't', 'r') {
      rhs := DecodeTrainerToken(srcStr, ctx);
    } else if IsCallToken(srcStr, 'c', 'h') {
      rhs := DecodeChannelToken(srcStr, ctx);
    } else if IsCallToken(srcStr, 'g', 'v') {
      rhs := DecodeGvarToken(srcStr, ctx);
    } else if IsTelemetryToken(srcStr) {
      rhs := DecodeTelemetryToken(srcStr, ctx);
    } else {
      rhs := DecodeNamedSource(srcStr, ctx);
    }
  }

  /** `I<n>`: std::stoi of the rest, a virtual input when below CPN_MAX_INPUTS. */
  method DecodeInputToken(srcStr: string, ctx: Context) returns (rhs: RawSource)
    requires SelectRule(srcStr) == InputRule
    ensures rhs == Decode(srcStr, ctx)
  {
    PrefixSelectsRule(srcStr);
    rhs := DefaultSource;
    var idx := Stoi(srcStr[1..]);
    if idx < ctx.limits.maxInputs {
      rhs := RawSource(SourceVirtualInput, idx);
    }
  }

  /** A switch-shaped token: its position in the board's switch table, if it is there. */
  method DecodeSwitchToken(srcStr: string, ctx: Context) returns (rhs: RawSource)
    requires SelectRule(srcStr) == SwitchRule
    ensures rhs == Decode(srcStr, ctx)
  {
    PrefixSelectsRule(srcStr);
    rhs := DefaultSource;
    var idx := IndexOf(ctx.caps.switchRefs, srcStr);
    if idx >= 0 {
      rhs := RawSource(SourceSwitch, idx);
    }
  }

  /** `lua(s,o)`: script and output, packed as s * 16 + o when both are below their capacities. */
  method DecodeLuaToken(srcStr: string, ctx: Context) returns (rhs: RawSource)
    requires SelectRule(srcStr) == LuaRule
    ensures rhs == Decode(srcStr, ctx)
  {
    PrefixSelectsRule(srcStr);
    rhs := DefaultSource;
    var script, output := ReadLuaFields(srcStr[4..]);
    if script < ctx.limits.maxScripts && output < ctx.limits.maxScriptInputs {
      rhs := RawSource(SourceLuaOutput, script * 16 + output);
    }
  }

  /** `ls(n)`: logical switch n - 1 when 0 < n <= CPN_MAX_LOGICAL_SWITCHES. */
  method DecodeLogicalSwitchToken(srcStr: string, ctx: Context) returns (rhs: RawSource)
    requires SelectRule(srcStr) == LogicalSwitchRule
    ensures rhs == Decode(srcStr, ctx)
  {
    PrefixSelectsRule(srcStr);
    rhs := DefaultSource;
    var ls := ReadLeadingInt(srcStr[3..]);
    if ls > 0 && ls <= ctx.limits.maxLogicalSwitches {
      rhs := RawSource(SourceCustomSwitch, ls - 1);
    }
  }

  /** `fs(n)`: the board switch named `SW<n>`, if n is positive and the board has it. */
  method DecodeFunctionSwitchToken(srcStr: string, ctx: Context) returns (rhs: RawSource)
    requires SelectRule(srcStr) == FunctionSwitchRule
    ensures rhs == Decode(srcStr, ctx)
  {
    PrefixSelectsRule(srcStr);
    rhs := DefaultSource;
    var fs := ReadLeadingInt(srcStr[3..]);
    if fs > 0 {
      var fsIdx := IndexOf(ctx.caps.switchRefs, "SW" + IntToString(fs));
      if fsIdx >= 0 {
        rhs := RawSource(SourceSwitch, fsIdx);
      }
    }
  }

  /** `tr(n)`: trainer input n when below the firmware's number of trainer inputs. */
  method DecodeTrainerToken(srcStr: string, ctx: Context) returns (rhs: RawSource)
    requires SelectRule(srcStr) == TrainerRule
    ensures rhs == Decode(srcStr, ctx)
  {
    PrefixSelectsRule(srcStr);
    rhs := DefaultSource;
    var tr := ReadLeadingInt(srcStr[3..]);
    if tr < ctx.trainerInputs {
      rhs := RawSource(SourcePpm, tr);
    }
  }

  /** `ch(n)`: channel n when below CPN_MAX_CHNOUT. */
  method DecodeChannelToken(srcStr: string, ctx: Context) returns (rhs: RawSource)
    requires SelectRule(srcStr) == ChannelRule
    ensures rhs == Decode(srcStr, ctx)
  {
    PrefixSelectsRule(srcStr);
    rhs := DefaultSource;
    var ch := ReadLeadingInt(srcStr[3..]);
    if ch < ctx.limits.maxChannels {
      rhs := RawSource(SourceChannel, ch);
    }
  }

  /** `gv(n)`: global variable n when below CPN_MAX_GVARS. */
  method DecodeGvarToken(srcStr: string, ctx: Context) returns (rhs: RawSource)
    requires SelectRule(srcStr) == GvarRule
    ensures rhs == Decode(srcStr, ctx)
  {
    PrefixSelectsRule(srcStr);
    rhs := DefaultSource;
    var gv := ReadLeadingInt(srcStr[3..]);
    if gv < ctx.limits.maxGvars {
      rhs := RawSource(SourceGvar, gv);
    }
  }

  /** `tele(<sign>n)`: sensor n with its sign code, packed as n * 3 + sign when n is below CPN_MAX_SENSORS. */
  method DecodeTelemetryToken(srcStr: string, ctx: Context) returns (rhs: RawSource)
    requires SelectRule(srcStr) == TelemetryRule
    ensures rhs == Decode(srcStr, ctx)
  {
    PrefixSelectsRule(srcStr);
    rhs := DefaultSource;
    var sign, sensor := ReadTelemetryFields(srcStr[5..]);
    if sensor < ctx.limits.maxSensors {
      rhs := RawSource(SourceTelemetry, sensor * 3 + sign);
    }
  }

  /** convert<RawSource>::decode: every scalar decodes, so the conversion always reports success. */
  method ConvertDecode(scalar: string, ctx: Context) returns (ok: bool, rhs: RawSource)
    ensures ok
    ensures rhs == Decode(scalar, ctx)
  {
    rhs := DecodeRawSource(scalar, ctx);
    ok := true;
  }
}
