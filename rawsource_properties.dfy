// Properties of the raw-source codec: what each prefixed branch of the
// decoder accepts, the round trip Decode(Encode(v)) == v for every source
// within the board's tables and the firmware's capacities, the first-match
// rule of the branch chain, the order of the name tables, and the legacy
// rewrites gated on the settings version.

module RawSourceProperties {
  import opened Decimal
  import opened Streams
  import opened LookupTables
  import opened Boards
  import opened YamlRawSource

  // Reading numerals back.

  /** A numeral followed by text that does not start with a digit is read back by one `>>`. */
  lemma LeadingIntOfDecimal(n: int, tail: string)
    requires StopsDigits(tail)
    ensures LeadingInt(IntToString(n) + tail) == n
  {
    ExtractIntOfDecimal(Open(IntToString(n) + tail), n, tail, 0);
  }

  /** A numeral is at least one character long. */
  lemma IntToStringNonEmpty(n: int)
    ensures |IntToString(n)| >= 1
  {
    NatToDigitsValue(if n < 0 then -n else n);
  }

  /** std::stoi reads a numeral back. */
  lemma StoiOfDecimal(n: int)
    ensures Stoi(IntToString(n)) == n
  {
    var s := IntToString(n);
    IntToStringHead(n);
    SkipSpacesOfNonSpace(s);
    assert s + [] == s;
    ScanNumberOfDecimal(n, []);
  }

  /** The value of a digit run is never negative. */
  lemma {:induction false} DigitsValueNonNegative(ds: string)
    requires AllDigits(ds)
    ensures DigitsValue(ds) >= 0
  {
    if |ds| > 0 {
      DigitsValueNonNegative(ds[..|ds| - 1]);
    }
  }

  /** std::stoi of a text that starts with a digit is never negative. */
  lemma StoiOfDigitRunNonNegative(s: string)
    requires |s| > 0 && IsDigit(s[0])
    ensures Stoi(s) >= 0
  {
    assert SkipSpaces(s) == s;
    assert SignlessBody(s) == s;
    DigitRunIsMaximal(s);
    DigitsValueNonNegative(s[..DigitRun(s)]);
  }

  /** The token `p(n)` splits into its opening and the numeral with its closing parenthesis, which `>>` reads as n. */
  lemma CallTokenParts(p: string, n: int)
    ensures |p + IntToString(n) + ")"| >= |p| + 2
    ensures (p + IntToString(n) + ")")[..|p|] == p
    ensures (p + IntToString(n) + ")")[|p|..] == IntToString(n) + ")"
    ensures LeadingInt((p + IntToString(n) + ")")[|p|..]) == n
  {
    IntToStringNonEmpty(n);
    var t := p + IntToString(n) + ")";
    assert t[|p|..] == IntToString(n) + ")";
    assert t[..|p|] == p;
    LeadingIntOfDecimal(n, ")");
  }

  // Decode on the tokens of one branch, whatever the rest of the token is.

  lemma InputBranch(t: string, ctx: Context)
    requires IsInputToken(t)
    ensures Decode(t, ctx) ==
      if Stoi(t[1..]) < ctx.limits.maxInputs then RawSource(SourceVirtualInput, Stoi(t[1..])) else DefaultSource
  {
    PrefixSelectsRule(t);
  }

  lemma SwitchBranch(t: string, ctx: Context)
    requires IsSwitchTagShaped(t)
    ensures Decode(t, ctx) ==
      if IndexOf(ctx.caps.switchRefs, t) >= 0 then RawSource(SourceSwitch, IndexOf(ctx.caps.switchRefs, t)) else DefaultSource
  {
    PrefixSelectsRule(t);
  }

  lemma LuaBranch(t: string, ctx: Context)
    requires IsLuaToken(t)
    ensures Decode(t, ctx) ==
      var (script, output) := LuaFields(t[4..]);
      if script < ctx.limits.maxScripts && output < ctx.limits.maxScriptInputs
      then RawSource(SourceLuaOutput, script * 16 + output) else DefaultSource
  {
    PrefixSelectsRule(t);
  }

  lemma LogicalSwitchBranch(t: string, ctx: Context)
    requires IsCallToken(t, 'l', 's')
    ensures Decode(t, ctx) ==
      if 0 < LeadingInt(t[3..]) <= ctx.limits.maxLogicalSwitches
      then RawSource(SourceCustomSwitch, LeadingInt(t[3..]) - 1) else DefaultSource
  {
    PrefixSelectsRule(t);
  }

  lemma FunctionSwitchBranch(t: string, ctx: Context)
    requires IsCallToken(t, 'f', 's')
    ensures Decode(t, ctx) ==
      var fs := LeadingInt(t[3..]);
      if fs > 0 && IndexOf(ctx.caps.switchRefs, "SW" + IntToString(fs)) >= 0
      then RawSource(SourceSwitch, IndexOf(ctx.caps.switchRefs, "SW" + IntToString(fs))) else DefaultSource
  {
    PrefixSelectsRule(t);
  }

  lemma TrainerBranch(t: string, ctx: Context)
    requires IsCallToken(t, 't', 'r')
    ensures Decode(t, ctx) ==
      if LeadingInt(t[3..]) < ctx.trainerInputs then RawSource(SourcePpm, LeadingInt(t[3..])) else DefaultSource
  {
    PrefixSelectsRule(t);
  }

  lemma ChannelBranch(t: string, ctx: Context)
    requires IsCallToken(t, 'c', 'h')
    ensures Decode(t, ctx) ==
      if LeadingInt(t[3..]) < ctx.limits.maxChannels then RawSource(SourceChannel, LeadingInt(t[3..])) else DefaultSource
  {
    PrefixSelectsRule(t);
  }

  lemma GvarBranch(t: string, ctx: Context)
    requires IsCallToken(t, 'g', 'v')
    ensures Decode(t, ctx) ==
      if LeadingInt(t[3..]) < ctx.limits.maxGvars then RawSource(SourceGvar, LeadingInt(t[3..])) else DefaultSource
  {
    PrefixSelectsRule(t);
  }

  lemma TelemetryBranch(t: string, ctx: Context)
    requires IsTelemetryToken(t)
    ensures Decode(t, ctx) ==
      var (sign, sensor) := TelemetryFields(t[5..]);
      if sensor < ctx.limits.maxSensors then RawSource(SourceTelemetry, sensor * 3 + sign) else DefaultSource
  {
    PrefixSelectsRule(t);
  }

  // The shapes of the tokens Encode writes.

  /** `p(n)` with a two-letter p passes the call test for p's letters, and `>>` reads n after the opening. */
  lemma CallTokenShape(p: string, n: int)
    requires |p| == 3 && p[2] == '('
    ensures IsCallToken(p + IntToString(n) + ")", p[0], p[1])
    ensures LeadingInt((p + IntToString(n) + ")")[3..]) == n
  {
    CallTokenParts(p, n);
    var t := p + IntToString(n) + ")";
    assert t[0] == p[0] && t[1] == p[1] && t[2] == p[2];
  }

  /** The fields of `s,o)` are read back as s and o. */
  lemma LuaFieldsOfDecimals(script: int, output: int)
    ensures LuaFields(IntToString(script) + "," + IntToString(output) + ")") == (script, output)
  {
    var s := IntToString(script);
    var o := IntToString(output);
    var tail := "," + o + ")";
    assert s + "," + o + ")" == s + tail;
    assert tail[1..] == o + ")";
    ExtractIntOfDecimal(Open(s + tail), script, tail, 0);
    assert IgnoreOne(StreamState(tail, false, false)) == Open(o + ")");
    ExtractIntOfDecimal(Open(o + ")"), output, ")", 0);
  }

  /** A token made of an opening and a non-empty rest starts with the opening's characters, and the rest follows it. */
  lemma OpeningShape(opening: string, rest: string)
    requires |rest| > 0
    ensures |opening + rest| > |opening|
    ensures forall i :: 0 <= i < |opening| ==> (opening + rest)[i] == opening[i]
    ensures (opening + rest)[|opening|..] == rest
  {
  }

  /** `lua(a,b)` passes the Lua test, and its fields follow the opening. */
  lemma LuaTokenShape(a: string, b: string)
    ensures IsLuaToken("lua(" + a + "," + b + ")")
    ensures ("lua(" + a + "," + b + ")")[4..] == a + "," + b + ")"
  {
    var rest := a + "," + b + ")";
    assert "lua(" + a + "," + b + ")" == "lua(" + rest;
    OpeningShape("lua(", rest);
  }

  /** The fields of `<sign>n)` for n >= 0 are read back as the sign code and n. */
  lemma TelemetryFieldsOfDecimal(sign: int, sensor: int)
    requires 0 <= sign <= 2 && sensor >= 0
    ensures TelemetryFields(TelemetrySign(sign) + IntToString(sensor) + ")") == (sign, sensor)
  {
    var d := IntToString(sensor);
    IntToStringNonNegative(sensor);
    var body := TelemetrySign(sign) + d + ")";
    if sign == 0 {
      assert body == d + ")";
      assert IsDigit(body[0]);
    } else {
      assert body[1..] == d + ")";
    }
    ExtractIntOfDecimal(Open(d + ")"), sensor, ")", 0);
  }

  /** `tele(<sign>n)` passes the telemetry test, and its fields follow the opening. */
  lemma TelemetryTokenShape(sign: string, n: string)
    ensures IsTelemetryToken("tele(" + sign + n + ")")
    ensures ("tele(" + sign + n + ")")[5..] == sign + n + ")"
  {
    var rest := sign + n + ")";
    assert "tele(" + sign + n + ")" == "tele(" + rest;
    OpeningShape("tele(", rest);
  }

  // What each prefixed branch accepts.

  /** `I<n>` for n >= 0 is a virtual input exactly when n < CPN_MAX_INPUTS. */
  lemma DecodeVirtualInput(n: int, ctx: Context)
    requires n >= 0
    ensures Decode("I" + IntToString(n), ctx) ==
      if n < ctx.limits.maxInputs then RawSource(SourceVirtualInput, n) else DefaultSource
  {
    IntToStringNonNegative(n);
    var t := "I" + IntToString(n);
    assert t[1..] == IntToString(n);
    assert t[0] == 'I' && IsDigit(t[1]);
    StoiOfDecimal(n);
    InputBranch(t, ctx);
  }

  /** `I` must be followed by a digit, so a decoded virtual input never has a negative index. */
  lemma VirtualInputIndexNonNegative(t: string, ctx: Context)
    requires Decode(t, ctx).kind == SourceVirtualInput
    ensures 0 <= Decode(t, ctx).index < ctx.limits.maxInputs
  {
    PrefixSelectsRule(t);
    match SelectRule(t)
    case InputRule =>
      StoiOfDigitRunNonNegative(t[1..]);
      InputBranch(t, ctx);
    case SwitchRule => SwitchBranch(t, ctx);
    case LuaRule => LuaBranch(t, ctx);
    case LogicalSwitchRule => LogicalSwitchBranch(t, ctx);
    case FunctionSwitchRule => FunctionSwitchBranch(t, ctx);
    case TrainerRule => TrainerBranch(t, ctx);
    case ChannelRule => ChannelBranch(t, ctx);
    case GvarRule => GvarBranch(t, ctx);
    case TelemetryRule => TelemetryBranch(t, ctx);
    case NamedRule => NamedBranch(t, ctx);
  }

  /** `lua(s,o)` is the Lua output s * 16 + o exactly when s < CPN_MAX_SCRIPTS and o < CPN_MAX_SCRIPT_INPUTS, whatever their signs. */
  lemma DecodeLua(script: int, output: int, ctx: Context)
    ensures Decode("lua(" + IntToString(script) + "," + IntToString(output) + ")", ctx) ==
      if script < ctx.limits.maxScripts && output < ctx.limits.maxScriptInputs
      then RawSource(SourceLuaOutput, script * 16 + output) else DefaultSource
  {
    LuaTokenShape(IntToString(script), IntToString(output));
    LuaFieldsOfDecimals(script, output);
    LuaBranch("lua(" + IntToString(script) + "," + IntToString(output) + ")", ctx);
  }

  /** `ls(n)` is logical switch n - 1 exactly when 1 <= n <= CPN_MAX_LOGICAL_SWITCHES. */
  lemma DecodeLogicalSwitch(n: int, ctx: Context)
    ensures Decode("ls(" + IntToString(n) + ")", ctx) ==
      if 0 < n <= ctx.limits.maxLogicalSwitches then RawSource(SourceCustomSwitch, n - 1) else DefaultSource
  {
    CallTokenShape("ls(", n);
    LogicalSwitchBranch("ls(" + IntToString(n) + ")", ctx);
  }

  /** `fs(n)` is the board switch `SW<n>` when n is positive and the board has that switch, and no source otherwise. */
  lemma DecodeFunctionSwitch(n: int, ctx: Context)
    ensures Decode("fs(" + IntToString(n) + ")", ctx) ==
      if n > 0 && "SW" + IntToString(n) in ctx.caps.switchRefs
      then RawSource(SourceSwitch, IndexOf(ctx.caps.switchRefs, "SW" + IntToString(n))) else DefaultSource
  {
    CallTokenShape("fs(", n);
    FunctionSwitchBranch("fs(" + IntToString(n) + ")", ctx);
  }

  /** `tr(n)` is trainer input n exactly when n is below the firmware's number of trainer inputs. */
  lemma DecodeTrainer(n: int, ctx: Context)
    ensures Decode("tr(" + IntToString(n) + ")", ctx) ==
      if n < ctx.trainerInputs then RawSource(SourcePpm, n) else DefaultSource
  {
    CallTokenShape("tr(", n);
    TrainerBranch("tr(" + IntToString(n) + ")", ctx);
  }

  /** `ch(n)` is channel n exactly when n < CPN_MAX_CHNOUT; a negative n passes. */
  lemma DecodeChannel(n: int, ctx: Context)
    ensures Decode("ch(" + IntToString(n) + ")", ctx) ==
      if n < ctx.limits.maxChannels then RawSource(SourceChannel, n) else DefaultSource
  {
    CallTokenShape("ch(", n);
    ChannelBranch("ch(" + IntToString(n) + ")", ctx);
  }

  /** `gv(n)` is global variable n exactly when n < CPN_MAX_GVARS; a negative n passes. */
  lemma DecodeGvar(n: int, ctx: Context)
    ensures Decode("gv(" + IntToString(n) + ")", ctx) ==
      if n < ctx.limits.maxGvars then RawSource(SourceGvar, n) else DefaultSource
  {
    CallTokenShape("gv(", n);
    GvarBranch("gv(" + IntToString(n) + ")", ctx);
  }

  /** `tele(<sign>n)` for n >= 0 is the telemetry source n * 3 + sign exactly when n < CPN_MAX_SENSORS. */
  lemma DecodeTelemetry(sign: int, sensor: int, ctx: Context)
    requires 0 <= sign <= 2 && sensor >= 0
    ensures Decode("tele(" + TelemetrySign(sign) + IntToString(sensor) + ")", ctx) ==
      if sensor < ctx.limits.maxSensors then RawSource(SourceTelemetry, sensor * 3 + sign) else DefaultSource
  {
    TelemetryTokenShape(TelemetrySign(sign), IntToString(sensor));
    TelemetryFieldsOfDecimal(sign, sensor);
    TelemetryBranch("tele(" + TelemetrySign(sign) + IntToString(sensor) + ")", ctx);
  }

  // How Encode writes the prefixed kinds.

  /** Lua output i >= 0 is written with script i / 16 and output i % 16. */
  lemma LuaEncoding(i: int, caps: Capabilities)
    requires i >= 0
    ensures Encode(RawSource(SourceLuaOutput, i), caps) ==
      "lua(" + IntToString(i / 16) + "," + IntToString(i % 16) + ")"
  {
  }

  /** Logical switch i is written 1-based, trainer inputs, channels and global variables as they are. */
  lemma CallEncoding(i: int, caps: Capabilities)
    ensures Encode(RawSource(SourceCustomSwitch, i), caps) == "ls(" + IntToString(i + 1) + ")"
    ensures Encode(RawSource(SourcePpm, i), caps) == "tr(" + IntToString(i) + ")"
    ensures Encode(RawSource(SourceChannel, i), caps) == "ch(" + IntToString(i) + ")"
    ensures Encode(RawSource(SourceGvar, i), caps) == "gv(" + IntToString(i) + ")"
  {
  }

  /**
   * The decoder's chain gives each written call form to the branch of its
   * own kind, and that branch reads back the number the encoder wrote.
   */
  lemma CallEncodingSelectsRule(i: int, caps: Capabilities)
    ensures SelectRule(Encode(RawSource(SourceCustomSwitch, i), caps)) == LogicalSwitchRule
    ensures LeadingInt(Encode(RawSource(SourceCustomSwitch, i), caps)[3..]) == i + 1
    ensures SelectRule(Encode(RawSource(SourcePpm, i), caps)) == TrainerRule
    ensures LeadingInt(Encode(RawSource(SourcePpm, i), caps)[3..]) == i
    ensures SelectRule(Encode(RawSource(SourceChannel, i), caps)) == ChannelRule
    ensures LeadingInt(Encode(RawSource(SourceChannel, i), caps)[3..]) == i
    ensures SelectRule(Encode(RawSource(SourceGvar, i), caps)) == GvarRule
    ensures LeadingInt(Encode(RawSource(SourceGvar, i), caps)[3..]) == i
  {
    CallEncoding(i, caps);
    CallTokenShape("ls(", i + 1);
    PrefixSelectsRule(Encode(RawSource(SourceCustomSwitch, i), caps));
    CallTokenShape("tr(", i);
    PrefixSelectsRule(Encode(RawSource(SourcePpm, i), caps));
    CallTokenShape("ch(", i);
    PrefixSelectsRule(Encode(RawSource(SourceChannel, i), caps));
    CallTokenShape("gv(", i);
    PrefixSelectsRule(Encode(RawSource(SourceGvar, i), caps));
  }

  /** Telemetry source i >= 0 is written as sensor i / 3 with the sign for i % 3. */
  lemma TelemetryEncoding(i: int, caps: Capabilities)
    requires i >= 0
    ensures Encode(RawSource(SourceTelemetry, i), caps) ==
      "tele(" + TelemetrySign(i % 3) + IntToString(i / 3) + ")"
  {
  }

  /** Sticks, trims, board switches, special and cyclic sources are written as their table entry; MIN, MAX and NONE as those words. */
  lemma NameEncoding(v: RawSource, caps: Capabilities)
    ensures v.kind == SourceStick && 0 <= v.index < |caps.inputRefs| ==> Encode(v, caps) == caps.inputRefs[v.index]
    ensures v.kind == SourceTrim && 0 <= v.index < |caps.trimRefs| ==> Encode(v, caps) == caps.trimRefs[v.index]
    ensures v.kind == SourceSwitch && 0 <= v.index < |caps.switchRefs| ==> Encode(v, caps) == caps.switchRefs[v.index]
    ensures v.kind == SourceSpecial && 0 <= v.index < |caps.specialTags| ==> Encode(v, caps) == caps.specialTags[v.index]
    ensures v.kind == SourceCyclic && 0 <= v.index < |caps.cyclicTags| ==> Encode(v, caps) == caps.cyclicTags[v.index]
    ensures v.kind == SourceMin ==> Encode(v, caps) == "MIN"
    ensures v.kind == SourceMax ==> Encode(v, caps) == "MAX"
    ensures v.kind == SourceNone ==> Encode(v, caps) == "NONE"
  {
  }

  /** MIN, MAX and NONE pass no prefix test. */
  lemma ReservedWordsAreNames()
    ensures SelectRule("MIN") == NamedRule && SelectRule("MAX") == NamedRule && SelectRule("NONE") == NamedRule
  {
  }

  // Round trips, kind by kind.

  /** Virtual inputs: `I<n>` comes back as the same input for 0 <= n < CPN_MAX_INPUTS, and as no source above. */
  lemma VirtualInputRoundTrip(i: int, ctx: Context)
    requires i >= 0
    ensures Decode(Encode(RawSource(SourceVirtualInput, i), ctx.caps), ctx) ==
      if i < ctx.limits.maxInputs then RawSource(SourceVirtualInput, i) else DefaultSource
  {
    DecodeVirtualInput(i, ctx);
  }

  /** Lua outputs: `lua(i/16,i%16)` comes back as i when both parts are within their capacities. */
  lemma LuaRoundTrip(i: int, ctx: Context)
    requires i >= 0 && i / 16 < ctx.limits.maxScripts && i % 16 < ctx.limits.maxScriptInputs
    ensures Decode(Encode(RawSource(SourceLuaOutput, i), ctx.caps), ctx) == RawSource(SourceLuaOutput, i)
  {
    LuaEncoding(i, ctx.caps);
    DecodeLua(i / 16, i % 16, ctx);
  }

  /** Logical switches: the 1-based `ls(i+1)` comes back as i exactly when 0 <= i < CPN_MAX_LOGICAL_SWITCHES. */
  lemma LogicalSwitchRoundTrip(i: int, ctx: Context)
    ensures Decode(Encode(RawSource(SourceCustomSwitch, i), ctx.caps), ctx) ==
      if 0 <= i < ctx.limits.maxLogicalSwitches then RawSource(SourceCustomSwitch, i) else DefaultSource
  {
    CallEncoding(i, ctx.caps);
    DecodeLogicalSwitch(i + 1, ctx);
  }

  /** Trainer inputs come back exactly when the index is below the number of trainer inputs. */
  lemma TrainerRoundTrip(i: int, ctx: Context)
    ensures Decode(Encode(RawSource(SourcePpm, i), ctx.caps), ctx) ==
      if i < ctx.trainerInputs then RawSource(SourcePpm, i) else DefaultSource
  {
    CallEncoding(i, ctx.caps);
    DecodeTrainer(i, ctx);
  }

  /** Channels come back exactly when the index is below CPN_MAX_CHNOUT. */
  lemma ChannelRoundTrip(i: int, ctx: Context)
    ensures Decode(Encode(RawSource(SourceChannel, i), ctx.caps), ctx) ==
      if i < ctx.limits.maxChannels then RawSource(SourceChannel, i) else DefaultSource
  {
    CallEncoding(i, ctx.caps);
    DecodeChannel(i, ctx);
  }

  /** Global variables come back exactly when the index is below CPN_MAX_GVARS. */
  lemma GvarRoundTrip(i: int, ctx: Context)
    ensures Decode(Encode(RawSource(SourceGvar, i), ctx.caps), ctx) ==
      if i < ctx.limits.maxGvars then RawSource(SourceGvar, i) else DefaultSource
  {
    CallEncoding(i, ctx.caps);
    DecodeGvar(i, ctx);
  }

  /** Telemetry: sensor i/3 with the sign for i%3 comes back as i whenever i/3 < CPN_MAX_SENSORS. */
  lemma TelemetryRoundTrip(i: int, ctx: Context)
    requires i >= 0 && i / 3 < ctx.limits.maxSensors
    ensures Decode(Encode(RawSource(SourceTelemetry, i), ctx.caps), ctx) == RawSource(SourceTelemetry, i)
  {
    TelemetryEncoding(i, ctx.caps);
    DecodeTelemetry(i % 3, i / 3, ctx);
  }

  /** MIN and MAX are written without their index and read back with index 0. */
  lemma MinMaxRoundTrip(v: RawSource, ctx: Context)
    requires v.kind == SourceMin || v.kind == SourceMax
    ensures Decode(Encode(v, ctx.caps), ctx) == RawSource(v.kind, 0)
  {
    NameEncoding(v, ctx.caps);
    ReservedWordsAreNames();
    if v.kind == SourceMin {
      NamedBranch("MIN", ctx);
    } else {
      NamedBranch("MAX", ctx);
    }
  }

  // The spacemouse table.

  /** The letter written for axis i is the last character of the table's entry i. */
  lemma SpacemouseNames(i: int)
    requires 0 <= i < |SpacemouseLut|
    ensures "SPACEMOUSE_" + [SpacemouseLetter(i)] == SpacemouseLut[i]
  {
  }

  /** The six spacemouse names are distinct: they differ in their last character. */
  lemma SpacemouseLutDistinct()
    ensures Distinct(SpacemouseLut)
  {
    forall i, j | 0 <= i < j < |SpacemouseLut|
      ensures SpacemouseLut[i] != SpacemouseLut[j]
    {
      assert SpacemouseLut[i][11] == SpacemouseLetter(i);
      assert SpacemouseLut[j][11] == SpacemouseLetter(j);
    }
  }

  // Board tables the decoder can invert.

  /** A token that every prefixed branch passes over and that is neither MIN nor MAX, so the table lookups see it. */
  predicate IsLookedUpByName(s: string)
  {
    SelectRule(s) == NamedRule && s != "MIN" && s != "MAX"
  }

  /** A table entry that reaches the table lookups and is none of the reserved words. */
  predicate IsPlainName(s: string)
  {
    IsLookedUpByName(s) && s != "NONE" && s !in SpacemouseLut
  }

  /**
   * What the round trip needs of the board: each table maps names to
   * indices one to one, switch names have the switch shape, every other
   * name falls through to the name lookups, and a name sits in no table
   * the decoder consults before its own.
   */
  predicate WellFormed(caps: Capabilities)
  {
    Distinct(caps.inputRefs) && Distinct(caps.switchRefs) && Distinct(caps.trimRefs) &&
    Distinct(caps.specialTags) && Distinct(caps.cyclicTags) &&
    (forall s :: s in caps.switchRefs ==> IsSwitchTagShaped(s)) &&
    (forall s :: s in caps.inputRefs ==> IsPlainName(s)) &&
    (forall s :: s in caps.trimRefs ==> IsPlainName(s) && s !in caps.inputRefs) &&
    (forall s :: s in caps.specialTags ==> IsPlainName(s) && s !in caps.inputRefs && s !in caps.trimRefs) &&
    (forall s :: s in caps.cyclicTags ==>
       IsPlainName(s) && s !in caps.inputRefs && s !in caps.trimRefs && s !in caps.specialTags)
  }

  /** A token the prefixed branches all pass over is looked up by name. */
  lemma NamedBranch(t: string, ctx: Context)
    requires SelectRule(t) == NamedRule
    ensures Decode(t, ctx) == DecodeName(t, ctx)
  {
  }

  /** Board switches come back through the switch branch. */
  lemma SwitchRoundTrip(i: int, ctx: Context)
    requires Distinct(ctx.caps.switchRefs) && 0 <= i < |ctx.caps.switchRefs| && IsSwitchTagShaped(ctx.caps.switchRefs[i])
    ensures Decode(Encode(RawSource(SourceSwitch, i), ctx.caps), ctx) == RawSource(SourceSwitch, i)
  {
    var t := ctx.caps.switchRefs[i];
    NameEncoding(RawSource(SourceSwitch, i), ctx.caps);
    assert IsSwitchTagShaped(t);
    IndexOfTagOf(ctx.caps.switchRefs, i);
    SwitchBranch(t, ctx);
  }

  /** Sticks come back through the first name lookup, on settings past the refactor. */
  lemma StickRoundTrip(i: int, ctx: Context)
    requires !ctx.isLegacy && Distinct(ctx.caps.inputRefs) && 0 <= i < |ctx.caps.inputRefs|
    requires IsLookedUpByName(ctx.caps.inputRefs[i])
    ensures Decode(Encode(RawSource(SourceStick, i), ctx.caps), ctx) == RawSource(SourceStick, i)
  {
    var t := ctx.caps.inputRefs[i];
    NameEncoding(RawSource(SourceStick, i), ctx.caps);
    IndexOfTagOf(ctx.caps.inputRefs, i);
    StickLookup(t, ctx);
  }

  /** Trims come back through the second name lookup, on settings past the refactor, when no stick has the trim's name. */
  lemma TrimRoundTrip(i: int, ctx: Context)
    requires !ctx.isLegacy && Distinct(ctx.caps.trimRefs) && 0 <= i < |ctx.caps.trimRefs|
    requires IsLookedUpByName(ctx.caps.trimRefs[i]) && ctx.caps.trimRefs[i] !in ctx.caps.inputRefs
    ensures Decode(Encode(RawSource(SourceTrim, i), ctx.caps), ctx) == RawSource(SourceTrim, i)
  {
    var t := ctx.caps.trimRefs[i];
    NameEncoding(RawSource(SourceTrim, i), ctx.caps);
    IndexOfTagOf(ctx.caps.trimRefs, i);
    TrimLookup(t, ctx);
  }

  /** Special sources come back through the third name lookup, on settings past the refactor, when no stick or trim has their name. */
  lemma SpecialRoundTrip(i: int, ctx: Context)
    requires !ctx.isLegacy && Distinct(ctx.caps.specialTags) && 0 <= i < |ctx.caps.specialTags|
    requires IsLookedUpByName(ctx.caps.specialTags[i])
    requires ctx.caps.specialTags[i] !in ctx.caps.inputRefs && ctx.caps.specialTags[i] !in ctx.caps.trimRefs
    ensures Decode(Encode(RawSource(SourceSpecial, i), ctx.caps), ctx) == RawSource(SourceSpecial, i)
  {
    var t := ctx.caps.specialTags[i];
    NameEncoding(RawSource(SourceSpecial, i), ctx.caps);
    IndexOfTagOf(ctx.caps.specialTags, i);
    SpecialLookup(t, ctx);
  }

  /** Cyclic sources come back through the fourth name lookup, on settings past the refactor, when no earlier table has their name. */
  lemma CyclicRoundTrip(i: int, ctx: Context)
    requires !ctx.isLegacy && Distinct(ctx.caps.cyclicTags) && 0 <= i < |ctx.caps.cyclicTags|
    requires IsLookedUpByName(ctx.caps.cyclicTags[i])
    requires ctx.caps.cyclicTags[i] !in ctx.caps.inputRefs && ctx.caps.cyclicTags[i] !in ctx.caps.trimRefs
    requires ctx.caps.cyclicTags[i] !in ctx.caps.specialTags
    ensures Decode(Encode(RawSource(SourceCyclic, i), ctx.caps), ctx) == RawSource(SourceCyclic, i)
  {
    var t := ctx.caps.cyclicTags[i];
    NameEncoding(RawSource(SourceCyclic, i), ctx.caps);
    IndexOfTagOf(ctx.caps.cyclicTags, i);
    CyclicLookup(t, ctx);
  }

  /** The spacemouse names are twelve characters, start with `SPACEMOUSE_` and reach the table lookups. */
  lemma SpacemouseNameShape(i: int)
    requires 0 <= i < |SpacemouseLut|
    ensures |SpacemouseLut[i]| == 12 && SpacemouseLut[i][..11] == "SPACEMOUSE_"
    ensures IsLookedUpByName(SpacemouseLut[i])
  {
    var t := SpacemouseLut[i];
    SpacemouseNames(i);
    assert t[..11] == "SPACEMOUSE_";
    assert t[0] == 'S' && t[1] == 'P';
    assert SelectRule(t) == NamedRule;
  }

  /** A spacemouse name that no board table has is looked up in the spacemouse table, on settings past the refactor. */
  lemma SpacemouseLookup(t: string, ctx: Context)
    requires !ctx.isLegacy && IsLookedUpByName(t) && |t| == 12 && t[..11] == "SPACEMOUSE_"
    requires t !in ctx.caps.inputRefs && t !in ctx.caps.trimRefs
    requires t !in ctx.caps.specialTags && t !in ctx.caps.cyclicTags
    ensures Decode(t, ctx) ==
      if t in SpacemouseLut then RawSource(SourceSpacemouse, IndexOf(SpacemouseLut, t)) else DefaultSource
  {
    NamedBranch(t, ctx);
  }

  /** Spacemouse axes 0..5 come back through the spacemouse table when no board table has their name. */
  lemma SpacemouseRoundTrip(i: int, ctx: Context)
    requires !ctx.isLegacy && 0 <= i < |SpacemouseLut|
    requires SpacemouseLut[i] !in ctx.caps.inputRefs && SpacemouseLut[i] !in ctx.caps.trimRefs
    requires SpacemouseLut[i] !in ctx.caps.specialTags && SpacemouseLut[i] !in ctx.caps.cyclicTags
    ensures Decode(Encode(RawSource(SourceSpacemouse, i), ctx.caps), ctx) == RawSource(SourceSpacemouse, i)
  {
    SpacemouseEncoding(i, ctx.caps);
    SpacemouseDecodes(i, ctx);
  }

  /** Spacemouse axis i is written as entry i of the spacemouse table. */
  lemma SpacemouseEncoding(i: int, caps: Capabilities)
    requires 0 <= i < |SpacemouseLut|
    ensures Encode(RawSource(SourceSpacemouse, i), caps) == SpacemouseLut[i]
  {
    SpacemouseNames(i);
  }

  /** Looking up spacemouse name i in the spacemouse table finds i. */
  lemma SpacemouseIndex(i: int)
    requires 0 <= i < |SpacemouseLut|
    ensures IndexOf(SpacemouseLut, SpacemouseLut[i]) == i
  {
    SpacemouseLutDistinct();
    IndexOfTagOf(SpacemouseLut, i);
  }

  /** Spacemouse name i decodes as axis i when no board table has it, on settings past the refactor. */
  lemma SpacemouseDecodes(i: int, ctx: Context)
    requires !ctx.isLegacy && 0 <= i < |SpacemouseLut|
    requires SpacemouseLut[i] !in ctx.caps.inputRefs && SpacemouseLut[i] !in ctx.caps.trimRefs
    requires SpacemouseLut[i] !in ctx.caps.specialTags && SpacemouseLut[i] !in ctx.caps.cyclicTags
    ensures Decode(SpacemouseLut[i], ctx) == RawSource(SourceSpacemouse, i)
  {
    SpacemouseNameShape(i);
    SpacemouseIndex(i);
    SpacemouseLookup(SpacemouseLut[i], ctx);
  }

  /**
   * On settings past the refactor, a token that no prefix claims and that
   * none of the board's tables nor the spacemouse table holds is no source.
   */
  lemma UnknownNameIsNoSource(t: string, ctx: Context)
    requires !ctx.isLegacy && IsLookedUpByName(t)
    requires t !in ctx.caps.inputRefs && t !in ctx.caps.trimRefs
    requires t !in ctx.caps.specialTags && t !in ctx.caps.cyclicTags && t !in SpacemouseLut
    ensures Decode(t, ctx) == DefaultSource
  {
    NamedBranch(t, ctx);
  }

  /** No source is written as NONE and read back as no source. */
  lemma NoneRoundTrip(ctx: Context)
    requires !ctx.isLegacy
    requires "NONE" !in ctx.caps.inputRefs && "NONE" !in ctx.caps.trimRefs
    requires "NONE" !in ctx.caps.specialTags && "NONE" !in ctx.caps.cyclicTags
    ensures Decode(Encode(DefaultSource, ctx.caps), ctx) == DefaultSource
  {
    NameEncoding(DefaultSource, ctx.caps);
    ReservedWordsAreNames();
    NamedBranch("NONE", ctx);
  }

  /** The sources the board's tables and the firmware's capacities can hold, with index 0 for NONE, MIN and MAX. */
  predicate InRange(v: RawSource, ctx: Context)
  {
    var i := v.index;
    var lim := ctx.limits;
    match v.kind
    case SourceNone => i == 0
    case SourceVirtualInput => 0 <= i < lim.maxInputs
    case SourceLuaOutput => 0 <= i && i / 16 < lim.maxScripts && i % 16 < lim.maxScriptInputs
    case SourceStick => 0 <= i < |ctx.caps.inputRefs|
    case SourceTrim => 0 <= i < |ctx.caps.trimRefs|
    case SourceMin => i == 0
    case SourceMax => i == 0
    case SourceSwitch => 0 <= i < |ctx.caps.switchRefs|
    case SourceCustomSwitch => 0 <= i < lim.maxLogicalSwitches
    case SourceCyclic => 0 <= i < |ctx.caps.cyclicTags|
    case SourcePpm => i < ctx.trainerInputs
    case SourceChannel => i < lim.maxChannels
    case SourceGvar => i < lim.maxGvars
    case SourceSpecial => 0 <= i < |ctx.caps.specialTags|
    case SourceTelemetry => 0 <= i && i / 3 < lim.maxSensors
    case SourceSpacemouse => 0 <= i < |SpacemouseLut|
  }

  /** The codec's round trip: on a well-formed board and settings past the refactor, decoding what was encoded gives back every in-range source. */
  lemma DecodeEncode(v: RawSource, ctx: Context)
    requires WellFormed(ctx.caps) && !ctx.isLegacy && InRange(v, ctx)
    ensures Decode(Encode(v, ctx.caps), ctx) == v
  {
    var i := v.index;
    match v.kind
    case SourceNone =>
      assert "NONE" in ctx.caps.inputRefs ==> IsPlainName("NONE");
      assert "NONE" in ctx.caps.trimRefs ==> IsPlainName("NONE");
      assert "NONE" in ctx.caps.specialTags ==> IsPlainName("NONE");
      assert "NONE" in ctx.caps.cyclicTags ==> IsPlainName("NONE");
      NoneRoundTrip(ctx);
    case SourceVirtualInput => VirtualInputRoundTrip(i, ctx);
    case SourceLuaOutput => LuaRoundTrip(i, ctx);
    case SourceStick =>
      assert IsPlainName(ctx.caps.inputRefs[i]);
      StickRoundTrip(i, ctx);
    case SourceTrim =>
      assert IsPlainName(ctx.caps.trimRefs[i]);
      TrimRoundTrip(i, ctx);
    case SourceMin => MinMaxRoundTrip(v, ctx);
    case SourceMax => MinMaxRoundTrip(v, ctx);
    case SourceSwitch =>
      assert IsSwitchTagShaped(ctx.caps.switchRefs[i]);
      SwitchRoundTrip(i, ctx);
    case SourceCustomSwitch => LogicalSwitchRoundTrip(i, ctx);
    case SourceCyclic =>
      assert IsPlainName(ctx.caps.cyclicTags[i]);
      CyclicRoundTrip(i, ctx);
    case SourcePpm => TrainerRoundTrip(i, ctx);
    case SourceChannel => ChannelRoundTrip(i, ctx);
    case SourceGvar => GvarRoundTrip(i, ctx);
    case SourceSpecial =>
      assert IsPlainName(ctx.caps.specialTags[i]);
      SpecialRoundTrip(i, ctx);
    case SourceTelemetry => TelemetryRoundTrip(i, ctx);
    case SourceSpacemouse =>
      var t := SpacemouseLut[i];
      assert t in ctx.caps.inputRefs ==> IsPlainName(t);
      assert t in ctx.caps.trimRefs ==> IsPlainName(t);
      assert t in ctx.caps.specialTags ==> IsPlainName(t);
      assert t in ctx.caps.cyclicTags ==> IsPlainName(t);
      SpacemouseRoundTrip(i, ctx);
  }

  // The branch chain.

  /**
   * Once a prefixed branch is selected its verdict is final: the result
   * depends on the switch table, the capacities and the trainer inputs
   * only, so a token the branch rejects is no source, never a name from the
   * later tables.
   */
  lemma PrefixedBranchIsFinal(t: string, ctx: Context, other: Context)
    requires SelectRule(t) != NamedRule
    requires other.caps.switchRefs == ctx.caps.switchRefs
    requires other.limits == ctx.limits && other.trainerInputs == ctx.trainerInputs
    ensures Decode(t, other) == Decode(t, ctx)
  {
    PrefixSelectsRule(t);
    match SelectRule(t)
    case InputRule => InputBranch(t, ctx); InputBranch(t, other);
    case SwitchRule => SwitchBranch(t, ctx); SwitchBranch(t, other);
    case LuaRule => LuaBranch(t, ctx); LuaBranch(t, other);
    case LogicalSwitchRule => LogicalSwitchBranch(t, ctx); LogicalSwitchBranch(t, other);
    case FunctionSwitchRule => FunctionSwitchBranch(t, ctx); FunctionSwitchBranch(t, other);
    case TrainerRule => TrainerBranch(t, ctx); TrainerBranch(t, other);
    case ChannelRule => ChannelBranch(t, ctx); ChannelBranch(t, other);
    case GvarRule => GvarBranch(t, ctx); GvarBranch(t, other);
    case TelemetryRule => TelemetryBranch(t, ctx); TelemetryBranch(t, other);
  }

  /** A board switch is decoded only from a switch tag the board has, or from `fs(n)` with n > 0 when the board has `SW<n>`. */
  lemma SwitchesOnlyFromSwitchTokens(t: string, ctx: Context)
    requires Decode(t, ctx).kind == SourceSwitch
    ensures 0 <= Decode(t, ctx).index < |ctx.caps.switchRefs|
    ensures
      (IsSwitchTagShaped(t) && ctx.caps.switchRefs[Decode(t, ctx).index] == t) ||
      (IsCallToken(t, 'f', 's') && LeadingInt(t[3..]) > 0 &&
       ctx.caps.switchRefs[Decode(t, ctx).index] == "SW" + IntToString(LeadingInt(t[3..])))
  {
    PrefixSelectsRule(t);
    match SelectRule(t)
    case InputRule => InputBranch(t, ctx);
    case SwitchRule => SwitchBranch(t, ctx);
    case LuaRule => LuaBranch(t, ctx);
    case LogicalSwitchRule => LogicalSwitchBranch(t, ctx);
    case FunctionSwitchRule => FunctionSwitchBranch(t, ctx);
    case TrainerRule => TrainerBranch(t, ctx);
    case ChannelRule => ChannelBranch(t, ctx);
    case GvarRule => GvarBranch(t, ctx);
    case TelemetryRule => TelemetryBranch(t, ctx);
    case NamedRule => NamedBranch(t, ctx);
  }

  /** A name the stick table has is a stick, on settings past the refactor. */
  lemma StickLookup(t: string, ctx: Context)
    requires !ctx.isLegacy && IsLookedUpByName(t) && t in ctx.caps.inputRefs
    ensures Decode(t, ctx) == RawSource(SourceStick, IndexOf(ctx.caps.inputRefs, t))
  {
    NamedBranch(t, ctx);
  }

  /** A name the trim table has, and the stick table does not, is a trim, on settings past the refactor. */
  lemma TrimLookup(t: string, ctx: Context)
    requires !ctx.isLegacy && IsLookedUpByName(t) && t !in ctx.caps.inputRefs && t in ctx.caps.trimRefs
    ensures Decode(t, ctx) == RawSource(SourceTrim, IndexOf(ctx.caps.trimRefs, t))
  {
    NamedBranch(t, ctx);
  }

  /** A name the special table has, and the stick and trim tables do not, is a special source, on settings past the refactor. */
  lemma SpecialLookup(t: string, ctx: Context)
    requires !ctx.isLegacy && IsLookedUpByName(t) && t !in ctx.caps.inputRefs && t !in ctx.caps.trimRefs
    requires t in ctx.caps.specialTags
    ensures Decode(t, ctx) == RawSource(SourceSpecial, IndexOf(ctx.caps.specialTags, t))
  {
    NamedBranch(t, ctx);
  }

  /** A name only the cyclic table has is a cyclic source, on settings past the refactor. */
  lemma CyclicLookup(t: string, ctx: Context)
    requires !ctx.isLegacy && IsLookedUpByName(t) && t !in ctx.caps.inputRefs && t !in ctx.caps.trimRefs
    requires t !in ctx.caps.specialTags && t in ctx.caps.cyclicTags
    ensures Decode(t, ctx) == RawSource(SourceCyclic, IndexOf(ctx.caps.cyclicTags, t))
  {
    NamedBranch(t, ctx);
  }

  // The legacy gate.

  /** `TIMERn` is looked up as `Tmrn` among the special sources exactly on settings older than the refactor, and only when it is six characters long. */
  lemma TimerRewriteGate(t: string, ctx: Context)
    ensures SpecialName(t, ctx) != t <==> ctx.isLegacy && |t| == 6 && t[..5] == "TIMER"
    ensures SpecialName(t, ctx) != t ==> SpecialName(t, ctx) == "Tmr" + [t[5]]
  {
    if ctx.isLegacy && |t| == 6 && t[..5] == "TIMER" {
      assert SpecialName(t, ctx)[1] == 'm' != t[1];
    }
  }

  /** `TIMER` and one character is six characters long, starts with `TIMER` and passes no prefix test. */
  lemma TimerNameShape(d: char)
    ensures |"TIMER" + [d]| == 6 && ("TIMER" + [d])[..5] == "TIMER" && ("TIMER" + [d])[5..6] == [d]
    ensures IsLookedUpByName("TIMER" + [d])
  {
    var t := "TIMER" + [d];
    assert t[..5] == "TIMER";
    assert t[0] == 'T' && t[1] == 'I';
  }

  /** On legacy settings a `TIMERn` that no stick or trim claims decodes as the special source `Tmrn`. */
  lemma LegacyTimerDecodes(d: char, j: int, ctx: Context)
    requires ctx.isLegacy
    requires Distinct(ctx.caps.specialTags) && 0 <= j < |ctx.caps.specialTags| && ctx.caps.specialTags[j] == "Tmr" + [d]
    requires StickName("TIMER" + [d], ctx) !in ctx.caps.inputRefs
    requires TrimName("TIMER" + [d], ctx) !in ctx.caps.trimRefs
    ensures Decode("TIMER" + [d], ctx) == RawSource(SourceSpecial, j)
  {
    var t := "TIMER" + [d];
    TimerNameShape(d);
    IndexOfTagOf(ctx.caps.specialTags, j);
    NamedBranch(t, ctx);
  }

  /** On legacy settings an old trim-source name k that no stick claims decodes as trim k, whose name the trim table holds. */
  lemma LegacyTrimDecodes(t: string, k: int, ctx: Context)
    requires ctx.isLegacy && IsLookedUpByName(t)
    requires Distinct(ctx.caps.legacyTrimSources) && 0 <= k < |ctx.caps.legacyTrimSources| && ctx.caps.legacyTrimSources[k] == t
    requires Distinct(ctx.caps.trimRefs) && k < |ctx.caps.trimRefs|
    requires StickName(t, ctx) !in ctx.caps.inputRefs
    ensures Decode(t, ctx) == RawSource(SourceTrim, k)
  {
    IndexOfTagOf(ctx.caps.legacyTrimSources, k);
    IndexOfTagOf(ctx.caps.trimRefs, k);
    NamedBranch(t, ctx);
  }

  /** No two inputs share a tag. */
  predicate DistinctTags(inputs: seq<InputInfo>)
  {
    forall a, b :: 0 <= a < b < |inputs| ==> inputs[a].tag != inputs[b].tag
  }

  /** When no two inputs share a tag, looking up input j's tag finds input j. */
  lemma {:induction false} InputTagIndexOfDistinct(inputs: seq<InputInfo>, j: int)
    requires DistinctTags(inputs) && 0 <= j < |inputs|
    ensures InputTagIndex(inputs, inputs[j].tag) == j
  {
    if j > 0 {
      assert inputs[0].tag != inputs[j].tag;
      assert inputs[1..][j - 1] == inputs[j];
      InputTagIndexOfDistinct(inputs[1..], j - 1);
    }
  }

  /** On legacy settings an old analog name that the legacy map sends to a stick's tag is looked up under that stick's name. */
  lemma LegacyStickName(legacyName: string, j: int, ctx: Context)
    requires ctx.isLegacy && DistinctTags(ctx.caps.inputs)
    requires 0 <= j < |ctx.caps.inputs| && ctx.caps.inputs[j].kind == AitStick
    requires LegacyAnalogMappedTag(ctx.caps, legacyName) == ctx.caps.inputs[j].tag
    ensures StickName(legacyName, ctx) == ctx.caps.inputs[j].name
  {
    InputTagIndexOfDistinct(ctx.caps.inputs, j);
  }

  /**
   * On legacy settings an old analog name that the legacy map sends to a
   * stick's tag decodes to that stick, when the stick's name is its entry
   * in the stick table.
   */
  lemma LegacyStickTagResolves(legacyName: string, j: int, ctx: Context)
    requires ctx.isLegacy && IsLookedUpByName(legacyName) && DistinctTags(ctx.caps.inputs)
    requires 0 <= j < |ctx.caps.inputs| && ctx.caps.inputs[j].kind == AitStick
    requires LegacyAnalogMappedTag(ctx.caps, legacyName) == ctx.caps.inputs[j].tag
    requires Distinct(ctx.caps.inputRefs) && j < |ctx.caps.inputRefs| && ctx.caps.inputRefs[j] == ctx.caps.inputs[j].name
    ensures Decode(legacyName, ctx) == RawSource(SourceStick, j)
  {
    LegacyStickName(legacyName, j, ctx);
    IndexOfTagOf(ctx.caps.inputRefs, j);
    NamedBranch(legacyName, ctx);
  }
}
