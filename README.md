# Raw-source codec of the EdgeTX companion, in Dafny

A model of how the EdgeTX companion writes a mixer *raw source* to its YAML
model files and reads it back, together with the board-family predicates
the codec's board tables depend on.

A raw source is a pair of a source type and an index. It might be a virtual
input, a Lua script output, a stick, a trim, MIN, MAX, a board switch, a
logical switch, a cyclic source, a trainer input, a channel, a global
variable, a special source, a telemetry sensor, a spacemouse axis, or none.

- **Encoding.** `YamlRawSourceEncode` writes each source as one compact
  token. The token is either:
  - an arithmetic form: `I3`, `lua(2,5)`, `ls(10)`, `tr(0)`, `ch(7)`, `gv(1)` or `tele(-4)`;
  - a fixed word: `MIN`, `MAX`, `NONE` or `SPACEMOUSE_C`;
  - the board's own tag for a stick, trim, switch, special or cyclic source.
- **Decoding.** `YamlRawSourceDecode` picks exactly one branch with an
  if/else-if chain on the token's prefix and shape.
  - The `I<n>` branch reads its number with `std::stoi`.
  - The `lua(`, `ls(`, `fs(`, `tr(`, `ch(`, `gv(` and `tele(` branches read theirs with a `std::stringstream`.
  - The switch-shaped branch reads no number and looks the token up among the board's switch tags.
  - Every prefixed branch then checks its numbers or its lookup. When the check fails, the token is no source.
  - A token no prefix claims is looked up by name. The lookup tries the stick, trim, special, cyclic and spacemouse tables in that order.
  - Settings older than the analog-input refactor get some legacy spellings rewritten first.

The files and their modules:

| file | module | contents |
|---|---|---|
| `boards.dfy` | `Boards` | `Board::Type` as a newtype over -1..BOARD_TYPE_MAX (the enumerator BOARD_TYPE_COUNT is left out), the enums, the switch and flex masks, `InputInfo` and `SwitchInfo` with their "unavailable" defaults, and every `IS_*` / `HAS_*` family predicate, with the lemmas relating them |
| `lookup.dfy` | `LookupTables` | the board's tag tables as ordered lists: `IndexOf` (-1 on a miss) and `TagOf` |
| `decimal.dfy` | `Decimal` | `std::to_string` on `int`, and the value of a digit run |
| `stream.dfy` | `Streams` | integer extraction (`>>`), `peek()` and `ignore()` on a string stream. Their meaning is given as functions on a `StreamState`. Class `StringStream` performs them on a read position, and each method is proved equal to its function |
| `yaml_rawsource.dfy` | `YamlRawSource` | `RawSource`, the encoder `Encode`, the decoder's meaning `Decode`, and the imperative decoder `DecodeRawSource` with one method per branch, each proved equal to `Decode` |
| `rawsource_properties.dfy` | `RawSourceProperties` | what each branch accepts, the round trip `Decode(Encode(v)) == v`, first-match and finality of the branch chain, the order of the name tables, and the legacy rewrites |

The codec's ambient state is made explicit:
- The current board becomes a `Capabilities` value holding its tag tables.
- The firmware's number of trainer inputs becomes an integer.
- The settings-version comparison becomes a boolean `isLegacy`, true when the settings predate the refactor.
- The `CPN_MAX_*` capacities become the fields of `Limits`.

All four travel together in a `Context`.

A token whose prefix selects a branch is decided by that branch alone.
If its range check or lookup fails, the result is the default source
(`yaml_rawsource.cpp:330`), and later rules are never tried.
`RawSourceProperties.PrefixedBranchIsFinal` states this.

## Model

| member | source | states |
|---|---|---|
| Boards.BoardRange | companion/src/firmwares/boards.h:44-85 | a board is concrete exactly when it lies in 0..BOARD_TYPE_MAX; BOARD_UNKNOWN is -1 and the last board, RadioMaster Pocket, is BOARD_TYPE_MAX = BOARD_TYPE_COUNT - 1 |
| Boards.SwitchContextsNest | companion/src/firmwares/boards.h:203-210 | each switch-type context mask contains the previous one and is strictly larger; only the 3-position context carries the 3-position flag |
| Boards.FlexContextsNest | companion/src/firmwares/boards.h:242-247 | the switch flex context contains the no-switch context and is strictly larger; only it carries the switch flag |
| Boards.DefaultInputInfo | companion/src/firmwares/boards.h:254-271 | the default input description is unavailable (AIT_NONE), has FLEX_NONE, is not inverted and has empty texts |
| Boards.DefaultSwitchInfo | companion/src/firmwares/boards.h:273-285 | the default switch description is unavailable (SWITCH_NOT_AVAILABLE), is not inverted and has empty texts |
| Boards.IsStm32 | companion/src/firmwares/boards.h:608-612 | IS_STM32 holds exactly for Taranis or Horus/T16-family boards; the NV14/EL18/PL18 disjuncts add nothing, and it equals IS_HORUS_OR_TARANIS |
| Boards.HasEepromYaml | companion/src/firmwares/boards.h:647-650 | every board with HAS_EEPROM_YAML has a large LCD |
| Boards.T12FamilyIsSmallTaranis | companion/src/firmwares/boards.h:488-579 | IS_FAMILY_T12 implies IS_TARANIS_SMALL, which implies IS_TARANIS; IS_TARANIS_X9D and IS_TARANIS_X9E imply IS_TARANIS_X9, and X9E is a Taranis Plus |
| Boards.T16AndT12FamiliesDisjoint | companion/src/firmwares/boards.h:483-504 | no board is in both the T16 and the T12 family |
| Boards.TaranisAndHorusDisjoint | companion/src/firmwares/boards.h:576-612 | no board is both Taranis and Horus/T16 family, and no Sky9x board is STM32 |
| Boards.ArmIsStm32OrSky9x | companion/src/firmwares/boards.h:614-617 | IS_ARM holds for every modelled board except BOARD_UNKNOWN |
| Boards.EepromYamlBoards | companion/src/firmwares/boards.h:608-650 | HAS_EEPROM_YAML holds exactly for the STM32 boards that are not Taranis, and exactly for the large-screen boards that are not Taranis X9 |
| Boards.AccessRadioWithIdBoards | companion/src/firmwares/boards.h:608-645 | every board the two-argument IS_ACCESS_RADIO accepts is STM32; on a Taranis board, and for any id without "internalaccess", it agrees with the one-argument form |
| Boards.ExternalAntennaXLite | companion/src/firmwares/boards.h:624-627 | HAS_EXTERNAL_ANTENNA holds for X-Lite, not for X-Lite S, and only for Horus-family, T16-family and X-Lite boards |
| LookupTables.IndexOf | companion/src/firmwares/edgetx/yaml_rawsource.cpp:144-147 | a board table lookup is -1 exactly when the name is absent, and otherwise the first position holding the name |
| LookupTables.IndexOfTagOf | companion/src/firmwares/edgetx/yaml_rawsource.cpp:52-57 | in a duplicate-free table, looking up the name written for index i gives back i |
| LookupTables.TagOfIndexOf | companion/src/firmwares/edgetx/yaml_rawsource.cpp:273-278 | a successful lookup is undone by writing the name at the found index |
| Decimal.NatToDigitsValue | companion/src/firmwares/edgetx/yaml_rawsource.cpp:43 | the digits `std::to_string` writes for a natural number are a non-empty digit run whose value is that number |
| Decimal.IntToStringInjective | companion/src/firmwares/edgetx/yaml_rawsource.cpp:43 | distinct integers are written as distinct numerals |
| Decimal.DigitRunIsMaximal | companion/src/firmwares/edgetx/yaml_rawsource.cpp:168-170 | the digit run read by `>>` is made of digits, and what follows it is not a digit |
| Decimal.NatToDigitsThen | companion/src/firmwares/edgetx/yaml_rawsource.cpp:168-170 | a numeral followed by a non-digit is read as a digit run of exactly the numeral's length, and the value read is the number written |
| Streams.SkipSpaces | companion/src/firmwares/edgetx/yaml_rawsource.cpp:168-170 | `>>` first drops leading white space: what remains is empty or does not start with white space |
| Streams.SkipSpacesDropsSpaces | companion/src/firmwares/edgetx/yaml_rawsource.cpp:168-170 | what `>>` skips is a prefix made only of white space, and what remains is the rest of the text |
| Streams.ScanNumber | companion/src/firmwares/edgetx/yaml_rawsource.cpp:168-170 | reading a number consumes at least one character when it succeeds, and a failed read stores 0 |
| Streams.ScanNumberOfDecimal | companion/src/firmwares/edgetx/yaml_rawsource.cpp:168-170 | `to_string(n)` followed by a non-digit is read back as n, stopping right after the numeral |
| Streams.ExtractIntOfDecimal | companion/src/firmwares/edgetx/yaml_rawsource.cpp:155-159 | a good stream whose text starts with `to_string(n)` and a non-digit yields n, stays good, and sets eof only when nothing follows |
| Streams.ExtractIntOnBadStream | companion/src/firmwares/edgetx/yaml_rawsource.cpp:155-159 | `>>` on a failed or exhausted stream leaves the target unchanged and the stream failed |
| Streams.StringStream.constructor | companion/src/firmwares/edgetx/yaml_rawsource.cpp:155 | a new stream is good and positioned at the start of its text |
| Streams.StringStream.SkipWhiteSpace | companion/src/firmwares/edgetx/yaml_rawsource.cpp:168-170 | the white-space loop moves the read position forward, to exactly where the skipping meaning of `>>` leaves the text |
| Streams.StringStream.Extract | companion/src/firmwares/edgetx/yaml_rawsource.cpp:157-159 | the white-space loop and the number read leave the stream and the target exactly as the meaning of `>>` says |
| Streams.StringStream.ReadNumber | companion/src/firmwares/edgetx/yaml_rawsource.cpp:157-159 | the sign and digit steps read the number ScanNumber defines, setting failbit when there is no digit and eofbit at the end |
| Streams.StringStream.ReadDigits | companion/src/firmwares/edgetx/yaml_rawsource.cpp:157-159 | the digit loop advances over exactly the longest digit run and accumulates its value |
| Streams.StringStream.Peek | companion/src/firmwares/edgetx/yaml_rawsource.cpp:233 | `peek()` returns the next character's code without consuming it, or Eof with the matching state bits |
| Streams.StringStream.Ignore | companion/src/firmwares/edgetx/yaml_rawsource.cpp:158 | `ignore()` consumes one character, or only sets state bits when there is none |
| YamlRawSource.CDiv | companion/src/firmwares/edgetx/yaml_rawsource.cpp:47 | C++ integer division truncates toward zero: it is Dafny's division for non-negative dividends and bounded by the dividend otherwise |
| YamlRawSource.CRem | companion/src/firmwares/edgetx/yaml_rawsource.cpp:49 | C++ remainder: dividend = quotient * divisor + remainder, with the remainder's sign following the dividend and its magnitude below the divisor |
| YamlRawSource.InputInfoAt | companion/src/firmwares/edgetx/yaml_rawsource.cpp:268-270 | the description of an existing input is its table entry; any other index gives the unavailable sentinel, which is not a stick |
| YamlRawSource.InputTagIndex | companion/src/firmwares/edgetx/yaml_rawsource.cpp:268 | an input lookup by tag gives -1 exactly when no input carries that tag, and otherwise the first input carrying it |
| YamlRawSource.PrefixSelectsRule | companion/src/firmwares/edgetx/yaml_rawsource.cpp:128-247 | each prefixed branch of the chain is taken exactly when the token passes that branch's own test, so the tests are mutually exclusive |
| YamlRawSource.ReadLeadingInt | companion/src/firmwares/edgetx/yaml_rawsource.cpp:168-170 | one `>>` into a zeroed int from a fresh stream gives the leading integer of the text |
| YamlRawSource.ReadLuaFields | companion/src/firmwares/edgetx/yaml_rawsource.cpp:155-159 | `>> script; ignore(); >> output` gives the pair of fields LuaFields defines |
| YamlRawSource.ReadTelemetryFields | companion/src/firmwares/edgetx/yaml_rawsource.cpp:229-243 | the peek, optional sign skip and `>> sensor` give the sign code and sensor TelemetryFields defines |
| YamlRawSource.DecodeRawSource | companion/src/firmwares/edgetx/yaml_rawsource.cpp:120-331 | the imperative decoder, branch by branch, returns exactly the source Decode defines |
| YamlRawSource.DecodeInputToken | companion/src/firmwares/edgetx/yaml_rawsource.cpp:128-134 | the `I<n>` branch agrees with Decode |
| YamlRawSource.DecodeSwitchToken | companion/src/firmwares/edgetx/yaml_rawsource.cpp:136-147 | the switch-shaped branch agrees with Decode |
| YamlRawSource.DecodeLuaToken | companion/src/firmwares/edgetx/yaml_rawsource.cpp:149-161 | the `lua(` branch agrees with Decode |
| YamlRawSource.DecodeLogicalSwitchToken | companion/src/firmwares/edgetx/yaml_rawsource.cpp:163-172 | the `ls(` branch agrees with Decode |
| YamlRawSource.DecodeFunctionSwitchToken | companion/src/firmwares/edgetx/yaml_rawsource.cpp:174-187 | the `fs(` branch agrees with Decode |
| YamlRawSource.DecodeTrainerToken | companion/src/firmwares/edgetx/yaml_rawsource.cpp:189-198 | the `tr(` branch agrees with Decode |
| YamlRawSource.DecodeChannelToken | companion/src/firmwares/edgetx/yaml_rawsource.cpp:200-209 | the `ch(` branch agrees with Decode |
| YamlRawSource.DecodeGvarToken | companion/src/firmwares/edgetx/yaml_rawsource.cpp:211-220 | the `gv(` branch agrees with Decode |
| YamlRawSource.DecodeTelemetryToken | companion/src/firmwares/edgetx/yaml_rawsource.cpp:222-245 | the `tele(` branch agrees with Decode |
| YamlRawSource.DecodeNamedSource | companion/src/firmwares/edgetx/yaml_rawsource.cpp:247-329 | the fallback, with its legacy rewrites in place and early returns, agrees with Decode |
| YamlRawSource.ConvertDecode | companion/src/firmwares/edgetx/yaml_rawsource.cpp:339-344 | the YAML conversion always reports success and yields the decoded source |
| RawSourceProperties.LeadingIntOfDecimal | companion/src/firmwares/edgetx/yaml_rawsource.cpp:168-170 | one `>>` reads back a numeral followed by a non-digit |
| RawSourceProperties.StoiOfDecimal | companion/src/firmwares/edgetx/yaml_rawsource.cpp:131 | `std::stoi` reads back any numeral `std::to_string` writes |
| RawSourceProperties.StoiOfDigitRunNonNegative | companion/src/firmwares/edgetx/yaml_rawsource.cpp:128-131 | `std::stoi` of a text starting with a digit is never negative |
| RawSourceProperties.LuaFieldsOfDecimals | companion/src/firmwares/edgetx/yaml_rawsource.cpp:155-159 | the fields of `s,o)` are read back as s and o, whatever their signs |
| RawSourceProperties.TelemetryFieldsOfDecimal | companion/src/firmwares/edgetx/yaml_rawsource.cpp:229-243 | the fields of `<sign>n)` are read back as the sign code and n |
| RawSourceProperties.DecodeVirtualInput | companion/src/firmwares/edgetx/yaml_rawsource.cpp:128-134 | `I<n>` for n >= 0 is virtual input n exactly when n < CPN_MAX_INPUTS, and no source otherwise |
| RawSourceProperties.VirtualInputIndexNonNegative | companion/src/firmwares/edgetx/yaml_rawsource.cpp:128-134 | any token decoded as a virtual input has an index in 0..CPN_MAX_INPUTS-1, because a digit must follow the `I` |
| RawSourceProperties.DecodeLua | companion/src/firmwares/edgetx/yaml_rawsource.cpp:149-161 | `lua(s,o)` is Lua output s * 16 + o exactly when s < CPN_MAX_SCRIPTS and o < CPN_MAX_SCRIPT_INPUTS; only the upper bounds are checked |
| RawSourceProperties.DecodeLogicalSwitch | companion/src/firmwares/edgetx/yaml_rawsource.cpp:163-172 | `ls(n)` is logical switch n - 1 exactly when 1 <= n <= CPN_MAX_LOGICAL_SWITCHES, so `ls(0)` is no source |
| RawSourceProperties.DecodeFunctionSwitch | companion/src/firmwares/edgetx/yaml_rawsource.cpp:174-187 | `fs(n)` is the board switch `SW<n>` when n > 0 and the board has it, and no source otherwise |
| RawSourceProperties.DecodeTrainer | companion/src/firmwares/edgetx/yaml_rawsource.cpp:189-198 | `tr(n)` is trainer input n exactly when n is below the firmware's trainer-input count; negative n passes |
| RawSourceProperties.DecodeChannel | companion/src/firmwares/edgetx/yaml_rawsource.cpp:200-209 | `ch(n)` is channel n exactly when n < CPN_MAX_CHNOUT; negative n passes |
| RawSourceProperties.DecodeGvar | companion/src/firmwares/edgetx/yaml_rawsource.cpp:211-220 | `gv(n)` is global variable n exactly when n < CPN_MAX_GVARS; negative n passes |
| RawSourceProperties.DecodeTelemetry | companion/src/firmwares/edgetx/yaml_rawsource.cpp:222-245 | `tele(<sign>n)` for n >= 0 is telemetry source n * 3 + sign exactly when n < CPN_MAX_SENSORS |
| RawSourceProperties.LuaEncoding | companion/src/firmwares/edgetx/yaml_rawsource.cpp:45-51 | a Lua output i >= 0 is written with script i / 16 and output i % 16 |
| RawSourceProperties.CallEncodingSelectsRule | companion/src/firmwares/edgetx/yaml_rawsource.cpp:67-89 | the `ls(`, `tr(`, `ch(` and `gv(` forms the encoder writes are each claimed by the decoder branch of their own kind, which reads back the 1-based logical switch number or the index as written |
| RawSourceProperties.TelemetryEncoding | companion/src/firmwares/edgetx/yaml_rawsource.cpp:93-107 | a telemetry source i >= 0 is written as sensor i / 3 with no sign, `-` or `+` for i % 3 = 0, 1, 2 |
| RawSourceProperties.VirtualInputRoundTrip | companion/src/firmwares/edgetx/yaml_rawsource.cpp:42-43 | a virtual input i >= 0 comes back when i < CPN_MAX_INPUTS and as no source otherwise |
| RawSourceProperties.LuaRoundTrip | companion/src/firmwares/edgetx/yaml_rawsource.cpp:45-51 | a Lua output i >= 0 comes back whenever i / 16 and i % 16 are within their capacities |
| RawSourceProperties.LogicalSwitchRoundTrip | companion/src/firmwares/edgetx/yaml_rawsource.cpp:67-71 | logical switch i comes back exactly when 0 <= i < CPN_MAX_LOGICAL_SWITCHES, and is no source otherwise |
| RawSourceProperties.TrainerRoundTrip | companion/src/firmwares/edgetx/yaml_rawsource.cpp:75-79 | trainer input i comes back exactly when i is below the trainer-input count |
| RawSourceProperties.ChannelRoundTrip | companion/src/firmwares/edgetx/yaml_rawsource.cpp:80-84 | channel i comes back exactly when i < CPN_MAX_CHNOUT |
| RawSourceProperties.GvarRoundTrip | companion/src/firmwares/edgetx/yaml_rawsource.cpp:85-89 | global variable i comes back exactly when i < CPN_MAX_GVARS |
| RawSourceProperties.TelemetryRoundTrip | companion/src/firmwares/edgetx/yaml_rawsource.cpp:93-107 | telemetry source i >= 0 comes back whenever i / 3 < CPN_MAX_SENSORS |
| RawSourceProperties.MinMaxRoundTrip | companion/src/firmwares/edgetx/yaml_rawsource.cpp:58-63 | MIN and MAX come back with their type and index 0, whatever index was written |
| RawSourceProperties.SpacemouseNames | companion/src/firmwares/edgetx/yaml_rawsource.cpp:108-112 | the name written for spacemouse axis 0..5 is entry i of the spacemouse table |
| RawSourceProperties.SpacemouseLutDistinct | companion/src/firmwares/edgetx/yaml_rawsource.cpp:25-32 | the six spacemouse names are distinct |
| RawSourceProperties.SpacemouseLookup | companion/src/firmwares/edgetx/yaml_rawsource.cpp:319-327 | on settings past the refactor, a 12-character `SPACEMOUSE_` name no board table has is the spacemouse axis the table gives it, or no source when the table lacks it |
| RawSourceProperties.SpacemouseEncoding | companion/src/firmwares/edgetx/yaml_rawsource.cpp:108-112 | a spacemouse axis in 0..5 is written as its entry of the spacemouse table |
| RawSourceProperties.SpacemouseDecodes | companion/src/firmwares/edgetx/yaml_rawsource.cpp:319-325 | each spacemouse table entry is read back as that axis when no board table has the name, on settings past the refactor |
| RawSourceProperties.SpacemouseRoundTrip | companion/src/firmwares/edgetx/yaml_rawsource.cpp:108-112 | spacemouse axes 0..5 come back when no board table has their name, on settings past the refactor |
| RawSourceProperties.SwitchRoundTrip | companion/src/firmwares/edgetx/yaml_rawsource.cpp:64-66 | a board switch with a switch-shaped tag comes back through the switch branch |
| RawSourceProperties.StickRoundTrip | companion/src/firmwares/edgetx/yaml_rawsource.cpp:52-54 | a stick in a duplicate-free stick table comes back through the first name lookup on settings past the refactor |
| RawSourceProperties.TrimRoundTrip | companion/src/firmwares/edgetx/yaml_rawsource.cpp:55-57 | a trim in a duplicate-free trim table comes back when no stick has its name, on settings past the refactor |
| RawSourceProperties.SpecialRoundTrip | companion/src/firmwares/edgetx/yaml_rawsource.cpp:90-92 | a special source in a duplicate-free special table comes back when no stick or trim has its name, on settings past the refactor |
| RawSourceProperties.CyclicRoundTrip | companion/src/firmwares/edgetx/yaml_rawsource.cpp:72-74 | a cyclic source in a duplicate-free cyclic table comes back when no earlier table has its name, on settings past the refactor |
| RawSourceProperties.UnknownNameIsNoSource | companion/src/firmwares/edgetx/yaml_rawsource.cpp:247-331 | on settings past the refactor, a token no prefix claims that is neither `MIN`, `MAX` nor in any board table or the spacemouse table decodes as no source |
| RawSourceProperties.NoneRoundTrip | companion/src/firmwares/edgetx/yaml_rawsource.cpp:113-115 | no source is written `NONE` and read back as no source, when no board table has the name `NONE`, on settings past the refactor |
| RawSourceProperties.DecodeEncode | companion/src/firmwares/edgetx/yaml_rawsource.cpp:35-331 | on a well-formed board and settings past the refactor, decoding the encoding of any in-range source gives that source back |
| RawSourceProperties.PrefixedBranchIsFinal | companion/src/firmwares/edgetx/yaml_rawsource.cpp:128-247 | once a prefixed branch is selected, the result does not depend on the stick, trim, special or cyclic tables or on the legacy flag, so a rejected token never reaches the name lookups |
| RawSourceProperties.SwitchesOnlyFromSwitchTokens | companion/src/firmwares/edgetx/yaml_rawsource.cpp:136-187 | a board switch is decoded only from a switch-shaped tag the board has at that index, or from `fs(n)` with n > 0 when the board's entry is `SW<n>` |
| RawSourceProperties.StickLookup | companion/src/firmwares/edgetx/yaml_rawsource.cpp:273-278 | on settings past the refactor, a name no prefix claims that is in the stick table is the stick at its first position there |
| RawSourceProperties.TrimLookup | companion/src/firmwares/edgetx/yaml_rawsource.cpp:289-294 | on settings past the refactor, a name no prefix claims that is in the trim table and not in the stick table is the trim at its first position there |
| RawSourceProperties.SpecialLookup | companion/src/firmwares/edgetx/yaml_rawsource.cpp:305-310 | on settings past the refactor, a name no prefix claims that is in the special table and in neither earlier table is the special source at its first position there |
| RawSourceProperties.CyclicLookup | companion/src/firmwares/edgetx/yaml_rawsource.cpp:312-317 | on settings past the refactor, a name no prefix claims that only the cyclic table has, among the four board tables, is the cyclic source at its first position there |
| RawSourceProperties.TimerRewriteGate | companion/src/firmwares/edgetx/yaml_rawsource.cpp:299-303 | `TIMERn` is rewritten to `Tmrn` exactly on legacy settings and only when it is six characters long; nothing else is rewritten |
| RawSourceProperties.LegacyTimerDecodes | companion/src/firmwares/edgetx/yaml_rawsource.cpp:299-310 | on legacy settings, a `TIMERn` that no stick or trim claims decodes as the special source `Tmrn` |
| RawSourceProperties.LegacyTrimDecodes | companion/src/firmwares/edgetx/yaml_rawsource.cpp:283-294 | on legacy settings, legacy trim source k that no stick claims decodes as trim k |
| RawSourceProperties.InputTagIndexOfDistinct | companion/src/firmwares/edgetx/yaml_rawsource.cpp:268 | with distinct input tags, looking up input j's tag finds j |
| RawSourceProperties.LegacyStickName | companion/src/firmwares/edgetx/yaml_rawsource.cpp:266-271 | on legacy settings, an old analog name that maps to a stick's tag is looked up under that stick's name |
| RawSourceProperties.LegacyStickTagResolves | companion/src/firmwares/edgetx/yaml_rawsource.cpp:266-278 | on legacy settings, such a name decodes to that stick when the stick's name is its entry in the stick table |

## Left out

- The YAML and Qt plumbing is not modelled: node construction, `node >> str`, `IsScalar`, and `QString`/`arg`/`toStdString`. A token is a plain string.
- `convert<RawSource>::encode` is not modelled. It only wraps the encoded text in a node.
- The bodies of the board lookups are not modelled. These are `getInputYamlName/Index`, `getInputIndex`, `getInputName`, `isInputStick`, `getInputInfo`, `getSwitchYamlName/Index`, `getTrimYamlName/Index`, `getRawSourceSpecialTypeTag/Index`, `getRawSourceCyclicTag/Index`, `getLegacyTrimSourceIndex` and `getLegacyAnalogMappedInputTag`. They are abstract tables in `Capabilities`; the four input functions read its list of `InputInfo` entries:
  - a name lookup gives the first position holding the name, or -1;
  - writing an index outside a table gives the empty text;
  - the legacy analog map is the identity off its keys.
- The spacemouse table lookup (`node >> spacemouseLut >> sm_idx`) is modelled as giving -1 on a miss, which the `sm_idx >= 0` guard then rejects. The lookup operator's body is not part of this model. If that operator instead leaves its target unchanged on a miss, `sm_idx` keeps the 0 it was set to, and an unknown 12-character `SPACEMOUSE_` name would decode as axis 0.
- RawSourceProperties.SpacemouseLookup: its "no source when the spacemouse table lacks the name" part rests on the -1-on-a-miss reading above.
- RawSourceProperties.UnknownNameIsNoSource: for a 12-character `SPACEMOUSE_` name it rests on the -1-on-a-miss reading above.
- The settings-version comparison against the refactor version is the boolean `isLegacy`. The `CPN_MAX_*` capacities and the trainer-input count are parameters, since their values are not in these files.
- Tokens are taken as sequences of characters, that is, they are assumed to be ASCII. The source's length tests count the bytes of a `std::string` (`size() == 6` for a legacy timer, `size() == 12` for a spacemouse name). A token holding a multi-byte character would be measured differently.
- Boards.BoardType: the newtype holds BOARD_UNKNOWN and the boards 0..BOARD_TYPE_MAX only. The sentinel BOARD_TYPE_COUNT, which a C++ `Board::Type` can hold, is left out. So `ArmIsStm32OrSky9x`'s "every board except BOARD_UNKNOWN" covers real boards only; `IS_ARM(BOARD_TYPE_COUNT)` is false in the source.
- Integers are unbounded. `std::stoi`'s out-of-range exception and the stream's saturation on overflow are not modelled. Neither is `int` wrap-around in `script * 16 + output`, `sensor * 3 + sign` or `index + 1`.
- Encode of spacemouse axes beyond 0..5 is modelled as the low byte of `'A' + index`, but no property is stated about it.
- RawSourceProperties.SpacemouseRoundTrip: the round trip is stated only for names that no board table has, because an earlier table would claim the name.
- RawSourceProperties.DecodeEncode: stated for settings past the refactor only, because on legacy settings the legacy rewrites can redirect a name.
- RawSourceProperties.LegacyStickTagResolves: covers legacy names that the legacy map sends to a stick tag. An old name that is itself in the stick table is not covered.
- RawSourceProperties.DecodeVirtualInput: `I<n>` is stated for numerals n >= 0 only. Other texts after a digit are covered by `VirtualInputIndexNonNegative`, which bounds the index.
- RawSourceProperties.DecodeTelemetry: stated for sensor numbers n >= 0. For a negative n the numeral's own minus sign is taken as the sign code, so `tele(-4)` reads as sign code 1 and sensor 4. The encoder writes a negative sensor only for a negative index.
- The `Boards` members that are only declared are not modelled: `getFourCC`, `getEEpromSize`, `getFlashSize`, `getCapability`, the item-model factories and `setBoardType`. Their bodies are not in these files.
- `YamlRawSource.Encode` carries no contract of its own. What it writes is tied to its meaning by `DecodeEncode` and the per-kind round trips. `CallEncodingSelectsRule`, `LuaEncoding`, `TelemetryEncoding` and `SpacemouseEncoding` state how the arithmetic forms are written.
