# wal-telegram-rs, modelled in Dafny

wal-telegram-rs builds a Telegram Desktop colour theme from a terminal colour palette. The
palette comes from the cache file of `wal` (pywal) or from a custom palette file. Each entry
`color{i}` is a colour, and every colour is given a list of the other palette cells, ordered
from the one it contrasts with most to the one it contrasts with least. From these,
`get_telegram_colors` derives several hundred named theme colours. Each is taken from the
palette, from a colour defined on an earlier line, or from a hex literal, and may be
darkened, lightened, given a new alpha or replaced by one of its contrasting neighbours. The
result is written as `name: #rrggbbaa;` lines under `// Section` comments.

The model covers:

- `Colors` (`color.dfy`): the `Color` value of src/color.rs. This includes its constructors,
  hex decoding and encoding, the WCAG relative luminance and contrast ratio, and the
  darker, lighter, alpha and contrast transforms. The neighbour list holds palette keys, so
  the cells it points to are looked up in the palette.
- `ContrastRanking` (`contrasts.dfy`): `compute_contrasts`, as a method with its two loops
  and the `BTreeMap` drain. It is proved against `Ranked`, a declarative description of the
  neighbour list, and that list is proved unique.
- `PaletteKeys` (`keyorder.dfy`): the numeric `sort_by` of the palette keys in
  `get_telegram_colors`.
- `ThemeRegistry` (`registry.dfy`): the `add_any`, `add_color`, `add_comment` and
  `get_element` closures, as a `Registry` class. Its fields are the theme text being built
  and the map of elements recorded so far.
- `TelegramColors` (`telegram_live.dfy`): `get_telegram_colors` of src/telegram/colors.rs.
  There is one method per comment section of the source; long sections are split into
  parts, and the sections are grouped into `Derivation` methods.
- `TelegramColorsStale` (`telegram_stale.dfy`): the older `get_telegram_colors` of
  src/telegram_colors.rs. No module of the program declares that file. It reads every
  palette colour straight from the map and never lists the palette.
- `WalPalette` (`wal.dfy`): `import_wal_colors`. Line `i` of the file becomes `color{i}`,
  and a palette of fewer than 16 colours is padded with copies.
- `CustomPalette` (`custom.dfy`): `import_custom_palette`. The entry pattern is recognised
  by hand-written functions, followed by the loop and the two count checks.
- `Text` (`text.dfy`) and `Outcomes` (`outcomes.dfy`): the Rust string operations the core
  relies on, at byte level where Rust measures bytes; and `Result`/`Option`.

A panic (`unwrap`, `expect`, `panic!`, a slice off a char boundary, a missing map key)
is an `Abort` carrying a `Failure` that names the cause. `colors.len() - 1` on an empty
map (src/color.rs:205, src/palette/custom.rs:32) is the `EmptyPalette` abort, which is a
panic only in a build with overflow checks; see "Left out" for a release build.

`Color::from_hex` accepts a trimmed text of 6 bytes or of 9 bytes (src/color.rs:75-101).
The 8-digit form that the theme format and the custom-palette pattern suggest is refused.
The model follows the code. `StepOutcome` proves that an 8-digit custom entry therefore
always panics, and `ToHexNotReadBack` proves that the 8 digits `to_hex` writes are not read
back by `from_hex`.

## Model

| member | source | states |
|---|---|---|
| Text.Utf8Width | src/telegram/colors.rs:47-48 | A char takes one to four bytes in UTF-8, the unit in which `split_at` measures |
| Text.SplitAtByte | src/telegram/colors.rs:47-48 | `split_at(n)` gives two parts that concatenate back to the key, the first exactly `n` bytes long; where Rust panics there is no result |
| Text.ByteSlice | src/color.rs:76-97 | A byte slice `&s[i..j]` that exists is `j - i` bytes long |
| Text.AsciiByteLen | src/color.rs:75 | On ASCII text the byte length `len()` is the char count |
| Text.ByteLenConcat | src/telegram/colors.rs:47-48 | The byte length `len()` of a concatenation is the sum of the parts' byte lengths |
| Text.AsciiSplit | src/telegram/colors.rs:47-48 | On ASCII text `split_at(n)` splits at char `n` and never panics |
| Text.AsciiSlice | src/color.rs:75-97 | On ASCII text a byte slice is the char slice and never panics |
| Text.TrimStart | src/color.rs:74 | `trim_start_matches('#')` removes exactly the leading run of `#`: what it drops is all `#` and what remains does not start with one |
| Text.DigitValue | src/color.rs:76 | A char's digit value is at most 36, and 36 means it is a digit of no radix |
| Text.DigitsAscii | src/color.rs:76-97 | Hex digits are ASCII, so their byte length is their char length |
| Text.ParseUnsigned | src/color.rs:76 | `from_str_radix`/`parse` into an unsigned type returns only values within the type and only for text that starts with `+` or a digit |
| Text.DecimalDigit | src/color.rs:211 | The digit `format!` writes for `d < 10` reads back as `d` |
| Text.NatToStringValue | src/color.rs:211 | The decimal text `format!` prints for `n` has value `n` |
| Text.NatToStringDigits | src/color.rs:211 | That text is non-empty and all decimal digits |
| Text.ParsePrinted | src/telegram/colors.rs:47 | Parsing the decimal text `format!` prints for `n` gives `n` back, when `n` fits the type |
| Text.NatToStringInjective | src/color.rs:211 | Distinct numbers print as distinct decimal texts |
| Text.HexDigit | src/color.rs:121 | The lowercase hex digit written for `d < 16` has value `d` and is not upper-case |
| Text.Hex2 | src/color.rs:121 | `{:02x}` of a byte is two hex digits whose value is the byte |
| Text.Lower | src/color.rs:121 | Lower-casing keeps the length and maps each char |
| Text.Find | src/palette/wal.rs:24 | The first offset of a char, with no earlier occurrence |
| Text.Lines | src/palette/wal.rs:24 | `str::lines` gives pieces without line feeds; only the empty text has no lines |
| Colors.New | src/color.rs:33-35 | `Color::new` is in range, has no neighbours and is written `000000ff` |
| Colors.FromRgbInt | src/color.rs:37-45 | Always `Some`, in range, opaque, with each given byte read back by `u8_*` |
| Colors.FromRgbaInt | src/color.rs:47-55 | As `from_rgb_int`, and the alpha byte also reads back |
| Colors.FromRgbFloat | src/color.rs:57-59 | Always `Some` and opaque; in range exactly when the given channels are |
| Colors.FromRgbaFloat | src/color.rs:61-69 | Always `Some`; in range exactly when the given channels and alpha are |
| Colors.Channel | src/color.rs:76-78 | A slice that parses as hex gives a non-negative channel that is its value divided by 255; a slice that does not parse leaves the channel at its default |
| Colors.ChannelInUnit | src/color.rs:76-98 | A channel read from a two-byte slice lies in [0,1] |
| Colors.FromHex | src/color.rs:71-104 | Aborts only off a char boundary; `None` exactly when the trimmed text is neither 6 nor 9 bytes; a decoded colour is in range, has no neighbours, and is opaque when 6 bytes long |
| Colors.DecodeTrimmed | src/color.rs:75-103 | A colour decoded from the trimmed text is in range |
| Colors.DecodeAscii | src/color.rs:75-101 | On 6 or 9 ASCII chars each channel comes from its two-char slice, with alpha 1 when there are 6 |
| Colors.AsciiHexNeverAborts | src/color.rs:71-104 | `from_hex` can panic only on non-ASCII text |
| Colors.U8Of | src/color.rs:107-118 | `(x * 255.0).round() as u8` saturates: a channel at or below 0 gives byte 0, one at or above 1 gives byte 255 |
| Colors.U8Red | src/color.rs:107-109 | `u8_red` is 0 for a red channel at or below 0 and 255 for one at or above 1 |
| Colors.U8Green | src/color.rs:110-112 | `u8_green` is 0 for a green channel at or below 0 and 255 for one at or above 1 |
| Colors.U8Blue | src/color.rs:113-115 | `u8_blue` is 0 for a blue channel at or below 0 and 255 for one at or above 1 |
| Colors.U8Alpha | src/color.rs:116-118 | `u8_alpha` is 0 for an alpha at or below 0 and 255 for one at or above 1 |
| Colors.ToHex | src/color.rs:120-122 | `to_hex` writes eight lowercase hex digits whose pairs read back as the `u8_red`, `u8_green`, `u8_blue` and `u8_alpha` bytes |
| Colors.ByteScales | src/color.rs:40-42 | A byte scaled by 1/255 is in [0,1] and `u8_*` rounds it back to the byte |
| Colors.U8Nearest | src/color.rs:107-118 | For a channel in [0,1], `u8_*` gives the integer nearest to `255 * x` |
| Colors.HexDigitOfValue | src/color.rs:76-121 | The digit written for the value of a hex digit is that digit lower-cased |
| Colors.ParsePair | src/color.rs:76 | Two hex digits parse to a value below 256 that `{:02x}` writes back lower-cased |
| Colors.ChannelRoundTrip | src/color.rs:76-121 | A channel decoded from two hex digits is encoded back as those digits lower-cased |
| Colors.LowerPairs | src/color.rs:121 | Lower-casing a 6- or 8-char text is lower-casing its pairs |
| Colors.ToHexOfPairs | src/color.rs:120-122 | `to_hex` is the concatenation of the four channel pairs |
| Colors.PairsRoundTrip | src/color.rs:71-122 | A colour decoded from hex pairs encodes back as the pairs lower-cased, with `ff` for a missing alpha |
| Colors.HexRoundTrip6 | src/color.rs:71-122 | Six hex digits decode to a colour that `to_hex` writes as the digits lower-cased followed by `ff` |
| Colors.HexRoundTrip9 | src/color.rs:87-122 | Nine ASCII bytes whose first eight are hex digits decode to a colour that `to_hex` writes as those eight lower-cased; the ninth is ignored |
| Colors.HashesIgnored | src/color.rs:74 | A leading `#` never changes what `from_hex` returns |
| Colors.ToHexNotReadBack | src/color.rs:75-122 | `from_hex` of what `to_hex` writes is `None`: 8 is not a length it accepts |
| Colors.UnparsedChannelDefaults | src/color.rs:75-85 | A 6-byte text whose first pair is not hex still decodes, with red left at 0 |
| Colors.Linearise | src/color.rs:7-14 | Below the 0.04045 threshold the linearised channel is the channel divided by 12.92; a non-negative channel stays non-negative when the gamma curve is non-negative |
| Colors.RelativeLuminance | src/color.rs:130-134 | A fully transparent colour, and a black one, have relative luminance 0 |
| Colors.GetContrast | src/color.rs:137-147 | The contrast ratio is exactly 1 when the two luminances agree and greater than 1 when they differ |
| Colors.LuminanceNonNegative | src/color.rs:7-134 | With a non-negative gamma curve, a colour in range has non-negative relative luminance, so its contrast ratio is defined |
| Colors.ContrastSymmetric | src/color.rs:137-147 | `get_contrast` is symmetric |
| Colors.ContrastAtLeastOne | src/color.rs:137-147 | `get_contrast` is at least 1 |
| Colors.Clamp | src/color.rs:154 | `clamp(0.0, 1.0)` lands in [0,1] |
| Colors.Darker | src/color.rs:150-163 | `darker` keeps alpha and the neighbour list |
| Colors.DarkerBounds | src/color.rs:150-163 | A darker colour is in range and no lighter in any channel, and black from 100 per cent on |
| Colors.Lighter | src/color.rs:165-178 | `lighter` keeps alpha and the neighbour list |
| Colors.LighterBounds | src/color.rs:165-178 | A lighter colour is in range, no darker in any channel, and a zero channel stays zero |
| Colors.Alpha | src/color.rs:180-187 | `alpha` keeps the channels and the neighbour list |
| Colors.AlphaBounds | src/color.rs:180-187 | The new alpha is `percentage` per cent, clamped at 100 |
| Colors.Contrast | src/color.rs:192-201 | `contrast(i)` is the `i`-th neighbour when there is one and the colour itself otherwise, and it points only into the palette |
| Colors.ContrastSurvivesTransforms | src/color.rs:189-201 | A darkened, lightened or re-alpha'd copy answers `contrast` with the original colour's neighbour |
| Colors.ColorName | src/color.rs:211 | `format!("color{index}")` is `color` followed by at least one decimal digit and nothing else |
| Colors.ColorNameParts | src/color.rs:211 | `color{i}` is `color` followed by the decimal digits of `i` |
| Colors.ColorNameInjective | src/color.rs:211 | Distinct indices give distinct keys |
| Colors.ColorNamesDistinct | src/color.rs:211 | Distinct indices give distinct keys, for all pairs at once |
| Colors.NameIsNew | src/palette/wal.rs:24-25 | `color{n}` is not among `color0` .. `color{n-1}` and extends them by one |
| Colors.NamesCount | src/palette/wal.rs:24-25 | There are exactly `n` keys `color0` .. `color{n-1}` |
| Colors.DistinctBound | src/palette/wal.rs:28-34 | Distinct entries from a set are no more than its size |
| Colors.OrderCovers | src/color.rs:210 | A `HashMap` iteration visits every key |
| ContrastRanking.SatU32 | src/color.rs:213 | `as u32` saturates into [0, 2^32-1] and keeps values in range |
| ContrastRanking.ContrastKey | src/color.rs:213 | The tree key of a ratio fits a `u32` and is at most a million times the ratio, unless saturated |
| ContrastRanking.ContrastOfSameChannels | src/color.rs:137-147 | Changing only neighbour lists does not change any contrast ratio, so ranking later colours is unaffected by earlier rankings |
| ContrastRanking.Least | src/color.rs:217 | A non-empty key set has a least key, the first one a `BTreeMap` yields |
| ContrastRanking.ComputeContrasts | src/color.rs:204-223 | Ends without panic exactly when the palette is non-empty and holds `color0` .. `color{len-2}`; an empty palette underflows; it keeps every key and channel, gives each `color{i}` with `i < len-1` its `Ranked` neighbour list, leaves the last key untouched, and keeps the palette closed |
| ContrastRanking.ProgressStep | src/color.rs:205-222 | Setting the ranking of `color{index}` advances the outer loop's invariant |
| ContrastRanking.FramedStep | src/color.rs:221 | `set_contrasts` on `color{index}` changes only that cell's neighbour list |
| ContrastRanking.RankedUpToStep | src/color.rs:205-222 | The colours ranked so far stay ranked after the next one is |
| ContrastRanking.RankFor | src/color.rs:206-219 | The list built for one colour is its `Ranked` list |
| ContrastRanking.FiledSkip | src/color.rs:211 | Visiting the colour itself leaves the tree unchanged |
| ContrastRanking.FiledInsert | src/color.rs:212-213 | One `BTreeMap::insert` keeps the tree holding the last visited cell of each key |
| ContrastRanking.FiledRanked | src/color.rs:210-219 | Draining the tree filled over the whole visit gives the `Ranked` list |
| ContrastRanking.Drain | src/color.rs:217-219 | Pushing the ascending entries to the front lists the tree's values in descending key order |
| ContrastRanking.DescendingCons | src/color.rs:218 | A key above all others may go in front of a descending list |
| ContrastRanking.RankedLength | src/color.rs:210-215 | A colour has fewer neighbours than the palette has cells |
| ContrastRanking.DescendingUnique | src/color.rs:217-219 | Two strictly descending key lists with the same keys are equal |
| ContrastRanking.Ranks | src/color.rs:213 | The keys of a list's cells, position by position |
| ContrastRanking.RanksIncluded | src/color.rs:210-219 | Two ranked lists of one colour hold the same keys |
| ContrastRanking.RankedUnique | src/color.rs:204-223 | The neighbour list is determined by the palette and the visit order |
| ContrastRanking.SameRankSameCell | src/color.rs:213 | Of the cells with equal keys, the one kept is the last visited |
| PaletteKeys.KeyNumber | src/telegram/colors.rs:47-48 | A key number that parses fits a `u32`, and the key is longer than the five bytes `split_at(5)` cuts off |
| PaletteKeys.Insert | src/telegram/colors.rs:46-50 | One insertion step of the stable sort keeps every key, adding one |
| PaletteKeys.InsertAscending | src/telegram/colors.rs:46-50 | Inserting into an ascending list keeps it ascending |
| PaletteKeys.ConsAscending | src/telegram/colors.rs:49 | A key no larger than the first may go in front |
| PaletteKeys.SortKeys | src/telegram/colors.rs:46-50 | The sorted keys are ascending by number and a permutation of the input |
| PaletteKeys.FirstUnnumbered | src/telegram/colors.rs:47-48 | Finds a key whose number does not parse |
| PaletteKeys.KeyOrder | src/telegram/colors.rs:45-50 | The sort panics exactly when there are two or more keys and one has no number; the panic names such a key; otherwise the result is a permutation of the keys, ascending by number |
| PaletteKeys.MultisetMembers | src/telegram/colors.rs:45-50 | A permutation holds only entries of the original |
| PaletteKeys.SortedPalette | src/telegram/colors.rs:45-54 | The sorted keys are exactly the palette's keys |
| PaletteKeys.NameNumber | src/telegram/colors.rs:47-48 | `split_at(5)` and `parse` of `color{i}` give back `i` |
| PaletteKeys.NamesSorted | src/telegram/colors.rs:44-54 | A palette with keys `color0` .. `color{n-1}` is listed in exactly that order, whatever order the map visits it in, so `color10` follows `color9` |
| PaletteKeys.NamesSmall | src/telegram/colors.rs:46-50 | With fewer than two keys, the unsorted list is already `color0` .. |
| PaletteKeys.AscendingNames | src/telegram/colors.rs:46-50 | Distinct ascending keys `color{j}` with all `j < n` are `color0` .. `color{n-1}` |
| PaletteKeys.StrictlyAscendingFromZero | src/telegram/colors.rs:46-50 | A strictly ascending run of `n` numbers below `n` is `0` .. `n-1` |
| PaletteKeys.AtLeastIndex | src/telegram/colors.rs:46-50 | In a strictly ascending run the `i`-th number is at least `i` |
| PaletteKeys.RoomAfter | src/telegram/colors.rs:46-50 | In a strictly ascending run below its length, each number leaves room for those after it |
| PaletteKeys.DistinctPermutation | src/telegram/colors.rs:45-50 | Sorting distinct keys gives distinct keys |
| PaletteKeys.DistinctOnce | src/telegram/colors.rs:45 | A list without repetitions counts each entry at most once |
| PaletteKeys.TwiceCounted | src/telegram/colors.rs:45 | A repeated entry counts at least twice |
| ThemeRegistry.ColorLine | src/telegram/colors.rs:14 | The colour line is the name, `: #`, the eight digits of `to_hex` and `;` then a newline, 13 chars longer than the name |
| ThemeRegistry.CommentLine | src/telegram/colors.rs:18 | The comment line is a newline, `// `, the note and a newline, 5 chars longer than the note |
| ThemeRegistry.Rendered | src/telegram/colors.rs:9-22 | What `add_any` writes is a non-empty line ending in a newline, which starts with a blank line exactly when it is a comment (or the name itself starts with a newline) |
| ThemeRegistry.Lookup | src/telegram/colors.rs:35-42 | `get_element` aborts exactly when the name was never added (`expect` on the lookup) or was last added as a comment (`expect` on the colour); otherwise it is the recorded colour |
| ThemeRegistry.PaletteGet | src/telegram_colors.rs:49 | `colors[key]` succeeds exactly when the key is in the palette, and panics otherwise |
| ThemeRegistry.HexColor | src/telegram/colors.rs:57-58 | `from_hex(hex).unwrap()` succeeds exactly when `from_hex` gives a colour, which has no neighbours |
| ThemeRegistry.HexLiteral | src/telegram/colors.rs:57-62 | Six hex digits, with or without `#`, give an opaque colour written as the digits lower-cased followed by `ff` |
| ThemeRegistry.PinkLiteral | src/telegram/colors.rs:57 | `ff7fc6` decodes and is written `ff7fc6ff` |
| ThemeRegistry.GreenLiteral | src/telegram/colors.rs:58 | `0bd500` decodes and is written `0bd500ff` |
| ThemeRegistry.ErrorLiteral | src/telegram/colors.rs:61 | `#d55070` decodes, and `to_hex` writes it `d55070ff` |
| ThemeRegistry.SuccessLiteral | src/telegram/colors.rs:62 | `#6bf576` decodes, and `to_hex` writes it `6bf576ff` |
| ThemeRegistry.YoutubeBgLiteral | src/telegram/colors.rs:813 | `83131c` decodes |
| ThemeRegistry.WhiteLiteral | src/telegram/colors.rs:1043 | `ffffff` decodes |
| ThemeRegistry.SoundUpdate | src/telegram/colors.rs:9-22 | Recording a colour pointing into the palette, or a comment under a label that does not look like a colour name, keeps the registry sound |
| ThemeRegistry.Registry.constructor | src/telegram/colors.rs:6-7 | The theme text and the element map start empty |
| ThemeRegistry.Registry.AddAny | src/telegram/colors.rs:9-22 | Appends the colour line or the comment line of `el`, and records `col` under `el`, replacing any earlier record; keeps the registry sound; `color0` is recorded only by an add under that name |
| ThemeRegistry.Registry.AddColor | src/telegram/colors.rs:25-27 | Appends `el: #rrggbbaa;` and records the colour under `el` |
| ThemeRegistry.Registry.AddComment | src/telegram/colors.rs:30-32 | Appends a blank line and `// note`, and records `note` as a comment |
| ThemeRegistry.Registry.GetElement | src/telegram/colors.rs:35-42 | Returns `Lookup` of the recorded elements; a colour name that was added is always a colour, pointing into the palette |
| ThemeRegistry.Registry.AddPalette | src/telegram/colors.rs:52-54 | Appends the palette keys' lines in the sorted order and records each key with its palette colour |
| ThemeRegistry.ListingExtends | src/telegram/colors.rs:52-54 | Listing the palette keeps what was written before in front and adds at least 13 chars per key |
| ThemeRegistry.RegisteredMeans | src/telegram/colors.rs:52-54 | After the palette loop every key holds its palette colour, every other name keeps what it had, and nothing else is added |
| WalPalette.WalSize | src/palette/wal.rs:28-34 | A palette of fewer than 16 colours is doubled, a larger one kept |
| WalPalette.Decodes | src/palette/wal.rs:24-25 | One `from_hex` result per line |
| WalPalette.Collect | src/palette/wal.rs:24-26 | When every line decodes, one colour per line |
| WalPalette.WalFile | src/palette/wal.rs:22-36 | An empty colour file gives an empty palette: there is nothing to decode and nothing to pad |
| WalPalette.ImportWal | src/palette/wal.rs:8-37 | The result is `WalFile` of the file's lines and the padding visit order |
| WalPalette.WalFileAborts | src/palette/wal.rs:24-26 | A wal palette exists exactly when every line decodes; otherwise the panic is a slice off a char boundary or an `unwrap` of `None` |
| WalPalette.WalKeys | src/palette/wal.rs:22-34 | A wal palette's keys are exactly `color0` .. `color{m-1}` for `m` its padded size |
| WalPalette.WalFileLines | src/palette/wal.rs:24-25 | `color{i}` is the colour `from_hex` reads from line `i` |
| WalPalette.WalCopies | src/palette/wal.rs:28-34 | Padding key `color{n+k}` holds the colour of the `k`-th key visited |
| WalPalette.PadCoversEachOnce | src/palette/wal.rs:30-33 | When the map visits each key once, every original colour is copied to a padding key |
| WalPalette.DecodeLines | src/palette/wal.rs:24-26 | The first loop gives `WalColors` of the lines |
| WalPalette.Pad | src/palette/wal.rs:28-34 | The padding loop gives the palette of the colours followed by their copies in visit order |
| WalPalette.PadStart | src/palette/wal.rs:29 | Before padding, the palette has `n` entries, the first `n` of the padded listing |
| WalPalette.PadStep | src/palette/wal.rs:31-32 | Each padding round adds the next padded colour, the visited one |
| WalPalette.CollectMeans | src/palette/wal.rs:25 | Collecting succeeds exactly when every line is a colour, and keeps them all |
| WalPalette.CollectFailure | src/palette/wal.rs:25 | Collecting aborts with a line's own failure or as `unwrap` of `None` |
| WalPalette.AbortStays | src/palette/wal.rs:24-26 | A panic on an early line ends the loop |
| WalPalette.DecodesAgree | src/palette/wal.rs:25 | Each decoded line is `from_hex` of it and fails only off a char boundary |
| WalPalette.ListingKeys | src/palette/wal.rs:24-25 | The first `n` colours are under exactly `color0` .. `color{n-1}` |
| WalPalette.ListingAt | src/palette/wal.rs:25 | `color{i}` holds colour `i` |
| WalPalette.ListingPrefix | src/palette/wal.rs:24-25 | The first `n` entries depend only on the first `n` colours |
| WalPalette.PaletteOfSnoc | src/palette/wal.rs:25 | Inserting the next colour adds exactly its key |
| WalPalette.PaddedPalette | src/palette/wal.rs:28-34 | The padded palette gives `color{n+k}` the colour of the `k`-th key visited |
| WalPalette.PaletteOfAll | src/palette/wal.rs:24-26 | The palette of `n` colours maps exactly `color{i}` to colour `i` |
| CustomPalette.Spaces | src/palette/custom.rs:21 | `\s*` consumes the whole leading run of spaces |
| CustomPalette.Digits | src/palette/custom.rs:21 | `\d+` consumes the whole leading run of digits |
| CustomPalette.SkipSpaces | src/palette/custom.rs:21 | Skipping spaces never lengthens the text |
| CustomPalette.HexGroup | src/palette/custom.rs:21 | The `hex` group is six or eight decimal digits |
| CustomPalette.Assignment | src/palette/custom.rs:21 | The `= '#…'` part captures six or eight decimal digits |
| CustomPalette.MatchHere | src/palette/custom.rs:21 | A match captures a non-empty run of index digits and six or eight hex digits |
| CustomPalette.Search | src/palette/custom.rs:26 | A capture found from any offset is well formed: a non-empty run of index digits and six or eight digits |
| CustomPalette.SearchFirst | src/palette/custom.rs:26 | `captures` finds the first offset where the pattern matches, and reports no match only when there is none |
| CustomPalette.DigitsRun | src/palette/custom.rs:21 | A run of digits ends at the first non-digit |
| CustomPalette.OneSpace | src/palette/custom.rs:21 | A single space is skipped |
| CustomPalette.EntryMatches | src/palette/custom.rs:21-26 | A line `color{ind} = '#{hex}'` with six digits is captured as `ind` and `hex` |
| CustomPalette.AssignmentOf | src/palette/custom.rs:21 | The `= '#hex'` part of an entry line captures the digits |
| CustomPalette.CapturesOf | src/palette/custom.rs:21-26 | `re.captures(line)` is well formed when it exists, is the match at an offset before which no offset starts one, and is absent exactly when no offset of the line starts a match |
| CustomPalette.Matches | src/palette/custom.rs:24-26 | One capture result per line |
| CustomPalette.MatchesWellFormed | src/palette/custom.rs:21-26 | Every capture has a non-empty index and six or eight digits |
| CustomPalette.LeadingZeroKeys | src/palette/custom.rs:27-28 | `color07` and `color7` are two keys with the same index 7 |
| CustomPalette.ImportCustom | src/palette/custom.rs:10-39 | The result is `CustomFile` of the path and the file's lines |
| CustomPalette.Step | src/palette/custom.rs:26-29 | A line without a capture never panics; a round that succeeds keeps every earlier key and never lowers `max_index`, and a captured line's key is in the palette with its parsed index at most `max_index` |
| CustomPalette.ScanNoEntries | src/palette/custom.rs:24-30 | Lines that capture no entry leave the palette empty and `max_index` at 0 |
| CustomPalette.Scan | src/palette/custom.rs:24-30 | When the loop ends without a panic, `max_index` fits a `usize`: every index it takes was parsed as one |
| CustomPalette.CustomOf | src/palette/custom.rs:32-39 | A palette comes back only when `max_index` is its size minus one; with a path but no entries the checks end in the underflow |
| CustomPalette.CustomFile | src/palette/custom.rs:10-39 | An empty path panics; a file none of whose lines captures an entry ends in the underflow |
| CustomPalette.StepEntry | src/palette/custom.rs:26-29 | A captured entry sets its key and raises `max_index` |
| CustomPalette.ScanNext | src/palette/custom.rs:24-30 | The loop's next round is one more step |
| CustomPalette.ScanAbortStays | src/palette/custom.rs:24-30 | A panic on an early line ends the loop |
| CustomPalette.StepOutcome | src/palette/custom.rs:27-28 | An index beyond `usize` panics in `expect`; an eight-digit hex panics in `unwrap`, since `from_hex` refuses 8 bytes; a six-digit entry is taken |
| CustomPalette.ScanSucceeds | src/palette/custom.rs:24-30 | The loop runs to the end exactly when every captured entry is taken |
| CustomPalette.ScanLast | src/palette/custom.rs:24-30 | The state before the last line and the effect of the last line |
| CustomPalette.KeysInSnoc | src/palette/custom.rs:28 | One more line adds at most its key |
| CustomPalette.ScanKeys | src/palette/custom.rs:24-30 | The palette holds exactly the captured keys |
| CustomPalette.ScanMax | src/palette/custom.rs:27 | `max_index` bounds every captured index and is 0 or one of them |
| CustomPalette.ScanValues | src/palette/custom.rs:28 | A key's colour is the one from the last line with that key |
| CustomPalette.CustomOutcomes | src/palette/custom.rs:10-39 | An empty path panics; a palette comes back only with at least 16 keys, exactly the captured ones, and every index below its size; no entries underflow; no panic comes from a char boundary |
| CustomPalette.ScanFailure | src/palette/custom.rs:27-28 | The loop panics only on an index overflow or a hex `from_hex` refuses |
| CustomPalette.CanonicalKey | src/palette/custom.rs:28 | An index written without leading zeros gives the key `format!` makes of its value |
| CustomPalette.CanonicalNames | src/palette/custom.rs:32-37 | With canonical indices, the checks accept exactly the files whose keys are `color0` .. `color{n-1}` with `n >= 16` |
| CustomPalette.CanonicalAcceptedNamed | src/palette/custom.rs:32-34 | An accepted canonical file has the keys `color0` .. `color{n-1}` |
| CustomPalette.NamedCounts | src/palette/custom.rs:32-34 | A canonical file with the keys `color0` .. `color{n-1}` passes the count check |
| CustomPalette.KeyCaptured | src/palette/custom.rs:28 | A captured key is among the keys |
| CustomPalette.NameIndex | src/palette/custom.rs:32-34 | Every one of `color0` .. `color{n-1}` has its index below `n` |
| CustomPalette.SubsetEqual | src/palette/custom.rs:32-34 | A subset as large as its superset is the superset |
| TelegramColors.Opening | src/telegram/colors.rs:44-58 | The text written when the testing colours are in starts with the `Color palette` comment and is at least as long as that comment, 13 chars per palette key and the 77-char testing block together |
| TelegramColors.OpenTheme | src/telegram/colors.rs:44-58 | The palette keys come out in the order the sort gives, all of them palette keys; after them the registry records every palette key other than the three testing names with its palette colour (so `color0` and `color15` are recorded exactly when the palette has them), and the text written is exactly the opening, which the rest of the run only extends |
| TelegramColors.GetTelegramColors | src/telegram/colors.rs:4-1091 | Succeeds exactly when the key sort succeeds, the palette holds the keys read directly (`color0` .. `color8`, `color10`) and `color15`, which is read back through `get_element`; succeeds on every palette holding `color0` .. `color15` whose keys all carry a number; an unsortable key aborts with the sort's own panic, and otherwise it aborts only on a palette key the palette lacks, or on reading back `color0`/`color15` when the palette lacks it; the theme opens with the palette comment, the palette in numeric key order and the testing colours |
| TelegramColorsStale.Opening | src/telegram_colors.rs:44-46 | The opening text is the 77-char testing block: the `Colors for testing purposes` comment, then the pink and green lines |
| TelegramColorsStale.GetTelegramColors | src/telegram_colors.rs:4-626 | Succeeds exactly when the palette has the keys it reads; aborts only on a missing key; the theme opens with the testing colours; the palette keys are never recorded, so `get_element("color0")` would abort |
| TelegramColors.ColorsForTestingPurposesSection | src/telegram/colors.rs:56-58 | Keeps the registry sound and only appends to the theme text; keeps `color0` and `color15` recorded, with the palette's colours, exactly when the palette has them; forgets no recorded name and changes none but the three it writes; never aborts, and appends exactly the comment `Colors for testing purposes` and the lines `colorPink: #ff7fc6ff;` and `colorGreen: #0bd500ff;` |
| TelegramColors.SpecialCommonColorsSection | src/telegram/colors.rs:60-62 | Keeps the registry sound and only appends to the theme text; keeps `color0` and `color15` recorded, with the palette's colours, exactly when the palette has them; forgets no recorded name; on success defines `colorError`; never aborts, and appends exactly the comment `Special common colors` and the lines `colorError: #d55070ff;` and `colorSuccess: #6bf576ff;` |
| TelegramColors.BasicWindowOptionsSection1 | src/telegram/colors.rs:64-68 | Keeps the registry sound and only appends to the theme text; keeps `color0` and `color15` recorded, with the palette's colours, exactly when the palette has them; forgets no recorded name; on success defines `windowBg`, `windowFg`; on success `windowBg` is the recorded `color0`, which is the palette's `color0`, and `windowFg` is `contrast(0)` of it; succeeds exactly when the palette has `color0`; aborts only on a palette key the palette lacks, or on reading back `color0`/`color15` when the palette lacks it |
| TelegramColors.BasicWindowOptionsSection2 | src/telegram/colors.rs:70-74 | Keeps the registry sound and only appends to the theme text; keeps `color0` and `color15` recorded, with the palette's colours, exactly when the palette has them; forgets no recorded name; on success defines `windowFgOver`; never aborts |
| TelegramColors.BasicWindowOptionsSection3 | src/telegram/colors.rs:76-80 | Keeps the registry sound and only appends to the theme text; keeps `color0` and `color15` recorded, with the palette's colours, exactly when the palette has them; forgets no recorded name; on success defines `windowSubTextFg`; never aborts |
| TelegramColors.BasicWindowOptionsSection4 | src/telegram/colors.rs:82-86 | Keeps the registry sound and only appends to the theme text; keeps `color0` and `color15` recorded, with the palette's colours, exactly when the palette has them; forgets no recorded name; on success defines `windowBgActive`, `windowBoldFgOver`, `windowFgActive`; never aborts |
| TelegramColors.BasicWindowOptionsSection5 | src/telegram/colors.rs:89-93 | Keeps the registry sound and only appends to the theme text; forgets no recorded name; on success defines `windowActiveTextFg`, `windowShadowFg`; succeeds exactly when the palette has `color15`; aborts only on a palette key the palette lacks, or on reading back `color0`/`color15` when the palette lacks it |
| TelegramColors.Derivation1 | src/telegram/colors.rs:60-93 | Keeps the registry sound and only appends to the theme text; forgets no recorded name; on success defines `colorError`, `windowActiveTextFg`, `windowBg`, `windowBgActive`, `windowBoldFgOver`, `windowFg`, `windowFgActive`, `windowShadowFg`, `windowSubTextFg`; succeeds exactly when the palette has `color0`, `color15`; aborts only on a palette key the palette lacks, or on reading back `color0`/`color15` when the palette lacks it |
| TelegramColors.ShadowSection | src/telegram/colors.rs:95-97 | Keeps the registry sound and only appends to the theme text; forgets no recorded name; on success defines `shadowFg`; never aborts |
| TelegramColors.SlideSection | src/telegram/colors.rs:99-103 | Keeps the registry sound and only appends to the theme text; forgets no recorded name; succeeds exactly when the palette has `color0`; aborts only on a palette key the palette lacks, or on reading back `color0`/`color15` when the palette lacks it |
| TelegramColors.ImageSection | src/telegram/colors.rs:105-109 | Keeps the registry sound and only appends to the theme text; forgets no recorded name; on success defines `imageBg`; succeeds exactly when the palette has `color2`, `color7`; aborts only on a palette key the palette lacks, or on reading back `color0`/`color15` when the palette lacks it |
| TelegramColors.ActiveSection1 | src/telegram/colors.rs:111-118 | Keeps the registry sound and only appends to the theme text; forgets no recorded name; on success defines `activeButtonBg`; succeeds exactly when the palette has `color2`; aborts only on a palette key the palette lacks, or on reading back `color0`/`color15` when the palette lacks it |
| TelegramColors.ActiveSection2 | src/telegram/colors.rs:120-124 | Keeps the registry sound and only appends to the theme text; forgets no recorded name; on success defines `activeButtonFg`, `activeButtonSecondaryFg`; never aborts |
| TelegramColors.ActiveSection3 | src/telegram/colors.rs:126-130 | Keeps the registry sound and only appends to the theme text; forgets no recorded name; succeeds exactly when the palette has `color2`; aborts only on a palette key the palette lacks, or on reading back `color0`/`color15` when the palette lacks it |
| TelegramColors.Derivation2 | src/telegram/colors.rs:95-130 | Keeps the registry sound and only appends to the theme text; forgets no recorded name; on success defines `activeButtonFg`, `imageBg`, `shadowFg`; succeeds exactly when the palette has `color0`, `color2`, `color7`; aborts only on a palette key the palette lacks, or on reading back `color0`/`color15` when the palette lacks it |
| TelegramColors.LightSection1 | src/telegram/colors.rs:133-141 | Keeps the registry sound and only appends to the theme text; forgets no recorded name; on success defines `lightButtonFg`; succeeds exactly when the palette has `color0`, `color2`; aborts only on a palette key the palette lacks, or on reading back `color0`/`color15` when the palette lacks it |
| TelegramColors.LightSection2 | src/telegram/colors.rs:143-143 | Keeps the registry sound and only appends to the theme text; forgets no recorded name; on success defines `lightButtonFgOver`; never aborts |
| TelegramColors.AttentionSection | src/telegram/colors.rs:145-153 | Keeps the registry sound and only appends to the theme text; forgets no recorded name; succeeds exactly when the palette has `color0`, `color1`; aborts only on a palette key the palette lacks, or on reading back `color0`/`color15` when the palette lacks it |
| TelegramColors.OutlineSection | src/telegram/colors.rs:155-163 | Keeps the registry sound and only appends to the theme text; forgets no recorded name; succeeds exactly when the palette has `color0`, `color2`; aborts only on a palette key the palette lacks, or on reading back `color0`/`color15` when the palette lacks it |
| TelegramColors.MenuSection1 | src/telegram/colors.rs:165-175 | Keeps the registry sound and only appends to the theme text; forgets no recorded name; on success defines `menuIconFg`, `menuIconFgOver`; succeeds exactly when the palette has `color0`, `color7`; aborts only on a palette key the palette lacks, or on reading back `color0`/`color15` when the palette lacks it |
| TelegramColors.MenuSection2 | src/telegram/colors.rs:177-181 | Keeps the registry sound and only appends to the theme text; forgets no recorded name; succeeds exactly when the palette has `color7`; aborts only on a palette key the palette lacks, or on reading back `color0`/`color15` when the palette lacks it |
| TelegramColors.Derivation3 | src/telegram/colors.rs:133-181 | Keeps the registry sound and only appends to the theme text; forgets no recorded name; on success defines `lightButtonFg`, `lightButtonFgOver`, `menuIconFg`, `menuIconFgOver`; succeeds exactly when the palette has `color0`, `color1`, `color2`, `color7`; aborts only on a palette key the palette lacks, or on reading back `color0`/`color15` when the palette lacks it |
| TelegramColors.ScrollSection | src/telegram/colors.rs:183-191 | Keeps the registry sound and only appends to the theme text; forgets no recorded name; succeeds exactly when the palette has `color7`; aborts only on a palette key the palette lacks, or on reading back `color0`/`color15` when the palette lacks it |
| TelegramColors.SmallSection | src/telegram/colors.rs:193-197 | Keeps the registry sound and only appends to the theme text; forgets no recorded name; succeeds exactly when the palette has `color7`; aborts only on a palette key the palette lacks, or on reading back `color0`/`color15` when the palette lacks it |
| TelegramColors.RadialSection | src/telegram/colors.rs:199-203 | Keeps the registry sound and only appends to the theme text; forgets no recorded name; succeeds exactly when the palette has `color0`; aborts only on a palette key the palette lacks, or on reading back `color0`/`color15` when the palette lacks it |
| TelegramColors.PlaceholderSection | src/telegram/colors.rs:205-209 | Keeps the registry sound and only appends to the theme text; forgets no recorded name; succeeds exactly when the palette has `color7`; aborts only on a palette key the palette lacks, or on reading back `color0`/`color15` when the palette lacks it |
| TelegramColors.InputSection | src/telegram/colors.rs:211-213 | Keeps the registry sound and only appends to the theme text; forgets no recorded name; succeeds exactly when the palette has `color7`; aborts only on a palette key the palette lacks, or on reading back `color0`/`color15` when the palette lacks it |
| TelegramColors.FilterSection | src/telegram/colors.rs:215-221 | Keeps the registry sound and only appends to the theme text; forgets no recorded name; succeeds exactly when the palette has `color0`, `color8`; aborts only on a palette key the palette lacks, or on reading back `color0`/`color15` when the palette lacks it |
| TelegramColors.Derivation4 | src/telegram/colors.rs:183-221 | Keeps the registry sound and only appends to the theme text; forgets no recorded name; succeeds exactly when the palette has `color0`, `color7`, `color8`; aborts only on a palette key the palette lacks, or on reading back `color0`/`color15` when the palette lacks it |
| TelegramColors.CheckboxSection | src/telegram/colors.rs:223-225 | Keeps the registry sound and only appends to the theme text; forgets no recorded name; succeeds exactly when the palette has `color7`; aborts only on a palette key the palette lacks, or on reading back `color0`/`color15` when the palette lacks it |
| TelegramColors.SliderSection | src/telegram/colors.rs:227-231 | Keeps the registry sound and only appends to the theme text; forgets no recorded name; on success defines `sliderBgInactive`; succeeds exactly when the palette has `color7`; aborts only on a palette key the palette lacks, or on reading back `color0`/`color15` when the palette lacks it |
| TelegramColors.TooltipSection | src/telegram/colors.rs:233-239 | Keeps the registry sound and only appends to the theme text; forgets no recorded name; succeeds exactly when the palette has `color0`, `color7`; aborts only on a palette key the palette lacks, or on reading back `color0`/`color15` when the palette lacks it |
| TelegramColors.TitleSection1 | src/telegram/colors.rs:241-247 | Keeps the registry sound and only appends to the theme text; forgets no recorded name; on success defines `titleBg`; succeeds exactly when the palette has `color0`; aborts only on a palette key the palette lacks, or on reading back `color0`/`color15` when the palette lacks it |
| TelegramColors.TitleSection2 | src/telegram/colors.rs:249-255 | Keeps the registry sound and only appends to the theme text; forgets no recorded name; on success defines `titleButtonBg`, `titleButtonBgOver`, `titleButtonFg`, `titleButtonFgOver`; succeeds exactly when the palette has `color0`, `color7`; aborts only on a palette key the palette lacks, or on reading back `color0`/`color15` when the palette lacks it |
| TelegramColors.TitleSection3 | src/telegram/colors.rs:257-261 | Keeps the registry sound and only appends to the theme text; forgets no recorded name; never aborts |
| TelegramColors.Derivation5 | src/telegram/colors.rs:223-261 | Keeps the registry sound and only appends to the theme text; forgets no recorded name; on success defines `sliderBgInactive`, `titleButtonBg`, `titleButtonFg`, `titleButtonFgOver`; succeeds exactly when the palette has `color0`, `color7`; aborts only on a palette key the palette lacks, or on reading back `color0`/`color15` when the palette lacks it |
| TelegramColors.TitleSection4 | src/telegram/colors.rs:263-267 | Keeps the registry sound and only appends to the theme text; forgets no recorded name; on success defines `titleButtonCloseBg`, `titleButtonCloseFg`; never aborts |
| TelegramColors.TitleSection5 | src/telegram/colors.rs:269-273 | Keeps the registry sound and only appends to the theme text; forgets no recorded name; on success defines `titleButtonCloseBgOver`, `titleButtonCloseFgOver`; succeeds exactly when the palette has `color0`; aborts only on a palette key the palette lacks, or on reading back `color0`/`color15` when the palette lacks it |
| TelegramColors.TitleSection6 | src/telegram/colors.rs:275-279 | Keeps the registry sound and only appends to the theme text; forgets no recorded name; never aborts |
| TelegramColors.TitleSection7 | src/telegram/colors.rs:281-283 | Keeps the registry sound and only appends to the theme text; forgets no recorded name; succeeds exactly when the palette has `color7`; aborts only on a palette key the palette lacks, or on reading back `color0`/`color15` when the palette lacks it |
| TelegramColors.TraySection | src/telegram/colors.rs:285-295 | Keeps the registry sound and only appends to the theme text; forgets no recorded name; succeeds exactly when the palette has `color0`, `color2`, `color7`; aborts only on a palette key the palette lacks, or on reading back `color0`/`color15` when the palette lacks it |
| TelegramColors.LayerSection | src/telegram/colors.rs:297-299 | Keeps the registry sound and only appends to the theme text; forgets no recorded name; on success defines `layerBg`; succeeds exactly when the palette has `color0`; aborts only on a palette key the palette lacks, or on reading back `color0`/`color15` when the palette lacks it |
| TelegramColors.Derivation6 | src/telegram/colors.rs:263-299 | Keeps the registry sound and only appends to the theme text; forgets no recorded name; on success defines `layerBg`; succeeds exactly when the palette has `color0`, `color2`, `color7`; aborts only on a palette key the palette lacks, or on reading back `color0`/`color15` when the palette lacks it |
| TelegramColors.DerivationBlock1 | src/telegram/colors.rs:60-299 | Keeps the registry sound and only appends to the theme text; forgets no recorded name; on success defines `activeButtonFg`, `imageBg`, `layerBg`, `lightButtonFg`, `lightButtonFgOver`, `menuIconFg`, `menuIconFgOver`, `shadowFg`, `sliderBgInactive`, `windowActiveTextFg`, `windowBg`, `windowBgActive`, `windowBoldFgOver`, `windowFg`, `windowFgActive`, `windowSubTextFg`; succeeds exactly when the palette has `color0`, `color1`, `color2`, `color7`, `color8`, `color15`; aborts only on a palette key the palette lacks, or on reading back `color0`/`color15` when the palette lacks it |
| TelegramColors.CancelSection | src/telegram/colors.rs:301-305 | Keeps the registry sound and only appends to the theme text; forgets no recorded name; on success defines `cancelIconFg`, `cancelIconFgOver`; succeeds exactly when the palette has `color7`; aborts only on a palette key the palette lacks, or on reading back `color0`/`color15` when the palette lacks it |
| TelegramColors.BoxSection1 | src/telegram/colors.rs:307-313 | Keeps the registry sound and only appends to the theme text; forgets no recorded name; on success defines `boxTextFg`; succeeds exactly when the palette has `color2`; aborts only on a palette key the palette lacks, or on reading back `color0`/`color15` when the palette lacks it |
| TelegramColors.BoxSection2 | src/telegram/colors.rs:315-323 | Keeps the registry sound and only appends to the theme text; forgets no recorded name; succeeds exactly when the palette has `color0`, `color1`, `color7`; aborts only on a palette key the palette lacks, or on reading back `color0`/`color15` when the palette lacks it |
| TelegramColors.BoxSection3 | src/telegram/colors.rs:325-325 | Keeps the registry sound and only appends to the theme text; forgets no recorded name; never aborts |
| TelegramColors.MembersSection | src/telegram/colors.rs:327-329 | Keeps the registry sound and only appends to the theme text; forgets no recorded name; succeeds exactly when the palette has `color1`; aborts only on a palette key the palette lacks, or on reading back `color0`/`color15` when the palette lacks it |
| TelegramColors.ContactsSection1 | src/telegram/colors.rs:331-339 | Keeps the registry sound and only appends to the theme text; forgets no recorded name; succeeds exactly when the palette has `color0`, `color7`; aborts only on a palette key the palette lacks, or on reading back `color0`/`color15` when the palette lacks it |
| TelegramColors.Derivation7 | src/telegram/colors.rs:301-339 | Keeps the registry sound and only appends to the theme text; forgets no recorded name; on success defines `cancelIconFg`, `cancelIconFgOver`; succeeds exactly when the palette has `color0`, `color1`, `color2`, `color7`; aborts only on a palette key the palette lacks, or on reading back `color0`/`color15` when the palette lacks it |
| TelegramColors.ContactsSection2 | src/telegram/colors.rs:341-343 | Keeps the registry sound and only appends to the theme text; forgets no recorded name; succeeds exactly when the palette has `color7`, `color10`; aborts only on a palette key the palette lacks, or on reading back `color0`/`color15` when the palette lacks it |
| TelegramColors.PhotoSection | src/telegram/colors.rs:345-349 | Keeps the registry sound and only appends to the theme text; forgets no recorded name; succeeds exactly when the palette has `color7`; aborts only on a palette key the palette lacks, or on reading back `color0`/`color15` when the palette lacks it |
| TelegramColors.CallSection | src/telegram/colors.rs:351-355 | Keeps the registry sound and only appends to the theme text; forgets no recorded name; on success defines `callArrowMissedFg`; succeeds exactly when the palette has `color1`, `color2`; aborts only on a palette key the palette lacks, or on reading back `color0`/`color15` when the palette lacks it |
| TelegramColors.IntroSection1 | src/telegram/colors.rs:357-365 | Keeps the registry sound and only appends to the theme text; forgets no recorded name; succeeds exactly when the palette has `color1`, `color7`; aborts only on a palette key the palette lacks, or on reading back `color0`/`color15` when the palette lacks it |
| TelegramColors.IntroSection2 | src/telegram/colors.rs:367-377 | Keeps the registry sound and only appends to the theme text; forgets no recorded name; succeeds exactly when the palette has `color1`, `color2`; aborts only on a palette key the palette lacks, or on reading back `color0`/`color15` when the palette lacks it |
| TelegramColors.IntroSection3 | src/telegram/colors.rs:379-379 | Keeps the registry sound and only appends to the theme text; forgets no recorded name; succeeds exactly when the palette has `color7`; aborts only on a palette key the palette lacks, or on reading back `color0`/`color15` when the palette lacks it |
| TelegramColors.Derivation8 | src/telegram/colors.rs:341-379 | Keeps the registry sound and only appends to the theme text; forgets no recorded name; on success defines `callArrowMissedFg`; succeeds exactly when the palette has `color1`, `color2`, `color7`, `color10`; aborts only on a palette key the palette lacks, or on reading back `color0`/`color15` when the palette lacks it |
| TelegramColors.DialogsDefaultSection1 | src/telegram/colors.rs:381-385 | Keeps the registry sound and only appends to the theme text; forgets no recorded name; never aborts |
| TelegramColors.DialogsDefaultSection2 | src/telegram/colors.rs:387-393 | Keeps the registry sound and only appends to the theme text; forgets no recorded name; succeeds exactly when the palette has `color7`; aborts only on a palette key the palette lacks, or on reading back `color0`/`color15` when the palette lacks it |
| TelegramColors.DialogsDefaultSection3 | src/telegram/colors.rs:395-405 | Keeps the registry sound and only appends to the theme text; forgets no recorded name; on success defines `dialogsDraftFg`, `dialogsSendingIconFg`; succeeds exactly when the palette has `color0`, `color1`, `color7`, `color10`; aborts only on a palette key the palette lacks, or on reading back `color0`/`color15` when the palette lacks it |
| TelegramColors.DialogsDefaultSection4 | src/telegram/colors.rs:407-413 | Keeps the registry sound and only appends to the theme text; forgets no recorded name; on success defines `dialogsUnreadFg`; succeeds exactly when the palette has `color1`, `color7`, `color10`; aborts only on a palette key the palette lacks, or on reading back `color0`/`color15` when the palette lacks it |
| TelegramColors.DialogsOverSection1 | src/telegram/colors.rs:415-421 | Keeps the registry sound and only appends to the theme text; forgets no recorded name; succeeds exactly when the palette has `color2`; aborts only on a palette key the palette lacks, or on reading back `color0`/`color15` when the palette lacks it |
| TelegramColors.DialogsOverSection2 | src/telegram/colors.rs:423-431 | Keeps the registry sound and only appends to the theme text; forgets no recorded name; succeeds exactly when the palette has `color2`, `color7`; aborts only on a palette key the palette lacks, or on reading back `color0`/`color15` when the palette lacks it |
| TelegramColors.Derivation9 | src/telegram/colors.rs:381-431 | Keeps the registry sound and only appends to the theme text; forgets no recorded name; on success defines `dialogsSendingIconFg`, `dialogsUnreadFg`; succeeds exactly when the palette has `color0`, `color1`, `color2`, `color7`, `color10`; aborts only on a palette key the palette lacks, or on reading back `color0`/`color15` when the palette lacks it |
| TelegramColors.DialogsOverSection3 | src/telegram/colors.rs:433-441 | Keeps the registry sound and only appends to the theme text; forgets no recorded name; succeeds exactly when the palette has `color0`, `color1`, `color7`, `color10`; aborts only on a palette key the palette lacks, or on reading back `color0`/`color15` when the palette lacks it |
| TelegramColors.DialogsOverSection4 | src/telegram/colors.rs:443-443 | Keeps the registry sound and only appends to the theme text; forgets no recorded name; never aborts |
| TelegramColors.DialogsActiveSection1 | src/telegram/colors.rs:445-451 | Keeps the registry sound and only appends to the theme text; forgets no recorded name; on success defines `dialogsBgActive`, `dialogsNameFgActive`; succeeds exactly when the palette has `color2`; aborts only on a palette key the palette lacks, or on reading back `color0`/`color15` when the palette lacks it |
| TelegramColors.DialogsActiveSection2 | src/telegram/colors.rs:453-461 | Keeps the registry sound and only appends to the theme text; forgets no recorded name; on success defines `dialogsTextFgActive`; succeeds exactly when the palette has `color7`; aborts only on a palette key the palette lacks, or on reading back `color0`/`color15` when the palette lacks it |
| TelegramColors.DialogsActiveSection3 | src/telegram/colors.rs:463-467 | Keeps the registry sound and only appends to the theme text; forgets no recorded name; succeeds exactly when the palette has `color7`; aborts only on a palette key the palette lacks, or on reading back `color0`/`color15` when the palette lacks it |
| TelegramColors.DialogsActiveSection4 | src/telegram/colors.rs:469-473 | Keeps the registry sound and only appends to the theme text; forgets no recorded name; succeeds exactly when the palette has `color7`; aborts only on a palette key the palette lacks, or on reading back `color0`/`color15` when the palette lacks it |
| TelegramColors.Derivation10 | src/telegram/colors.rs:433-473 | Keeps the registry sound and only appends to the theme text; forgets no recorded name; on success defines `dialogsBgActive`, `dialogsNameFgActive`; succeeds exactly when the palette has `color0`, `color1`, `color2`, `color7`, `color10`; aborts only on a palette key the palette lacks, or on reading back `color0`/`color15` when the palette lacks it |
| TelegramColors.DialogsRippleSection | src/telegram/colors.rs:475-479 | Keeps the registry sound and only appends to the theme text; forgets no recorded name; on success defines `dialogsRippleBgActive`; succeeds exactly when the palette has `color0`, `color2`; aborts only on a palette key the palette lacks, or on reading back `color0`/`color15` when the palette lacks it |
| TelegramColors.DialogsForwardSection | src/telegram/colors.rs:481-485 | Keeps the registry sound and only appends to the theme text; forgets no recorded name; never aborts |
| TelegramColors.SearchedSection | src/telegram/colors.rs:487-491 | Keeps the registry sound and only appends to the theme text; forgets no recorded name; succeeds exactly when the palette has `color0`, `color7`; aborts only on a palette key the palette lacks, or on reading back `color0`/`color15` when the palette lacks it |
| TelegramColors.TopSection | src/telegram/colors.rs:493-495 | Keeps the registry sound and only appends to the theme text; forgets no recorded name; succeeds exactly when the palette has `color0`; aborts only on a palette key the palette lacks, or on reading back `color0`/`color15` when the palette lacks it |
| TelegramColors.EmojiSection1 | src/telegram/colors.rs:497-505 | Keeps the registry sound and only appends to the theme text; forgets no recorded name; succeeds exactly when the palette has `color0`, `color7`; aborts only on a palette key the palette lacks, or on reading back `color0`/`color15` when the palette lacks it |
| TelegramColors.EmojiSection2 | src/telegram/colors.rs:507-509 | Keeps the registry sound and only appends to the theme text; forgets no recorded name; succeeds exactly when the palette has `color2`, `color7`; aborts only on a palette key the palette lacks, or on reading back `color0`/`color15` when the palette lacks it |
| TelegramColors.Derivation11 | src/telegram/colors.rs:475-509 | Keeps the registry sound and only appends to the theme text; forgets no recorded name; on success defines `dialogsRippleBgActive`; succeeds exactly when the palette has `color0`, `color2`, `color7`; aborts only on a palette key the palette lacks, or on reading back `color0`/`color15` when the palette lacks it |
| TelegramColors.StickerSection | src/telegram/colors.rs:511-517 | Keeps the registry sound and only appends to the theme text; forgets no recorded name; succeeds exactly when the palette has `color0`; aborts only on a palette key the palette lacks, or on reading back `color0`/`color15` when the palette lacks it |
| TelegramColors.HistorySection1 | src/telegram/colors.rs:519-527 | Keeps the registry sound and only appends to the theme text; forgets no recorded name; on success defines `historyTextInFg`, `historyTextOutFg`; succeeds exactly when the palette has `color7`; aborts only on a palette key the palette lacks, or on reading back `color0`/`color15` when the palette lacks it |
| TelegramColors.HistorySection2 | src/telegram/colors.rs:529-537 | Keeps the registry sound and only appends to the theme text; forgets no recorded name; succeeds exactly when the palette has `color7`, `color10`; aborts only on a palette key the palette lacks, or on reading back `color0`/`color15` when the palette lacks it |
| TelegramColors.HistorySection3 | src/telegram/colors.rs:539-547 | Keeps the registry sound and only appends to the theme text; forgets no recorded name; succeeds exactly when the palette has `color1`, `color7`; aborts only on a palette key the palette lacks, or on reading back `color0`/`color15` when the palette lacks it |
| TelegramColors.HistorySection4 | src/telegram/colors.rs:549-559 | Keeps the registry sound and only appends to the theme text; forgets no recorded name; succeeds exactly when the palette has `color1`, `color2`, `color7`; aborts only on a palette key the palette lacks, or on reading back `color0`/`color15` when the palette lacks it |
| TelegramColors.HistorySection5 | src/telegram/colors.rs:561-569 | Keeps the registry sound and only appends to the theme text; forgets no recorded name; succeeds exactly when the palette has `color0`, `color7`; aborts only on a palette key the palette lacks, or on reading back `color0`/`color15` when the palette lacks it |
| TelegramColors.Derivation12 | src/telegram/colors.rs:511-569 | Keeps the registry sound and only appends to the theme text; forgets no recorded name; on success defines `historyTextInFg`; succeeds exactly when the palette has `color0`, `color1`, `color2`, `color7`, `color10`; aborts only on a palette key the palette lacks, or on reading back `color0`/`color15` when the palette lacks it |
| TelegramColors.DerivationBlock2 | src/telegram/colors.rs:301-569 | Keeps the registry sound and only appends to the theme text; forgets no recorded name; on success defines `cancelIconFg`, `cancelIconFgOver`, `dialogsBgActive`, `dialogsNameFgActive`, `dialogsRippleBgActive`, `historyTextInFg`; succeeds exactly when the palette has `color0`, `color1`, `color2`, `color7`, `color10`; aborts only on a palette key the palette lacks, or on reading back `color0`/`color15` when the palette lacks it |
| TelegramColors.HistorySection6 | src/telegram/colors.rs:571-577 | Keeps the registry sound and only appends to the theme text; forgets no recorded name; succeeds exactly when the palette has `color0`, `color1`; aborts only on a palette key the palette lacks, or on reading back `color0`/`color15` when the palette lacks it |
| TelegramColors.HistorySection7 | src/telegram/colors.rs:579-589 | Keeps the registry sound and only appends to the theme text; forgets no recorded name; succeeds exactly when the palette has `color1`, `color2`, `color7`; aborts only on a palette key the palette lacks, or on reading back `color0`/`color15` when the palette lacks it |
| TelegramColors.HistorySection8 | src/telegram/colors.rs:591-601 | Keeps the registry sound and only appends to the theme text; forgets no recorded name; succeeds exactly when the palette has `color3`, `color4`, `color7`; aborts only on a palette key the palette lacks, or on reading back `color0`/`color15` when the palette lacks it |
| TelegramColors.HistorySection9 | src/telegram/colors.rs:603-613 | Keeps the registry sound and only appends to the theme text; forgets no recorded name; succeeds exactly when the palette has `color5`, `color6`, `color7`; aborts only on a palette key the palette lacks, or on reading back `color0`/`color15` when the palette lacks it |
| TelegramColors.HistorySection10 | src/telegram/colors.rs:615-625 | Keeps the registry sound and only appends to the theme text; forgets no recorded name; succeeds exactly when the palette has `color7`, `color8`; aborts only on a palette key the palette lacks, or on reading back `color0`/`color15` when the palette lacks it |
| TelegramColors.HistorySection11 | src/telegram/colors.rs:627-635 | Keeps the registry sound and only appends to the theme text; forgets no recorded name; succeeds exactly when the palette has `color7`; aborts only on a palette key the palette lacks, or on reading back `color0`/`color15` when the palette lacks it |
| TelegramColors.Derivation13 | src/telegram/colors.rs:571-635 | Keeps the registry sound and only appends to the theme text; forgets no recorded name; succeeds exactly when the palette has `color0`, `color1`, `color2`, `color3`, `color4`, `color5`, `color6`, `color7`, `color8`; aborts only on a palette key the palette lacks, or on reading back `color0`/`color15` when the palette lacks it |
| TelegramColors.MsgSection1 | src/telegram/colors.rs:637-647 | Keeps the registry sound and only appends to the theme text; forgets no recorded name; succeeds exactly when the palette has `color2`, `color7`, `color8`; aborts only on a palette key the palette lacks, or on reading back `color0`/`color15` when the palette lacks it |
| TelegramColors.MsgSection2 | src/telegram/colors.rs:649-657 | Keeps the registry sound and only appends to the theme text; forgets no recorded name; succeeds exactly when the palette has `color2`, `color7`, `color10`; aborts only on a palette key the palette lacks, or on reading back `color0`/`color15` when the palette lacks it |
| TelegramColors.MsgSection3 | src/telegram/colors.rs:659-669 | Keeps the registry sound and only appends to the theme text; forgets no recorded name; on success defines `msgInDateFg`, `msgInDateFgSelected`; succeeds exactly when the palette has `color0`, `color2`, `color7`; aborts only on a palette key the palette lacks, or on reading back `color0`/`color15` when the palette lacks it |
| TelegramColors.MsgSection4 | src/telegram/colors.rs:671-679 | Keeps the registry sound and only appends to the theme text; forgets no recorded name; on success defines `msgOutDateFg`, `msgOutDateFgSelected`, `msgServiceFg`; succeeds exactly when the palette has `color0`, `color7`, `color10`; aborts only on a palette key the palette lacks, or on reading back `color0`/`color15` when the palette lacks it |
| TelegramColors.MsgSection5 | src/telegram/colors.rs:681-689 | Keeps the registry sound and only appends to the theme text; forgets no recorded name; succeeds exactly when the palette has `color7`, `color10`; aborts only on a palette key the palette lacks, or on reading back `color0`/`color15` when the palette lacks it |
| TelegramColors.MsgSection6 | src/telegram/colors.rs:691-699 | Keeps the registry sound and only appends to the theme text; forgets no recorded name; succeeds exactly when the palette has `color7`; aborts only on a palette key the palette lacks, or on reading back `color0`/`color15` when the palette lacks it |
| TelegramColors.Derivation14 | src/telegram/colors.rs:637-699 | Keeps the registry sound and only appends to the theme text; forgets no recorded name; on success defines `msgInDateFg`, `msgInDateFgSelected`, `msgOutDateFg`, `msgOutDateFgSelected`, `msgServiceFg`; succeeds exactly when the palette has `color0`, `color2`, `color7`, `color8`, `color10`; aborts only on a palette key the palette lacks, or on reading back `color0`/`color15` when the palette lacks it |
| TelegramColors.MsgSection7 | src/telegram/colors.rs:701-707 | Keeps the registry sound and only appends to the theme text; forgets no recorded name; succeeds exactly when the palette has `color0`, `color2`; aborts only on a palette key the palette lacks, or on reading back `color0`/`color15` when the palette lacks it |
| TelegramColors.MsgSection8 | src/telegram/colors.rs:709-717 | Keeps the registry sound and only appends to the theme text; forgets no recorded name; succeeds exactly when the palette has `color2`, `color7`, `color10`; aborts only on a palette key the palette lacks, or on reading back `color0`/`color15` when the palette lacks it |
| TelegramColors.MsgSection9 | src/telegram/colors.rs:719-729 | Keeps the registry sound and only appends to the theme text; forgets no recorded name; succeeds exactly when the palette has `color1`, `color2`; aborts only on a palette key the palette lacks, or on reading back `color0`/`color15` when the palette lacks it |
| TelegramColors.MsgSection10 | src/telegram/colors.rs:731-741 | Keeps the registry sound and only appends to the theme text; forgets no recorded name; succeeds exactly when the palette has `color1`, `color2`, `color7`; aborts only on a palette key the palette lacks, or on reading back `color0`/`color15` when the palette lacks it |
| TelegramColors.MsgSection11 | src/telegram/colors.rs:743-754 | Keeps the registry sound and only appends to the theme text; forgets no recorded name; succeeds exactly when the palette has `color3`, `color7`; aborts only on a palette key the palette lacks, or on reading back `color0`/`color15` when the palette lacks it |
| TelegramColors.MsgSection12 | src/telegram/colors.rs:756-765 | Keeps the registry sound and only appends to the theme text; forgets no recorded name; succeeds exactly when the palette has `color3`, `color7`; aborts only on a palette key the palette lacks, or on reading back `color0`/`color15` when the palette lacks it |
| TelegramColors.Derivation15 | src/telegram/colors.rs:701-765 | Keeps the registry sound and only appends to the theme text; forgets no recorded name; succeeds exactly when the palette has `color0`, `color1`, `color2`, `color3`, `color7`, `color10`; aborts only on a palette key the palette lacks, or on reading back `color0`/`color15` when the palette lacks it |
| TelegramColors.MsgSection13 | src/telegram/colors.rs:767-777 | Keeps the registry sound and only appends to the theme text; forgets no recorded name; succeeds exactly when the palette has `color2`, `color7`; aborts only on a palette key the palette lacks, or on reading back `color0`/`color15` when the palette lacks it |
| TelegramColors.MsgSection14 | src/telegram/colors.rs:779-781 | Keeps the registry sound and only appends to the theme text; forgets no recorded name; succeeds exactly when the palette has `color1`; aborts only on a palette key the palette lacks, or on reading back `color0`/`color15` when the palette lacks it |
| TelegramColors.DownloadAnimationsSection1 | src/telegram/colors.rs:783-791 | Keeps the registry sound and only appends to the theme text; forgets no recorded name; succeeds exactly when the palette has `color0`, `color10`; aborts only on a palette key the palette lacks, or on reading back `color0`/`color15` when the palette lacks it |
| TelegramColors.DownloadAnimationsSection2 | src/telegram/colors.rs:793-801 | Keeps the registry sound and only appends to the theme text; forgets no recorded name; on success defines `historyFileThumbIconFg`; succeeds exactly when the palette has `color0`, `color7`, `color10`; aborts only on a palette key the palette lacks, or on reading back `color0`/`color15` when the palette lacks it |
| TelegramColors.DownloadAnimationsSection3 | src/telegram/colors.rs:803-809 | Keeps the registry sound and only appends to the theme text; forgets no recorded name; succeeds exactly when the palette has `color7`; aborts only on a palette key the palette lacks, or on reading back `color0`/`color15` when the palette lacks it |
| TelegramColors.YouTubeSection | src/telegram/colors.rs:811-815 | Keeps the registry sound and only appends to the theme text; forgets no recorded name; never aborts |
| TelegramColors.Derivation16 | src/telegram/colors.rs:767-815 | Keeps the registry sound and only appends to the theme text; forgets no recorded name; succeeds exactly when the palette has `color0`, `color1`, `color2`, `color7`, `color10`; aborts only on a palette key the palette lacks, or on reading back `color0`/`color15` when the palette lacks it |
| TelegramColors.VideoSection | src/telegram/colors.rs:817-821 | Keeps the registry sound and only appends to the theme text; forgets no recorded name; succeeds exactly when the palette has `color0`, `color7`; aborts only on a palette key the palette lacks, or on reading back `color0`/`color15` when the palette lacks it |
| TelegramColors.ToastSection | src/telegram/colors.rs:823-827 | Keeps the registry sound and only appends to the theme text; forgets no recorded name; on success defines `toastBg`, `toastFg`; succeeds exactly when the palette has `color0`; aborts only on a palette key the palette lacks, or on reading back `color0`/`color15` when the palette lacks it |
| TelegramColors.ReportSection | src/telegram/colors.rs:829-833 | Keeps the registry sound and only appends to the theme text; forgets no recorded name; succeeds exactly when the palette has `color0`; aborts only on a palette key the palette lacks, or on reading back `color0`/`color15` when the palette lacks it |
| TelegramColors.CompositionAreaSection1 | src/telegram/colors.rs:835-843 | Keeps the registry sound and only appends to the theme text; forgets no recorded name; succeeds exactly when the palette has `color0`, `color7`; aborts only on a palette key the palette lacks, or on reading back `color0`/`color15` when the palette lacks it |
| TelegramColors.CompositionAreaSection2 | src/telegram/colors.rs:845-851 | Keeps the registry sound and only appends to the theme text; forgets no recorded name; on success defines `historyComposeAreaBg`; succeeds exactly when the palette has `color0`; aborts only on a palette key the palette lacks, or on reading back `color0`/`color15` when the palette lacks it |
| TelegramColors.CompositionAreaSection3 | src/telegram/colors.rs:853-857 | Keeps the registry sound and only appends to the theme text; forgets no recorded name; never aborts |
| TelegramColors.Derivation17 | src/telegram/colors.rs:817-857 | Keeps the registry sound and only appends to the theme text; forgets no recorded name; on success defines `historyComposeAreaBg`, `toastBg`, `toastFg`; succeeds exactly when the palette has `color0`, `color7`; aborts only on a palette key the palette lacks, or on reading back `color0`/`color15` when the palette lacks it |
| TelegramColors.CompositionAreaSection4 | src/telegram/colors.rs:859-863 | Keeps the registry sound and only appends to the theme text; forgets no recorded name; never aborts |
| TelegramColors.CompositionAreaSection5 | src/telegram/colors.rs:865-869 | Keeps the registry sound and only appends to the theme text; forgets no recorded name; never aborts |
| TelegramColors.CompositionAreaSection6 | src/telegram/colors.rs:871-877 | Keeps the registry sound and only appends to the theme text; forgets no recorded name; succeeds exactly when the palette has `color0`; aborts only on a palette key the palette lacks, or on reading back `color0`/`color15` when the palette lacks it |
| TelegramColors.OverviewSection | src/telegram/colors.rs:879-887 | Keeps the registry sound and only appends to the theme text; forgets no recorded name; succeeds exactly when the palette has `color0`, `color1`, `color7`; aborts only on a palette key the palette lacks, or on reading back `color0`/`color15` when the palette lacks it |
| TelegramColors.ProfileSection1 | src/telegram/colors.rs:889-895 | Keeps the registry sound and only appends to the theme text; forgets no recorded name; succeeds exactly when the palette has `color1`; aborts only on a palette key the palette lacks, or on reading back `color0`/`color15` when the palette lacks it |
| TelegramColors.ProfileSection2 | src/telegram/colors.rs:897-897 | Keeps the registry sound and only appends to the theme text; forgets no recorded name; never aborts |
| TelegramColors.Derivation18 | src/telegram/colors.rs:859-897 | Keeps the registry sound and only appends to the theme text; forgets no recorded name; succeeds exactly when the palette has `color0`, `color1`, `color7`; aborts only on a palette key the palette lacks, or on reading back `color0`/`color15` when the palette lacks it |
| TelegramColors.DerivationBlock3 | src/telegram/colors.rs:571-897 | Keeps the registry sound and only appends to the theme text; forgets no recorded name; on success defines `msgInDateFg`, `msgInDateFgSelected`, `msgOutDateFg`, `msgOutDateFgSelected`, `toastBg`, `toastFg`; succeeds exactly when the palette has `color0`, `color1`, `color2`, `color3`, `color4`, `color5`, `color6`, `color7`, `color8`, `color10`; aborts only on a palette key the palette lacks, or on reading back `color0`/`color15` when the palette lacks it |
| TelegramColors.NotificationsSection1 | src/telegram/colors.rs:899-903 | Keeps the registry sound and only appends to the theme text; forgets no recorded name; never aborts |
| TelegramColors.NotificationsSection2 | src/telegram/colors.rs:905-911 | Keeps the registry sound and only appends to the theme text; forgets no recorded name; on success defines `notificationSampleNameFg`, `notificationSampleTextFg`; succeeds exactly when the palette has `color0`, `color7`; aborts only on a palette key the palette lacks, or on reading back `color0`/`color15` when the palette lacks it |
| TelegramColors.ChangeSection | src/telegram/colors.rs:913-917 | Keeps the registry sound and only appends to the theme text; forgets no recorded name; never aborts |
| TelegramColors.MainSection1 | src/telegram/colors.rs:919-925 | Keeps the registry sound and only appends to the theme text; forgets no recorded name; succeeds exactly when the palette has `color2`; aborts only on a palette key the palette lacks, or on reading back `color0`/`color15` when the palette lacks it |
| TelegramColors.MainSection2 | src/telegram/colors.rs:927-929 | Keeps the registry sound and only appends to the theme text; forgets no recorded name; succeeds exactly when the palette has `color4`, `color7`; aborts only on a palette key the palette lacks, or on reading back `color0`/`color15` when the palette lacks it |
| TelegramColors.MediaSection1 | src/telegram/colors.rs:931-935 | Keeps the registry sound and only appends to the theme text; forgets no recorded name; never aborts |
| TelegramColors.Derivation19 | src/telegram/colors.rs:899-935 | Keeps the registry sound and only appends to the theme text; forgets no recorded name; succeeds exactly when the palette has `color0`, `color2`, `color4`, `color7`; aborts only on a palette key the palette lacks, or on reading back `color0`/`color15` when the palette lacks it |
| TelegramColors.MediaSection2 | src/telegram/colors.rs:937-941 | Keeps the registry sound and only appends to the theme text; forgets no recorded name; never aborts |
| TelegramColors.MediaSection3 | src/telegram/colors.rs:943-947 | Keeps the registry sound and only appends to the theme text; forgets no recorded name; succeeds exactly when the palette has `color1`; aborts only on a palette key the palette lacks, or on reading back `color0`/`color15` when the palette lacks it |
| TelegramColors.MediaviewSection1 | src/telegram/colors.rs:949-953 | Keeps the registry sound and only appends to the theme text; forgets no recorded name; never aborts |
| TelegramColors.MediaviewSection2 | src/telegram/colors.rs:955-963 | Keeps the registry sound and only appends to the theme text; forgets no recorded name; succeeds exactly when the palette has `color1`, `color2`, `color3`, `color4`; aborts only on a palette key the palette lacks, or on reading back `color0`/`color15` when the palette lacks it |
| TelegramColors.MediaviewSection3 | src/telegram/colors.rs:965-971 | Keeps the registry sound and only appends to the theme text; forgets no recorded name; succeeds exactly when the palette has `color0`; aborts only on a palette key the palette lacks, or on reading back `color0`/`color15` when the palette lacks it |
| TelegramColors.MediaviewSection4 | src/telegram/colors.rs:973-979 | Keeps the registry sound and only appends to the theme text; forgets no recorded name; succeeds exactly when the palette has `color0`; aborts only on a palette key the palette lacks, or on reading back `color0`/`color15` when the palette lacks it |
| TelegramColors.Derivation20 | src/telegram/colors.rs:937-979 | Keeps the registry sound and only appends to the theme text; forgets no recorded name; succeeds exactly when the palette has `color0`, `color1`, `color2`, `color3`, `color4`; aborts only on a palette key the palette lacks, or on reading back `color0`/`color15` when the palette lacks it |
| TelegramColors.MediaviewSection5 | src/telegram/colors.rs:981-987 | Keeps the registry sound and only appends to the theme text; forgets no recorded name; succeeds exactly when the palette has `color0`, `color7`; aborts only on a palette key the palette lacks, or on reading back `color0`/`color15` when the palette lacks it |
| TelegramColors.MediaviewSection6 | src/telegram/colors.rs:989-995 | Keeps the registry sound and only appends to the theme text; forgets no recorded name; on success defines `mediaviewPlaybackActive`; succeeds exactly when the palette has `color7`; aborts only on a palette key the palette lacks, or on reading back `color0`/`color15` when the palette lacks it |
| TelegramColors.MediaviewSection7 | src/telegram/colors.rs:997-1003 | Keeps the registry sound and only appends to the theme text; forgets no recorded name; on success defines `mediaviewPlaybackActiveOver`; succeeds exactly when the palette has `color7`; aborts only on a palette key the palette lacks, or on reading back `color0`/`color15` when the palette lacks it |
| TelegramColors.MediaviewSection8 | src/telegram/colors.rs:1005-1011 | Keeps the registry sound and only appends to the theme text; forgets no recorded name; succeeds exactly when the palette has `color7`; aborts only on a palette key the palette lacks, or on reading back `color0`/`color15` when the palette lacks it |
| TelegramColors.Call2Section1 | src/telegram/colors.rs:1013-1023 | Keeps the registry sound and only appends to the theme text; forgets no recorded name; succeeds exactly when the palette has `color0`, `color7`; aborts only on a palette key the palette lacks, or on reading back `color0`/`color15` when the palette lacks it |
| TelegramColors.Call2Section2 | src/telegram/colors.rs:1025-1035 | Keeps the registry sound and only appends to the theme text; forgets no recorded name; succeeds exactly when the palette has `color1`, `color2`, `color7`; aborts only on a palette key the palette lacks, or on reading back `color0`/`color15` when the palette lacks it |
| TelegramColors.Derivation21 | src/telegram/colors.rs:981-1035 | Keeps the registry sound and only appends to the theme text; forgets no recorded name; succeeds exactly when the palette has `color0`, `color1`, `color2`, `color7`; aborts only on a palette key the palette lacks, or on reading back `color0`/`color15` when the palette lacks it |
| TelegramColors.Call2Section3 | src/telegram/colors.rs:1037-1045 | Keeps the registry sound and only appends to the theme text; forgets no recorded name; succeeds exactly when the palette has `color7`; aborts only on a palette key the palette lacks, or on reading back `color0`/`color15` when the palette lacks it |
| TelegramColors.Call2Section4 | src/telegram/colors.rs:1047-1053 | Keeps the registry sound and only appends to the theme text; forgets no recorded name; succeeds exactly when the palette has `color0`; aborts only on a palette key the palette lacks, or on reading back `color0`/`color15` when the palette lacks it |
| TelegramColors.ImportantSection | src/telegram/colors.rs:1055-1061 | Keeps the registry sound and only appends to the theme text; forgets no recorded name; succeeds exactly when the palette has `color2`; aborts only on a palette key the palette lacks, or on reading back `color0`/`color15` when the palette lacks it |
| TelegramColors.BotSection | src/telegram/colors.rs:1063-1067 | Keeps the registry sound and only appends to the theme text; forgets no recorded name; succeeds exactly when the palette has `color0`; aborts only on a palette key the palette lacks, or on reading back `color0`/`color15` when the palette lacks it |
| TelegramColors.Overview2Section | src/telegram/colors.rs:1069-1071 | Keeps the registry sound and only appends to the theme text; forgets no recorded name; succeeds exactly when the palette has `color2`; aborts only on a palette key the palette lacks, or on reading back `color0`/`color15` when the palette lacks it |
| TelegramColors.SidebarSection1 | src/telegram/colors.rs:1073-1078 | Keeps the registry sound and only appends to the theme text; forgets no recorded name; succeeds exactly when the palette has `color0`, `color1`, `color2`, `color7`; aborts only on a palette key the palette lacks, or on reading back `color0`/`color15` when the palette lacks it |
| TelegramColors.Derivation22 | src/telegram/colors.rs:1037-1078 | Keeps the registry sound and only appends to the theme text; forgets no recorded name; succeeds exactly when the palette has `color0`, `color1`, `color2`, `color7`; aborts only on a palette key the palette lacks, or on reading back `color0`/`color15` when the palette lacks it |
| TelegramColors.SidebarSection2 | src/telegram/colors.rs:1079-1083 | Keeps the registry sound and only appends to the theme text; forgets no recorded name; succeeds exactly when the palette has `color1`, `color7`; aborts only on a palette key the palette lacks, or on reading back `color0`/`color15` when the palette lacks it |
| TelegramColors.DunnoSection | src/telegram/colors.rs:1085-1087 | Keeps the registry sound and only appends to the theme text; forgets no recorded name; succeeds exactly when the palette has `color7`; aborts only on a palette key the palette lacks, or on reading back `color0`/`color15` when the palette lacks it |
| TelegramColors.Derivation23 | src/telegram/colors.rs:1079-1087 | Keeps the registry sound and only appends to the theme text; forgets no recorded name; succeeds exactly when the palette has `color1`, `color7`; aborts only on a palette key the palette lacks, or on reading back `color0`/`color15` when the palette lacks it |
| TelegramColors.DerivationBlock4 | src/telegram/colors.rs:899-1087 | Keeps the registry sound and only appends to the theme text; forgets no recorded name; succeeds exactly when the palette has `color0`, `color1`, `color2`, `color3`, `color4`, `color7`; aborts only on a palette key the palette lacks, or on reading back `color0`/`color15` when the palette lacks it |
| TelegramColors.Derivation | src/telegram/colors.rs:60-1087 | Keeps the registry sound and only appends to the theme text; forgets no recorded name; succeeds exactly when the palette has `color0`, `color1`, `color2`, `color3`, `color4`, `color5`, `color6`, `color7`, `color8`, `color10`, `color15`; aborts only on a palette key the palette lacks, or on reading back `color0`/`color15` when the palette lacks it |
| TelegramColorsStale.ColorsForTestingPurposesSection | src/telegram_colors.rs:44-46 | Keeps the registry sound and only appends to the theme text; never records `color0`; forgets no recorded name; never aborts, and appends exactly the comment `Colors for testing purposes` and the lines `colorPink: #ff7fc6ff;` and `colorGreen: #0bd500ff;` |
| TelegramColorsStale.BasicWindowOptionsSection1 | src/telegram_colors.rs:48-53 | Keeps the registry sound and only appends to the theme text; never records `color0`; forgets no recorded name; on success defines `windowBg`, `windowFg`; succeeds exactly when the palette has `color0`, `color1`, `color8`, `color15`; aborts only on a palette key the palette lacks |
| TelegramColorsStale.BasicWindowOptionsSection2 | src/telegram_colors.rs:54-59 | Keeps the registry sound and only appends to the theme text; never records `color0`; forgets no recorded name; on success defines `windowBgActive`, `windowBoldFgOver`, `windowSubTextFg`; succeeds exactly when the palette has `color2`, `color7`; aborts only on a palette key the palette lacks |
| TelegramColorsStale.BasicWindowOptionsSection3 | src/telegram_colors.rs:60-64 | Keeps the registry sound and only appends to the theme text; never records `color0`; forgets no recorded name; on success defines `windowActiveTextFg`, `windowFgActive`, `windowShadowFg`; succeeds exactly when the palette has `color0`, `color7`, `color10`; aborts only on a palette key the palette lacks |
| TelegramColorsStale.ShadowSection | src/telegram_colors.rs:66-67 | Keeps the registry sound and only appends to the theme text; never records `color0`; forgets no recorded name; on success defines `shadowFg`; succeeds exactly when the palette has `color1`; aborts only on a palette key the palette lacks |
| TelegramColorsStale.SlideSection | src/telegram_colors.rs:68-70 | Keeps the registry sound and only appends to the theme text; never records `color0`; forgets no recorded name; succeeds exactly when the palette has `color0`; aborts only on a palette key the palette lacks |
| TelegramColorsStale.ImageSection | src/telegram_colors.rs:72-74 | Keeps the registry sound and only appends to the theme text; never records `color0`; forgets no recorded name; on success defines `imageBg`; succeeds exactly when the palette has `color2`, `color7`; aborts only on a palette key the palette lacks |
| TelegramColorsStale.Derivation1 | src/telegram_colors.rs:48-74 | Keeps the registry sound and only appends to the theme text; never records `color0`; forgets no recorded name; on success defines `imageBg`, `shadowFg`, `windowActiveTextFg`, `windowBg`, `windowBgActive`, `windowBoldFgOver`, `windowFg`, `windowFgActive`, `windowSubTextFg`; succeeds exactly when the palette has `color0`, `color1`, `color2`, `color7`, `color8`, `color10`, `color15`; aborts only on a palette key the palette lacks |
| TelegramColorsStale.ActiveSection1 | src/telegram_colors.rs:76-81 | Keeps the registry sound and only appends to the theme text; never records `color0`; forgets no recorded name; on success defines `activeButtonFg`; succeeds exactly when the palette has `color2`, `color7`; aborts only on a palette key the palette lacks |
| TelegramColorsStale.ActiveSection2 | src/telegram_colors.rs:82-85 | Keeps the registry sound and only appends to the theme text; never records `color0`; forgets no recorded name; succeeds exactly when the palette has `color1`, `color2`, `color7`; aborts only on a palette key the palette lacks |
| TelegramColorsStale.LightSection1 | src/telegram_colors.rs:87-91 | Keeps the registry sound and only appends to the theme text; never records `color0`; forgets no recorded name; on success defines `lightButtonFg`; succeeds exactly when the palette has `color0`, `color2`; aborts only on a palette key the palette lacks |
| TelegramColorsStale.LightSection2 | src/telegram_colors.rs:92-92 | Keeps the registry sound and only appends to the theme text; never records `color0`; forgets no recorded name; on success defines `lightButtonFgOver`; never aborts |
| TelegramColorsStale.AttentionSection | src/telegram_colors.rs:94-98 | Keeps the registry sound and only appends to the theme text; never records `color0`; forgets no recorded name; succeeds exactly when the palette has `color0`, `color1`; aborts only on a palette key the palette lacks |
| TelegramColorsStale.OutlineSection | src/telegram_colors.rs:100-104 | Keeps the registry sound and only appends to the theme text; never records `color0`; forgets no recorded name; succeeds exactly when the palette has `color0`, `color2`; aborts only on a palette key the palette lacks |
| TelegramColorsStale.Derivation2 | src/telegram_colors.rs:76-104 | Keeps the registry sound and only appends to the theme text; never records `color0`; forgets no recorded name; on success defines `activeButtonFg`, `lightButtonFg`, `lightButtonFgOver`; succeeds exactly when the palette has `color0`, `color1`, `color2`, `color7`; aborts only on a palette key the palette lacks |
| TelegramColorsStale.MenuSection1 | src/telegram_colors.rs:106-111 | Keeps the registry sound and only appends to the theme text; never records `color0`; forgets no recorded name; on success defines `menuIconFg`, `menuIconFgOver`; succeeds exactly when the palette has `color0`, `color7`; aborts only on a palette key the palette lacks |
| TelegramColorsStale.MenuSection2 | src/telegram_colors.rs:112-114 | Keeps the registry sound and only appends to the theme text; never records `color0`; forgets no recorded name; succeeds exactly when the palette has `color7`; aborts only on a palette key the palette lacks |
| TelegramColorsStale.ScrollSection | src/telegram_colors.rs:116-120 | Keeps the registry sound and only appends to the theme text; never records `color0`; forgets no recorded name; succeeds exactly when the palette has `color7`; aborts only on a palette key the palette lacks |
| TelegramColorsStale.SmallSection | src/telegram_colors.rs:122-124 | Keeps the registry sound and only appends to the theme text; never records `color0`; forgets no recorded name; succeeds exactly when the palette has `color7`; aborts only on a palette key the palette lacks |
| TelegramColorsStale.RadialSection | src/telegram_colors.rs:126-128 | Keeps the registry sound and only appends to the theme text; never records `color0`; forgets no recorded name; succeeds exactly when the palette has `color0`; aborts only on a palette key the palette lacks |
| TelegramColorsStale.PlaceholderSection | src/telegram_colors.rs:130-132 | Keeps the registry sound and only appends to the theme text; never records `color0`; forgets no recorded name; succeeds exactly when the palette has `color7`; aborts only on a palette key the palette lacks |
| TelegramColorsStale.Derivation3 | src/telegram_colors.rs:106-132 | Keeps the registry sound and only appends to the theme text; never records `color0`; forgets no recorded name; on success defines `menuIconFg`, `menuIconFgOver`; succeeds exactly when the palette has `color0`, `color7`; aborts only on a palette key the palette lacks |
| TelegramColorsStale.InputSection | src/telegram_colors.rs:134-135 | Keeps the registry sound and only appends to the theme text; never records `color0`; forgets no recorded name; succeeds exactly when the palette has `color7`; aborts only on a palette key the palette lacks |
| TelegramColorsStale.FilterSection | src/telegram_colors.rs:137-140 | Keeps the registry sound and only appends to the theme text; never records `color0`; forgets no recorded name; succeeds exactly when the palette has `color0`, `color8`; aborts only on a palette key the palette lacks |
| TelegramColorsStale.CheckboxSection | src/telegram_colors.rs:142-143 | Keeps the registry sound and only appends to the theme text; never records `color0`; forgets no recorded name; succeeds exactly when the palette has `color7`; aborts only on a palette key the palette lacks |
| TelegramColorsStale.SliderSection | src/telegram_colors.rs:145-147 | Keeps the registry sound and only appends to the theme text; never records `color0`; forgets no recorded name; on success defines `sliderBgInactive`; succeeds exactly when the palette has `color7`; aborts only on a palette key the palette lacks |
| TelegramColorsStale.TooltipSection | src/telegram_colors.rs:149-152 | Keeps the registry sound and only appends to the theme text; never records `color0`; forgets no recorded name; succeeds exactly when the palette has `color0`, `color7`; aborts only on a palette key the palette lacks |
| TelegramColorsStale.TitleSection1 | src/telegram_colors.rs:154-157 | Keeps the registry sound and only appends to the theme text; never records `color0`; forgets no recorded name; on success defines `titleBg`; succeeds exactly when the palette has `color0`; aborts only on a palette key the palette lacks |
| TelegramColorsStale.Derivation4 | src/telegram_colors.rs:134-157 | Keeps the registry sound and only appends to the theme text; never records `color0`; forgets no recorded name; on success defines `sliderBgInactive`, `titleBg`; succeeds exactly when the palette has `color0`, `color7`, `color8`; aborts only on a palette key the palette lacks |
| TelegramColorsStale.TitleSection2 | src/telegram_colors.rs:158-161 | Keeps the registry sound and only appends to the theme text; never records `color0`; forgets no recorded name; on success defines `titleButtonBg`, `titleButtonBgOver`, `titleButtonFg`, `titleButtonFgOver`; succeeds exactly when the palette has `color0`, `color7`; aborts only on a palette key the palette lacks |
| TelegramColorsStale.TitleSection3 | src/telegram_colors.rs:162-164 | Keeps the registry sound and only appends to the theme text; never records `color0`; forgets no recorded name; never aborts |
| TelegramColorsStale.TitleSection4 | src/telegram_colors.rs:165-167 | Keeps the registry sound and only appends to the theme text; never records `color0`; forgets no recorded name; on success defines `titleButtonCloseBg`, `titleButtonCloseFg`; never aborts |
| TelegramColorsStale.TitleSection5 | src/telegram_colors.rs:168-170 | Keeps the registry sound and only appends to the theme text; never records `color0`; forgets no recorded name; on success defines `titleButtonCloseBgOver`, `titleButtonCloseFgOver`; succeeds exactly when the palette has `color0`; aborts only on a palette key the palette lacks |
| TelegramColorsStale.TitleSection6 | src/telegram_colors.rs:171-173 | Keeps the registry sound and only appends to the theme text; never records `color0`; forgets no recorded name; never aborts |
| TelegramColorsStale.TitleSection7 | src/telegram_colors.rs:174-175 | Keeps the registry sound and only appends to the theme text; never records `color0`; forgets no recorded name; succeeds exactly when the palette has `color7`; aborts only on a palette key the palette lacks |
| TelegramColorsStale.Derivation5 | src/telegram_colors.rs:158-175 | Keeps the registry sound and only appends to the theme text; never records `color0`; forgets no recorded name; succeeds exactly when the palette has `color0`, `color7`; aborts only on a palette key the palette lacks |
| TelegramColorsStale.TraySection | src/telegram_colors.rs:177-182 | Keeps the registry sound and only appends to the theme text; never records `color0`; forgets no recorded name; succeeds exactly when the palette has `color0`, `color2`, `color7`; aborts only on a palette key the palette lacks |
| TelegramColorsStale.LayerSection | src/telegram_colors.rs:184-185 | Keeps the registry sound and only appends to the theme text; never records `color0`; forgets no recorded name; on success defines `layerBg`; succeeds exactly when the palette has `color0`; aborts only on a palette key the palette lacks |
| TelegramColorsStale.CancelSection | src/telegram_colors.rs:187-189 | Keeps the registry sound and only appends to the theme text; never records `color0`; forgets no recorded name; on success defines `cancelIconFg`, `cancelIconFgOver`; succeeds exactly when the palette has `color7`; aborts only on a palette key the palette lacks |
| TelegramColorsStale.BoxSection1 | src/telegram_colors.rs:191-194 | Keeps the registry sound and only appends to the theme text; never records `color0`; forgets no recorded name; on success defines `boxTextFg`; succeeds exactly when the palette has `color2`; aborts only on a palette key the palette lacks |
| TelegramColorsStale.BoxSection2 | src/telegram_colors.rs:195-199 | Keeps the registry sound and only appends to the theme text; never records `color0`; forgets no recorded name; succeeds exactly when the palette has `color0`, `color1`, `color7`; aborts only on a palette key the palette lacks |
| TelegramColorsStale.BoxSection3 | src/telegram_colors.rs:200-200 | Keeps the registry sound and only appends to the theme text; never records `color0`; forgets no recorded name; never aborts |
| TelegramColorsStale.Derivation6 | src/telegram_colors.rs:177-200 | Keeps the registry sound and only appends to the theme text; never records `color0`; forgets no recorded name; on success defines `boxTextFg`, `cancelIconFg`, `cancelIconFgOver`, `layerBg`; succeeds exactly when the palette has `color0`, `color1`, `color2`, `color7`; aborts only on a palette key the palette lacks |
| TelegramColorsStale.DerivationBlock1 | src/telegram_colors.rs:48-200 | Keeps the registry sound and only appends to the theme text; never records `color0`; forgets no recorded name; on success defines `activeButtonFg`, `boxTextFg`, `cancelIconFg`, `cancelIconFgOver`, `imageBg`, `layerBg`, `lightButtonFg`, `lightButtonFgOver`, `menuIconFg`, `menuIconFgOver`, `shadowFg`, `sliderBgInactive`, `windowActiveTextFg`, `windowBg`, `windowBgActive`, `windowBoldFgOver`, `windowFg`, `windowFgActive`, `windowSubTextFg`; succeeds exactly when the palette has `color0`, `color1`, `color2`, `color7`, `color8`, `color10`, `color15`; aborts only on a palette key the palette lacks |
| TelegramColorsStale.MembersSection | src/telegram_colors.rs:202-203 | Keeps the registry sound and only appends to the theme text; never records `color0`; forgets no recorded name; succeeds exactly when the palette has `color1`; aborts only on a palette key the palette lacks |
| TelegramColorsStale.ContactsSection1 | src/telegram_colors.rs:205-209 | Keeps the registry sound and only appends to the theme text; never records `color0`; forgets no recorded name; succeeds exactly when the palette has `color0`, `color7`; aborts only on a palette key the palette lacks |
| TelegramColorsStale.ContactsSection2 | src/telegram_colors.rs:210-211 | Keeps the registry sound and only appends to the theme text; never records `color0`; forgets no recorded name; succeeds exactly when the palette has `color7`, `color10`; aborts only on a palette key the palette lacks |
| TelegramColorsStale.PhotoSection | src/telegram_colors.rs:213-215 | Keeps the registry sound and only appends to the theme text; never records `color0`; forgets no recorded name; succeeds exactly when the palette has `color7`; aborts only on a palette key the palette lacks |
| TelegramColorsStale.CallSection | src/telegram_colors.rs:217-219 | Keeps the registry sound and only appends to the theme text; never records `color0`; forgets no recorded name; on success defines `callArrowMissedFg`; succeeds exactly when the palette has `color1`, `color2`; aborts only on a palette key the palette lacks |
| TelegramColorsStale.IntroSection1 | src/telegram_colors.rs:221-225 | Keeps the registry sound and only appends to the theme text; never records `color0`; forgets no recorded name; succeeds exactly when the palette has `color1`, `color7`; aborts only on a palette key the palette lacks |
| TelegramColorsStale.Derivation7 | src/telegram_colors.rs:202-225 | Keeps the registry sound and only appends to the theme text; never records `color0`; forgets no recorded name; on success defines `callArrowMissedFg`; succeeds exactly when the palette has `color0`, `color1`, `color2`, `color7`, `color10`; aborts only on a palette key the palette lacks |
| TelegramColorsStale.IntroSection2 | src/telegram_colors.rs:226-231 | Keeps the registry sound and only appends to the theme text; never records `color0`; forgets no recorded name; succeeds exactly when the palette has `color1`, `color2`; aborts only on a palette key the palette lacks |
| TelegramColorsStale.IntroSection3 | src/telegram_colors.rs:232-232 | Keeps the registry sound and only appends to the theme text; never records `color0`; forgets no recorded name; succeeds exactly when the palette has `color7`; aborts only on a palette key the palette lacks |
| TelegramColorsStale.DialogsDefaultSection1 | src/telegram_colors.rs:234-236 | Keeps the registry sound and only appends to the theme text; never records `color0`; forgets no recorded name; never aborts |
| TelegramColorsStale.DialogsDefaultSection2 | src/telegram_colors.rs:237-240 | Keeps the registry sound and only appends to the theme text; never records `color0`; forgets no recorded name; succeeds exactly when the palette has `color7`; aborts only on a palette key the palette lacks |
| TelegramColorsStale.DialogsDefaultSection3 | src/telegram_colors.rs:241-246 | Keeps the registry sound and only appends to the theme text; never records `color0`; forgets no recorded name; on success defines `dialogsDraftFg`, `dialogsSendingIconFg`; succeeds exactly when the palette has `color0`, `color1`, `color7`, `color10`; aborts only on a palette key the palette lacks |
| TelegramColorsStale.DialogsDefaultSection4 | src/telegram_colors.rs:247-250 | Keeps the registry sound and only appends to the theme text; never records `color0`; forgets no recorded name; on success defines `dialogsUnreadFg`; succeeds exactly when the palette has `color1`, `color7`, `color10`; aborts only on a palette key the palette lacks |
| TelegramColorsStale.Derivation8 | src/telegram_colors.rs:226-250 | Keeps the registry sound and only appends to the theme text; never records `color0`; forgets no recorded name; on success defines `dialogsDraftFg`, `dialogsSendingIconFg`, `dialogsUnreadFg`; succeeds exactly when the palette has `color0`, `color1`, `color2`, `color7`, `color10`; aborts only on a palette key the palette lacks |
| TelegramColorsStale.DialogsOverSection1 | src/telegram_colors.rs:252-255 | Keeps the registry sound and only appends to the theme text; never records `color0`; forgets no recorded name; succeeds exactly when the palette has `color2`; aborts only on a palette key the palette lacks |
| TelegramColorsStale.DialogsOverSection2 | src/telegram_colors.rs:256-260 | Keeps the registry sound and only appends to the theme text; never records `color0`; forgets no recorded name; succeeds exactly when the palette has `color2`, `color7`; aborts only on a palette key the palette lacks |
| TelegramColorsStale.DialogsOverSection3 | src/telegram_colors.rs:261-265 | Keeps the registry sound and only appends to the theme text; never records `color0`; forgets no recorded name; succeeds exactly when the palette has `color0`, `color1`, `color7`, `color10`; aborts only on a palette key the palette lacks |
| TelegramColorsStale.DialogsOverSection4 | src/telegram_colors.rs:266-266 | Keeps the registry sound and only appends to the theme text; never records `color0`; forgets no recorded name; never aborts |
| TelegramColorsStale.DialogsActiveSection1 | src/telegram_colors.rs:268-271 | Keeps the registry sound and only appends to the theme text; never records `color0`; forgets no recorded name; on success defines `dialogsBgActive`, `dialogsNameFgActive`; succeeds exactly when the palette has `color2`; aborts only on a palette key the palette lacks |
| TelegramColorsStale.DialogsActiveSection2 | src/telegram_colors.rs:272-276 | Keeps the registry sound and only appends to the theme text; never records `color0`; forgets no recorded name; on success defines `dialogsTextFgActive`; succeeds exactly when the palette has `color7`; aborts only on a palette key the palette lacks |
| TelegramColorsStale.Derivation9 | src/telegram_colors.rs:252-276 | Keeps the registry sound and only appends to the theme text; never records `color0`; forgets no recorded name; on success defines `dialogsBgActive`, `dialogsNameFgActive`, `dialogsTextFgActive`; succeeds exactly when the palette has `color0`, `color1`, `color2`, `color7`, `color10`; aborts only on a palette key the palette lacks |
| TelegramColorsStale.DialogsActiveSection3 | src/telegram_colors.rs:277-279 | Keeps the registry sound and only appends to the theme text; never records `color0`; forgets no recorded name; succeeds exactly when the palette has `color7`; aborts only on a palette key the palette lacks |
| TelegramColorsStale.DialogsActiveSection4 | src/telegram_colors.rs:280-282 | Keeps the registry sound and only appends to the theme text; never records `color0`; forgets no recorded name; succeeds exactly when the palette has `color7`; aborts only on a palette key the palette lacks |
| TelegramColorsStale.DialogsRippleSection | src/telegram_colors.rs:284-286 | Keeps the registry sound and only appends to the theme text; never records `color0`; forgets no recorded name; on success defines `dialogsRippleBgActive`; succeeds exactly when the palette has `color0`, `color2`; aborts only on a palette key the palette lacks |
| TelegramColorsStale.DialogsForwardSection | src/telegram_colors.rs:288-290 | Keeps the registry sound and only appends to the theme text; never records `color0`; forgets no recorded name; never aborts |
| TelegramColorsStale.SearchedSection | src/telegram_colors.rs:292-294 | Keeps the registry sound and only appends to the theme text; never records `color0`; forgets no recorded name; succeeds exactly when the palette has `color0`, `color7`; aborts only on a palette key the palette lacks |
| TelegramColorsStale.TopSection | src/telegram_colors.rs:296-297 | Keeps the registry sound and only appends to the theme text; never records `color0`; forgets no recorded name; succeeds exactly when the palette has `color0`; aborts only on a palette key the palette lacks |
| TelegramColorsStale.Derivation10 | src/telegram_colors.rs:277-297 | Keeps the registry sound and only appends to the theme text; never records `color0`; forgets no recorded name; on success defines `dialogsRippleBgActive`; succeeds exactly when the palette has `color0`, `color2`, `color7`; aborts only on a palette key the palette lacks |
| TelegramColorsStale.EmojiSection1 | src/telegram_colors.rs:299-303 | Keeps the registry sound and only appends to the theme text; never records `color0`; forgets no recorded name; succeeds exactly when the palette has `color0`, `color7`; aborts only on a palette key the palette lacks |
| TelegramColorsStale.EmojiSection2 | src/telegram_colors.rs:304-305 | Keeps the registry sound and only appends to the theme text; never records `color0`; forgets no recorded name; succeeds exactly when the palette has `color2`, `color7`; aborts only on a palette key the palette lacks |
| TelegramColorsStale.StickerSection | src/telegram_colors.rs:307-310 | Keeps the registry sound and only appends to the theme text; never records `color0`; forgets no recorded name; succeeds exactly when the palette has `color0`; aborts only on a palette key the palette lacks |
| TelegramColorsStale.HistorySection1 | src/telegram_colors.rs:312-316 | Keeps the registry sound and only appends to the theme text; never records `color0`; forgets no recorded name; on success defines `historyTextInFg`, `historyTextOutFg`; succeeds exactly when the palette has `color7`; aborts only on a palette key the palette lacks |
| TelegramColorsStale.HistorySection2 | src/telegram_colors.rs:317-321 | Keeps the registry sound and only appends to the theme text; never records `color0`; forgets no recorded name; succeeds exactly when the palette has `color7`, `color10`; aborts only on a palette key the palette lacks |
| TelegramColorsStale.HistorySection3 | src/telegram_colors.rs:322-326 | Keeps the registry sound and only appends to the theme text; never records `color0`; forgets no recorded name; succeeds exactly when the palette has `color1`, `color7`; aborts only on a palette key the palette lacks |
| TelegramColorsStale.Derivation11 | src/telegram_colors.rs:299-326 | Keeps the registry sound and only appends to the theme text; never records `color0`; forgets no recorded name; on success defines `historyTextInFg`; succeeds exactly when the palette has `color0`, `color1`, `color2`, `color7`, `color10`; aborts only on a palette key the palette lacks |
| TelegramColorsStale.HistorySection4 | src/telegram_colors.rs:327-332 | Keeps the registry sound and only appends to the theme text; never records `color0`; forgets no recorded name; succeeds exactly when the palette has `color1`, `color2`, `color7`; aborts only on a palette key the palette lacks |
| TelegramColorsStale.HistorySection5 | src/telegram_colors.rs:333-337 | Keeps the registry sound and only appends to the theme text; never records `color0`; forgets no recorded name; succeeds exactly when the palette has `color0`, `color7`; aborts only on a palette key the palette lacks |
| TelegramColorsStale.HistorySection6 | src/telegram_colors.rs:338-341 | Keeps the registry sound and only appends to the theme text; never records `color0`; forgets no recorded name; succeeds exactly when the palette has `color0`, `color1`; aborts only on a palette key the palette lacks |
| TelegramColorsStale.HistorySection7 | src/telegram_colors.rs:342-347 | Keeps the registry sound and only appends to the theme text; never records `color0`; forgets no recorded name; succeeds exactly when the palette has `color1`, `color2`, `color7`; aborts only on a palette key the palette lacks |
| TelegramColorsStale.HistorySection8 | src/telegram_colors.rs:348-353 | Keeps the registry sound and only appends to the theme text; never records `color0`; forgets no recorded name; succeeds exactly when the palette has `color3`, `color4`, `color7`; aborts only on a palette key the palette lacks |
| TelegramColorsStale.HistorySection9 | src/telegram_colors.rs:354-359 | Keeps the registry sound and only appends to the theme text; never records `color0`; forgets no recorded name; succeeds exactly when the palette has `color5`, `color6`, `color7`; aborts only on a palette key the palette lacks |
| TelegramColorsStale.Derivation12 | src/telegram_colors.rs:327-359 | Keeps the registry sound and only appends to the theme text; never records `color0`; forgets no recorded name; succeeds exactly when the palette has `color0`, `color1`, `color2`, `color3`, `color4`, `color5`, `color6`, `color7`; aborts only on a palette key the palette lacks |
| TelegramColorsStale.DerivationBlock2 | src/telegram_colors.rs:202-359 | Keeps the registry sound and only appends to the theme text; never records `color0`; forgets no recorded name; on success defines `dialogsBgActive`, `dialogsNameFgActive`, `dialogsRippleBgActive`, `historyTextInFg`; succeeds exactly when the palette has `color0`, `color1`, `color2`, `color3`, `color4`, `color5`, `color6`, `color7`, `color10`; aborts only on a palette key the palette lacks |
| TelegramColorsStale.HistorySection10 | src/telegram_colors.rs:360-365 | Keeps the registry sound and only appends to the theme text; never records `color0`; forgets no recorded name; succeeds exactly when the palette has `color7`, `color8`; aborts only on a palette key the palette lacks |
| TelegramColorsStale.HistorySection11 | src/telegram_colors.rs:366-370 | Keeps the registry sound and only appends to the theme text; never records `color0`; forgets no recorded name; succeeds exactly when the palette has `color7`; aborts only on a palette key the palette lacks |
| TelegramColorsStale.MsgSection1 | src/telegram_colors.rs:372-377 | Keeps the registry sound and only appends to the theme text; never records `color0`; forgets no recorded name; succeeds exactly when the palette has `color2`, `color7`, `color8`; aborts only on a palette key the palette lacks |
| TelegramColorsStale.MsgSection2 | src/telegram_colors.rs:378-382 | Keeps the registry sound and only appends to the theme text; never records `color0`; forgets no recorded name; succeeds exactly when the palette has `color2`, `color7`, `color10`; aborts only on a palette key the palette lacks |
| TelegramColorsStale.MsgSection3 | src/telegram_colors.rs:383-388 | Keeps the registry sound and only appends to the theme text; never records `color0`; forgets no recorded name; on success defines `msgInDateFg`, `msgInDateFgSelected`; succeeds exactly when the palette has `color0`, `color2`, `color7`; aborts only on a palette key the palette lacks |
| TelegramColorsStale.MsgSection4 | src/telegram_colors.rs:389-393 | Keeps the registry sound and only appends to the theme text; never records `color0`; forgets no recorded name; on success defines `msgOutDateFg`, `msgOutDateFgSelected`, `msgServiceFg`; succeeds exactly when the palette has `color0`, `color7`, `color10`; aborts only on a palette key the palette lacks |
| TelegramColorsStale.Derivation13 | src/telegram_colors.rs:360-393 | Keeps the registry sound and only appends to the theme text; never records `color0`; forgets no recorded name; on success defines `msgInDateFg`, `msgInDateFgSelected`, `msgOutDateFg`, `msgOutDateFgSelected`, `msgServiceFg`; succeeds exactly when the palette has `color0`, `color2`, `color7`, `color8`, `color10`; aborts only on a palette key the palette lacks |
| TelegramColorsStale.MsgSection5 | src/telegram_colors.rs:394-398 | Keeps the registry sound and only appends to the theme text; never records `color0`; forgets no recorded name; succeeds exactly when the palette has `color7`, `color10`; aborts only on a palette key the palette lacks |
| TelegramColorsStale.MsgSection6 | src/telegram_colors.rs:399-403 | Keeps the registry sound and only appends to the theme text; never records `color0`; forgets no recorded name; succeeds exactly when the palette has `color7`; aborts only on a palette key the palette lacks |
| TelegramColorsStale.MsgSection7 | src/telegram_colors.rs:404-407 | Keeps the registry sound and only appends to the theme text; never records `color0`; forgets no recorded name; succeeds exactly when the palette has `color0`, `color2`; aborts only on a palette key the palette lacks |
| TelegramColorsStale.MsgSection8 | src/telegram_colors.rs:408-412 | Keeps the registry sound and only appends to the theme text; never records `color0`; forgets no recorded name; succeeds exactly when the palette has `color2`, `color7`, `color10`; aborts only on a palette key the palette lacks |
| TelegramColorsStale.MsgSection9 | src/telegram_colors.rs:413-418 | Keeps the registry sound and only appends to the theme text; never records `color0`; forgets no recorded name; succeeds exactly when the palette has `color1`, `color2`; aborts only on a palette key the palette lacks |
| TelegramColorsStale.MsgSection10 | src/telegram_colors.rs:419-424 | Keeps the registry sound and only appends to the theme text; never records `color0`; forgets no recorded name; succeeds exactly when the palette has `color1`, `color2`, `color7`; aborts only on a palette key the palette lacks |
| TelegramColorsStale.Derivation14 | src/telegram_colors.rs:394-424 | Keeps the registry sound and only appends to the theme text; never records `color0`; forgets no recorded name; succeeds exactly when the palette has `color0`, `color1`, `color2`, `color7`, `color10`; aborts only on a palette key the palette lacks |
| TelegramColorsStale.MsgSection11 | src/telegram_colors.rs:425-431 | Keeps the registry sound and only appends to the theme text; never records `color0`; forgets no recorded name; succeeds exactly when the palette has `color3`, `color7`; aborts only on a palette key the palette lacks |
| TelegramColorsStale.MsgSection12 | src/telegram_colors.rs:432-437 | Keeps the registry sound and only appends to the theme text; never records `color0`; forgets no recorded name; succeeds exactly when the palette has `color3`, `color7`; aborts only on a palette key the palette lacks |
| TelegramColorsStale.MsgSection13 | src/telegram_colors.rs:438-443 | Keeps the registry sound and only appends to the theme text; never records `color0`; forgets no recorded name; succeeds exactly when the palette has `color2`, `color7`; aborts only on a palette key the palette lacks |
| TelegramColorsStale.MsgSection14 | src/telegram_colors.rs:444-445 | Keeps the registry sound and only appends to the theme text; never records `color0`; forgets no recorded name; succeeds exactly when the palette has `color1`; aborts only on a palette key the palette lacks |
| TelegramColorsStale.DownloadAnimationsSection1 | src/telegram_colors.rs:447-451 | Keeps the registry sound and only appends to the theme text; never records `color0`; forgets no recorded name; succeeds exactly when the palette has `color0`, `color10`; aborts only on a palette key the palette lacks |
| TelegramColorsStale.DownloadAnimationsSection2 | src/telegram_colors.rs:452-456 | Keeps the registry sound and only appends to the theme text; never records `color0`; forgets no recorded name; on success defines `historyFileThumbIconFg`; succeeds exactly when the palette has `color0`, `color7`, `color10`; aborts only on a palette key the palette lacks |
| TelegramColorsStale.Derivation15 | src/telegram_colors.rs:425-456 | Keeps the registry sound and only appends to the theme text; never records `color0`; forgets no recorded name; on success defines `historyFileThumbIconFg`; succeeds exactly when the palette has `color0`, `color1`, `color2`, `color3`, `color7`, `color10`; aborts only on a palette key the palette lacks |
| TelegramColorsStale.DownloadAnimationsSection3 | src/telegram_colors.rs:457-460 | Keeps the registry sound and only appends to the theme text; never records `color0`; forgets no recorded name; succeeds exactly when the palette has `color7`; aborts only on a palette key the palette lacks |
| TelegramColorsStale.YouTubeSection | src/telegram_colors.rs:462-464 | Keeps the registry sound and only appends to the theme text; never records `color0`; forgets no recorded name; never aborts |
| TelegramColorsStale.VideoSection | src/telegram_colors.rs:466-468 | Keeps the registry sound and only appends to the theme text; never records `color0`; forgets no recorded name; succeeds exactly when the palette has `color0`, `color7`; aborts only on a palette key the palette lacks |
| TelegramColorsStale.ToastSection | src/telegram_colors.rs:470-472 | Keeps the registry sound and only appends to the theme text; never records `color0`; forgets no recorded name; on success defines `toastBg`, `toastFg`; succeeds exactly when the palette has `color0`; aborts only on a palette key the palette lacks |
| TelegramColorsStale.ReportSection | src/telegram_colors.rs:474-476 | Keeps the registry sound and only appends to the theme text; never records `color0`; forgets no recorded name; succeeds exactly when the palette has `color0`; aborts only on a palette key the palette lacks |
| TelegramColorsStale.CompositionAreaSection1 | src/telegram_colors.rs:478-482 | Keeps the registry sound and only appends to the theme text; never records `color0`; forgets no recorded name; succeeds exactly when the palette has `color0`, `color7`; aborts only on a palette key the palette lacks |
| TelegramColorsStale.Derivation16 | src/telegram_colors.rs:457-482 | Keeps the registry sound and only appends to the theme text; never records `color0`; forgets no recorded name; on success defines `toastBg`, `toastFg`; succeeds exactly when the palette has `color0`, `color7`; aborts only on a palette key the palette lacks |
| TelegramColorsStale.CompositionAreaSection2 | src/telegram_colors.rs:483-486 | Keeps the registry sound and only appends to the theme text; never records `color0`; forgets no recorded name; on success defines `historyComposeAreaBg`; succeeds exactly when the palette has `color0`; aborts only on a palette key the palette lacks |
| TelegramColorsStale.CompositionAreaSection3 | src/telegram_colors.rs:487-489 | Keeps the registry sound and only appends to the theme text; never records `color0`; forgets no recorded name; never aborts |
| TelegramColorsStale.CompositionAreaSection4 | src/telegram_colors.rs:490-492 | Keeps the registry sound and only appends to the theme text; never records `color0`; forgets no recorded name; never aborts |
| TelegramColorsStale.CompositionAreaSection5 | src/telegram_colors.rs:493-495 | Keeps the registry sound and only appends to the theme text; never records `color0`; forgets no recorded name; never aborts |
| TelegramColorsStale.CompositionAreaSection6 | src/telegram_colors.rs:496-499 | Keeps the registry sound and only appends to the theme text; never records `color0`; forgets no recorded name; succeeds exactly when the palette has `color0`; aborts only on a palette key the palette lacks |
| TelegramColorsStale.OverviewSection | src/telegram_colors.rs:501-505 | Keeps the registry sound and only appends to the theme text; never records `color0`; forgets no recorded name; succeeds exactly when the palette has `color0`, `color1`, `color7`; aborts only on a palette key the palette lacks |
| TelegramColorsStale.Derivation17 | src/telegram_colors.rs:483-505 | Keeps the registry sound and only appends to the theme text; never records `color0`; forgets no recorded name; succeeds exactly when the palette has `color0`, `color1`, `color7`; aborts only on a palette key the palette lacks |
| TelegramColorsStale.ProfileSection1 | src/telegram_colors.rs:507-510 | Keeps the registry sound and only appends to the theme text; never records `color0`; forgets no recorded name; succeeds exactly when the palette has `color1`; aborts only on a palette key the palette lacks |
| TelegramColorsStale.ProfileSection2 | src/telegram_colors.rs:511-511 | Keeps the registry sound and only appends to the theme text; never records `color0`; forgets no recorded name; never aborts |
| TelegramColorsStale.NotificationsSection1 | src/telegram_colors.rs:513-515 | Keeps the registry sound and only appends to the theme text; never records `color0`; forgets no recorded name; never aborts |
| TelegramColorsStale.NotificationsSection2 | src/telegram_colors.rs:516-519 | Keeps the registry sound and only appends to the theme text; never records `color0`; forgets no recorded name; on success defines `notificationSampleNameFg`, `notificationSampleTextFg`; succeeds exactly when the palette has `color0`, `color7`; aborts only on a palette key the palette lacks |
| TelegramColorsStale.ChangeSection | src/telegram_colors.rs:521-523 | Keeps the registry sound and only appends to the theme text; never records `color0`; forgets no recorded name; never aborts |
| TelegramColorsStale.MainSection1 | src/telegram_colors.rs:525-528 | Keeps the registry sound and only appends to the theme text; never records `color0`; forgets no recorded name; succeeds exactly when the palette has `color2`; aborts only on a palette key the palette lacks |
| TelegramColorsStale.Derivation18 | src/telegram_colors.rs:507-528 | Keeps the registry sound and only appends to the theme text; never records `color0`; forgets no recorded name; succeeds exactly when the palette has `color0`, `color1`, `color2`, `color7`; aborts only on a palette key the palette lacks |
| TelegramColorsStale.DerivationBlock3 | src/telegram_colors.rs:360-528 | Keeps the registry sound and only appends to the theme text; never records `color0`; forgets no recorded name; on success defines `msgInDateFg`, `msgInDateFgSelected`, `msgOutDateFg`, `msgOutDateFgSelected`, `toastBg`, `toastFg`; succeeds exactly when the palette has `color0`, `color1`, `color2`, `color3`, `color7`, `color8`, `color10`; aborts only on a palette key the palette lacks |
| TelegramColorsStale.MainSection2 | src/telegram_colors.rs:529-530 | Keeps the registry sound and only appends to the theme text; never records `color0`; forgets no recorded name; succeeds exactly when the palette has `color4`, `color7`; aborts only on a palette key the palette lacks |
| TelegramColorsStale.MediaSection1 | src/telegram_colors.rs:532-534 | Keeps the registry sound and only appends to the theme text; never records `color0`; forgets no recorded name; never aborts |
| TelegramColorsStale.MediaSection2 | src/telegram_colors.rs:535-537 | Keeps the registry sound and only appends to the theme text; never records `color0`; forgets no recorded name; never aborts |
| TelegramColorsStale.MediaSection3 | src/telegram_colors.rs:538-540 | Keeps the registry sound and only appends to the theme text; never records `color0`; forgets no recorded name; succeeds exactly when the palette has `color1`; aborts only on a palette key the palette lacks |
| TelegramColorsStale.MediaviewSection1 | src/telegram_colors.rs:542-544 | Keeps the registry sound and only appends to the theme text; never records `color0`; forgets no recorded name; never aborts |
| TelegramColorsStale.MediaviewSection2 | src/telegram_colors.rs:545-549 | Keeps the registry sound and only appends to the theme text; never records `color0`; forgets no recorded name; succeeds exactly when the palette has `color1`, `color2`, `color3`, `color4`; aborts only on a palette key the palette lacks |
| TelegramColorsStale.Derivation19 | src/telegram_colors.rs:529-549 | Keeps the registry sound and only appends to the theme text; never records `color0`; forgets no recorded name; succeeds exactly when the palette has `color1`, `color2`, `color3`, `color4`, `color7`; aborts only on a palette key the palette lacks |
| TelegramColorsStale.MediaviewSection3 | src/telegram_colors.rs:550-553 | Keeps the registry sound and only appends to the theme text; never records `color0`; forgets no recorded name; succeeds exactly when the palette has `color0`; aborts only on a palette key the palette lacks |
| TelegramColorsStale.MediaviewSection4 | src/telegram_colors.rs:554-557 | Keeps the registry sound and only appends to the theme text; never records `color0`; forgets no recorded name; succeeds exactly when the palette has `color0`; aborts only on a palette key the palette lacks |
| TelegramColorsStale.MediaviewSection5 | src/telegram_colors.rs:558-561 | Keeps the registry sound and only appends to the theme text; never records `color0`; forgets no recorded name; succeeds exactly when the palette has `color0`, `color7`; aborts only on a palette key the palette lacks |
| TelegramColorsStale.MediaviewSection6 | src/telegram_colors.rs:562-565 | Keeps the registry sound and only appends to the theme text; never records `color0`; forgets no recorded name; on success defines `mediaviewPlaybackActive`; succeeds exactly when the palette has `color7`; aborts only on a palette key the palette lacks |
| TelegramColorsStale.MediaviewSection7 | src/telegram_colors.rs:566-569 | Keeps the registry sound and only appends to the theme text; never records `color0`; forgets no recorded name; on success defines `mediaviewPlaybackActiveOver`; succeeds exactly when the palette has `color7`; aborts only on a palette key the palette lacks |
| TelegramColorsStale.MediaviewSection8 | src/telegram_colors.rs:570-573 | Keeps the registry sound and only appends to the theme text; never records `color0`; forgets no recorded name; succeeds exactly when the palette has `color7`; aborts only on a palette key the palette lacks |
| TelegramColorsStale.Derivation20 | src/telegram_colors.rs:550-573 | Keeps the registry sound and only appends to the theme text; never records `color0`; forgets no recorded name; succeeds exactly when the palette has `color0`, `color7`; aborts only on a palette key the palette lacks |
| TelegramColorsStale.Call2Section1 | src/telegram_colors.rs:575-580 | Keeps the registry sound and only appends to the theme text; never records `color0`; forgets no recorded name; succeeds exactly when the palette has `color0`, `color7`; aborts only on a palette key the palette lacks |
| TelegramColorsStale.Call2Section2 | src/telegram_colors.rs:581-586 | Keeps the registry sound and only appends to the theme text; never records `color0`; forgets no recorded name; succeeds exactly when the palette has `color1`, `color2`, `color7`; aborts only on a palette key the palette lacks |
| TelegramColorsStale.Call2Section3 | src/telegram_colors.rs:587-591 | Keeps the registry sound and only appends to the theme text; never records `color0`; forgets no recorded name; succeeds exactly when the palette has `color7`; aborts only on a palette key the palette lacks |
| TelegramColorsStale.Call2Section4 | src/telegram_colors.rs:592-595 | Keeps the registry sound and only appends to the theme text; never records `color0`; forgets no recorded name; succeeds exactly when the palette has `color0`; aborts only on a palette key the palette lacks |
| TelegramColorsStale.ImportantSection | src/telegram_colors.rs:597-600 | Keeps the registry sound and only appends to the theme text; never records `color0`; forgets no recorded name; succeeds exactly when the palette has `color2`; aborts only on a palette key the palette lacks |
| TelegramColorsStale.BotSection | src/telegram_colors.rs:602-604 | Keeps the registry sound and only appends to the theme text; never records `color0`; forgets no recorded name; succeeds exactly when the palette has `color0`; aborts only on a palette key the palette lacks |
| TelegramColorsStale.Derivation21 | src/telegram_colors.rs:575-604 | Keeps the registry sound and only appends to the theme text; never records `color0`; forgets no recorded name; succeeds exactly when the palette has `color0`, `color1`, `color2`, `color7`; aborts only on a palette key the palette lacks |
| TelegramColorsStale.Overview2Section | src/telegram_colors.rs:606-607 | Keeps the registry sound and only appends to the theme text; never records `color0`; forgets no recorded name; succeeds exactly when the palette has `color2`; aborts only on a palette key the palette lacks |
| TelegramColorsStale.SidebarSection1 | src/telegram_colors.rs:609-614 | Keeps the registry sound and only appends to the theme text; never records `color0`; forgets no recorded name; succeeds exactly when the palette has `color0`, `color1`, `color2`, `color7`; aborts only on a palette key the palette lacks |
| TelegramColorsStale.SidebarSection2 | src/telegram_colors.rs:615-619 | Keeps the registry sound and only appends to the theme text; never records `color0`; forgets no recorded name; succeeds exactly when the palette has `color1`, `color7`; aborts only on a palette key the palette lacks |
| TelegramColorsStale.DunnoSection | src/telegram_colors.rs:621-622 | Keeps the registry sound and only appends to the theme text; never records `color0`; forgets no recorded name; succeeds exactly when the palette has `color7`; aborts only on a palette key the palette lacks |
| TelegramColorsStale.Derivation22 | src/telegram_colors.rs:606-622 | Keeps the registry sound and only appends to the theme text; never records `color0`; forgets no recorded name; succeeds exactly when the palette has `color0`, `color1`, `color2`, `color7`; aborts only on a palette key the palette lacks |
| TelegramColorsStale.DerivationBlock4 | src/telegram_colors.rs:529-622 | Keeps the registry sound and only appends to the theme text; never records `color0`; forgets no recorded name; succeeds exactly when the palette has `color0`, `color1`, `color2`, `color3`, `color4`, `color7`; aborts only on a palette key the palette lacks |
| TelegramColorsStale.Derivation | src/telegram_colors.rs:48-622 | Keeps the registry sound and only appends to the theme text; never records `color0`; forgets no recorded name; succeeds exactly when the palette has `color0`, `color1`, `color2`, `color3`, `color4`, `color5`, `color6`, `color7`, `color8`, `color10`, `color15`; aborts only on a palette key the palette lacks |

## Left out

- Floating point: colour channels are exact reals, so `f32` rounding is not modelled. This affects the `/ 255.0` scaling, the luminance sums, the percentages and `(c * 1000000.0).floor()`.
- `powf(2.4)` in `fixed_for_rel_luma` (src/color.rs:12) is a function parameter `pow` and is left uninterpreted. Contrast-ratio properties that need it assume only that it is non-negative (`NonNegative`).
- Shared `Rc<RefCell<Color>>` cells are palette keys, and a colour's neighbour list names the keys it points to. In the source each padding copy `color{n+k}` of `import_wal_colors` (src/palette/wal.rs:30-32) shares its cell with the original `color{perm[k]}`. `compute_contrasts` ranks every copy except the last after its original, so the copy's `set_contrasts` replaces the original's list through the shared cell. That replacement list ends, at the least-contrasting end (ratio 1), with the original's own cell. Only the last copy, `color{2n-1}`, is never ranked: its original keeps the list it computed, and `color{2n-1}` reads that list through the shared cell. The model gives every key a cell of its own.
- ContrastRanking.ComputeContrasts: because each key is its own cell, on a padded wal palette the originals keep the lists ranked for them (their copy, not themselves, at ratio 1), and the "last key untouched", `color{2n-1}`, has no list at all. Its `contrast(i)` then returns the colour itself, where the source returns an entry of its original's list.
- EmptyPalette: the abort for `colors.len() - 1` on an empty map follows a build with overflow checks. A release build wraps the subtraction instead, and the same inputs still panic, with another message. `import_custom_palette` then fails the count check (src/palette/custom.rs:32-34, `CountProblem`). `compute_contrasts` then indexes the missing `colors["color0"]` (src/color.rs:221, `MissingKey`). Only the label of the abort differs.
- `HashMap` iteration order is a parameter: `order` in `compute_contrasts` and `get_telegram_colors`, and `perm` in the padding loop. Any order the map could produce is allowed.
- WalPalette.IsVisitOrder does not require the padding loop to visit each key once, only `n` times. Every lemma about padding holds for such an order too; `PadCoversEachOnce` adds what a once-each visit gives.
- PaletteKeys.KeyOrder: when several keys have no number, the key `sort_by` panics on depends on which comparisons the sort makes. The model names the first such key in iteration order.
- Reading files is I/O and not modelled. This covers the XDG cache lookup of `wal/colors` (src/palette/wal.rs:10-17), `fs::read_to_string` and its `expect` (src/palette/wal.rs:19-20, src/palette/custom.rs:16-17). `ImportWal` and `ImportCustom` take the file text as input.
- The `regex` crate is not modelled. The entry pattern of src/palette/custom.rs:21 is recognised by hand-written functions over ASCII `\s` and `\d`. Unicode whitespace and digits, which `\s` and `\d` also match in that crate, are not. The pattern is unanchored and its quotes need not match, as written.
- `eprintln!` in `Color::contrast` (src/color.rs:198) is output only and left out.
- `impl fmt::Display for Color` (src/color.rs:25-29) and the private setter `set_contrasts` are left out. The setter appears as the neighbour-list update inside `ComputeContrasts`.
- src/telegram/theme.rs, src/background/, src/tmp_dir.rs, src/palette/mod.rs and src/main.rs are not part of this model. They cover writing the theme archive, background images, temporary directories, dispatch between the palette sources and the command line.
- The telegram derivations are proved to keep the registry sound, to define the names later sections read, and to abort only in the stated cases. The exact hex text of each derived colour is not stated. The exceptions are the testing colours, `colorError` and `colorSuccess`, and the values of `windowBg` and `windowFg` in `TelegramColors.BasicWindowOptionsSection1`.
