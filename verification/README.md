# Start-up of a distributed rasteriser worker, in Dafny

The renderer runs one worker process per rank of an MPI process group.
Each worker renders the loaded mesh from its own camera angle and writes
its own PNG file. This project models the sequential start-up code in the
worker's `main`:

- the **command-line scan** over `argv`. Five settings (input mesh path,
  output image path, width, height, channel depth) start from fixed
  defaults. A recognised flag followed by another argument overwrites one
  of them.
- the **per-rank output path**. The decimal rank is inserted into the
  output path four bytes before its end, so workers do not overwrite
  each other's images.
- the **rotation angle** of each worker's view, as an exact-arithmetic
  sketch.

Modules:

- `Outcomes` (outcomes.dfy): `Option`, plus `Result` carrying the C++
  exceptions `std::invalid_argument` and `std::out_of_range`. Neither is
  caught in the source, so either one ends the process.
- `Numerals` (numerals.dfy): `std::to_string` on a non-negative rank
  (`ToString`), its inverse on digit strings (`ValueOf`), `std::stoul`
  (`Stoul`), and the cast to a 32-bit `unsigned int` (`ToUnsignedInt`).
- `Options` (options.dfy): the settings record `Config`, the defaults,
  one inspection of a flag (`Step`), and the scan as a recursive function
  (`ScanFrom`, `Parse`). `DEFAULTS` holds the five starting values.
  `ScanFrom` and `Parse` are the reference definitions of the scan: they
  carry no contract of their own, and the lemmas below are about them.
  `ParseArgs` is the source's loop over its five
  local variables, proved equal to `Parse`. Lemmas characterise the result
  of the scan independently of the fold.
- `OutputPath` (output_path.dfy): the rank insertion `RankedPath` and its
  properties.
- `Worker` (worker.dfy): the rotation angle, and `PrepareWorker`, which
  runs the steps in the source's order.

Three behaviours of `main` worth noting:

- The rank is inserted at the fixed offset `|output| - 4`. The path's
  extension is not parsed.
- A path shorter than four bytes gives a negative offset. Converted
  to `size_t`, that offset makes `std::string::insert` throw
  `std::out_of_range`. This is modelled as an error result, not as a
  precondition.
- A zero width or height is accepted by the scan. No check in
  `src/main.cpp` rejects it before rendering.

## Model

| member | source | states |
|---|---|---|
| `Numerals.ToString` | src/main.cpp:59 | `std::to_string` of a rank is a non-empty string of decimal digits with no leading zero (a leading `0` only for 0 itself) |
| `Numerals.ValueOfToString` | src/main.cpp:59 | reading back the decimal string of n gives n |
| `Numerals.ToStringInjective` | src/main.cpp:59 | distinct ranks have distinct decimal strings |
| `Numerals.Stoul` | src/main.cpp:44-48 | `std::stoul` raises invalid_argument exactly when the value does not start with a digit; a successful result fits in an `unsigned long` |
| `Numerals.StoulReadsNumeral` | src/main.cpp:44-48 | a decimal numeral, followed by anything not starting with a digit, is read back as its number when it fits in an `unsigned long` |
| `Numerals.StoulTooLarge` | src/main.cpp:44-48 | a numeral whose value exceeds `ULONG_MAX`, followed by anything not starting with a digit, raises out_of_range |
| `Numerals.StoulIgnoresLeadingZeros` | src/main.cpp:44-48 | zeros in front of a digit string do not change what `stoul` reads |
| `Numerals.StoulExamples` | src/main.cpp:44-48 | `stoul("007")` is 7 |
| `Numerals.ToUnsignedInt` | src/main.cpp:44-48 | the cast to `unsigned int` yields a value below 2^32, congruent to its input modulo 2^32, and equal to it when it already fits |
| `Options.ParseUnsigned` | src/main.cpp:44-48 | a numeric value raises invalid_argument exactly when it does not start with a digit; a parsed value is below 2^32 |
| `Options.ParseUnsignedReadsNumeral` | src/main.cpp:44-48 | a numeral up to `ULONG_MAX`, followed by anything not starting with a digit, sets the field to that number modulo 2^32 |
| `Options.ParseUnsignedTooLarge` | src/main.cpp:44-48 | a numeral above `ULONG_MAX` raises out_of_range instead of wrapping |
| `Options.ParseUnsignedWrapExample` | src/main.cpp:44-46 | the value 4294967296 is stored as 0 |
| `Options.Step` | src/main.cpp:39-49 | `-i`/`-o` set input/output to the following argument; `-w`/`-h`/`-d` set their field to the parsed value; any other argument changes nothing; each flag changes only its own setting; the step fails exactly for a numeric flag with an unparsable value, raising that value's parse exception |
| `Options.ParseArgs` | src/main.cpp:26-51 | the loop over `argv`, starting from the defaults and updating five locals, computes exactly the recursive scan `Parse` |
| `Options.LastFlag` | src/main.cpp:37-38 | the last position j with i <= j < \|argv\| - 1 that holds the flag, or none when no inspected position holds it |
| `Options.LastValue` | src/main.cpp:37-42 | some value follows an inspected occurrence of the flag exactly when one exists |
| `Options.ScanFromFailsIff` | src/main.cpp:37-51 | the scan from position i fails exactly when some inspected `-w`/`-h`/`-d` from i on is followed by an unparsable value |
| `Options.ScanFromFailsAtFirstBad` | src/main.cpp:37-51 | a failing scan from i raises the exception of the first inspected numeric flag from i on whose value does not parse |
| `Options.ScanFromLastWins` | src/main.cpp:37-51 | after a successful scan from i, each setting is the value after the last inspected occurrence of its flag, or its starting value when none |
| `Options.ParseFailsIff` | src/main.cpp:37-51 | the whole scan fails exactly when a numeric flag at a position 1 <= j < \|argv\| - 1 has an unparsable value |
| `Options.ParseFailsAtFirstBad` | src/main.cpp:37-51 | a failing scan raises the exception of the first numeric flag, from position 1 on, whose value does not parse |
| `Options.ParseLastWins` | src/main.cpp:26-51 | after a successful scan, each setting comes from the last inspected occurrence of its flag, and otherwise keeps its default |
| `Options.NoFlagMeansDefaults` | src/main.cpp:26-30 | without a recognised flag at an inspected position, the settings are `../input/sphere.obj`, `../output/sphere.png`, 1920, 1080, 3 |
| `Options.ScanFromReadsSuffix` | src/main.cpp:37-38 | the scan from position i reads only `argv[i..]` |
| `Options.ProgramNameIgnored` | src/main.cpp:37 | `argv[0]` is never inspected: replacing it does not change the result |
| `Options.ScanFromIgnoresAppended` | src/main.cpp:37-38 | an argument appended after a non-flag is never read by the scan from any i >= 1 |
| `Options.TrailingFlagIgnored` | src/main.cpp:38 | a flag in the last position changes nothing when the argument before it is not a flag |
| `Options.ValueNotSkipped` | src/main.cpp:37-42 | the value after a flag is inspected as a flag itself: `-i -o x` sets input to `-o` and output to `x` |
| `Options.RepeatedFlagExample` | src/main.cpp:43-44 | `-w 640 -w 800` sets the width to 800 |
| `Options.MalformedWidthExample` | src/main.cpp:43-48 | `-w wide` raises invalid_argument; `-w` as the final argument is ignored; `-w x -h 99999999999999999999` raises invalid_argument, from the first bad value |
| `OutputPath.RankedPath` | src/main.cpp:58-59 | a path shorter than 4 raises out_of_range; otherwise the result keeps the path's prefix before offset \|output\| - 4, then holds the rank's digits, then the path's last 4 bytes, and its length is \|output\| + \|digits\| |
| `OutputPath.RankedPathInjective` | src/main.cpp:58-59 | for a fixed base path, distinct ranks give distinct output paths |
| `OutputPath.RankedPathExamples` | src/main.cpp:58-59 | `sphere.png` with rank 3 gives `sphere3.png`; `out.png` with rank 0 gives `out0.png`; a 3-character path is rejected |
| `Worker.RotationAngle` | src/main.cpp:32-35 | the angle is 0 for a single worker and lies in [0, 180] for every rank |
| `Worker.RotationEndpoints` | src/main.cpp:33-35 | with more than one worker, rank 0 gets 0 degrees and the last rank gets 180 |
| `Worker.RotationIncreasing` | src/main.cpp:33-35 | the angle strictly increases with the rank |
| `Worker.PrepareWorker` | src/main.cpp:26-59 | the start-up succeeds exactly when the scan succeeds and leaves an output path of length >= 4. It then yields the scanned settings with the output replaced by the ranked path, and the worker's angle. Otherwise it yields the scan's exception, or out_of_range |

## Left out

- MPI set-up and tear-down and the rank/size queries (src/main.cpp:15-23, 70): rank and group size are plain parameters.
- Mesh loading (`loadWavefront`, src/main.cpp:54), rasterisation (`rasterise`, src/main.cpp:56, declared in src/rasteriser.hpp:11) and PNG encoding with its error report (src/main.cpp:63-68). These are calls into code that is not part of this model. The channel depth from `-d` is the argument that `rasterise` names `depthLimit`.
- Timing with `clock()` and console output (src/main.cpp:12, 52, 61, 72-75).
- Stoul: models base-10 `std::stoul` only for values without leading white space or a sign. Its contract alone does not separate out_of_range from a successful read; `StoulReadsNumeral`, `StoulTooLarge` and `StoulIgnoresLeadingZeros` do, for every leading digit run. The real function skips leading white space and accepts `+`/`-` (a negated value wraps modulo 2^64); the model reports invalid_argument for those. An `unsigned long` is taken to be 64 bits wide.
- ToUnsignedInt: `-d` goes through `(int)` before it is stored in an `unsigned int`. On two's-complement targets the net effect is the same reduction modulo 2^32 as for `-w`/`-h`, which is what is modelled.
- RotationAngle: computed over exact reals. The source divides in single-precision `float`, multiplies in `double` and stores a `float`, so rounding is not modelled.
- Strings: a Dafny character stands for one byte of the C string in `argv`. Lengths, and the offset `|output| - 4` in `RankedPath`, therefore count bytes as `std::string::length()` does. A multi-byte UTF-8 character in a path counts as several elements, and the insertion may split it. Strings are compared by equality; `std::strcmp` on NUL-terminated `argv` entries agrees with this for arguments without embedded NULs.
- PrepareWorker: assumes that `loadWavefront` and `rasterise` (src/main.cpp:54-56), which run between the scan and the rank insertion, return normally. An unreadable mesh would end the process before a short output path raises out_of_range.
