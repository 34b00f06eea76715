/** The command-line scan at the start of the renderer's `main`: five
    settings start at their defaults and each recognised flag that is
    followed by another argument overwrites one of them. */
module Options {
  import opened Outcomes
  import opened Numerals

  /** The settings the scan fills in. `depth` is the channel depth that
      is later handed to the rasteriser. */
  datatype Config = Config(input: string, output: string, width: nat, height: nat, depth: nat)

  const DEFAULTS: Config := Config("../input/sphere.obj", "../output/sphere.png", 1920, 1080, 3)

  predicate IsNumericFlag(a: string) {
    a == "-w" || a == "-h" || a == "-d"
  }

  predicate IsFlag(a: string) {
    a == "-i" || a == "-o" || IsNumericFlag(a)
  }

  /** A numeric value as the source reads it: `std::stoul`, then a cast to
      a 32-bit unsigned integer. */
  function ParseUnsigned(s: string): (r: Result<nat>)
    ensures r.Ok? <==> Stoul(s).Ok?
    ensures r.Ok? ==> r.value < UINT_MODULUS && r.value == Stoul(s).value % UINT_MODULUS
    ensures r.Err? ==> r.error == Stoul(s).error
    ensures r == Err(InvalidArgument) <==> s == [] || !IsDigit(s[0])
  {
    match Stoul(s)
    case Ok(n) => Ok(ToUnsignedInt(n))
    case Err(e) => Err(e)
  }

  /** A numeral up to ULONG_MAX, followed by anything that does not start
      with a digit, sets the value to the numeral modulo 2^32. */
  lemma ParseUnsignedReadsNumeral(n: nat, rest: string)
    requires n <= ULONG_MAX
    requires rest == [] || !IsDigit(rest[0])
    ensures ParseUnsigned(ToString(n) + rest) == Ok(ToUnsignedInt(n))
  {
    StoulReadsNumeral(n, rest);
  }

  /** A numeral above ULONG_MAX raises std::out_of_range: it is not
      reduced modulo 2^32. */
  lemma ParseUnsignedTooLarge(n: nat, rest: string)
    requires n > ULONG_MAX
    requires rest == [] || !IsDigit(rest[0])
    ensures ParseUnsigned(ToString(n) + rest) == Err(OutOfRange)
  {
    StoulTooLarge(n, rest);
  }

  /** 2^32 written out wraps to a width of 0. */
  lemma ParseUnsignedWrapExample()
    ensures ParseUnsigned(ToString(UINT_MODULUS)) == Ok(0)
  {
    ParseUnsignedReadsNumeral(UINT_MODULUS, []);
    assert ToString(UINT_MODULUS) + [] == ToString(UINT_MODULUS);
  }

  /** One inspection of `flag` with the argument after it, `value`. */
  function Step(cfg: Config, flag: string, value: string): (r: Result<Config>)
    ensures !IsFlag(flag) ==> r == Ok(cfg)
    ensures flag == "-i" ==> r == Ok(cfg.(input := value))
    ensures flag == "-o" ==> r == Ok(cfg.(output := value))
    ensures r.Ok? && flag == "-w" ==> ParseUnsigned(value) == Ok(r.value.width)
    ensures r.Ok? && flag == "-h" ==> ParseUnsigned(value) == Ok(r.value.height)
    ensures r.Ok? && flag == "-d" ==> ParseUnsigned(value) == Ok(r.value.depth)
    ensures r.Err? <==> IsNumericFlag(flag) && ParseUnsigned(value).Err?
    ensures r.Err? ==> r.error == ParseUnsigned(value).error
    ensures r.Ok? ==>
      && (r.value.input != cfg.input ==> flag == "-i")
      && (r.value.output != cfg.output ==> flag == "-o")
      && (r.value.width != cfg.width ==> flag == "-w")
      && (r.value.height != cfg.height ==> flag == "-h")
      && (r.value.depth != cfg.depth ==> flag == "-d")
  {
    if flag == "-i" then Ok(cfg.(input := value))
    else if flag == "-o" then Ok(cfg.(output := value))
    else if flag == "-w" then
      (match ParseUnsigned(value) case Ok(n) => Ok(cfg.(width := n)) case Err(e) => Err(e))
    else if flag == "-h" then
      (match ParseUnsigned(value) case Ok(n) => Ok(cfg.(height := n)) case Err(e) => Err(e))
    else if flag == "-d" then
      (match ParseUnsigned(value) case Ok(n) => Ok(cfg.(depth := n)) case Err(e) => Err(e))
    else Ok(cfg)
  }

  /** The scan from position `i` on: every position j with i <= j and
      j + 1 < |argv| is inspected, left to right; the first exception
      stops it. */
  function ScanFrom(cfg: Config, argv: seq<string>, i: nat): Result<Config>
    decreases |argv| - i
  {
    if i + 1 >= |argv| then Ok(cfg)
    else
      match Step(cfg, argv[i], argv[i + 1])
      case Err(e) => Err(e)
      case Ok(next) => ScanFrom(next, argv, i + 1)
  }

  /** The whole scan: `argv[0]`, the program name, is never inspected. */
  function Parse(argv: seq<string>): Result<Config> {
    ScanFrom(DEFAULTS, argv, 1)
  }

  /** The loop of the source, over its five local variables. */
  method ParseArgs(argv: seq<string>) returns (r: Result<Config>)
    ensures r == Parse(argv)
  {
    var input, output := DEFAULTS.input, DEFAULTS.output;
    var width, height, depth := DEFAULTS.width, DEFAULTS.height, DEFAULTS.depth;
    var i := 1;
    while i < |argv|
      invariant 1 <= i
      invariant Parse(argv) == ScanFrom(Config(input, output, width, height, depth), argv, i)
      decreases |argv| - i
    {
      if i < |argv| - 1 {
        var flag, value := argv[i], argv[i + 1];
        if flag == "-i" {
          input := value;
        } else if flag == "-o" {
          output := value;
        } else if flag == "-w" {
          var n := ParseUnsigned(value);
          if n.Err? { return Err(n.error); }
          width := n.value;
        } else if flag == "-h" {
          var n := ParseUnsigned(value);
          if n.Err? { return Err(n.error); }
          height := n.value;
        } else if flag == "-d" {
          var n := ParseUnsigned(value);
          if n.Err? { return Err(n.error); }
          depth := n.value;
        }
      }
      i := i + 1;
    }
    r := Ok(Config(input, output, width, height, depth));
  }

  /** The last position j >= i that the scan inspects and that holds `flag`. */
  function LastFlag(argv: seq<string>, flag: string, i: nat): (r: Option<nat>)
    decreases |argv| - i
    ensures r.Some? ==> i <= r.value && r.value + 1 < |argv| && argv[r.value] == flag
    ensures r.Some? ==> forall k :: r.value < k < |argv| - 1 ==> argv[k] != flag
    ensures r.None? ==> forall k :: i <= k < |argv| - 1 ==> argv[k] != flag
  {
    if i + 1 >= |argv| then None
    else
      match LastFlag(argv, flag, i + 1)
      case Some(j) => Some(j)
      case None => if argv[i] == flag then Some(i) else None
  }

  /** The argument that follows the last inspected occurrence of `flag`,
      if there is one. */
  function LastValue(argv: seq<string>, flag: string, i: nat): (r: Option<string>)
    ensures r.Some? <==> exists k :: i <= k < |argv| - 1 && argv[k] == flag
  {
    match LastFlag(argv, flag, i)
    case Some(j) => Some(argv[j + 1])
    case None => None
  }

  lemma LastValueUnfold(argv: seq<string>, flag: string, i: nat)
    requires i + 1 < |argv|
    ensures LastValue(argv, flag, i) ==
      if LastValue(argv, flag, i + 1).Some? then LastValue(argv, flag, i + 1)
      else if argv[i] == flag then Some(argv[i + 1])
      else None
  {
  }

  /** A numeric flag inspected at position j whose value does not parse. */
  predicate BadValueAt(argv: seq<string>, j: int) {
    1 <= j < |argv| - 1 && IsNumericFlag(argv[j]) && ParseUnsigned(argv[j + 1]).Err?
  }

  /** The scan from position i fails exactly when some inspected numeric
      flag from i on has a value that does not parse. */
  lemma {:induction false} ScanFromFailsIff(cfg: Config, argv: seq<string>, i: nat)
    requires 1 <= i
    ensures ScanFrom(cfg, argv, i).Err? <==> exists j :: i <= j && BadValueAt(argv, j)
    decreases |argv| - i
  {
    if i + 1 < |argv| {
      match Step(cfg, argv[i], argv[i + 1])
      case Err(_) =>
        assert BadValueAt(argv, i);
      case Ok(next) =>
        ScanFromFailsIff(next, argv, i + 1);
        assert !BadValueAt(argv, i);
        if exists j :: i <= j && BadValueAt(argv, j) {
          var j :| i <= j && BadValueAt(argv, j);
          assert i + 1 <= j;
        }
    }
  }

  /** A failing scan from i raises the exception of the first bad value
      from i on. */
  lemma {:induction false} ScanFromFailsAtFirstBad(cfg: Config, argv: seq<string>, i: nat)
    requires 1 <= i
    requires ScanFrom(cfg, argv, i).Err?
    ensures exists j :: (i <= j && BadValueAt(argv, j)
                         && (forall k :: i <= k < j ==> !BadValueAt(argv, k))
                         && ScanFrom(cfg, argv, i).error == ParseUnsigned(argv[j + 1]).error)
    decreases |argv| - i
  {
    match Step(cfg, argv[i], argv[i + 1])
    case Err(e) =>
      assert BadValueAt(argv, i);
    case Ok(next) =>
      assert !BadValueAt(argv, i);
      ScanFromFailsAtFirstBad(next, argv, i + 1);
      var j :| i + 1 <= j && BadValueAt(argv, j)
        && (forall k :: i + 1 <= k < j ==> !BadValueAt(argv, k))
        && ScanFrom(next, argv, i + 1).error == ParseUnsigned(argv[j + 1]).error;
      assert forall k :: i <= k < j ==> !BadValueAt(argv, k);
  }

  /** Each setting the scan from i produces is the value after the last
      inspected occurrence of its flag, or its starting value when the flag
      does not occur: the last occurrence wins. */
  lemma {:induction false} ScanFromLastWins(cfg: Config, argv: seq<string>, i: nat)
    requires ScanFrom(cfg, argv, i).Ok?
    ensures var c := ScanFrom(cfg, argv, i).value;
      && c.input == (match LastValue(argv, "-i", i) case Some(v) => v case None => cfg.input)
      && c.output == (match LastValue(argv, "-o", i) case Some(v) => v case None => cfg.output)
      && (match LastValue(argv, "-w", i) case Some(v) => ParseUnsigned(v) == Ok(c.width) case None => c.width == cfg.width)
      && (match LastValue(argv, "-h", i) case Some(v) => ParseUnsigned(v) == Ok(c.height) case None => c.height == cfg.height)
      && (match LastValue(argv, "-d", i) case Some(v) => ParseUnsigned(v) == Ok(c.depth) case None => c.depth == cfg.depth)
    decreases |argv| - i
  {
    if i + 1 < |argv| {
      var next := Step(cfg, argv[i], argv[i + 1]).value;
      ScanFromLastWins(next, argv, i + 1);
      LastValueUnfold(argv, "-i", i);
      LastValueUnfold(argv, "-o", i);
      LastValueUnfold(argv, "-w", i);
      LastValueUnfold(argv, "-h", i);
      LastValueUnfold(argv, "-d", i);
    }
  }

  /** The whole scan fails exactly when some numeric flag at a position
      1 <= j < |argv| - 1 is followed by a value that does not parse. */
  lemma ParseFailsIff(argv: seq<string>)
    ensures Parse(argv).Err? <==> exists j :: BadValueAt(argv, j)
  {
    ScanFromFailsIff(DEFAULTS, argv, 1);
  }

  /** A failing scan raises the exception of the value after the first
      numeric flag, from position 1 on, whose value does not parse. */
  lemma ParseFailsAtFirstBad(argv: seq<string>)
    requires Parse(argv).Err?
    ensures exists j :: (BadValueAt(argv, j)
                         && (forall k :: 1 <= k < j ==> !BadValueAt(argv, k))
                         && Parse(argv).error == ParseUnsigned(argv[j + 1]).error)
  {
    ScanFromFailsAtFirstBad(DEFAULTS, argv, 1);
  }

  /** For a successful scan every setting comes from the last inspected
      occurrence of its flag, and otherwise keeps its default. */
  lemma ParseLastWins(argv: seq<string>)
    requires Parse(argv).Ok?
    ensures var c := Parse(argv).value;
      && c.input == (match LastValue(argv, "-i", 1) case Some(v) => v case None => DEFAULTS.input)
      && c.output == (match LastValue(argv, "-o", 1) case Some(v) => v case None => DEFAULTS.output)
      && (match LastValue(argv, "-w", 1) case Some(v) => ParseUnsigned(v) == Ok(c.width) case None => c.width == DEFAULTS.width)
      && (match LastValue(argv, "-h", 1) case Some(v) => ParseUnsigned(v) == Ok(c.height) case None => c.height == DEFAULTS.height)
      && (match LastValue(argv, "-d", 1) case Some(v) => ParseUnsigned(v) == Ok(c.depth) case None => c.depth == DEFAULTS.depth)
  {
    ScanFromLastWins(DEFAULTS, argv, 1);
  }

  /** Without a recognised flag at an inspected position the settings are
      the defaults. */
  lemma NoFlagMeansDefaults(argv: seq<string>)
    requires forall j :: 1 <= j < |argv| - 1 ==> !IsFlag(argv[j])
    ensures Parse(argv) == Ok(DEFAULTS)
  {
    ParseFailsIff(argv);
    ParseLastWins(argv);
    assert LastValue(argv, "-w", 1).None?;
  }

  /** The scan from i reads only argv[i..]. */
  lemma {:induction false} ScanFromReadsSuffix(cfg: Config, a: seq<string>, b: seq<string>, i: nat)
    requires |a| == |b| && i <= |a| && a[i..] == b[i..]
    ensures ScanFrom(cfg, a, i) == ScanFrom(cfg, b, i)
    decreases |a| - i
  {
    if i + 1 < |a| {
      assert a[i] == a[i..][0] && b[i] == b[i..][0];
      assert a[i + 1] == a[i..][1] && b[i + 1] == b[i..][1];
      assert a[i + 1..] == a[i..][1..] && b[i + 1..] == b[i..][1..];
      match Step(cfg, a[i], a[i + 1])
      case Err(_) =>
      case Ok(next) => ScanFromReadsSuffix(next, a, b, i + 1);
    }
  }

  /** `argv[0]` is never inspected. */
  lemma ProgramNameIgnored(argv: seq<string>, name: string)
    requires |argv| >= 1
    ensures Parse([name] + argv[1..]) == Parse(argv)
  {
    var other := [name] + argv[1..];
    assert other[1..] == argv[1..];
    ScanFromReadsSuffix(DEFAULTS, other, argv, 1);
  }

  /** An argument appended after one that is not a flag is never read:
      in particular a flag in the last position is never acted on. */
  lemma {:induction false} ScanFromIgnoresAppended(cfg: Config, argv: seq<string>, x: string, i: nat)
    requires 1 <= i
    requires |argv| == 0 || !IsFlag(argv[|argv| - 1])
    ensures ScanFrom(cfg, argv + [x], i) == ScanFrom(cfg, argv, i)
    decreases |argv| - i
  {
    var longer := argv + [x];
    if i + 1 < |argv| {
      assert longer[i] == argv[i] && longer[i + 1] == argv[i + 1];
      match Step(cfg, argv[i], argv[i + 1])
      case Err(_) =>
      case Ok(next) => ScanFromIgnoresAppended(next, argv, x, i + 1);
    } else if i + 1 == |argv| {
      assert longer[i] == argv[|argv| - 1];
      assert Step(cfg, longer[i], longer[i + 1]) == Ok(cfg);
      assert ScanFrom(cfg, longer, i + 1) == Ok(cfg);
    }
  }

  /** A flag given as the final argument changes nothing when the argument
      before it is not itself a flag. */
  lemma TrailingFlagIgnored(argv: seq<string>, flag: string)
    requires |argv| == 0 || !IsFlag(argv[|argv| - 1])
    ensures Parse(argv + [flag]) == Parse(argv)
  {
    ScanFromIgnoresAppended(DEFAULTS, argv, flag, 1);
  }

  /** The value after a flag is itself inspected as a flag on the next
      position: `-i -o x` sets the input to "-o" and the output to "x". */
  lemma ValueNotSkipped()
    ensures Parse(["render", "-i", "-o", "x"]) == Ok(DEFAULTS.(input := "-o", output := "x"))
  {
  }

  /** A repeated flag: the later value wins. */
  lemma RepeatedFlagExample()
    ensures Parse(["render", "-w", "640", "-w", "800"]) == Ok(DEFAULTS.(width := 800))
  {
    assert "640"[..2] == "64" && "64"[..1] == "6";
    assert "800"[..2] == "80" && "80"[..1] == "8";
    LeadingDigitsOfNumeral("640", []);
    LeadingDigitsOfNumeral("800", []);
    assert "640" + [] == "640" && "800" + [] == "800";
    assert ValueOf("6") == 6 && ValueOf("64") == 64 && ValueOf("640") == 640;
    assert ValueOf("8") == 8 && ValueOf("80") == 80 && ValueOf("800") == 800;
    assert ParseUnsigned("640") == Ok(640);
    assert ParseUnsigned("800") == Ok(800);
    var argv := ["render", "-w", "640", "-w", "800"];
    var first, second := DEFAULTS.(width := 640), DEFAULTS.(width := 800);
    assert Step(DEFAULTS, argv[1], argv[2]) == Ok(first);
    assert Step(first, argv[2], argv[3]) == Ok(first);
    assert Step(first, argv[3], argv[4]) == Ok(second);
    assert ScanFrom(second, argv, 4) == Ok(second);
  }

  /** A width without a leading number raises std::invalid_argument; a
      trailing `-w` with nothing after it is ignored. */
  lemma MalformedWidthExample()
    ensures Parse(["render", "-w", "wide"]) == Err(InvalidArgument)
    ensures Parse(["render", "-o", "a.png", "-w"]) == Ok(DEFAULTS.(output := "a.png"))
    ensures Parse(["render", "-w", "x", "-h", "99999999999999999999"]) == Err(InvalidArgument)
  {
  }
}
