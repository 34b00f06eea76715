/** Per-worker output names: the decimal rank of the worker is inserted
    into the output path four bytes before its end, a fixed offset meant
    to land just before a ".png"-style extension. Each character of a
    path here stands for one byte of the C string. */
module OutputPath {
  import opened Outcomes
  import opened Numerals

  /** Length of the tail the rank is inserted in front of. */
  const TAIL: nat := 4

  /** The output path of worker `rank`. A path shorter than four bytes
      makes the insertion offset negative, which `std::string::insert`
      rejects with std::out_of_range. */
  function RankedPath(output: string, rank: nat): (r: Result<string>)
    ensures r.Err? <==> |output| < TAIL
    ensures r.Err? ==> r.error == OutOfRange
    ensures r.Ok? ==>
      var at, digits := |output| - TAIL, ToString(rank);
      && |r.value| == |output| + |digits|
      && r.value[..at] == output[..at]
      && r.value[at..at + |digits|] == digits
      && r.value[at + |digits|..] == output[at..]
  {
    if |output| < TAIL then Err(OutOfRange)
    else
      var at := |output| - TAIL;
      Ok(output[..at] + ToString(rank) + output[at..])
  }

  /** Two workers with distinct ranks never write to the same path. */
  lemma RankedPathInjective(output: string, rank1: nat, rank2: nat)
    requires RankedPath(output, rank1).Ok?
    requires RankedPath(output, rank1) == RankedPath(output, rank2)
    ensures rank1 == rank2
  {
    var at := |output| - TAIL;
    var p := RankedPath(output, rank1).value;
    var d1, d2 := ToString(rank1), ToString(rank2);
    assert |d1| == |d2|;
    assert d1 == p[at..at + |d1|] == d2;
    ToStringInjective(rank1, rank2);
  }

  lemma RankedPathExamples()
    ensures RankedPath("sphere.png", 3) == Ok("sphere3.png")
    ensures RankedPath("out.png", 0) == Ok("out0.png")
    ensures RankedPath("../output/sphere.png", 12) == Ok("../output/sphere12.png")
    ensures RankedPath("a.b", 1) == Err(OutOfRange)
  {
    assert ToString(3) == "3" && ToString(0) == "0" && ToString(12) == "12";
    assert "sphere.png"[..6] + "3" + "sphere.png"[6..] == "sphere3.png";
    assert "out.png"[..3] + "0" + "out.png"[3..] == "out0.png";
    assert "../output/sphere.png"[..16] + "12" + "../output/sphere.png"[16..] == "../output/sphere12.png";
  }
}
