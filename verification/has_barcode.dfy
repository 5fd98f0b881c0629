/** The gate cascade that turns a read into one of three outcomes: `has_barcode`. */
module BarcodeGate {
  import opened LinkerPositions

  /** The poly(A) run looked for before any linker search is attempted. */
  const Seed := "AAAAAAAAAA"

  /** Characters that must follow the first linker's estimate before the later linkers are judged. */
  const MinTail := 100

  /** Exclusive bounds on the spacing between consecutive linker estimates. */
  const MinGap := 25
  const MaxGap := 45

  /** Whether `pat` occurs as a contiguous part of `s` (the substring test `pat in s`). */
  function Occurs(pat: string, s: string): bool
    decreases |s|
  {
    if |s| < |pat| then false
    else if s[..|pat|] == pat then true
    else Occurs(pat, s[1..])
  }

  /** `pat` sits in `s` starting at offset `k`. */
  predicate OccursAt(pat: string, s: string, k: int)
  {
    0 <= k && k + |pat| <= |s| && s[k..k + |pat|] == pat
  }

  /** A slice of the tail of `s` is the slice of `s` one position further on. */
  lemma SliceOfTail(s: string, i: int, j: int)
    requires 1 <= i <= j <= |s|
    ensures s[1..][i - 1..j - 1] == s[i..j]
  {
    var t := s[1..];
    forall m | 0 <= m < j - i
      ensures t[i - 1..j - 1][m] == s[i..j][m]
    {
      assert t[i - 1 + m] == s[i + m];
    }
  }

  /** The substring test agrees with its definition by offsets, in both directions. */
  lemma {:induction false} OccursIffAtSomeOffset(pat: string, s: string)
    ensures Occurs(pat, s) <==> exists k :: OccursAt(pat, s, k)
    decreases |s|
  {
    if |s| < |pat| {
    } else if s[..|pat|] == pat {
      assert OccursAt(pat, s, 0);
    } else {
      OccursIffAtSomeOffset(pat, s[1..]);
      if Occurs(pat, s[1..]) {
        var k :| OccursAt(pat, s[1..], k);
        SliceOfTail(s, k + 1, k + 1 + |pat|);
        assert OccursAt(pat, s, k + 1);
      } else {
        forall k | 0 <= k && k + |pat| <= |s|
          ensures !OccursAt(pat, s, k)
        {
          if k > 0 {
            SliceOfTail(s, k, k + |pat|);
            assert !OccursAt(pat, s[1..], k - 1);
          }
        }
      }
    }
  }

  /** The three outcomes: keep sequencing, stop receiving (target confirmed), or eject. */
  datatype Decision = Continue | StopReceiving | Eject

  /** The placeholder alignment record by which a decision is reported to the host. */
  datatype DummyAlignment = DummyAlignment(ctg: string, rSt: int, rEn: int, strand: int)

  /** The alignment data a decision is written as: at most one entry, which DecisionOf decodes
      back to exactly the decision that was written. */
  function AlignmentsFor(d: Decision): (data: seq<DummyAlignment>)
    ensures |data| <= 1
    ensures DecisionOf(data) == d
  {
    match d
    case Continue => []
    case StopReceiving => [DummyAlignment("yes", 0, 1, 1)]
    case Eject => [DummyAlignment("no", 0, 1, 1)]
  }

  /** This model's decoding of alignment data, the inverse AlignmentsFor is checked against:
      no entry decodes to Continue, an entry on contig "yes" to StopReceiving, any other to Eject. */
  function DecisionOf(data: seq<DummyAlignment>): Decision
  {
    if data == [] then Continue
    else if data[0].ctg == "yes" then StopReceiving
    else Eject
  }

  /** The gates in order: seed present, first estimate found, enough tail after it, then
      order and exclusive spacing of the second and of the third estimate. */
  function Classify(s: string, positions: seq<int>): (d: Decision)
    requires |positions| == |Linkers|
    ensures d == Continue <==>
      !Occurs(Seed, s) || positions[0] < 0 || |s| - positions[0] < MinTail
    ensures d == StopReceiving <==>
      && Occurs(Seed, s)
      && positions[0] >= 0
      && |s| - positions[0] >= MinTail
      && positions[1] > positions[0] && MinGap < positions[1] - positions[0] < MaxGap
      && positions[2] > positions[1] && MinGap < positions[2] - positions[1] < MaxGap
  {
    if !Occurs(Seed, s) then Continue
    else if positions[0] >= 0 then
      if |s| - positions[0] < MinTail then Continue
      else if positions[1] > positions[0] then
        if MinGap < positions[1] - positions[0] < MaxGap then
          if positions[2] > positions[1] then
            if MinGap < positions[2] - positions[1] < MaxGap then StopReceiving
            else Eject
          else Eject
        else Eject
      else Eject
    else Continue
  }

  /** The outcome for a read: the gates applied to the linker estimates of its sequence. Stated on
      the three match ends e0, e1, e2 the search reports, a read is kept exactly when the seed is
      missing, e0 < 20 or fewer than 80 characters follow e0; it is accepted exactly when the seed
      occurs, 20 <= e0, at least 80 characters follow e0, at least 15 follow e1, 25 < e1 < 45 and
      25 < e2 - e0 < 45; otherwise it is ejected. */
  function Outcome(subEd: SubEditDistance, s: string): (d: Decision)
    ensures d == Continue <==>
      !Occurs(Seed, s) || MatchEnd(subEd, s, 0) < AnchorLength
      || |s| - MatchEnd(subEd, s, 0) < MinTail - AnchorLength
    ensures d == StopReceiving <==>
      && Occurs(Seed, s)
      && AnchorLength <= MatchEnd(subEd, s, 0)
      && |s| - MatchEnd(subEd, s, 0) >= MinTail - AnchorLength
      && |s| - MatchEnd(subEd, s, 1) >= MinRemaining
      && MinGap < MatchEnd(subEd, s, 1) < MaxGap
      && MinGap < MatchEnd(subEd, s, 2) - MatchEnd(subEd, s, 0) < MaxGap
  {
    Classify(s, Estimates(subEd, s))
  }

  /** A read shorter than MinTail, the empty read included, is never accepted or ejected. */
  lemma ShortReadContinues(subEd: SubEditDistance, s: string)
    requires |s| < MinTail
    ensures Outcome(subEd, s) == Continue
  {
  }

  /** A consequence of the spacings the code computes. A 200-character read made of the three
      linkers at offsets 0, 30 and 62 (30 and 32 apart) with filler between and after them starts
      with the seed; when the search reports their exact match ends 20, 50 and 82, the read is
      ejected, because the first spacing tested is the second match end, 50. */
  lemma EvenlySpacedLinkersEjected()
    ensures var s := Linkers[0] + seq(10, _ => 'C') + Linkers[1] + seq(12, _ => 'C') + Linkers[2]
                     + seq(118, _ => 'C');
      && |s| == 200
      && OccursAt(Linkers[0], s, 0) && OccursAt(Linkers[1], s, 30) && OccursAt(Linkers[2], s, 62)
      && Outcome((pat: string, text: string, budget: int) =>
           (0, if pat == Linkers[0] then 20 else if pat == Linkers[1] then 50 else 82), s) == Eject
  {
    var s := Linkers[0] + seq(10, _ => 'C') + Linkers[1] + seq(12, _ => 'C') + Linkers[2]
             + seq(118, _ => 'C');
    assert s[..|Seed|] == Seed;
    assert s[0..20] == Linkers[0];
    assert s[30..50] == Linkers[1];
    assert s[62..82] == Linkers[2];
  }

  /** A read as the basecaller hands it over; the decision is written into `alignmentData`. */
  class Result {
    var readId: string
    var sequence: string
    var alignmentData: seq<DummyAlignment>

    constructor (readId: string, sequence: string)
      ensures this.readId == readId && this.sequence == sequence && alignmentData == []
    {
      this.readId := readId;
      this.sequence := sequence;
      alignmentData := [];
    }
  }

  /** Writes the read's outcome into its alignment data, and nothing else; the linker search
      runs only once the seed has been seen. Returns the same read. */
  method HasBarcode(query: Result, subEd: SubEditDistance) returns (r: Result)
    modifies query`alignmentData
    ensures r == query
    ensures |query.alignmentData| <= 1
    ensures query.alignmentData == AlignmentsFor(Outcome(subEd, query.sequence))
  {
    if !Occurs(Seed, query.sequence) {
      query.alignmentData := [];
    } else {
      var positions := GetMostProbablePositions(query.sequence, subEd);
      query.alignmentData := AlignmentsFor(Classify(query.sequence, positions[..]));
    }
    r := query;
  }
}
