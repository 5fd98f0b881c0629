/** Estimating where the three linkers start in a read: `get_most_probable_positions`. */
module LinkerPositions {

  /** The linker motifs, searched for in this order; the first one carries the poly(A) run. */
  const Linkers: seq<string> := ["AAAAAAAAAAGAUUCAGCAG", "AUACGGUCUGGAUCGUUGAC", "UAGCACUGAGGAAUCAGUCC"]

  /** Nominal linker length, subtracted from a match end to estimate where the linker starts. */
  const AnchorLength := 20

  /** Edit-distance budget handed to the approximate search. */
  const MaxEditDistance := 10

  /** The scan stops as soon as fewer than this many characters follow a match end. */
  const MinRemaining := 15

  /** The estimate of a linker the scan never reaches. */
  const NotFound := -1

  /** The external approximate substring search `sub_edit_distance(pattern, text, max_ed)`,
      returning (edit distance, match end). Nothing is assumed about what it returns. */
  type SubEditDistance = (string, string, int) -> (int, int)

  /** The match end the search reports for linker `i`; the search always runs over the whole read. */
  function MatchEnd(subEd: SubEditDistance, s: string, i: nat): int
    requires i < |Linkers|
  {
    subEd(Linkers[i], s, MaxEditDistance).1
  }

  /** The cursor when linker `i` is searched: 0 for the first linker, the previous match end afterwards. */
  function Cursor(subEd: SubEditDistance, s: string, i: nat): int
    requires i < |Linkers|
  {
    if i == 0 then 0 else MatchEnd(subEd, s, i - 1)
  }

  /** Whether the scan gets as far as linker `i`: the first always, a later one only when
      at least MinRemaining characters follow the previous match end. */
  predicate Reached(subEd: SubEditDistance, s: string, i: nat)
    requires i < |Linkers|
  {
    i == 0 || (Reached(subEd, s, i - 1) && |s| - MatchEnd(subEd, s, i - 1) >= MinRemaining)
  }

  /** The estimate reported for linker `i`. */
  function Estimate(subEd: SubEditDistance, s: string, i: nat): int
    requires i < |Linkers|
  {
    if Reached(subEd, s, i) then Cursor(subEd, s, i) + MatchEnd(subEd, s, i) - AnchorLength else NotFound
  }

  /** All estimates, one per linker, in linker order. */
  function Estimates(subEd: SubEditDistance, s: string): seq<int>
  {
    seq(|Linkers|, i requires 0 <= i < |Linkers| => Estimate(subEd, s, i))
  }

  /** Once the scan stops it never resumes: the linkers reached form a prefix of the list. */
  lemma {:induction false} ReachedIsPrefix(subEd: SubEditDistance, s: string, i: nat, j: nat)
    requires i <= j < |Linkers|
    requires Reached(subEd, s, j)
    ensures Reached(subEd, s, i)
    decreases j - i
  {
    if i < j {
      ReachedIsPrefix(subEd, s, i, j - 1);
    }
  }

  /** The spacings the gates look at, as the code computes them: because every search runs over the
      whole read while the previous match end is added as an offset, the first spacing is the second
      linker's own match end and the second spacing is the difference of the third and first match ends. */
  lemma SpacingsAreMatchEnds(subEd: SubEditDistance, s: string)
    ensures Reached(subEd, s, 1) ==>
      Estimates(subEd, s)[1] - Estimates(subEd, s)[0] == MatchEnd(subEd, s, 1)
    ensures Reached(subEd, s, 2) ==>
      Estimates(subEd, s)[2] - Estimates(subEd, s)[1] == MatchEnd(subEd, s, 2) - MatchEnd(subEd, s, 0)
  {
  }

  /** Scans the linkers in order, writing one estimate per linker into a fresh array whose entries
      start at NotFound, and stops early once fewer than MinRemaining characters follow a match end. */
  method GetMostProbablePositions(s: string, subEd: SubEditDistance) returns (positions: array<int>)
    ensures fresh(positions)
    ensures positions.Length == |Linkers|
    ensures positions[..] == Estimates(subEd, s)
  {
    var n := |s|;
    positions := new int[|Linkers|](_ => NotFound);
    var start := 0;
    for i := 0 to |Linkers|
      invariant i < |Linkers| ==> Reached(subEd, s, i) && start == Cursor(subEd, s, i)
      invariant forall j :: 0 <= j < i ==> positions[j] == Estimate(subEd, s, j)
      invariant forall j :: i <= j < |Linkers| ==> positions[j] == NotFound
    {
      var (distance, end) := subEd(Linkers[i], s, MaxEditDistance);
      positions[i] := start + end - AnchorLength;
      start := end;
      var remaining := n - end;
      if remaining < MinRemaining {
        forall j | i < j < |Linkers|
          ensures !Reached(subEd, s, j)
        {
          if Reached(subEd, s, j) {
            ReachedIsPrefix(subEd, s, i + 1, j);
          }
        }
        break;
      }
    }
  }
}
