/** The display order of candidate ions and the fold index that splits it into the
    universal ions (shown for every replicate) and the tail (shown only for the
    replicate whose own best ion it is). */
module IonOrder {
  import opened Records

  /** The ion every chemical is always plotted for. */
  const DefaultIon := "M+H"

  predicate Distinct(s: seq<string>) {
    forall i, j | 0 <= i < j < |s| :: s[i] != s[j]
  }

  // ---------------------------------------------------------------------------
  // Candidate ions

  /** HashSet.add: an element already present is not added again. Iteration order
      is modelled as insertion order. */
  function Add(ions: seq<string>, ion: string): seq<string> {
    if ion in ions then ions else ions + [ion]
  }

  /** The candidate set: the winner, the default ion, then each result's own best ion. */
  function CandidateIons(winner: string, results: seq<Replicate>): (r: seq<string>)
    ensures Distinct(r)
    ensures forall ion :: ion in r <==>
      ion == winner || ion == DefaultIon ||
      exists k | 0 <= k < |results| :: results[k].bestMetlinIon == ion
  {
    if |results| == 0 then
      Add(Add([], winner), DefaultIon)
    else
      var prefix := results[..|results| - 1];
      var r := Add(CandidateIons(winner, prefix), results[|results| - 1].bestMetlinIon);
      assert forall k | 0 <= k < |prefix| :: prefix[k] == results[k];
      r
  }

  /** Filling bestLocalIons with one add per result. */
  method CollectCandidateIons(winner: string, results: seq<Replicate>) returns (ions: seq<string>)
    ensures ions == CandidateIons(winner, results)
  {
    ions := Add(Add([], winner), DefaultIon);
    var k := 0;
    while k < |results|
      invariant 0 <= k <= |results|
      invariant ions == CandidateIons(winner, results[..k])
    {
      assert results[..k + 1][..k] == results[..k];
      ions := Add(ions, results[k].bestMetlinIon);
      k := k + 1;
    }
    assert results[..k] == results;
  }

  // ---------------------------------------------------------------------------
  // The comparator and the sort

  /** The anonymous comparator handed to Collections.sort. */
  function Compare(o1: string, o2: string, winner: string): (r: int)
    ensures r == -1 || r == 1
  {
    if o1 == winner && o2 != winner then -1
    else if o1 == DefaultIon && o2 != winner then -1
    else 1
  }

  /** The rank the comparator respects: winner, then the default ion, then the rest. */
  function Rank(ion: string, winner: string): nat {
    if ion == winner then 0 else if ion == DefaultIon then 1 else 2
  }

  /** On two different ions the comparator says "less" exactly when the rank is lower. */
  lemma CompareFollowsRank(o1: string, o2: string, winner: string)
    requires o1 != o2
    ensures Compare(o1, o2, winner) == -1 <==> Rank(o1, winner) < Rank(o2, winner)
  {
  }

  /** Two ions of the last rank each compare greater than the other: the comparator is
      not a total order, so nothing is claimed about the order among them. */
  lemma CompareNotAntisymmetric(o1: string, o2: string, winner: string)
    requires Rank(o1, winner) == 2 && Rank(o2, winner) == 2
    ensures Compare(o1, o2, winner) == 1 && Compare(o2, o1, winner) == 1
  {
  }

  /** The comparator is not reflexive either: unless it won, `M+H` compares less than
      itself. The small-array sort never compares an element with itself. */
  lemma CompareNotReflexive(winner: string)
    requires winner != DefaultIon
    ensures Compare(DefaultIon, DefaultIon, winner) == -1
  {
  }

  /** The elements of `s` of one rank, in their order in `s`. */
  function OfRank(s: seq<string>, winner: string, rank: nat): (r: seq<string>)
    ensures |r| <= |s|
    ensures forall ion | ion in r :: ion in s && Rank(ion, winner) == rank
  {
    if s == [] then []
    else (if Rank(s[0], winner) == rank then [s[0]] else []) + OfRank(s[1..], winner, rank)
  }

  /** Collections.sort with the comparator: a stable sort by rank. Among ions of the
      last rank it keeps the order in which the set was iterated. */
  function SortIons(pool: seq<string>, winner: string): (r: seq<string>)
    ensures multiset(r) == multiset(pool)
    ensures forall i, j | 0 <= i < j < |r| :: Rank(r[i], winner) <= Rank(r[j], winner)
    ensures forall i, j | 0 <= i < j < |r| && r[i] != r[j] :: Compare(r[j], r[i], winner) == 1
  {
    OfRankPartition(pool, winner);
    var r := OfRank(pool, winner, 0) + OfRank(pool, winner, 1) + OfRank(pool, winner, 2);
    assert forall i | 0 <= i < |r| :: r[i] in r;
    r
  }

  lemma OfRankPartition(s: seq<string>, winner: string)
    ensures multiset(OfRank(s, winner, 0) + OfRank(s, winner, 1) + OfRank(s, winner, 2)) == multiset(s)
  {
    forall x
      ensures multiset(OfRank(s, winner, 0) + OfRank(s, winner, 1) + OfRank(s, winner, 2))[x] == multiset(s)[x]
    {
      OfRankMultiplicity(s, winner, 0, x);
      OfRankMultiplicity(s, winner, 1, x);
      OfRankMultiplicity(s, winner, 2, x);
    }
  }

  /** Selecting one rank keeps every occurrence of an ion of that rank and no other ion. */
  lemma {:induction false} OfRankMultiplicity(s: seq<string>, winner: string, rank: nat, x: string)
    ensures multiset(OfRank(s, winner, rank))[x] == if Rank(x, winner) == rank then multiset(s)[x] else 0
  {
    if s != [] {
      OfRankMultiplicity(s[1..], winner, rank, x);
      assert s == [s[0]] + s[1..];
    }
  }

  lemma {:induction false} OfRankDistinct(s: seq<string>, winner: string, rank: nat)
    requires Distinct(s)
    ensures Distinct(OfRank(s, winner, rank))
  {
    if s != [] {
      assert Distinct(s[1..]);
      OfRankDistinct(s[1..], winner, rank);
      assert s[0] !in s[1..];
    }
  }

  /** In a duplicate-free sequence, a rank held only by `ion` selects exactly `ion`. */
  lemma {:induction false} OfRankSingle(s: seq<string>, winner: string, rank: nat, ion: string)
    requires Distinct(s) && ion in s && Rank(ion, winner) == rank
    requires forall x | x in s && Rank(x, winner) == rank :: x == ion
    ensures OfRank(s, winner, rank) == [ion]
  {
    assert Distinct(s[1..]);
    if s[0] == ion {
      assert ion !in s[1..];
      OfRankNone(s[1..], winner, rank);
    } else {
      OfRankSingle(s[1..], winner, rank, ion);
    }
  }

  lemma {:induction false} OfRankNone(s: seq<string>, winner: string, rank: nat)
    requires forall x | x in s :: Rank(x, winner) != rank
    ensures OfRank(s, winner, rank) == []
  {
    if s != [] {
      OfRankNone(s[1..], winner, rank);
    }
  }

  /** For a candidate pool, the sorted list is the winner, then the default ion when it
      is not the winner, then the other ions. */
  lemma SortedShape(pool: seq<string>, winner: string)
    requires Distinct(pool) && winner in pool && DefaultIon in pool
    ensures SortIons(pool, winner) ==
      [winner] + (if winner == DefaultIon then [] else [DefaultIon]) + OfRank(pool, winner, 2)
  {
    OfRankSingle(pool, winner, 0, winner);
    if winner == DefaultIon {
      OfRankNone(pool, winner, 1);
    } else {
      OfRankSingle(pool, winner, 1, DefaultIon);
    }
  }

  // ---------------------------------------------------------------------------
  // The fold index

  /** One past the last position of the default ion; 0 when it does not occur. */
  function Fold(ions: seq<string>): (r: nat)
    ensures r <= |ions|
    ensures DefaultIon in ions ==>
      1 <= r && ions[r - 1] == DefaultIon && forall j | r <= j < |ions| :: ions[j] != DefaultIon
    ensures DefaultIon !in ions ==> r == 0
  {
    if |ions| == 0 then 0
    else if ions[|ions| - 1] == DefaultIon then |ions|
    else
      var prefix := ions[..|ions| - 1];
      assert ions == prefix + [ions[|ions| - 1]];
      Fold(prefix)
  }

  /** The loop that sets foldIntoOnePageFromIndex. */
  method ComputeFold(ions: seq<string>) returns (fold: nat)
    ensures fold == Fold(ions)
  {
    fold := 0;
    var i := 0;
    while i < |ions|
      invariant 0 <= i <= |ions|
      invariant fold == Fold(ions[..i])
    {
      assert ions[..i + 1][..i] == ions[..i];
      if ions[i] == DefaultIon {
        fold := i + 1;
      }
      i := i + 1;
    }
    assert ions[..i] == ions;
  }

  // ---------------------------------------------------------------------------
  // The display order of one chemical

  function DisplayOrder(winner: string, results: seq<Replicate>): seq<string> {
    SortIons(CandidateIons(winner, results), winner)
  }

  /** The display order holds exactly the candidate ions, each as often as the set does. */
  lemma DisplayOrderIsPermutation(winner: string, results: seq<Replicate>)
    ensures multiset(DisplayOrder(winner, results)) == multiset(CandidateIons(winner, results))
    ensures forall ion :: ion in DisplayOrder(winner, results) <==>
      ion == winner || ion == DefaultIon ||
      exists k | 0 <= k < |results| :: results[k].bestMetlinIon == ion
  {
    var pool := CandidateIons(winner, results);
    var r := DisplayOrder(winner, results);
    forall ion
      ensures ion in r <==> ion in pool
    {
      assert ion in r <==> ion in multiset(r);
      assert ion in pool <==> ion in multiset(pool);
    }
  }

  /** The explicit form of the display order: winner, default ion unless it won, the rest. */
  lemma DisplayOrderShape(winner: string, results: seq<Replicate>)
    ensures var rest := OfRank(CandidateIons(winner, results), winner, 2);
      && DisplayOrder(winner, results) ==
         [winner] + (if winner == DefaultIon then [] else [DefaultIon]) + rest
      && Distinct(rest) && winner !in rest && DefaultIon !in rest
  {
    var pool := CandidateIons(winner, results);
    SortedShape(pool, winner);
    OfRankDistinct(pool, winner, 2);
  }

  /** The fold index is fixed by one occurrence of the default ion with none after it. */
  lemma FoldAt(s: seq<string>, k: nat)
    requires k < |s| && s[k] == DefaultIon
    requires forall j | k < j < |s| :: s[j] != DefaultIon
    ensures Fold(s) == k + 1
  {
    assert s[k] in s;
  }

  /** Facts about a list made of a short head and a rest holding neither head ion. */
  lemma HeadRest(head: seq<string>, rest: seq<string>, winner: string)
    requires head == [winner] + (if winner == DefaultIon then [] else [DefaultIon])
    requires Distinct(rest) && winner !in rest && DefaultIon !in rest
    ensures var r := head + rest;
      && Distinct(r)
      && r[0] == winner && r[|head| - 1] == DefaultIon
      && (forall j | |head| <= j < |r| :: r[j] != winner && r[j] != DefaultIon)
      && (forall j | 0 <= j < |head| :: r[j] == winner || r[j] == DefaultIon)
  {
    var r := head + rest;
    forall j | |head| <= j < |r|
      ensures r[j] == rest[j - |head|]
    {
    }
    forall j | 0 <= j < |rest|
      ensures rest[j] in rest
    {
    }
  }

  /** The display order is duplicate free, starts with the winner and puts the default
      ion before every ion that is neither the winner nor the default ion. */
  lemma DisplayOrderHead(winner: string, results: seq<Replicate>)
    ensures var r := DisplayOrder(winner, results);
      && Distinct(r)
      && |r| >= 1 && r[0] == winner
      && forall i, j | 0 <= i < |r| && 0 <= j < |r| && r[i] == DefaultIon && r[j] != winner && r[j] != DefaultIon :: i < j
  {
    DisplayOrderShape(winner, results);
    var rest := OfRank(CandidateIons(winner, results), winner, 2);
    var head := [winner] + (if winner == DefaultIon then [] else [DefaultIon]);
    HeadRest(head, rest, winner);
  }

  /** The fold index of the display order is 1 when the winner is the default ion and
      2 otherwise, and the default ion sits just before it. */
  lemma DisplayOrderFold(winner: string, results: seq<Replicate>)
    ensures var r := DisplayOrder(winner, results);
      && 1 <= Fold(r) <= 2
      && (Fold(r) == 1 <==> winner == DefaultIon)
      && r[Fold(r) - 1] == DefaultIon
  {
    DisplayOrderShape(winner, results);
    var r := DisplayOrder(winner, results);
    var rest := OfRank(CandidateIons(winner, results), winner, 2);
    var head := [winner] + (if winner == DefaultIon then [] else [DefaultIon]);
    HeadRest(head, rest, winner);
    FoldAt(r, |head| - 1);
  }
}
