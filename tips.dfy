/**
 * The static tip catalogs and the sampler both pages call after a
 * successful calculation. The random comparator sort is abstracted as a
 * permutation of the catalog's positions, supplied by the caller.
 */
module Tips {

  /** The `category` tag of a tip; the title and description are display text. */
  datatype Category =
    | Communication | Housing | Transport | Food | Health | Education
    | Savings | Services | Shopping | Credit | Goals | Budgeting

  datatype Tip = Tip(category: Category)

  /** `COUPLE_FINANCIAL_TIPS`, in catalog order. */
  const CoupleTips: seq<Tip> := [
    Tip(Communication), Tip(Housing), Tip(Transport), Tip(Food), Tip(Health), Tip(Education),
    Tip(Savings), Tip(Services), Tip(Shopping), Tip(Credit), Tip(Goals), Tip(Budgeting)
  ]

  /** `FINANCIAL_TIPS` of the single-earner page, in catalog order. */
  const IndividualTips: seq<Tip> := [
    Tip(Housing), Tip(Transport), Tip(Food), Tip(Health), Tip(Education),
    Tip(Savings), Tip(Services), Tip(Shopping), Tip(Credit), Tip(Goals)
  ]

  predicate Distinct<T(==)>(s: seq<T>) {
    forall i, j :: 0 <= i < j < |s| ==> s[i] != s[j]
  }

  /** `perm` lists each position `0 .. n-1` of an `n`-entry array once. */
  predicate IsPermutation(perm: seq<nat>, n: nat) {
    |perm| == n && (forall i :: 0 <= i < n ==> perm[i] < n) && Distinct(perm)
  }

  function Min(a: nat, b: nat): nat {
    if a <= b then a else b
  }

  /** The couple catalog lists each of its twelve tips once. */
  lemma CoupleCatalogDistinct()
    ensures |CoupleTips| == 12 && Distinct(CoupleTips)
  {
  }

  /** The individual catalog lists each of its ten tips once. */
  lemma IndividualCatalogDistinct()
    ensures |IndividualTips| == 10 && Distinct(IndividualTips)
  {
  }

  /** The set of the first `k` entries of a repetition-free sequence has `k` members. */
  lemma {:induction false} DistinctPrefixCard(s: seq<nat>, k: nat)
    requires Distinct(s) && k <= |s|
    ensures |set i | 0 <= i < k :: s[i]| == k
  {
    if k > 0 {
      DistinctPrefixCard(s, k - 1);
      var prev := set i | 0 <= i < k - 1 :: s[i];
      assert (set i | 0 <= i < k :: s[i]) == prev + {s[k - 1]};
      assert s[k - 1] !in prev;
    }
  }

  /** The positions `0 .. n-1` of an `n`-entry array. */
  function Positions(n: nat): (r: set<nat>)
    ensures forall j: nat :: j in r <==> j < n
    ensures |r| == n
  {
    if n == 0 then {} else Positions(n - 1) + {n - 1}
  }

  /** A permutation of `0 .. n-1` reaches every position (pigeonhole). */
  lemma PermutationOnto(perm: seq<nat>, n: nat, p: nat)
    requires IsPermutation(perm, n) && p < n
    ensures exists i :: 0 <= i < n && perm[i] == p
  {
    var hit := set i | 0 <= i < n :: perm[i];
    var range := Positions(n);
    DistinctPrefixCard(perm, n);
    assert hit <= range;
    if p !in hit {
      assert hit <= range - {p};
      assert |range - {p}| == n - 1;
      SubsetCard(hit, range - {p});
      assert false;
    }
  }

  lemma {:induction false} SubsetCard(a: set<nat>, b: set<nat>)
    requires a <= b
    ensures |a| <= |b|
  {
    if a != {} {
      var x :| x in a;
      SubsetCard(a - {x}, b - {x});
    }
  }

  /** `[...catalog].sort(random)`, with the random order given as `perm`. */
  function Shuffled<T>(catalog: seq<T>, perm: seq<nat>): (r: seq<T>)
    requires IsPermutation(perm, |catalog|)
    ensures |r| == |catalog|
    ensures forall i :: 0 <= i < |r| ==> r[i] == catalog[perm[i]]
  {
    seq(|catalog|, i requires 0 <= i < |catalog| => catalog[perm[i]])
  }

  /**
   * The shuffle rearranges the catalog: every entry of the result is a
   * catalog entry, every catalog entry is in the result, and a catalog
   * without repetitions gives a result without repetitions.
   */
  lemma ShuffledIsPermutation<T>(catalog: seq<T>, perm: seq<nat>)
    requires IsPermutation(perm, |catalog|)
    ensures forall t :: t in Shuffled(catalog, perm) <==> t in catalog
    ensures Distinct(catalog) ==> Distinct(Shuffled(catalog, perm))
  {
    var r := Shuffled(catalog, perm);
    forall t | t in catalog ensures t in r {
      var p :| 0 <= p < |catalog| && catalog[p] == t;
      PermutationOnto(perm, |catalog|, p);
      var i :| 0 <= i < |catalog| && perm[i] == p;
      assert r[i] == t;
    }
    if Distinct(catalog) {
      forall i, j | 0 <= i < j < |r| ensures r[i] != r[j] {
        assert perm[i] != perm[j];
      }
    }
  }

  /**
   * `getRandomTips(count)`: the first `count` tips of a shuffled copy of the
   * catalog (all of them when the catalog is shorter), drawn from the
   * catalog and never repeated.
   */
  function GetRandomTips<T>(catalog: seq<T>, perm: seq<nat>, count: nat): (r: seq<T>)
    requires IsPermutation(perm, |catalog|)
    ensures |r| == Min(count, |catalog|)
    ensures r == Shuffled(catalog, perm)[..|r|]
    ensures forall t :: t in r ==> t in catalog
    ensures Distinct(catalog) ==> Distinct(r)
  {
    var shuffled := Shuffled(catalog, perm);
    ShuffledIsPermutation(catalog, perm);
    var r := shuffled[..Min(count, |catalog|)];
    assert forall t :: t in r ==> t in shuffled;
    r
  }

  /** The couple page shows six distinct tips of its twelve. */
  lemma CoupleSample(perm: seq<nat>)
    requires IsPermutation(perm, |CoupleTips|)
    ensures |GetRandomTips(CoupleTips, perm, 6)| == 6
    ensures Distinct(GetRandomTips(CoupleTips, perm, 6))
    ensures forall t :: t in GetRandomTips(CoupleTips, perm, 6) ==> t in CoupleTips
  {
    CoupleCatalogDistinct();
  }

  /** The single-earner page shows four distinct tips of its ten. */
  lemma IndividualSample(perm: seq<nat>)
    requires IsPermutation(perm, |IndividualTips|)
    ensures |GetRandomTips(IndividualTips, perm, 4)| == 4
    ensures Distinct(GetRandomTips(IndividualTips, perm, 4))
    ensures forall t :: t in GetRandomTips(IndividualTips, perm, 4) ==> t in IndividualTips
  {
    IndividualCatalogDistinct();
  }
}
