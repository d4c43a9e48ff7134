/**
 * The cycle sequencer: each cycle shows the catalog entry at the batch
 * index modulo the catalog's length and, when its timeline completes,
 * starts the next cycle with the batch index plus one.  The first
 * cycle starts at batch index 0.
 */
module Cycle {

  /** One catalog entry, as loaded; never changed after loading. */
  datatype Product = Product(name: string, price: string, meta: string, imageUrl: string)

  /**
   * What one cycle does: it shows the product at `index` and, on
   * completion, chains to batch index `next`; or, for an empty catalog,
   * it fails before any timeline is built and nothing is chained.
   */
  datatype CycleStep = Shown(index: nat, product: Product, next: nat) | Halted

  /** One cycle for `batchIndex`. */
  function AnimateCycle(catalog: seq<Product>, batchIndex: nat): (r: CycleStep)
    ensures r.Halted? <==> |catalog| == 0
    ensures r.Shown? ==> r.index < |catalog| && r.product == catalog[r.index] && r.next == batchIndex + 1
    ensures r.Shown? ==> batchIndex == (batchIndex / |catalog|) * |catalog| + r.index
  {
    if |catalog| == 0 then Halted
    else
      var index := batchIndex % |catalog|;
      Shown(index, catalog[index], batchIndex + 1)
  }

  /** The `n`-th cycle of the chain that begins with a cycle for `batchIndex` (the 0-th is that cycle). */
  function CycleFrom(catalog: seq<Product>, batchIndex: nat, n: nat): CycleStep
    decreases n
  {
    var step := AnimateCycle(catalog, batchIndex);
    if n == 0 then step
    else match step
      case Halted => Halted
      case Shown(_, _, next) => CycleFrom(catalog, next, n - 1)
  }

  /** The `n`-th cycle after the sequencer starts at batch index 0. */
  function NthCycle(catalog: seq<Product>, n: nat): CycleStep {
    CycleFrom(catalog, 0, n)
  }

  /** Following the chain `n` times is the same as one cycle for the batch index `n` further on. */
  lemma {:induction false} ChainAdvances(catalog: seq<Product>, batchIndex: nat, n: nat)
    ensures CycleFrom(catalog, batchIndex, n) == AnimateCycle(catalog, batchIndex + n)
    decreases n
  {
    if n > 0 && |catalog| > 0 {
      ChainAdvances(catalog, batchIndex + 1, n - 1);
    }
  }

  /** For a non-empty catalog the `n`-th cycle shows entry `n mod len` and chains to batch index `n + 1`. */
  lemma NthCycleShows(catalog: seq<Product>, n: nat)
    requires |catalog| > 0
    ensures NthCycle(catalog, n) == Shown(n % |catalog|, catalog[n % |catalog|], n + 1)
  {
    ChainAdvances(catalog, 0, n);
  }

  /** With an empty catalog the first cycle fails and no cycle ever shows a product. */
  lemma EmptyCatalogShowsNothing(catalog: seq<Product>, n: nat)
    requires |catalog| == 0
    ensures NthCycle(catalog, n) == Halted
  {
    ChainAdvances(catalog, 0, n);
  }

  lemma MulAtLeast(x: int, b: int)
    requires x >= 1 && b > 0
    ensures x * b >= b
  {
  }

  /** Euclidean division is determined by its quotient-remainder decomposition. */
  lemma ModUnique(a: int, b: int, q: int, r: int)
    requires b > 0 && 0 <= r < b && a == q * b + r
    ensures a % b == r && a / b == q
  {
    var d := q - a / b;
    assert d * b == q * b - (a / b) * b;
    assert d * b == a % b - r;
    if d >= 1 {
      MulAtLeast(d, b);
      assert false;
    } else if d <= -1 {
      MulAtLeast(-d, b);
      assert false;
    }
  }

  /** Consecutive cycles show consecutive entries, wrapping from the last entry to the first. */
  lemma NextCycleShowsNextEntry(catalog: seq<Product>, n: nat)
    requires |catalog| > 0
    ensures NthCycle(catalog, n).Shown? && NthCycle(catalog, n + 1).Shown?
    ensures NthCycle(catalog, n + 1).index ==
      if NthCycle(catalog, n).index + 1 == |catalog| then 0 else NthCycle(catalog, n).index + 1
  {
    NthCycleShows(catalog, n);
    NthCycleShows(catalog, n + 1);
    var len := |catalog|;
    var q, r := n / len, n % len;
    assert n == q * len + r;
    if r + 1 == len {
      assert n + 1 == (q + 1) * len + 0;
      ModUnique(n + 1, len, q + 1, 0);
    } else {
      assert n + 1 == q * len + (r + 1);
      ModUnique(n + 1, len, q, r + 1);
    }
  }

  /** Every `len` cycles the same entry comes round again. */
  lemma CyclesRepeat(catalog: seq<Product>, n: nat)
    requires |catalog| > 0
    ensures NthCycle(catalog, n).Shown? && NthCycle(catalog, n + |catalog|).Shown?
    ensures NthCycle(catalog, n + |catalog|).index == NthCycle(catalog, n).index
    ensures NthCycle(catalog, n + |catalog|).product == NthCycle(catalog, n).product
  {
    NthCycleShows(catalog, n);
    NthCycleShows(catalog, n + |catalog|);
    var len := |catalog|;
    var q, r := n / len, n % len;
    assert n + len == (q + 1) * len + r;
    ModUnique(n + len, len, q + 1, r);
  }

  /** Within any `len` consecutive cycles every entry of the catalog is shown. */
  lemma EveryEntryShown(catalog: seq<Product>, start: nat, j: nat) returns (n: nat)
    requires j < |catalog|
    ensures start <= n < start + |catalog|
    ensures NthCycle(catalog, n) == Shown(j, catalog[j], n + 1)
  {
    var len := |catalog|;
    var q, r := start / len, start % len;
    assert start == q * len + r;
    if r <= j {
      n := start + (j - r);
      assert n == q * len + j;
      ModUnique(n, len, q, j);
    } else {
      n := start + (len - r) + j;
      assert n == (q + 1) * len + j;
      ModUnique(n, len, q + 1, j);
    }
    NthCycleShows(catalog, n);
  }

  /** A two-entry catalog: the first cycle shows A, the second B, the third A again. */
  lemma TwoEntryCatalog(a: Product, b: Product)
    ensures NthCycle([a, b], 0).product == a
    ensures NthCycle([a, b], 1).product == b
    ensures NthCycle([a, b], 2).product == a
  {
    NthCycleShows([a, b], 0);
    NthCycleShows([a, b], 1);
    NthCycleShows([a, b], 2);
  }
}
