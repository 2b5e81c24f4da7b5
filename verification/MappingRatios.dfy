/** Converting a throughput at some block size into what it costs the device
    (pkg/utils.go: FindMappingRatio, ParseMappingRatio). */
module MappingRatios {
  import opened IoTypes

  const DEFAULT := MappingRatio(32000, 1.0)

  /** ParseMappingRatio keeps positive ratios only and sorts them by block size. */
  predicate Sorted(ratios: seq<MappingRatio>) {
    forall i, j | 0 <= i < j < |ratios| :: ratios[i].blockSize <= ratios[j].blockSize
  }

  predicate Usable(ratios: seq<MappingRatio>) {
    Sorted(ratios) && forall i | 0 <= i < |ratios| :: ratios[i].ratio > 0.0 && ratios[i].blockSize > 0
  }

  /** The search from entry `i` on, all entries before it being smaller than `bs`. */
  function FindFrom(bs: int, ratios: seq<MappingRatio>, i: nat): MappingRatio
    requires i <= |ratios|
    decreases |ratios| - i
  {
    if i == |ratios| then if ratios == [] then DEFAULT else ratios[|ratios| - 1]
    else if bs == ratios[i].blockSize then ratios[i]
    else if bs < ratios[i].blockSize then ratios[if i == 0 then 0 else i - 1]
    else FindFrom(bs, ratios, i + 1)
  }

  function Find(bs: int, ratios: seq<MappingRatio>): MappingRatio {
    FindFrom(bs, ratios, 0)
  }

  method FindMappingRatio(bs: int, ratios: seq<MappingRatio>) returns (m: MappingRatio)
    ensures m == Find(bs, ratios)
  {
    for idx := 0 to |ratios|
      invariant FindFrom(bs, ratios, idx) == Find(bs, ratios)
    {
      if bs == ratios[idx].blockSize {
        return ratios[idx];
      } else if bs < ratios[idx].blockSize {
        if idx == 0 {
          return ratios[idx];
        } else {
          return ratios[idx - 1];
        }
      }
    }
    if |ratios| > 0 {
      return ratios[|ratios| - 1];
    }
    return DEFAULT;
  }

  /** In a sorted table the search finds the largest block size that is not above the one asked for,
      or the smallest if all are; in an empty one, 32000 at a ratio of 1. */
  lemma {:induction false} FindsLargestBelow(bs: int, ratios: seq<MappingRatio>, i: nat)
    requires Sorted(ratios) && i <= |ratios|
    requires forall j | 0 <= j < i :: ratios[j].blockSize < bs
    ensures var m := FindFrom(bs, ratios, i);
            && (ratios == [] ==> m == MappingRatio(32000, 1.0))
            && (ratios != [] ==> m in ratios && if bs < ratios[0].blockSize then m == ratios[0] else m.blockSize <= bs)
            && (forall j | 0 <= j < |ratios| && ratios[j].blockSize <= bs :: ratios[j].blockSize <= m.blockSize)
    decreases |ratios| - i
  {
    if i < |ratios| && ratios[i].blockSize < bs {
      FindsLargestBelow(bs, ratios, i + 1);
    }
  }

  lemma FindUsable(bs: int, ratios: seq<MappingRatio>)
    requires Usable(ratios)
    ensures Find(bs, ratios).ratio > 0.0 && Find(bs, ratios).blockSize > 0
  {
    if ratios != [] {
      FindsLargestBelow(bs, ratios, 0);
    }
  }
}
