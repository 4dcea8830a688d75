/** The greedy filter over scan candidates: keep a candidate while slots, its
    sector and its cluster allow it. */
module Diversification {
  import opened Numbers

  const MAX_PER_SECTOR := 4

  /** An empty sector name counts as unknown. */
  datatype Candidate = Candidate(code: string, sector: Option<string>, cluster: Option<int>)

  /** What the active sessions already use, and the limits in force. */
  datatype Gate = Gate(
    active: set<string>, maxHoldings: int, sectorCounts: map<string, int>,
    clusterEnabled: bool, maxPerCluster: int, clusterCounts: map<int, int>)

  function CountIn<K>(m: map<K, int>, k: K): int { if k in m then m[k] else 0 }

  function AvailableSlots(g: Gate): nat { MaxInt(0, g.maxHoldings - |g.active|) }

  predicate Sectored(c: Candidate) { c.sector.Some? && c.sector.value != "" }

  predicate Clustered(g: Gate, c: Candidate) { g.clusterEnabled && c.cluster.Some? }

  // ----- how many of a list belong to a sector or a cluster -----

  function SectorOf(sector: string): Candidate -> int {
    (c: Candidate) => if Sectored(c) && c.sector.value == sector then 1 else 0
  }

  function ClusterOf(g: Gate, cluster: int): Candidate -> int {
    (c: Candidate) => if Clustered(g, c) && c.cluster.value == cluster then 1 else 0
  }

  function InSector(kept: seq<Candidate>, sector: string): int { SumBy(kept, SectorOf(sector)) }

  function InCluster(g: Gate, kept: seq<Candidate>, cluster: int): int { SumBy(kept, ClusterOf(g, cluster)) }

  /** There is room for `c` beside the active sessions and the kept candidates. */
  predicate Fits(g: Gate, kept: seq<Candidate>, c: Candidate) {
    && |kept| < AvailableSlots(g)
    && (Sectored(c) ==> CountIn(g.sectorCounts, c.sector.value) + InSector(kept, c.sector.value) < MAX_PER_SECTOR)
    && (Clustered(g, c) ==>
          CountIn(g.clusterCounts, c.cluster.value) + InCluster(g, kept, c.cluster.value) < g.maxPerCluster)
  }

  function Filter(g: Gate, candidates: seq<Candidate>): seq<Candidate> {
    if |candidates| == 0 then []
    else
      var kept := Filter(g, candidates[..|candidates| - 1]);
      var c := candidates[|candidates| - 1];
      if c.code !in g.active && Fits(g, kept, c) then kept + [c] else kept
  }

  /** The loop of the program, with its running count maps. */
  method FilterCandidates(g: Gate, candidates: seq<Candidate>) returns (kept: seq<Candidate>)
    ensures kept == Filter(g, candidates)
  {
    var slots := AvailableSlots(g);
    var sectors, clusters := g.sectorCounts, g.clusterCounts;
    kept := [];
    for i := 0 to |candidates|
      invariant kept == Filter(g, candidates[..i])
      invariant forall s :: CountIn(sectors, s) == CountIn(g.sectorCounts, s) + InSector(kept, s)
      invariant forall k :: CountIn(clusters, k) == CountIn(g.clusterCounts, k) + InCluster(g, kept, k)
    {
      var c := candidates[i];
      ghost var before := kept;
      assert candidates[..i + 1][..i] == candidates[..i];
      if c.code in g.active {
        continue;
      }
      if |kept| >= slots {
        continue;
      }
      if Sectored(c) {
        var count := CountIn(sectors, c.sector.value);
        if count >= MAX_PER_SECTOR {
          continue;
        }
      }
      if Clustered(g, c) {
        var count := CountIn(clusters, c.cluster.value);
        if count >= g.maxPerCluster {
          continue;
        }
      }
      if Sectored(c) {
        sectors := sectors[c.sector.value := CountIn(sectors, c.sector.value) + 1];
      }
      if Clustered(g, c) {
        clusters := clusters[c.cluster.value := CountIn(clusters, c.cluster.value) + 1];
      }
      kept := kept + [c];
      KeptOneMore(g, before, c);
    }
    assert candidates[..|candidates|] == candidates;
  }

  lemma KeptOneMore(g: Gate, kept: seq<Candidate>, c: Candidate)
    ensures forall s :: InSector(kept + [c], s) == InSector(kept, s) + SectorOf(s)(c)
    ensures forall k :: InCluster(g, kept + [c], k) == InCluster(g, kept, k) + ClusterOf(g, k)(c)
  {
    forall s ensures InSector(kept + [c], s) == InSector(kept, s) + SectorOf(s)(c) {
      SumByAppend(kept, c, SectorOf(s));
    }
    forall k ensures InCluster(g, kept + [c], k) == InCluster(g, kept, k) + ClusterOf(g, k)(c) {
      SumByAppend(kept, c, ClusterOf(g, k));
    }
  }

  // ----- what the filter promises -----

  /** Strictly increasing positions that pick `kept` out of `candidates`. */
  ghost predicate Picks(at: seq<nat>, kept: seq<Candidate>, candidates: seq<Candidate>) {
    && |at| == |kept|
    && (forall i :: 0 <= i < |at| ==> at[i] < |candidates| && kept[i] == candidates[at[i]])
    && (forall i, j :: 0 <= i < j < |at| ==> at[i] < at[j])
  }

  /** The result keeps the order of the candidates and takes nobody active. */
  lemma {:induction false} KeepsOrder(g: Gate, candidates: seq<Candidate>) returns (at: seq<nat>)
    ensures Picks(at, Filter(g, candidates), candidates)
    ensures forall c :: c in Filter(g, candidates) ==> c.code !in g.active
  {
    if |candidates| == 0 {
      at := [];
    } else {
      var n := |candidates| - 1;
      at := KeepsOrder(g, candidates[..n]);
      if candidates[n].code !in g.active && Fits(g, Filter(g, candidates[..n]), candidates[n]) {
        at := at + [n];
      }
    }
  }

  /** Slots, sectors and clusters stay within their caps, except where the active
      sessions alone exceed them already. */
  ghost predicate WithinCaps(g: Gate, kept: seq<Candidate>) {
    && |kept| <= AvailableSlots(g)
    && |g.active| + |kept| <= MaxInt(g.maxHoldings, |g.active|)
    && (forall s :: CountIn(g.sectorCounts, s) + InSector(kept, s)
                    <= MaxInt(MAX_PER_SECTOR, CountIn(g.sectorCounts, s)))
    && (forall k :: CountIn(g.clusterCounts, k) + InCluster(g, kept, k)
                    <= MaxInt(g.maxPerCluster, CountIn(g.clusterCounts, k)))
  }

  lemma {:induction false} CapsHold(g: Gate, candidates: seq<Candidate>)
    ensures WithinCaps(g, Filter(g, candidates))
  {
    if |candidates| > 0 {
      var n := |candidates| - 1;
      CapsHold(g, candidates[..n]);
      KeptOneMore(g, Filter(g, candidates[..n]), candidates[n]);
    }
  }

  lemma {:induction false} CountsGrow(g: Gate, candidates: seq<Candidate>, n: nat)
    requires n <= |candidates|
    ensures |Filter(g, candidates[..n])| <= |Filter(g, candidates)|
    ensures forall s :: InSector(Filter(g, candidates[..n]), s) <= InSector(Filter(g, candidates), s)
    ensures forall k :: InCluster(g, Filter(g, candidates[..n]), k) <= InCluster(g, Filter(g, candidates), k)
    decreases |candidates|
  {
    if n < |candidates| {
      var m := |candidates| - 1;
      assert candidates[..m][..n] == candidates[..n];
      CountsGrow(g, candidates[..m], n);
      KeptOneMore(g, Filter(g, candidates[..m]), candidates[m]);
    } else {
      assert candidates[..n] == candidates;
    }
  }

  /** Nobody was left out who would still fit: at each position the candidate is
      active, or was kept, or breaks a cap even when appended at the end. */
  lemma {:induction false} NothingMoreFits(g: Gate, candidates: seq<Candidate>, n: nat)
    requires n < |candidates| && candidates[n].code !in g.active
    ensures candidates[n] in Filter(g, candidates) || !Fits(g, Filter(g, candidates), candidates[n])
  {
    assert candidates[..n + 1][..n] == candidates[..n];
    CountsGrow(g, candidates, n);
    if Fits(g, Filter(g, candidates[..n]), candidates[n]) {
      assert candidates[n] in Filter(g, candidates[..n + 1]);
      KeptStays(g, candidates, n + 1, candidates[n]);
    }
  }

  /** Why somebody who is not active was left out: all slots are taken by the active
      and the kept, or its sector has four with the active ones, or, with the gate on,
      its cluster has as many as it may have. */
  lemma LeftOutBecause(g: Gate, candidates: seq<Candidate>, n: nat)
    requires n < |candidates| && candidates[n].code !in g.active && candidates[n] !in Filter(g, candidates)
    ensures var kept, c := Filter(g, candidates), candidates[n];
      || |g.active| + |kept| >= g.maxHoldings
      || (c.sector.Some? && c.sector.value != ""
          && (if c.sector.value in g.sectorCounts then g.sectorCounts[c.sector.value] else 0)
             + |InSectorOf(kept, c.sector.value)| >= 4)
      || (g.clusterEnabled && c.cluster.Some?
          && (if c.cluster.value in g.clusterCounts then g.clusterCounts[c.cluster.value] else 0)
             + |InClusterOf(kept, c.cluster.value)| >= g.maxPerCluster)
  {
    NothingMoreFits(g, candidates, n);
    var kept, c := Filter(g, candidates), candidates[n];
    if Sectored(c) {
      SectorCount(kept, c.sector.value);
    }
    if Clustered(g, c) {
      ClusterCount(g, kept, c.cluster.value);
    }
  }

  /** The candidates of a list that name this sector, or this cluster. */
  function InSectorOf(kept: seq<Candidate>, sector: string): seq<Candidate> {
    if |kept| == 0 then []
    else
      InSectorOf(kept[..|kept| - 1], sector)
      + (if kept[|kept| - 1].sector == Some(sector) then [kept[|kept| - 1]] else [])
  }

  function InClusterOf(kept: seq<Candidate>, cluster: int): seq<Candidate> {
    if |kept| == 0 then []
    else
      InClusterOf(kept[..|kept| - 1], cluster)
      + (if kept[|kept| - 1].cluster == Some(cluster) then [kept[|kept| - 1]] else [])
  }

  lemma {:induction false} SectorCount(kept: seq<Candidate>, sector: string)
    requires sector != ""
    ensures InSector(kept, sector) == |InSectorOf(kept, sector)|
  {
    if |kept| > 0 {
      SectorCount(kept[..|kept| - 1], sector);
    }
  }

  lemma {:induction false} ClusterCount(g: Gate, kept: seq<Candidate>, cluster: int)
    requires g.clusterEnabled
    ensures InCluster(g, kept, cluster) == |InClusterOf(kept, cluster)|
  {
    if |kept| > 0 {
      ClusterCount(g, kept[..|kept| - 1], cluster);
    }
  }

  lemma {:induction false} KeptStays(g: Gate, candidates: seq<Candidate>, n: nat, c: Candidate)
    requires n <= |candidates| && c in Filter(g, candidates[..n])
    ensures c in Filter(g, candidates)
    decreases |candidates|
  {
    if n < |candidates| {
      var m := |candidates| - 1;
      assert candidates[..m][..n] == candidates[..n];
      KeptStays(g, candidates[..m], n, c);
    } else {
      assert candidates[..n] == candidates;
    }
  }

  /** Earlier candidates win: appending more candidates never removes a kept one. */
  lemma {:induction false} EarlierWins(g: Gate, first: seq<Candidate>, more: seq<Candidate>)
    ensures Filter(g, first) <= Filter(g, first + more)
  {
    if |more| == 0 {
      assert first + more == first;
    } else {
      assert (first + more)[..|first + more| - 1] == first + more[..|more| - 1];
      EarlierWins(g, first, more[..|more| - 1]);
    }
  }
}
