/** The default load balancer: RFC 2782 weighted selection (section "Usage
    rules" of RFC 2782) among the least-used servers of the first priority
    run, with a per-server use counter.

    The random draw of the Go library is a parameter `r` in `[0, total]`, so
    every operation here is a pure function of the server list. */
module DefaultLoadBalancer {
  import opened NetTypes

  /** A server tracked by the balancer: the SRV record plus the running weight
      sum and original position it gets while it is a candidate, and the
      number of times it was chosen. The counter starts at 0 and only grows,
      so it is a `nat`. */
  datatype Server = Server(srv: SRV, weightSum: int, selected: nat, originalIndex: int)

  /** The SRV records behind a server list, in order. */
  function Records(servers: seq<Server>): (rs: seq<SRV>)
    ensures |rs| == |servers|
  {
    seq(|servers|, i requires 0 <= i < |servers| => servers[i].srv)
  }

  /** Replaces the whole server list by the freshly retrieved records; all
      previous usage is dropped. */
  function ChangeServers(records: seq<SRV>): (servers: seq<Server>)
    ensures |servers| == |records|
    ensures forall i :: 0 <= i < |servers| ==> servers[i].srv == records[i] && servers[i].selected == 0
  {
    seq(|records|, i requires 0 <= i < |records| => Server(records[i], 0, 0, 0))
  }

  lemma ChangeServersKeepsRecords(records: seq<SRV>)
    ensures Records(ChangeServers(records)) == records
  {
  }

  /** The smallest use counter of the list, or -1 for an empty list. Written
      as the source's left-to-right scan: the value after the last element is
      computed from the value after the ones before it. */
  function MinimumUse(servers: seq<Server>): (m: int)
    ensures m == -1 <==> |servers| == 0
    ensures forall i :: 0 <= i < |servers| ==> m <= servers[i].selected
    ensures |servers| > 0 ==> exists i :: 0 <= i < |servers| && servers[i].selected == m
  {
    if |servers| == 0 then -1
    else
      var m := MinimumUse(servers[..|servers| - 1]);
      var last := servers[|servers| - 1].selected;
      if last < m || m == -1 then last else m
  }

  /** A freshly changed list has every server at the minimum, 0. */
  lemma ChangeServersDiscardsUse(records: seq<SRV>)
    requires |records| > 0
    ensures MinimumUse(ChangeServers(records)) == 0
    ensures forall i :: 0 <= i < |records| ==> ChangeServers(records)[i].selected == MinimumUse(ChangeServers(records))
  {
  }

  // ---------------------------------------------------------------------
  // Reference notions used to state what the candidate scan computes.

  /** Position of the first server used exactly `m` times, or `|servers|`. */
  function FirstUse(servers: seq<Server>, m: int): (f: nat)
    ensures f <= |servers|
    ensures f < |servers| ==> servers[f].selected == m
    ensures forall i :: 0 <= i < f ==> servers[i].selected != m
  {
    if |servers| == 0 then 0
    else if servers[0].selected == m then 0
    else 1 + FirstUse(servers[1..], m)
  }

  /** Position of the first server at or after `j` whose priority is not `p`,
      or `|servers|`. */
  function TierEndFrom(servers: seq<Server>, p: uint16, j: nat): (e: nat)
    requires j <= |servers|
    ensures j <= e <= |servers|
    ensures forall k :: j <= k < e ==> servers[k].srv.priority == p
    ensures e < |servers| ==> servers[e].srv.priority != p
    decreases |servers| - j
  {
    if j == |servers| || servers[j].srv.priority != p then j
    else TierEndFrom(servers, p, j + 1)
  }

  /** End of the run of equal priority that starts at position `f`. */
  function TierEnd(servers: seq<Server>, f: nat): (e: nat)
    requires f < |servers|
    ensures f < e <= |servers|
    ensures forall k :: f <= k < e ==> servers[k].srv.priority == servers[f].srv.priority
    ensures e < |servers| ==> servers[e].srv.priority != servers[f].srv.priority
  {
    TierEndFrom(servers, servers[f].srv.priority, f + 1)
  }

  /** Sum of the weights of a candidate list. */
  function SumWeights(c: seq<Server>): int
  {
    if |c| == 0 then 0 else SumWeights(c[..|c| - 1]) + c[|c| - 1].srv.weight as int
  }

  /** `x` stands for the server at its `originalIndex`, which lies in `lo..hi`
      and is used `m` times. */
  ghost predicate FromRun(servers: seq<Server>, m: int, lo: nat, hi: nat, x: Server)
  {
    && lo <= x.originalIndex < hi
    && x.originalIndex < |servers|
    && x.srv == servers[x.originalIndex].srv
    && x.selected == servers[x.originalIndex].selected == m
  }

  /** Some entry of `c` stands for position `i`. */
  ghost predicate Lists(c: seq<Server>, i: int)
  {
    exists k :: 0 <= k < |c| && c[k].originalIndex == i
  }

  /** Every entry of `c` stands for an `m`-used server in `lo..hi`. */
  ghost predicate RunEntries(servers: seq<Server>, m: int, lo: nat, hi: nat, c: seq<Server>)
  {
    forall k :: 0 <= k < |c| ==> FromRun(servers, m, lo, hi, c[k])
  }

  /** The entries of `c` keep list order. */
  ghost predicate RunOrdered(c: seq<Server>)
  {
    forall j, k :: 0 <= j < k < |c| ==> c[j].originalIndex < c[k].originalIndex
  }

  /** Every `m`-used server in `lo..hi` has an entry in `c`. */
  ghost predicate RunComplete(servers: seq<Server>, m: int, lo: nat, hi: nat, c: seq<Server>)
  {
    forall i :: lo <= i < hi && i < |servers| && servers[i].selected == m ==> Lists(c, i)
  }

  /** Each entry of `c` carries the sum of the weights up to and including it. */
  ghost predicate RunSums(c: seq<Server>)
  {
    forall k :: 0 <= k < |c| ==> c[k].weightSum == SumWeights(c[..k + 1])
  }

  /** `c` lists, in list order, exactly the servers at positions `lo..hi` used
      `m` times, and each entry carries the running weight sum up to it. */
  ghost predicate CandidateRun(servers: seq<Server>, m: int, lo: nat, hi: nat, c: seq<Server>)
  {
    && RunEntries(servers, m, lo, hi, c)
    && RunOrdered(c)
    && RunComplete(servers, m, lo, hi, c)
    && RunSums(c)
  }

  /** The server at position `hi` is not used `m` times: the run extends over
      it without a new entry. */
  lemma CandidateRunSkip(servers: seq<Server>, m: int, lo: nat, hi: nat, c: seq<Server>)
    requires hi < |servers| && servers[hi].selected != m
    requires CandidateRun(servers, m, lo, hi, c)
    ensures CandidateRun(servers, m, lo, hi + 1, c)
  {
    assert RunEntries(servers, m, lo, hi + 1, c) by {
      forall k | 0 <= k < |c| ensures FromRun(servers, m, lo, hi + 1, c[k]) {
        assert FromRun(servers, m, lo, hi, c[k]);
      }
    }
  }

  /** The entry the candidate loop appends for the server at position `i`
      when the candidates so far are `c`. */
  function Tagged(servers: seq<Server>, i: nat, c: seq<Server>): Server
    requires i < |servers|
  {
    servers[i].(weightSum := SumWeights(c) + servers[i].srv.weight as int, originalIndex := i)
  }

  lemma AppendKeepsSums(servers: seq<Server>, hi: nat, c: seq<Server>)
    requires hi < |servers|
    requires RunSums(c)
    ensures RunSums(c + [Tagged(servers, hi, c)])
  {
    var c' := c + [Tagged(servers, hi, c)];
    assert c'[..|c|] == c;
    assert c'[..|c| + 1] == c';
    forall k | 0 <= k < |c'|
      ensures c'[k].weightSum == SumWeights(c'[..k + 1])
    {
      if k < |c| {
        assert c'[..k + 1] == c[..k + 1];
      }
    }
  }

  lemma AppendKeepsComplete(servers: seq<Server>, m: int, lo: nat, hi: nat, c: seq<Server>)
    requires hi < |servers|
    requires RunComplete(servers, m, lo, hi, c)
    ensures RunComplete(servers, m, lo, hi + 1, c + [Tagged(servers, hi, c)])
  {
    var c' := c + [Tagged(servers, hi, c)];
    forall i | lo <= i < hi + 1 && i < |servers| && servers[i].selected == m
      ensures Lists(c', i)
    {
      if i == hi {
        assert c'[|c|].originalIndex == i;
      } else {
        assert Lists(c, i);
        var k :| 0 <= k < |c| && c[k].originalIndex == i;
        assert c'[k].originalIndex == i;
      }
    }
  }

  lemma AppendKeepsEntries(servers: seq<Server>, m: int, lo: nat, hi: nat, c: seq<Server>)
    requires lo <= hi < |servers| && servers[hi].selected == m
    requires RunEntries(servers, m, lo, hi, c)
    ensures RunEntries(servers, m, lo, hi + 1, c + [Tagged(servers, hi, c)])
    ensures RunOrdered(c) ==> RunOrdered(c + [Tagged(servers, hi, c)])
  {
    var c' := c + [Tagged(servers, hi, c)];
    forall k | 0 <= k < |c'| ensures FromRun(servers, m, lo, hi + 1, c'[k]) {
      if k < |c| {
        assert FromRun(servers, m, lo, hi, c[k]);
      }
    }
    if RunOrdered(c) {
      forall j, k | 0 <= j < k < |c'| ensures c'[j].originalIndex < c'[k].originalIndex {
        assert FromRun(servers, m, lo, hi, c[j]);
      }
    }
  }

  /** The server at position `hi` is used `m` times: the run extends over it
      by appending it with the next running sum. */
  lemma CandidateRunAppend(servers: seq<Server>, m: int, lo: nat, hi: nat, c: seq<Server>)
    requires lo <= hi < |servers| && servers[hi].selected == m
    requires CandidateRun(servers, m, lo, hi, c)
    ensures CandidateRun(servers, m, lo, hi + 1, c + [Tagged(servers, hi, c)])
  {
    AppendKeepsSums(servers, hi, c);
    AppendKeepsComplete(servers, m, lo, hi, c);
    AppendKeepsEntries(servers, m, lo, hi, c);
  }

  // ---------------------------------------------------------------------
  // The candidate scan of LoadBalance, one server at a time.

  /** State of the candidate loop: the priority of the run (-1 before the
      first candidate), the running total weight, the candidates so far, and
      whether the loop has left through its `break`. */
  datatype Scan = Scan(priority: int, totalWeight: int, candidates: seq<Server>, stopped: bool)

  /** One iteration of the candidate loop on the server at position `i`. */
  function ScanStep(st: Scan, s: Server, i: nat, minimumUse: int): Scan
  {
    if st.stopped then st
    else if st.priority != -1 && st.priority != s.srv.priority as int then st.(stopped := true)
    else if s.selected == minimumUse then
      var total := st.totalWeight + s.srv.weight as int;
      Scan(s.srv.priority as int, total, st.candidates + [s.(weightSum := total, originalIndex := i)], false)
    else st
  }

  function Min(a: int, b: int): int { if a <= b then a else b }

  /** Reference definition of the candidates among positions `lo..hi`: the
      servers used `m` times, in list order, each tagged with its position
      and the running weight sum. No priority logic and no early exit. */
  function Run(servers: seq<Server>, m: int, lo: nat, hi: nat): seq<Server>
    requires lo <= hi <= |servers|
    decreases hi - lo
  {
    if hi == lo then []
    else
      var c := Run(servers, m, lo, hi - 1);
      if servers[hi - 1].selected == m then c + [Tagged(servers, hi - 1, c)] else c
  }

  /** The reference definition has the properties of a candidate run. */
  lemma {:induction false} RunIsCandidateRun(servers: seq<Server>, m: int, lo: nat, hi: nat)
    requires lo <= hi <= |servers|
    ensures CandidateRun(servers, m, lo, hi, Run(servers, m, lo, hi))
    decreases hi - lo
  {
    if hi > lo {
      RunIsCandidateRun(servers, m, lo, hi - 1);
      var c := Run(servers, m, lo, hi - 1);
      if servers[hi - 1].selected == m {
        CandidateRunAppend(servers, m, lo, hi - 1, c);
      } else {
        CandidateRunSkip(servers, m, lo, hi - 1, c);
      }
    }
  }

  /** The loop invariant after the first `n` servers: before the first
      server used `m` times nothing is collected; from it on, the run's
      priority is that server's, the loop has stopped exactly when it passed
      the end of that priority run, the candidates are those of the
      reference definition between the two, and the total is the sum of
      their weights. */
  ghost predicate ScanInvariant(servers: seq<Server>, m: int, n: nat, st: Scan)
    requires n <= |servers|
  {
    var f := FirstUse(servers, m);
    if n <= f then st == Scan(-1, 0, [], false)
    else
      var e := TierEnd(servers, f);
      var c := Run(servers, m, f, Min(n, e));
      st == Scan(servers[f].srv.priority as int, SumWeights(c), c, e < n)
  }

  lemma SumWeightsAppend(c: seq<Server>, x: Server)
    ensures SumWeights(c + [x]) == SumWeights(c) + x.srv.weight as int
  {
    assert (c + [x])[..|c|] == c;
  }

  /** One more iteration keeps the loop invariant. */
  lemma ScanStepPreserves(servers: seq<Server>, m: int, n: nat, st: Scan)
    requires 0 < n <= |servers|
    requires ScanInvariant(servers, m, n - 1, st)
    ensures ScanInvariant(servers, m, n, ScanStep(st, servers[n - 1], n - 1, m))
  {
    var f := FirstUse(servers, m);
    if n - 1 < f {
      assert servers[n - 1].selected != m;
    } else if n - 1 == f {
      ScanAtFirst(servers, m, n, st);
    } else {
      ScanAfterFirst(servers, m, n, st);
    }
  }

  lemma ScanAtFirst(servers: seq<Server>, m: int, n: nat, st: Scan)
    requires 0 < n <= |servers| && n - 1 == FirstUse(servers, m)
    requires ScanInvariant(servers, m, n - 1, st)
    ensures ScanInvariant(servers, m, n, ScanStep(st, servers[n - 1], n - 1, m))
  {
    var e := TierEnd(servers, n - 1);
    assert Min(n, e) == n;
    SumWeightsAppend([], Tagged(servers, n - 1, []));
  }

  lemma ScanAfterFirst(servers: seq<Server>, m: int, n: nat, st: Scan)
    requires 0 < n <= |servers| && FirstUse(servers, m) < n - 1
    requires ScanInvariant(servers, m, n - 1, st)
    ensures ScanInvariant(servers, m, n, ScanStep(st, servers[n - 1], n - 1, m))
  {
    if n - 1 < TierEnd(servers, FirstUse(servers, m)) {
      ScanInsideRun(servers, m, n, st);
    } else {
      ScanPastRun(servers, m, n, st);
    }
  }

  lemma ScanInsideRun(servers: seq<Server>, m: int, n: nat, st: Scan)
    requires 0 < n <= |servers| && FirstUse(servers, m) < n - 1 < TierEnd(servers, FirstUse(servers, m))
    requires ScanInvariant(servers, m, n - 1, st)
    ensures ScanInvariant(servers, m, n, ScanStep(st, servers[n - 1], n - 1, m))
  {
    var i := n - 1;
    var f := FirstUse(servers, m);
    var e := TierEnd(servers, f);
    assert Min(n, e) == n && Min(i, e) == i;
    assert servers[i].srv.priority == servers[f].srv.priority;
    SumWeightsAppend(st.candidates, Tagged(servers, i, st.candidates));
  }

  lemma ScanPastRun(servers: seq<Server>, m: int, n: nat, st: Scan)
    requires 0 < n <= |servers| && FirstUse(servers, m) < n - 1 && TierEnd(servers, FirstUse(servers, m)) <= n - 1
    requires ScanInvariant(servers, m, n - 1, st)
    ensures ScanInvariant(servers, m, n, ScanStep(st, servers[n - 1], n - 1, m))
  {
    var e := TierEnd(servers, FirstUse(servers, m));
    assert Min(n, e) == e && Min(n - 1, e) == e;
  }

  /** The candidate loop run over the first `n` servers. */
  function ScanPrefix(servers: seq<Server>, m: int, n: nat): (st: Scan)
    requires n <= |servers|
    ensures ScanInvariant(servers, m, n, st)
  {
    if n == 0 then Scan(-1, 0, [], false)
    else
      var prev := ScanPrefix(servers, m, n - 1);
      ScanStepPreserves(servers, m, n, prev);
      ScanStep(prev, servers[n - 1], n - 1, m)
  }

  /** The candidate list LoadBalance draws from. */
  function Candidates(servers: seq<Server>): seq<Server>
  {
    ScanPrefix(servers, MinimumUse(servers), |servers|).candidates
  }

  /** The upper bound of the random draw. */
  function CandidateTotal(servers: seq<Server>): int
  {
    ScanPrefix(servers, MinimumUse(servers), |servers|).totalWeight
  }

  /** True when position `i` holds a server LoadBalance may draw: used the
      minimum number of times and inside the priority run that starts at the
      first such server. */
  ghost predicate IsCandidate(servers: seq<Server>, i: int)
  {
    var m := MinimumUse(servers);
    var f := FirstUse(servers, m);
    && f <= i < |servers|
    && i < TierEnd(servers, f)
    && servers[i].selected == m
  }

  /** The candidate loop ends with the reference candidates of the priority
      run that starts at the first least-used server. */
  lemma CandidatesAreRun(servers: seq<Server>)
    requires |servers| > 0
    ensures var f := FirstUse(servers, MinimumUse(servers));
      && f < |servers|
      && Candidates(servers) == Run(servers, MinimumUse(servers), f, TierEnd(servers, f))
      && CandidateTotal(servers) == SumWeights(Candidates(servers))
  {
    var f := FirstUse(servers, MinimumUse(servers));
    assert Min(|servers|, TierEnd(servers, f)) == TierEnd(servers, f);
  }

  /** The candidate list is empty only for an empty server list, and its last
      running sum is the bound of the draw. */
  lemma CandidatesCoverDraw(servers: seq<Server>)
    ensures var c := Candidates(servers);
      && (|c| == 0 <==> |servers| == 0)
      && (|c| > 0 ==> c[|c| - 1].weightSum == CandidateTotal(servers))
  {
    var c := Candidates(servers);
    if |servers| > 0 {
      var m := MinimumUse(servers);
      var f := FirstUse(servers, m);
      var e := TierEnd(servers, f);
      CandidatesAreRun(servers);
      RunIsCandidateRun(servers, m, f, e);
      assert Lists(c, f);
      assert c[..|c|] == c;
    }
  }

  /** Each candidate stands for a server LoadBalance may draw, with that
      server's record. */
  lemma CandidatesAreDrawable(servers: seq<Server>, k: int)
    requires 0 <= k < |Candidates(servers)|
    ensures var i := Candidates(servers)[k].originalIndex;
      && 0 <= i < |servers|
      && IsCandidate(servers, i)
      && Candidates(servers)[k].srv == servers[i].srv
  {
    var m := MinimumUse(servers);
    var f := FirstUse(servers, m);
    var e := TierEnd(servers, f);
    CandidatesAreRun(servers);
    RunIsCandidateRun(servers, m, f, e);
    assert FromRun(servers, m, f, e, Candidates(servers)[k]);
  }

  /** Each candidate carries the sum of the candidates' weights up to and
      including it, and the draw bound is the sum of all of them. */
  lemma CandidatesCarrySums(servers: seq<Server>)
    ensures RunSums(Candidates(servers))
    ensures CandidateTotal(servers) == SumWeights(Candidates(servers))
  {
    if |servers| > 0 {
      var m := MinimumUse(servers);
      var f := FirstUse(servers, m);
      CandidatesAreRun(servers);
      RunIsCandidateRun(servers, m, f, TierEnd(servers, f));
    }
  }

  /** What the candidate loop builds, stated without the loop: exactly the
      drawable positions, in list order, with their records and running
      weight sums, the draw bound being the sum of all their weights; the
      list is empty only when there are no servers. */
  lemma CandidatesSpec(servers: seq<Server>)
    ensures var c := Candidates(servers);
      && (|c| == 0 <==> |servers| == 0)
      && CandidateTotal(servers) == SumWeights(c)
      && (forall k :: 0 <= k < |c| ==> IsCandidate(servers, c[k].originalIndex))
      && (forall k :: 0 <= k < |c| ==> c[k].srv == servers[c[k].originalIndex].srv)
      && (forall i :: 0 <= i < |servers| && IsCandidate(servers, i) ==> Lists(c, i))
      && (forall j, k :: 0 <= j < k < |c| ==> c[j].originalIndex < c[k].originalIndex)
      && (forall k :: 0 <= k < |c| ==> c[k].weightSum == SumWeights(c[..k + 1]))
  {
    var c := Candidates(servers);
    CandidatesCoverDraw(servers);
    if |servers| > 0 {
      var m := MinimumUse(servers);
      var f := FirstUse(servers, m);
      var e := TierEnd(servers, f);
      CandidatesAreRun(servers);
      RunIsCandidateRun(servers, m, f, e);
      forall k | 0 <= k < |c|
        ensures IsCandidate(servers, c[k].originalIndex)
      {
        CandidatesAreDrawable(servers, k);
      }
    }
  }

  /** Every candidate shares the priority of the first least-used server. */
  lemma CandidatesShareOnePriority(servers: seq<Server>)
    requires |servers| > 0
    ensures var f := FirstUse(servers, MinimumUse(servers));
      && f < |servers|
      && forall k :: 0 <= k < |Candidates(servers)| ==>
           Candidates(servers)[k].srv.priority == servers[f].srv.priority
  {
    CandidatesSpec(servers);
  }

  /** Prefix sums of weights never decrease. */
  lemma {:induction false} PrefixSumsNondecreasing(c: seq<Server>, j: nat, k: nat)
    requires j <= k <= |c|
    ensures SumWeights(c[..j]) <= SumWeights(c[..k])
    decreases k - j
  {
    if j < k {
      PrefixSumsNondecreasing(c, j, k - 1);
      assert c[..k][..k - 1] == c[..k - 1];
    }
  }

  /** Running sums never decrease along the candidate list, and the last one
      is the bound of the draw. */
  lemma RunningSumsNondecreasing(servers: seq<Server>, j: int, k: int)
    requires 0 <= j <= k < |Candidates(servers)|
    ensures Candidates(servers)[j].weightSum <= Candidates(servers)[k].weightSum <= CandidateTotal(servers)
  {
    var c := Candidates(servers);
    CandidatesCarrySums(servers);
    assert c[j].weightSum == SumWeights(c[..j + 1]);
    assert c[k].weightSum == SumWeights(c[..k + 1]);
    PrefixSumsNondecreasing(c, j + 1, k + 1);
    PrefixSumsNondecreasing(c, k + 1, |c|);
    assert c[..|c|] == c;
  }
  // ---------------------------------------------------------------------
  // The weighted draw.

  /** Position of the first candidate whose running sum reaches `r`. */
  function Select(c: seq<Server>, r: int): (k: Option<nat>)
    ensures k.Some? ==> k.value < |c| && c[k.value].weightSum >= r
    ensures k.Some? ==> forall j :: 0 <= j < k.value ==> c[j].weightSum < r
    ensures k.None? ==> forall j :: 0 <= j < |c| ==> c[j].weightSum < r
  {
    if |c| == 0 then None
    else if c[0].weightSum >= r then Some(0)
    else
      match Select(c[1..], r)
      case None => None
      case Some(k) => Some(k + 1)
  }

  /** Result of one LoadBalance call: the endpoint handed back (empty and 0
      when nothing was chosen), the position of the chosen server, and the
      server list with its counter bumped. */
  datatype Outcome = Outcome(target: string, port: uint16, chosen: Option<nat>, servers: seq<Server>)

  /** Adds one use to the server at position `i`. */
  function Bump(servers: seq<Server>, i: nat): seq<Server>
    requires i < |servers|
  {
    servers[i := servers[i].(selected := servers[i].selected + 1)]
  }

  /** One balancing call with random draw `r`. */
  function LoadBalance(servers: seq<Server>, r: int): (o: Outcome)
    requires 0 <= r <= CandidateTotal(servers)
    // a server is found exactly when there is one to find
    ensures o.chosen.None? <==> |servers| == 0
    ensures o.chosen.None? ==> o.target == "" && o.port == 0 && o.servers == servers
    // the endpoint handed back is the chosen server's, and it is a candidate
    ensures o.chosen.Some? ==>
      var i := o.chosen.value;
      && i < |servers|
      && o.target == servers[i].srv.target
      && o.port == servers[i].srv.port
      && IsCandidate(servers, i)
    // it is the first candidate whose running sum reaches the draw
    ensures o.chosen.Some? ==>
      var c := Candidates(servers);
      exists k :: 0 <= k < |c| && c[k].originalIndex == o.chosen.value && c[k].weightSum >= r &&
        forall j :: 0 <= j < k ==> c[j].weightSum < r
    // exactly the chosen server's counter moves, by one; nothing else changes
    ensures |o.servers| == |servers|
    ensures forall j :: 0 <= j < |servers| ==>
      && o.servers[j].srv == servers[j].srv
      && o.servers[j].weightSum == servers[j].weightSum
      && o.servers[j].originalIndex == servers[j].originalIndex
      && o.servers[j].selected == servers[j].selected + (if o.chosen == Some(j) then 1 else 0)
  {
    CandidatesCoverDraw(servers);
    var c := Candidates(servers);
    match Select(c, r)
    case None =>
      Outcome("", 0, None, servers)
    case Some(k) =>
      CandidatesAreDrawable(servers, k);
      var i := c[k].originalIndex;
      Outcome(c[k].srv.target, c[k].srv.port, Some(i), Bump(servers, i))
  }

  // ---------------------------------------------------------------------
  // Properties across calls.

  /** Fairness: a server used more than the current minimum is never chosen. */
  lemma OverusedNeverChosen(servers: seq<Server>, r: int, i: nat)
    requires 0 <= r <= CandidateTotal(servers)
    requires i < |servers| && servers[i].selected > MinimumUse(servers)
    ensures LoadBalance(servers, r).chosen != Some(i)
  {
  }

  /** The minimum use count never goes down from one call to the next. */
  lemma MinimumUseNeverDecreases(servers: seq<Server>, r: int)
    requires 0 <= r <= CandidateTotal(servers)
    ensures MinimumUse(LoadBalance(servers, r).servers) >= MinimumUse(servers)
  {
    var o := LoadBalance(servers, r);
    if |servers| > 0 {
      var i :| 0 <= i < |o.servers| && o.servers[i].selected == MinimumUse(o.servers);
      assert o.servers[i].selected >= servers[i].selected;
    }
  }

  /** No two counters differ by more than one. */
  ghost predicate UsageBalanced(servers: seq<Server>)
  {
    forall i, j :: 0 <= i < |servers| && 0 <= j < |servers| ==> servers[i].selected <= servers[j].selected + 1
  }

  /** A fresh list is balanced, and every call keeps it balanced: the counters
      of all servers stay within one of each other forever. */
  lemma ChangeServersIsBalanced(records: seq<SRV>)
    ensures UsageBalanced(ChangeServers(records))
  {
  }

  lemma LoadBalanceKeepsUsageBalanced(servers: seq<Server>, r: int)
    requires 0 <= r <= CandidateTotal(servers)
    requires UsageBalanced(servers)
    ensures UsageBalanced(LoadBalance(servers, r).servers)
  {
    var o := LoadBalance(servers, r);
    var m := MinimumUse(servers);
    forall i, j | 0 <= i < |o.servers| && 0 <= j < |o.servers|
      ensures o.servers[i].selected <= o.servers[j].selected + 1
    {
      if o.chosen == Some(i) && o.chosen != Some(j) {
        assert servers[i].selected == m <= servers[j].selected;
      }
    }
  }

  /** Fairness restored: a server used strictly less than every other one is
      chosen next, whatever its weight and priority and whatever the draw. */
  lemma UniqueLeastUsedIsChosen(servers: seq<Server>, r: int, i: nat)
    requires 0 <= r <= CandidateTotal(servers)
    requires i < |servers|
    requires forall j :: 0 <= j < |servers| && j != i ==> servers[i].selected < servers[j].selected
    ensures LoadBalance(servers, r).chosen == Some(i)
  {
    var o := LoadBalance(servers, r);
    var k := o.chosen.value;
    if k != i {
      OverusedNeverChosen(servers, r, k);
    }
  }

  // ---------------------------------------------------------------------
  // Scenarios.

  /** Two servers of priority 10 with weights 200 and 0, as the resolver
      returns them. */
  function HeavyAndLight(): seq<SRV>
  {
    [SRV("server1.example.com.", 1111, 10, 200), SRV("server2.example.com.", 2222, 10, 0)]
  }

  /** On a fresh list both servers are candidates with running sums 200 and
      200, so every draw picks the heavy one first. */
  lemma HeavyChosenFirst(r1: int)
    requires 0 <= r1 <= 200
    ensures var s0 := ChangeServers(HeavyAndLight());
      && CandidateTotal(s0) == 200
      && var o1 := LoadBalance(s0, r1);
      && o1.target == "server1.example.com." && o1.port == 1111
      && |o1.servers| == 2
      && o1.servers[1].srv == HeavyAndLight()[1]
      && o1.servers[1].selected < o1.servers[0].selected
  {
    var s0 := ChangeServers(HeavyAndLight());
    ChangeServersDiscardsUse(HeavyAndLight());
    assert FirstUse(s0, 0) == 0;
    assert TierEnd(s0, 0) == 2;
    CandidatesAreRun(s0);
    var a := Run(s0, 0, 0, 1);
    assert a == [Tagged(s0, 0, [])];
    SumWeightsAppend([], a[0]);
    var c0 := Run(s0, 0, 0, 2);
    assert c0 == a + [Tagged(s0, 1, a)];
    SumWeightsAppend(a, Tagged(s0, 1, a));
    assert c0[0].weightSum >= r1;
    assert LoadBalance(s0, r1).chosen == Some(0);
  }

  /** Once the heavy server has been used, the light one is the only server
      at the minimum use count. */
  lemma LightChosenSecond(s1: seq<Server>, r2: int)
    requires |s1| == 2 && s1[1].srv == HeavyAndLight()[1] && s1[1].selected < s1[0].selected
    requires 0 <= r2 <= CandidateTotal(s1)
    ensures LoadBalance(s1, r2).target == "server2.example.com." && LoadBalance(s1, r2).port == 2222
  {
    UniqueLeastUsedIsChosen(s1, r2, 1);
  }

  /** Once the heavy server has been used, the light one is the only
      candidate, and its weight 0 leaves 0 as the only draw. */
  lemma LightOnlyCandidate(s1: seq<Server>)
    requires |s1| == 2 && s1[1].srv == HeavyAndLight()[1] && s1[1].selected < s1[0].selected
    ensures CandidateTotal(s1) == 0
  {
    var m := MinimumUse(s1);
    assert m == s1[1].selected;
    assert FirstUse(s1, m) == 1;
    assert TierEnd(s1, 1) == 2;
    CandidatesAreRun(s1);
    var c := Run(s1, m, 1, 2);
    assert c == [Tagged(s1, 1, [])];
    SumWeightsAppend([], c[0]);
  }

  lemma CandidateTotalNonnegative(servers: seq<Server>)
    ensures CandidateTotal(servers) >= 0
  {
    CandidatesCarrySums(servers);
    SumWeightsNonnegative(Candidates(servers));
  }

  lemma {:induction false} SumWeightsNonnegative(c: seq<Server>)
    ensures SumWeights(c) >= 0
  {
    if |c| > 0 {
      SumWeightsNonnegative(c[..|c| - 1]);
    }
  }

  /** The weight-200 and weight-0 servers of one priority: whatever the first
      draw, the heavy server is chosen first, and then the light one, because
      it is the only server at the minimum use count. */
  lemma LessUsedServerChosenNext(r1: int, r2: int)
    requires 0 <= r1 <= 200
    ensures var s0 := ChangeServers(HeavyAndLight());
      && CandidateTotal(s0) == 200
      && var o1 := LoadBalance(s0, r1);
      && o1.target == "server1.example.com." && o1.port == 1111
      && CandidateTotal(o1.servers) == 0
      && (0 <= r2 <= CandidateTotal(o1.servers) ==>
            && LoadBalance(o1.servers, r2).target == "server2.example.com."
            && LoadBalance(o1.servers, r2).port == 2222)
  {
    HeavyChosenFirst(r1);
    var s1 := LoadBalance(ChangeServers(HeavyAndLight()), r1).servers;
    LightOnlyCandidate(s1);
    if 0 <= r2 <= CandidateTotal(s1) {
      LightChosenSecond(s1, r2);
    }
  }

  /** A priority-10 server followed by a priority-20 server. */
  function TwoPriorities(): seq<SRV>
  {
    [SRV("a.example.com.", 1111, 10, 5), SRV("b.example.com.", 2222, 20, 7)]
  }

  /** On a fresh list the run of priority 10 holds only the first server. */
  lemma BestPriorityChosenFirst(r1: int)
    requires 0 <= r1 <= 5
    ensures var s0 := ChangeServers(TwoPriorities());
      && CandidateTotal(s0) == 5
      && LoadBalance(s0, r1).chosen == Some(0)
  {
    var s0 := ChangeServers(TwoPriorities());
    ChangeServersDiscardsUse(TwoPriorities());
    assert FirstUse(s0, 0) == 0;
    assert TierEnd(s0, 0) == 1;
    CandidatesAreRun(s0);
    var c0 := Run(s0, 0, 0, 1);
    assert c0 == [Tagged(s0, 0, [])];
    SumWeightsAppend([], c0[0]);
  }

  /** The minimum use count is taken over all servers, not per priority: once
      the only server of priority 10 has been used, the next call moves on to
      the priority 20 server, for every draw. */
  lemma FallbackByUseCounter(r1: int, r2: int)
    requires 0 <= r1 <= 5
    ensures var s0 := ChangeServers(TwoPriorities());
      && CandidateTotal(s0) == 5
      && var o1 := LoadBalance(s0, r1);
      && o1.target == "a.example.com."
      && (0 <= r2 <= CandidateTotal(o1.servers) ==> LoadBalance(o1.servers, r2).target == "b.example.com.")
  {
    BestPriorityChosenFirst(r1);
    var s1 := LoadBalance(ChangeServers(TwoPriorities()), r1).servers;
    assert s1[1].selected < s1[0].selected;
    if 0 <= r2 <= CandidateTotal(s1) {
      UniqueLeastUsedIsChosen(s1, r2, 1);
    }
  }
}
