/** Placing several jobs on one machine and merging their schedules (merge_goals.py). */
module JobMerging {
  import opened Wrappers

  /** For every job the global rank of each of its ranks. */
  type Mapping = seq<seq<nat>>

  function Total(sizes: seq<nat>): nat {
    if sizes == [] then 0 else Total(sizes[..|sizes| - 1]) + sizes[|sizes| - 1]
  }

  predicate HasSizes(m: Mapping, sizes: seq<nat>) {
    |m| == |sizes| && forall j :: 0 <= j < |m| ==> |m[j]| == sizes[j]
  }

  predicate At(m: Mapping, j: int, k: int) {
    0 <= j < |m| && 0 <= k < |m[j]|
  }

  /** No global rank is used twice. */
  ghost predicate Injective(m: Mapping) {
    forall j, k, i, l :: At(m, j, k) && At(m, i, l) && m[j][k] == m[i][l] ==> j == i && k == l
  }

  /** The global ranks are exactly those below n. */
  ghost predicate Fills(m: Mapping, n: nat) {
    && (forall j, k :: At(m, j, k) ==> m[j][k] < n)
    && (forall g: nat :: g < n ==> Used(m, g))
  }

  ghost predicate Used(m: Mapping, g: nat) {
    exists j, k :: At(m, j, k) && m[j][k] == g
  }

  /** Jobs one after the other. */
  method PackedMapping(sizes: seq<nat>) returns (m: Mapping)
    ensures HasSizes(m, sizes) && Injective(m) && Fills(m, Total(sizes))
    ensures forall j, k :: At(m, j, k) ==> m[j][k] == Total(sizes[..j]) + k
  {
    m := [];
    var start := 0;
    assert sizes[..0] == [];
    for j := 0 to |sizes|
      invariant start == Total(sizes[..j]) && HasSizes(m, sizes[..j])
      invariant forall i, k :: At(m, i, k) ==> m[i][k] == Total(sizes[..i]) + k
      invariant Injective(m) && Fills(m, start)
    {
      assert sizes[..j + 1][..j] == sizes[..j];
      ghost var before := m;
      m := m + [seq(sizes[j], k requires 0 <= k < sizes[j] => start + k)];
      forall g: nat | g < start + sizes[j]
        ensures Used(m, g)
      {
        if g < start {
          assert Used(before, g);
          var i, k :| At(before, i, k) && before[i][k] == g;
          assert At(m, i, k) && m[i][k] == g;
        } else {
          assert At(m, j, g - start) && m[j][g - start] == g;
        }
      }
      start := start + sizes[j];
    }
    assert sizes[..|sizes|] == sizes;
  }

  // ---- round robin ----

  /** Ranks are dealt out in rounds: first the first rank of every job, then the second, ... */
  ghost predicate Dealt(m: Mapping) {
    forall j, k, i, l :: At(m, j, k) && At(m, i, l) && (k < l || (k == l && j < i)) ==> m[j][k] < m[i][l]
  }

  /** After `round` rounds and the first `next` jobs of another. */
  predicate Progress(m: Mapping, sizes: seq<nat>, round: nat, next: nat) {
    && |m| == |sizes|
    && forall j :: 0 <= j < |m| ==>
         |m[j]| == (var dealt := if j < next then round + 1 else round; if dealt < sizes[j] then dealt else sizes[j])
  }

  function Lengths(m: Mapping): seq<nat> {
    seq(|m|, j requires 0 <= j < |m| => |m[j]|)
  }

  lemma {:induction false} SomeRoom(a: seq<nat>, sizes: seq<nat>) returns (j: nat)
    requires |a| == |sizes| && Total(a) < Total(sizes)
    ensures j < |a| && a[j] < sizes[j]
  {
    var n := |a| - 1;
    if a[n] < sizes[n] {
      j := n;
    } else {
      j := SomeRoom(a[..n], sizes[..n]);
    }
  }

  lemma {:induction false} TotalUpdate(a: seq<nat>, j: nat, v: nat)
    requires j < |a|
    ensures Total(a[j := v]) == Total(a) - a[j] + v
  {
    var n := |a| - 1;
    if j < n {
      assert a[j := v][..n] == a[..n][j := v];
      TotalUpdate(a[..n], j, v);
    } else {
      assert a[j := v][..n] == a[..n];
    }
  }

  lemma {:induction false} TotalZero(n: nat)
    ensures Total(seq(n, i => 0)) == 0
  {
    if n > 0 {
      assert seq(n, i => 0)[..n - 1] == seq(n - 1, i => 0);
      TotalZero(n - 1);
    }
  }

  /** One more rank for a job. */
  lemma DealOne(m: Mapping, sizes: seq<nat>, round: nat, next: nat, i: nat)
    requires Progress(m, sizes, round, next) && next < |m| && |m[next]| < sizes[next]
    requires Dealt(m) && Fills(m, i) && Total(Lengths(m)) == i
    ensures var more := m[next := m[next] + [i]];
      Progress(more, sizes, round, next + 1) && Dealt(more) && Fills(more, i + 1) && Total(Lengths(more)) == i + 1
  {
    var more := m[next := m[next] + [i]];
    assert forall j, k :: At(more, j, k) <==> At(m, j, k) || (j == next && k == |m[next]|);
    assert Lengths(more) == Lengths(m)[next := |m[next]| + 1];
    TotalUpdate(Lengths(m), next, |m[next]| + 1);
    forall g: nat | g < i + 1
      ensures Used(more, g)
    {
      if g < i {
        assert Used(m, g);
        var j, k :| At(m, j, k) && m[j][k] == g;
        assert At(more, j, k) && more[j][k] == g;
      } else {
        assert At(more, next, |m[next]|) && more[next][|m[next]|] == g;
      }
    }
  }

  lemma DealtInjective(m: Mapping)
    requires Dealt(m)
    ensures Injective(m)
  {
    forall j, k, i, l | At(m, j, k) && At(m, i, l) && m[j][k] == m[i][l]
      ensures j == i && k == l
    {
    }
  }

  lemma {:induction false} FullWhenEqual(a: seq<nat>, sizes: seq<nat>)
    requires |a| == |sizes| && forall j :: 0 <= j < |a| ==> a[j] <= sizes[j]
    ensures Total(a) <= Total(sizes) && (Total(a) == Total(sizes) ==> a == sizes)
  {
    if |a| > 0 {
      FullWhenEqual(a[..|a| - 1], sizes[..|a| - 1]);
    }
  }

  predicate HasRoom(m: Mapping, sizes: seq<nat>, j: nat) {
    j < |m| && j < |sizes| && |m[j]| < sizes[j]
  }

  /** While not all ranks are dealt some job has room. */
  lemma RoomLeft(m: Mapping, sizes: seq<nat>) returns (j: nat)
    requires |m| == |sizes| && Total(Lengths(m)) < Total(sizes)
    ensures HasRoom(m, sizes, j)
  {
    j := SomeRoom(Lengths(m), sizes);
  }

  lemma NoneDealt(sizes: seq<nat>)
    ensures var m: Mapping := seq(|sizes|, j => []);
      Progress(m, sizes, 0, 0) && Dealt(m) && Fills(m, 0) && Total(Lengths(m)) == 0
  {
    var m: Mapping := seq(|sizes|, j => []);
    assert Lengths(m) == seq(|sizes|, j => 0);
    TotalZero(|sizes|);
  }

  lemma AllDealt(m: Mapping, sizes: seq<nat>, round: nat, next: nat)
    requires Progress(m, sizes, round, next) && Total(Lengths(m)) == Total(sizes)
    ensures HasSizes(m, sizes)
  {
    FullWhenEqual(Lengths(m), sizes);
    assert forall j :: 0 <= j < |m| ==> |m[j]| == Lengths(m)[j];
  }

  /** A job that has all its ranks is passed over. */
  lemma PassOver(m: Mapping, sizes: seq<nat>, round: nat, next: nat)
    requires Progress(m, sizes, round, next) && next < |m| && |m[next]| >= sizes[next]
    ensures Progress(m, sizes, round, next + 1)
  {
  }

  lemma NextRound(m: Mapping, sizes: seq<nat>, round: nat)
    requires Progress(m, sizes, round, |m|)
    ensures Progress(m, sizes, round + 1, 0)
  {
  }

  lemma Wrap(next: nat, n: nat)
    requires next < n
    ensures (next + 1) % n == if next + 1 == n then 0 else next + 1
  {
  }

  /** The scan over the jobs, each getting the next rank if it has not all of its own. */
  method Scan(sizes: seq<nat>) returns (res: Mapping)
    ensures HasSizes(res, sizes) && Fills(res, Total(sizes)) && Dealt(res)
  {
    hide Progress, Dealt, Fills, Lengths, Total, HasSizes;
    var numJobs, totalRanks := |sizes|, Total(sizes);
    res := seq(numJobs, j => []);
    var nextJob: nat, i: nat := 0, 0;
    NoneDealt(sizes);
    ghost var round: nat, room: nat := 0, 0;
    if i < totalRanks {
      room := RoomLeft(res, sizes);
    }
    while i < totalRanks
      invariant |res| == numJobs && nextJob <= numJobs && Progress(res, sizes, round, nextJob)
      invariant Dealt(res) && Fills(res, i) && Total(Lengths(res)) == i <= totalRanks
      invariant i < totalRanks ==> HasRoom(res, sizes, room) && nextJob < numJobs
      decreases totalRanks - i, if nextJob <= room then room - nextJob else room + numJobs - nextJob
    {
      if |res[nextJob]| < sizes[nextJob] {
        DealOne(res, sizes, round, nextJob, i);
        res := res[nextJob := res[nextJob] + [i]];
        i := i + 1;
        if i < totalRanks {
          room := RoomLeft(res, sizes);
        }
      } else {
        PassOver(res, sizes, round, nextJob);
      }
      if nextJob + 1 == numJobs {
        NextRound(res, sizes, round);
        round := round + 1;
      }
      Wrap(nextJob, numJobs);
      nextJob := (nextJob + 1) % numJobs;
    }
    AllDealt(res, sizes, round, nextJob);
  }

  /** Round robin fails when there is no job or a job without ranks, for then there is no largest
      rank to look at. */
  method RoundRobinMapping(sizes: seq<nat>) returns (r: Option<Mapping>)
    ensures r == None <==> sizes == [] || 0 in sizes
    ensures r != None ==> HasSizes(r.value, sizes) && Injective(r.value) && Fills(r.value, Total(sizes)) && Dealt(r.value)
  {
    var res := Scan(sizes);
    DealtInjective(res);
    r := if |res| == 0 || exists j :: 0 <= j < |res| && |res[j]| == 0 then None else Some(res);
  }

  // ---- merging ----

  /** A line of a rank's schedule: a send or receive, of which `head` are the words before the
      peer and `tail` those behind it, or anything else. */
  datatype Line = Comm(sends: bool, head: seq<string>, peer: nat, tail: seq<string>) | Other(text: string)

  /** A job's schedule, rank by rank. */
  type Schedule = seq<seq<Line>>

  /** The line with its peer's global rank, which must exist. */
  function Remap(l: Line, ranks: seq<nat>): (r: Line)
    requires l.Comm? ==> l.peer < |ranks|
  {
    if l.Comm? then l.(peer := ranks[l.peer]) else l
  }

  predicate PeersExist(lines: seq<Line>, n: nat) {
    forall x :: 0 <= x < |lines| && lines[x].Comm? ==> lines[x].peer < n
  }

  /** The jobs and their ranks by global rank. */
  ghost predicate Inverse(owner: map<nat, (nat, nat)>, m: Mapping) {
    && (forall j, k :: At(m, j, k) ==> m[j][k] in owner && owner[m[j][k]] == (j, k))
    && (forall g :: g in owner ==> At(m, owner[g].0, owner[g].1) && m[owner[g].0][owner[g].1] == g)
  }

  /** Which job and which of its ranks a global rank belongs to; there is no answer when a global
      rank is given out twice. */
  method RankMappingToJobRanks(m: Mapping) returns (r: Option<map<nat, (nat, nat)>>)
    ensures r == None <==> !Injective(m)
    ensures r != None ==> Inverse(r.value, m)
  {
    var res: map<nat, (nat, nat)> := map[];
    for job: nat := 0 to |m|
      invariant forall j, k :: At(m, j, k) && j < job ==> m[j][k] in res && res[m[j][k]] == (j, k)
      invariant forall g :: g in res ==> res[g].0 < job && At(m, res[g].0, res[g].1) && m[res[g].0][res[g].1] == g
    {
      for idx: nat := 0 to |m[job]|
        invariant forall j, k :: At(m, j, k) && (j < job || (j == job && k < idx)) ==> m[j][k] in res && res[m[j][k]] == (j, k)
        invariant forall g :: g in res ==>
          && (res[g].0 < job || (res[g].0 == job && res[g].1 < idx))
          && At(m, res[g].0, res[g].1) && m[res[g].0][res[g].1] == g
      {
        var globalRank := m[job][idx];
        if globalRank in res {
          assert At(m, job, idx);
          return None;
        }
        res := res[globalRank := (job, idx)];
      }
    }
    r := Some(res);
  }

  /** The schedule of each job has the ranks it was given, and its peers are among them. */
  predicate Fitting(jobs: seq<Schedule>, m: Mapping) {
    && |jobs| == |m|
    && forall j, k :: 0 <= j < |jobs| && 0 <= k < |jobs[j]| ==> PeersExist(jobs[j][k], |m[j]|)
  }

  predicate SizesAgree(jobs: seq<Schedule>, m: Mapping) {
    |jobs| == |m| && forall j :: 0 <= j < |m| ==> |jobs[j]| == |m[j]|
  }

  /** The lines of a rank with global peers; there is no result if a peer does not exist. */
  method WriteRankSched(lines: seq<Line>, ranks: seq<nat>) returns (out: Option<seq<Line>>)
    ensures out == None <==> !PeersExist(lines, |ranks|)
    ensures out != None ==> |out.value| == |lines| && forall x :: 0 <= x < |lines| ==> out.value[x] == Remap(lines[x], ranks)
  {
    var written: seq<Line> := [];
    for x := 0 to |lines|
      invariant PeersExist(lines[..x], |ranks|) && |written| == x
      invariant forall y :: 0 <= y < x ==> written[y] == Remap(lines[y], ranks)
    {
      var line := lines[x];
      if line.Comm? {
        if line.peer >= |ranks| {
          return None;
        }
        written := written + [line.(peer := ranks[line.peer])];
      } else {
        written := written + [line];
      }
    }
    out := Some(written);
  }

  /** The merged schedule: job j's rank k runs as global rank m[j][k], and all others idle. */
  ghost predicate Merged(jobs: seq<Schedule>, m: Mapping, merged: Schedule) {
    && SizesAgree(jobs, m) && Fitting(jobs, m)
    && (forall j, k :: At(m, j, k) ==> m[j][k] < |merged| && IsCopy(jobs[j][k], m[j], merged[m[j][k]]))
    && (forall g: nat :: g < |merged| && !Used(m, g) ==> merged[g] == [])
    && merged != [] && Used(m, |merged| - 1)
  }

  predicate IsCopy(lines: seq<Line>, ranks: seq<nat>, copy: seq<Line>) {
    PeersExist(lines, |ranks|) && |copy| == |lines| && forall x :: 0 <= x < |lines| ==> copy[x] == Remap(lines[x], ranks)
  }

  function Largest(g: set<nat>): (n: nat)
    requires g != {}
    ensures n in g && forall x :: x in g ==> x <= n
  {
    LargestExists(g);
    var n :| n in g && forall x :: x in g ==> x <= n;
    n
  }

  /** A finite set has a largest element. */
  lemma {:induction false} LargestOf(g: set<nat>) returns (n: nat)
    requires g != {}
    ensures n in g && forall x :: x in g ==> x <= n
    decreases |g|
  {
    n :| n in g;
    var rest := g - {n};
    if rest != {} {
      var m := LargestOf(rest);
      if n < m {
        n := m;
      }
    }
    forall x | x in g ensures x == n || x in rest || x <= n {
    }
  }

  lemma LargestExists(g: set<nat>)
    requires g != {}
    ensures exists n :: n in g && forall x :: x in g ==> x <= n
  {
    var n := LargestOf(g);
  }

  /** The block written for a global rank. */
  ghost predicate BlockOf(jobs: seq<Schedule>, m: Mapping, owner: map<nat, (nat, nat)>, g: nat, block: seq<Line>)
    requires SizesAgree(jobs, m) && Inverse(owner, m)
  {
    if g in owner then
      assert At(m, owner[g].0, owner[g].1);
      IsCopy(jobs[owner[g].0][owner[g].1], m[owner[g].0], block)
    else block == []
  }

  /** Merge the jobs; there is no result when the mapping is empty or not injective, a job has
      another number of ranks than its mapping, or a peer does not exist. */
  method GenerateMultiJobGoal(jobs: seq<Schedule>, m: Mapping) returns (out: Option<Schedule>)
    requires |jobs| == |m|
    ensures out == None <==> !Injective(m) || Empty(m) || !SizesAgree(jobs, m) || !Fitting(jobs, m)
    ensures out != None ==> Merged(jobs, m, out.value)
  {
    var globalMap := RankMappingToJobRanks(m);
    if globalMap == None {
      return None;
    }
    var owner := globalMap.value;
    if owner.Keys == {} {
      EmptyOwner(m, owner);
      return None;
    }
    var totalRanks := Largest(owner.Keys) + 1;
    assert !Empty(m) && owner.Keys != {} && Inverse(owner, m);
    if exists j :: 0 <= j < |m| && |jobs[j]| != |m[j]| {
      return None;
    }
    hide Injective, Inverse, Empty, BlockOf;
    var merged: Schedule := [];
    for globalRank: nat := 0 to totalRanks
      invariant |merged| == globalRank
      invariant forall g: nat :: g < globalRank ==> BlockOf(jobs, m, owner, g, merged[g])
    {
      var lines: seq<Line> := [];
      if globalRank in owner {
        Owned(m, owner, globalRank);
        var (job, jobRank) := owner[globalRank];
        var written := WriteRankSched(jobs[job][jobRank], m[job]);
        if written == None {
          return None;
        }
        lines := written.value;
      }
      BlockIs(jobs, m, owner, globalRank, lines);
      merged := merged + [lines];
    }
    out := Some(merged);
    AllCopied(jobs, m, owner, merged);
  }

  predicate Empty(m: Mapping) {
    forall j :: 0 <= j < |m| ==> m[j] == []
  }

  lemma Owned(m: Mapping, owner: map<nat, (nat, nat)>, g: nat)
    requires Inverse(owner, m) && g in owner
    ensures At(m, owner[g].0, owner[g].1) && m[owner[g].0][owner[g].1] == g
  {
  }

  lemma BlockIs(jobs: seq<Schedule>, m: Mapping, owner: map<nat, (nat, nat)>, g: nat, block: seq<Line>)
    requires SizesAgree(jobs, m) && Inverse(owner, m)
    requires g in owner ==> At(m, owner[g].0, owner[g].1) && IsCopy(jobs[owner[g].0][owner[g].1], m[owner[g].0], block)
    requires g !in owner ==> block == []
    ensures BlockOf(jobs, m, owner, g, block)
  {
  }

  lemma EmptyOwner(m: Mapping, owner: map<nat, (nat, nat)>)
    requires Inverse(owner, m)
    ensures owner.Keys == {} ==> Empty(m)
  {
    forall j | 0 <= j < |m|
      ensures m[j] == [] || m[j][0] in owner.Keys
    {
      assert m[j] != [] ==> At(m, j, 0);
    }
  }

  lemma AllCopied(jobs: seq<Schedule>, m: Mapping, owner: map<nat, (nat, nat)>, merged: Schedule)
    requires SizesAgree(jobs, m) && Inverse(owner, m) && |merged| > 0 && |merged| - 1 in owner
    requires forall g :: g in owner ==> g < |merged|
    requires forall g: nat :: g < |merged| ==> BlockOf(jobs, m, owner, g, merged[g])
    ensures Merged(jobs, m, merged)
  {
    forall j, k | At(m, j, k)
      ensures m[j][k] < |merged| && IsCopy(jobs[j][k], m[j], merged[m[j][k]])
    {
      assert BlockOf(jobs, m, owner, m[j][k], merged[m[j][k]]);
    }
    forall g: nat | g < |merged| && !Used(m, g)
      ensures merged[g] == []
    {
      assert BlockOf(jobs, m, owner, g, merged[g]);
      assert g !in owner;
    }
    Owned(m, owner, |merged| - 1);
  }

  // ---- what merging preserves ----

  /** Line x of rank a sends what line y of rank b receives; `tag` is what a line's tail says
      about its tag. */
  predicate Matched(s: Schedule, a: nat, x: nat, b: nat, y: nat, tag: seq<string> -> int) {
    && a < |s| && x < |s[a]| && b < |s| && y < |s[b]|
    && s[a][x].Comm? && s[b][y].Comm?
    && s[a][x].sends && !s[b][y].sends
    && s[a][x].peer == b && s[b][y].peer == a
    && tag(s[a][x].tail) == tag(s[b][y].tail)
  }

  /** Pairs of a job stay pairs, and there are no others: no message crosses jobs. */
  lemma MatchesPreserved(jobs: seq<Schedule>, m: Mapping, merged: Schedule, tag: seq<string> -> int,
                         j: nat, a: nat, x: nat, i: nat, b: nat, y: nat)
    requires Merged(jobs, m, merged) && Injective(m) && At(m, j, a) && At(m, i, b)
    ensures Matched(merged, m[j][a], x, m[i][b], y, tag) <==> j == i && Matched(jobs[j], a, x, b, y, tag)
  {
    assert IsCopy(jobs[j][a], m[j], merged[m[j][a]]) && IsCopy(jobs[i][b], m[i], merged[m[i][b]]);
    if Matched(merged, m[j][a], x, m[i][b], y, tag) {
      var to := jobs[j][a][x].peer;
      assert merged[m[j][a]][x] == Remap(jobs[j][a][x], m[j]);
      assert At(m, j, to) && m[j][to] == m[i][b];
      var back := jobs[i][b][y].peer;
      assert merged[m[i][b]][y] == Remap(jobs[i][b][y], m[i]);
      assert At(m, i, back) && m[i][back] == m[j][a];
    }
  }

  /** Every pair of the merged schedule comes from a job. */
  lemma MatchesComeFromJobs(jobs: seq<Schedule>, m: Mapping, merged: Schedule, tag: seq<string> -> int,
                            g: nat, x: nat, h: nat, y: nat) returns (j: nat, a: nat, b: nat)
    requires Merged(jobs, m, merged) && Injective(m) && Matched(merged, g, x, h, y, tag)
    ensures At(m, j, a) && At(m, j, b) && m[j][a] == g && m[j][b] == h && Matched(jobs[j], a, x, b, y, tag)
  {
    assert Used(m, g) && Used(m, h);
    var j0, a0 :| At(m, j0, a0) && m[j0][a0] == g;
    var i0, b0 :| At(m, i0, b0) && m[i0][b0] == h;
    MatchesPreserved(jobs, m, merged, tag, j0, a0, x, i0, b0, y);
    j, a, b := j0, a0, b0;
  }
}
