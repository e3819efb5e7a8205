/** The AllGather completion time on a tiered fabric: batches of blocks are released shell by
    shell and queue at one link (_gen_rsag_tables.py and model_checks/verify_models.py). */
module ShellMaximum {

  /** Shell s releases batch[s] blocks at time release[s]; a block takes tau. */
  datatype Shells = Shells(release: seq<real>, batch: seq<nat>, tau: real)

  predicate Valid(m: Shells) {
    |m.release| == |m.batch| > 0 && m.tau >= 0.0 && m.release[0] >= 0.0
  }

  /** Deeper shells are released no earlier. */
  predicate InOrder(m: Shells) {
    forall s, d :: 0 <= s <= d < |m.release| ==> m.release[s] <= m.release[d]
  }

  /** The time k blocks take. */
  function Work(k: nat, tau: real): real {
    k as real * tau
  }

  lemma WorkAdds(j: nat, k: nat, tau: real)
    ensures Work(j + k, tau) == Work(j, tau) + Work(k, tau)
    ensures tau >= 0.0 ==> Work(k, tau) >= 0.0
  {
  }

  /** The blocks of shell s and beyond. */
  function Beyond(batch: seq<nat>, s: nat): nat
    requires s <= |batch|
    decreases |batch| - s
  {
    if s == |batch| then 0 else batch[s] + Beyond(batch, s + 1)
  }

  /** Nothing can be over before shell s has been released and all from there on are served. */
  function Bound(m: Shells, s: nat): real
    requires Valid(m) && s < |m.batch|
  {
    m.release[s] + Work(Beyond(m.batch, s), m.tau)
  }

  /** The busy-period recursion after k shells. */
  function Busy(m: Shells, k: nat): real
    requires Valid(m) && k <= |m.batch|
  {
    if k == 0 then 0.0
    else
      var before := Busy(m, k - 1);
      (if before >= m.release[k - 1] then before else m.release[k - 1]) + Work(m.batch[k - 1], m.tau)
  }

  /** A largest bound. */
  predicate Binds(m: Shells, s: nat) {
    Valid(m) && s < |m.batch| && forall d :: 0 <= d < |m.batch| ==> Bound(m, d) <= Bound(m, s)
  }

  /** After k shells the remaining work leads to a bound that is as large as those of the shells
      so far. */
  lemma {:induction false} BusyIsMaximum(m: Shells, k: nat)
    requires Valid(m) && 0 < k <= |m.batch|
    ensures forall s :: 0 <= s < k ==> Bound(m, s) <= Busy(m, k) + Work(Beyond(m.batch, k), m.tau)
    ensures exists s :: 0 <= s < k && Bound(m, s) == Busy(m, k) + Work(Beyond(m.batch, k), m.tau)
  {
    WorkAdds(m.batch[k - 1], Beyond(m.batch, k), m.tau);
    var here := Busy(m, k) + Work(Beyond(m.batch, k), m.tau);
    assert here == (if Busy(m, k - 1) >= m.release[k - 1] then Busy(m, k - 1) else m.release[k - 1])
                   + Work(Beyond(m.batch, k - 1), m.tau);
    if k == 1 {
      assert Bound(m, 0) == here;
    } else {
      BusyIsMaximum(m, k - 1);
      var s :| 0 <= s < k - 1 && Bound(m, s) == Busy(m, k - 1) + Work(Beyond(m.batch, k - 1), m.tau);
      if Busy(m, k - 1) >= m.release[k - 1] {
        assert Bound(m, s) == here;
      } else {
        assert Bound(m, k - 1) == here;
      }
    }
  }

  /** The recursion and the closed form agree. */
  lemma RecursionIsMaximum(m: Shells)
    requires Valid(m)
    ensures forall s :: 0 <= s < |m.batch| ==> Bound(m, s) <= Busy(m, |m.batch|)
    ensures exists s :: Binds(m, s) && Bound(m, s) == Busy(m, |m.batch|)
  {
    var n := |m.batch|;
    BusyIsMaximum(m, n);
    assert Work(0, m.tau) == 0.0;
    var s :| 0 <= s < n && Bound(m, s) == Busy(m, n) + Work(Beyond(m.batch, n), m.tau);
    assert Binds(m, s);
  }

  method Recur(m: Shells) returns (time: real)
    requires Valid(m)
    ensures time == Busy(m, |m.batch|)
  {
    time := 0.0;
    for s := 0 to |m.batch|
      invariant time == Busy(m, s)
    {
      time := (if time >= m.release[s] then time else m.release[s]) + m.batch[s] as real * m.tau;
    }
  }

  /** Serve the batches in order of release, and remember the shell that started the last busy
      period. */
  method ServeBatches(m: Shells) returns (time: real, start: int)
    requires Valid(m)
    ensures time == Busy(m, |m.batch|)
    ensures start == -1 ==> m.release[0] == 0.0 && Binds(m, 0) && Bound(m, 0) == time
    ensures start != -1 ==> 0 <= start && Binds(m, start) && Bound(m, start) == time
  {
    time, start := 0.0, -1;
    WorkAdds(0, Beyond(m.batch, 0), m.tau);
    for s := 0 to |m.batch|
      invariant -1 <= start < s && time == Busy(m, s)
      invariant var first := if start == -1 then 0 else start;
        (if start == -1 then 0.0 else m.release[first]) + Work(Beyond(m.batch, first), m.tau) == time + Work(Beyond(m.batch, s), m.tau)
      invariant start == -1 && s > 0 ==> m.release[0] <= 0.0
    {
      if time < m.release[s] {
        time, start := m.release[s], s;
      }
      WorkAdds(m.batch[s], Beyond(m.batch, s + 1), m.tau);
      time := time + m.batch[s] as real * m.tau;
    }
    assert Work(0, m.tau) == 0.0;
    RecursionIsMaximum(m);
  }

  // ---- every schedule ----

  /** A block of a shell served from some time on. */
  datatype Slot = Slot(shell: nat, start: real)

  function CountOf(sch: seq<Slot>, s: nat): nat {
    if sch == [] then 0 else CountOf(sch[..|sch| - 1], s) + if sch[|sch| - 1].shell == s then 1 else 0
  }

  function CountBeyond(sch: seq<Slot>, s: nat): nat {
    if sch == [] then 0 else CountBeyond(sch[..|sch| - 1], s) + if sch[|sch| - 1].shell >= s then 1 else 0
  }

  /** One server: blocks are served one at a time, none before its shell is released. */
  ghost predicate OneServer(m: Shells, sch: seq<Slot>) {
    && Valid(m)
    && (forall i :: 0 <= i < |sch| ==> sch[i].shell < |m.release| && sch[i].start >= m.release[sch[i].shell])
    && (forall i, j :: 0 <= i < j < |sch| && j == i + 1 ==> sch[i].start + m.tau <= sch[j].start)
  }

  /** All blocks are served. */
  predicate ServesAll(m: Shells, sch: seq<Slot>) {
    forall s :: 0 <= s < |m.batch| ==> CountOf(sch, s) == m.batch[s]
  }

  function Completion(m: Shells, sch: seq<Slot>): real
    requires sch != []
  {
    sch[|sch| - 1].start + m.tau
  }

  lemma {:induction false} BeyondCounts(m: Shells, sch: seq<Slot>, s: nat)
    requires OneServer(m, sch) && ServesAll(m, sch) && s <= |m.batch|
    ensures CountBeyond(sch, s) == Beyond(m.batch, s)
    decreases |m.batch| - s
  {
    if s == |m.batch| {
      NoneBeyond(m, sch, s);
    } else {
      BeyondCounts(m, sch, s + 1);
      CountSplits(sch, s);
    }
  }

  lemma {:induction false} NoneBeyond(m: Shells, sch: seq<Slot>, s: nat)
    requires s == |m.batch| && OneServer(m, sch)
    ensures CountBeyond(sch, s) == 0
  {
    if sch != [] {
      NoneBeyond(m, sch[..|sch| - 1], s);
    }
  }

  lemma {:induction false} CountSplits(sch: seq<Slot>, s: nat)
    ensures CountBeyond(sch, s) == CountBeyond(sch, s + 1) + CountOf(sch, s)
  {
    if sch != [] {
      CountSplits(sch[..|sch| - 1], s);
    }
  }

  /** The first block of shell s or beyond cannot start before that shell is released, and all
      others follow one by one. */
  lemma {:induction false} CompletionAtLeast(m: Shells, sch: seq<Slot>, s: nat)
    requires OneServer(m, sch) && InOrder(m) && s < |m.batch| && CountBeyond(sch, s) > 0
    ensures Completion(m, sch) >= m.release[s] + Work(CountBeyond(sch, s), m.tau)
    decreases |sch|
  {
    var last, before := sch[|sch| - 1], sch[..|sch| - 1];
    WorkAdds(CountBeyond(before, s), 1, m.tau);
    assert Work(1, m.tau) == m.tau;
    if CountBeyond(before, s) > 0 {
      CompletionAtLeast(m, before, s);
      assert sch[|sch| - 2].start + m.tau <= last.start;
    } else {
      assert Work(0, m.tau) == 0.0;
      assert m.release[s] <= m.release[last.shell];
    }
  }

  /** No schedule is done before the maximum, provided the deepest shell has a block. */
  lemma MaximumIsLowerBound(m: Shells, sch: seq<Slot>)
    requires OneServer(m, sch) && ServesAll(m, sch) && InOrder(m) && m.batch[|m.batch| - 1] > 0
    ensures sch != [] && Completion(m, sch) >= Busy(m, |m.batch|)
  {
    RecursionIsMaximum(m);
    var s :| Binds(m, s) && Bound(m, s) == Busy(m, |m.batch|);
    BeyondPositive(m.batch, s);
    BeyondCounts(m, sch, s);
    CompletionAtLeast(m, sch, s);
  }

  lemma {:induction false} BeyondPositive(batch: seq<nat>, s: nat)
    requires s < |batch| && batch[|batch| - 1] > 0
    ensures Beyond(batch, s) > 0
    decreases |batch| - s
  {
    if s < |batch| - 1 {
      BeyondPositive(batch, s + 1);
    }
  }

  /** When shell k is served after those before it. */
  function From(m: Shells, k: nat): real
    requires Valid(m) && k < |m.batch|
  {
    if Busy(m, k) >= m.release[k] then Busy(m, k) else m.release[k]
  }

  /** Serving the first k shells in order of release. */
  function InTurn(m: Shells, k: nat): seq<Slot>
    requires Valid(m) && k <= |m.batch|
  {
    if k == 0 then [] else InTurn(m, k - 1) + Batch(m, k - 1, From(m, k - 1), m.batch[k - 1])
  }

  function Batch(m: Shells, s: nat, from: real, count: nat): (r: seq<Slot>)
    ensures |r| == count
    ensures forall i :: 0 <= i < count ==> r[i] == Slot(s, from + Work(i, m.tau))
  {
    seq(count, i requires 0 <= i < count => Slot(s, from + Work(i, m.tau)))
  }

  lemma {:induction false} CountAppends(a: seq<Slot>, b: seq<Slot>, s: nat)
    ensures CountOf(a + b, s) == CountOf(a, s) + CountOf(b, s)
    decreases |b|
  {
    if b == [] {
      assert a + b == a;
    } else {
      assert (a + b)[..|a + b| - 1] == a + b[..|b| - 1];
      CountAppends(a, b[..|b| - 1], s);
    }
  }

  lemma {:induction false} CountBatch(m: Shells, s: nat, from: real, count: nat, d: nat)
    ensures CountOf(Batch(m, s, from, count), d) == if d == s then count else 0
    decreases count
  {
    if count > 0 {
      assert Batch(m, s, from, count)[..count - 1] == Batch(m, s, from, count - 1);
      CountBatch(m, s, from, count - 1, d);
    }
  }

  lemma {:induction false} InTurnServes(m: Shells, k: nat, s: nat)
    requires Valid(m) && k <= |m.batch| && s < |m.batch|
    ensures CountOf(InTurn(m, k), s) == if s < k then m.batch[s] else 0
  {
    hide Batch, From;
    if k > 0 {
      InTurnServes(m, k - 1, s);
      CountAppends(InTurn(m, k - 1), Batch(m, k - 1, From(m, k - 1), m.batch[k - 1]), s);
      CountBatch(m, k - 1, From(m, k - 1), m.batch[k - 1], s);
    }
  }

  /** A batch served in one go, after everything else is done. */
  lemma BatchOneServer(m: Shells, sch: seq<Slot>, s: nat, from: real)
    requires OneServer(m, sch) && s < |m.batch| && from >= m.release[s] && (sch != [] ==> Completion(m, sch) <= from)
    ensures var all := sch + Batch(m, s, from, m.batch[s]);
      && OneServer(m, all)
      && (all != [] && m.batch[s] == 0 ==> Completion(m, all) <= from)
      && (m.batch[s] > 0 ==> Completion(m, all) == from + Work(m.batch[s], m.tau))
  {
    hide Work;
    var n, b := |sch|, Batch(m, s, from, m.batch[s]);
    var all := sch + b;
    forall i | n <= i < |all|
      ensures all[i] == Slot(s, from + Work(i - n, m.tau)) && Work(i - n, m.tau) >= 0.0
      ensures Work(i - n + 1, m.tau) == Work(i - n, m.tau) + m.tau
    {
      WorkAdds(1, i - n, m.tau);
      WorkOne(m.tau);
    }
    WorkOne(m.tau);
    forall i, j | 0 <= i < j < |all| && j == i + 1
      ensures all[i].start + m.tau <= all[j].start
    {
      if i >= n {
        assert all[j].start == from + Work(i - n + 1, m.tau);
      } else if i == n - 1 {
        assert all[j].start == from + Work(0, m.tau);
      } else {
        assert all[i] == sch[i] && all[j] == sch[j];
      }
    }
  }

  lemma WorkOne(tau: real)
    ensures Work(1, tau) == tau && Work(0, tau) == 0.0
  {
  }

  lemma {:induction false} InTurnOneServer(m: Shells, k: nat)
    requires Valid(m) && k <= |m.batch|
    ensures OneServer(m, InTurn(m, k))
    ensures InTurn(m, k) != [] ==> Completion(m, InTurn(m, k)) <= Busy(m, k)
    ensures k > 0 && m.batch[k - 1] > 0 ==> InTurn(m, k) != [] && Completion(m, InTurn(m, k)) == Busy(m, k)
  {
    hide OneServer, Batch, Work;
    if k > 0 {
      InTurnOneServer(m, k - 1);
      BatchOneServer(m, InTurn(m, k - 1), k - 1, From(m, k - 1));
      WorkAdds(0, m.batch[k - 1], m.tau);
    } else {
      NobodyServed(m);
    }
  }

  lemma NobodyServed(m: Shells)
    requires Valid(m)
    ensures OneServer(m, [])
  {
  }

  /** The maximum is attained. */
  lemma MaximumAttained(m: Shells)
    requires Valid(m) && m.batch[|m.batch| - 1] > 0
    ensures var sch := InTurn(m, |m.batch|);
      OneServer(m, sch) && ServesAll(m, sch) && sch != [] && Completion(m, sch) == Busy(m, |m.batch|)
  {
    InTurnOneServer(m, |m.batch|);
    forall s | 0 <= s < |m.batch|
      ensures CountOf(InTurn(m, |m.batch|), s) == m.batch[s]
    {
      InTurnServes(m, |m.batch|, s);
    }
  }

  // ---- which shell binds ----

  /** The blocks of shell s take at least as long as the next shell is later. */
  predicate Collides(m: Shells, s: nat)
    requires Valid(m) && s + 1 < |m.batch|
  {
    Work(m.batch[s], m.tau) >= m.release[s + 1] - m.release[s]
  }

  /** The first shell whose blocks collide with the next, or the deepest. */
  function Shortcut(m: Shells, s: nat): (r: nat)
    requires Valid(m) && s < |m.batch|
    ensures s <= r < |m.batch|
    ensures forall d :: s <= d < r ==> !Collides(m, d)
    ensures r + 1 < |m.batch| ==> Collides(m, r)
    decreases |m.batch| - s
  {
    if s + 1 == |m.batch| || Collides(m, s) then s else Shortcut(m, s + 1)
  }

  /** The deepest shell whose predecessor's blocks do not collide with it, or the first. */
  function HandOver(m: Shells, s: nat): (r: nat)
    requires Valid(m) && s < |m.batch|
    ensures r <= s
    ensures r > 0 ==> !Collides(m, r - 1)
    ensures forall d :: r <= d < s ==> Collides(m, d)
  {
    if s == 0 || !Collides(m, s - 1) then s else HandOver(m, s - 1)
  }

  lemma {:induction false} HandOverIs(m: Shells, r: nat, s: nat)
    requires Valid(m) && r <= s < |m.batch| && (r == 0 || !Collides(m, r - 1))
    requires forall d :: r <= d < s ==> Collides(m, d)
    ensures HandOver(m, s) == r
  {
    if r < s {
      assert Collides(m, s - 1);
      HandOverIs(m, r, s - 1);
    }
  }

  lemma BoundNext(m: Shells, s: nat)
    requires Valid(m) && s + 1 < |m.batch|
    ensures Bound(m, s + 1) - Bound(m, s) == m.release[s + 1] - m.release[s] - Work(m.batch[s], m.tau)
  {
    WorkAdds(m.batch[s], Beyond(m.batch, s + 1), m.tau);
  }

  /** Bounds rise as long as blocks do not collide, and fall as long as they do. */
  lemma {:induction false} BoundsRise(m: Shells, s: nat, d: nat)
    requires Valid(m) && s <= d < |m.batch| && forall i :: s <= i < d ==> !Collides(m, i)
    ensures Bound(m, s) <= Bound(m, d) && (s < d ==> Bound(m, s) < Bound(m, d))
    decreases d - s
  {
    if s < d {
      assert !Collides(m, s);
      BoundsRise(m, s + 1, d);
      BoundNext(m, s);
    }
  }

  lemma {:induction false} BoundsFall(m: Shells, s: nat, d: nat)
    requires Valid(m) && s <= d < |m.batch| && forall i :: s <= i < d ==> Collides(m, i)
    ensures Bound(m, d) <= Bound(m, s)
    decreases d - s
  {
    if s < d {
      assert Collides(m, s);
      BoundsFall(m, s + 1, d);
      BoundNext(m, s);
    }
  }

  /** Once blocks collide they do so in all deeper shells. */
  predicate StaysColliding(m: Shells)
    requires Valid(m)
  {
    forall s, d :: 0 <= s <= d && d + 1 < |m.batch| && Collides(m, s) ==> Collides(m, d)
  }

  /** With batches that do not shrink below the deepest and shells a constant step apart. */
  lemma GrowingBatchesStayColliding(m: Shells, step: real)
    requires Valid(m)
    requires forall s :: 0 <= s && s + 1 < |m.batch| ==> m.release[s + 1] - m.release[s] == step
    requires forall s, d :: 0 <= s <= d && d + 1 < |m.batch| ==> m.batch[s] <= m.batch[d]
    ensures StaysColliding(m)
  {
    forall s, d | 0 <= s <= d && d + 1 < |m.batch| && Collides(m, s)
      ensures Collides(m, d)
    {
      WorkAdds(m.batch[s], m.batch[d] - m.batch[s], m.tau);
    }
  }

  /** Then both rules pick the same shell, and it is the first with the largest bound. */
  lemma RulesPickTheBindingShell(m: Shells)
    requires Valid(m) && StaysColliding(m)
    ensures var s := Shortcut(m, 0);
      && HandOver(m, |m.batch| - 1) == s
      && Binds(m, s)
      && forall d :: 0 <= d < s ==> Bound(m, d) < Bound(m, s)
  {
    var s := Shortcut(m, 0);
    HandOverIs(m, s, |m.batch| - 1);
    forall d | 0 <= d < |m.batch|
      ensures Bound(m, d) <= Bound(m, s) && (d < s ==> Bound(m, d) < Bound(m, s))
    {
      if d <= s {
        BoundsRise(m, d, s);
      } else {
        BoundsFall(m, s, d);
      }
    }
  }

  /** The blocks of shells s to d - 1. */
  function Between(batch: seq<nat>, s: nat, d: nat): nat
    requires s <= d <= |batch|
  {
    if s == d then 0 else Between(batch, s, d - 1) + batch[d - 1]
  }

  lemma {:induction false} BeyondBetween(batch: seq<nat>, s: nat, d: nat)
    requires s <= d <= |batch|
    ensures Beyond(batch, s) == Between(batch, s, d) + Beyond(batch, d)
    decreases d - s
  {
    if s < d {
      BeyondBetween(batch, s, d - 1);
    }
  }

  lemma BoundBetween(m: Shells, s: nat, d: nat)
    requires Valid(m) && s <= d < |m.batch|
    ensures Bound(m, d) - Bound(m, s) == m.release[d] - m.release[s] - Work(Between(m.batch, s, d), m.tau)
  {
    BeyondBetween(m.batch, s, d);
    WorkAdds(Between(m.batch, s, d), Beyond(m.batch, d), m.tau);
  }

  /** On any shells, the shortcut's shell has the largest bound if and only if the blocks from
      it on keep the link busy until each deeper shell. */
  lemma ShortcutBindsIff(m: Shells)
    requires Valid(m)
    ensures var s := Shortcut(m, 0);
      Binds(m, s) <==> forall d :: s < d < |m.batch| ==> m.release[d] - m.release[s] <= Work(Between(m.batch, s, d), m.tau)
  {
    hide Bound, Collides;
    var s := Shortcut(m, 0);
    forall d | 0 <= d < |m.batch|
      ensures d < s ==> Bound(m, d) <= Bound(m, s)
      ensures d > s ==> (Bound(m, d) <= Bound(m, s) <==> m.release[d] - m.release[s] <= Work(Between(m.batch, s, d), m.tau))
    {
      if d < s {
        BoundsRise(m, d, s);
      } else {
        BoundBetween(m, s, d);
      }
    }
  }

  /** And the hand-over's if and only if the blocks from no shallower shell on outlast its
      release. */
  lemma HandOverBindsIff(m: Shells)
    requires Valid(m)
    ensures var h := HandOver(m, |m.batch| - 1);
      Binds(m, h) <==> forall d :: 0 <= d < h ==> Work(Between(m.batch, d, h), m.tau) <= m.release[h] - m.release[d]
  {
    hide Bound, Collides;
    var h := HandOver(m, |m.batch| - 1);
    forall d | 0 <= d < |m.batch|
      ensures d > h ==> Bound(m, d) <= Bound(m, h)
      ensures d < h ==> (Bound(m, d) <= Bound(m, h) <==> Work(Between(m.batch, d, h), m.tau) <= m.release[h] - m.release[d])
    {
      if d > h {
        BoundsFall(m, h, d);
      } else {
        BoundBetween(m, d, h);
      }
    }
  }

  // ---- the tiered fabric ----

  /** Link delay, switch delay and the time of one frame. */
  datatype Fabric = Fabric(link: real, switch: real, frame: real)

  predicate Positive(f: Fabric) {
    f.link >= 0.0 && f.switch >= 0.0 && f.frame >= 0.0
  }

  /** The time until a first frame has arrived over a path that turns at tier d. */
  function Fill(f: Fabric, d: nat): real {
    2.0 * d as real * f.link + (2.0 * d as real - 1.0) * f.switch + 2.0 * d as real * f.frame
  }

  /** The shells of tiers 1, 2, ...; the frame that fills the path is part of the first block. */
  function Tiers(f: Fabric, batch: seq<nat>, tau: real): Shells {
    Shells(seq(|batch|, s requires 0 <= s < |batch| => Fill(f, s + 1) - f.frame), batch, tau)
  }

  /** What one more tier costs. */
  function Step(f: Fabric): real {
    2.0 * (f.link + f.switch + f.frame)
  }

  lemma FillNext(f: Fabric, d: nat)
    ensures Fill(f, d + 1) == Fill(f, d) + Step(f)
  {
    var x := d as real;
    assert (d + 1) as real == x + 1.0;
    Distributes(x, f.link);
    Distributes(x, f.switch);
    Distributes(x, f.frame);
  }

  /** A frame handed on from switch to switch over this many links: each link sends all of it
      and takes its delay, and each switch in between takes its own. */
  function PathTime(f: Fabric, links: nat): real {
    if links == 0 then 0.0
    else PathTime(f, links - 1) + (if links > 1 then f.switch else 0.0) + f.frame + f.link
  }

  /** Up to tier d and down again. */
  lemma {:induction false} FillIsPath(f: Fabric, d: nat)
    requires d > 0
    ensures Fill(f, d) == PathTime(f, 2 * d)
  {
    assert PathTime(f, 2 * d) == PathTime(f, 2 * d - 1) + f.switch + f.frame + f.link;
    if d > 1 {
      FillIsPath(f, d - 1);
      FillNext(f, d - 1);
      assert PathTime(f, 2 * d - 1) == PathTime(f, 2 * d - 2) + f.switch + f.frame + f.link;
    } else {
      assert PathTime(f, 1) == f.frame + f.link by { assert PathTime(f, 0) == 0.0; }
      assert Fill(f, 1) == 2.0 * f.link + f.switch + 2.0 * f.frame;
    }
  }

  lemma Distributes(x: real, y: real)
    ensures 2.0 * (x + 1.0) * y == 2.0 * x * y + 2.0 * y
    ensures (2.0 * (x + 1.0) - 1.0) * y == (2.0 * x - 1.0) * y + 2.0 * y
  {
  }

  lemma {:induction false} FillGrows(f: Fabric, c: nat, d: nat)
    requires Positive(f) && c <= d
    ensures Fill(f, c) <= Fill(f, d)
    decreases d
  {
    hide Fill;
    if c < d {
      FillGrows(f, c, d - 1);
      FillNext(f, d - 1);
    }
  }

  /** Every tier costs the same. */
  lemma TierStep(f: Fabric, batch: seq<nat>, tau: real)
    requires Positive(f) && batch != [] && tau >= 0.0
    ensures var m := Tiers(f, batch, tau);
      && Valid(m) && InOrder(m)
      && forall s :: 0 <= s && s + 1 < |batch| ==> m.release[s + 1] - m.release[s] == Step(f)
  {
    var m := Tiers(f, batch, tau);
    assert m.release[0] >= 0.0 by {
      assert Fill(f, 1) == 2.0 * f.link + f.switch + 2.0 * f.frame;
    }
    hide Fill, Step;
    forall s, d | 0 <= s <= d < |batch|
      ensures m.release[s] <= m.release[d]
    {
      FillGrows(f, s + 1, d + 1);
    }
    forall s | 0 <= s && s + 1 < |batch|
      ensures m.release[s + 1] - m.release[s] == Step(f)
    {
      FillNext(f, s + 1);
    }
  }

  /** The closed form: the largest of the bounds of all tiers. */
  method IncAg(f: Fabric, batch: seq<nat>, tau: real) returns (time: real)
    requires Positive(f) && batch != [] && tau >= 0.0
    ensures Valid(Tiers(f, batch, tau)) && time == Busy(Tiers(f, batch, tau), |batch|)
  {
    ghost var m := Tiers(f, batch, tau);
    TierStep(f, batch, tau);
    RecursionIsMaximum(m);
    time := TierBound(f, batch, tau, 0);
    hide Fill, Beyond, Busy, Bound, InOrder, Valid;
    for s := 1 to |batch|
      invariant forall d :: 0 <= d < s ==> Bound(m, d) <= time
      invariant exists d :: 0 <= d < s && Bound(m, d) == time
    {
      ghost var at :| 0 <= at < s && Bound(m, at) == time;
      var bound := TierBound(f, batch, tau, s);
      assert Bound(m, s) == bound;
      if bound > time {
        time := bound;
      } else {
        assert Bound(m, at) == time;
      }
    }
  }

  function TierBound(f: Fabric, batch: seq<nat>, tau: real, s: nat): (b: real)
    requires s < |batch| && Valid(Tiers(f, batch, tau))
    ensures b == Bound(Tiers(f, batch, tau), s)
  {
    Fill(f, s + 1) + Beyond(batch, s) as real * tau - f.frame
  }

  /** On the fabric, with batches that do not shrink below the deepest, both rules find the tier
      that decides. */
  lemma TierThatBinds(f: Fabric, batch: seq<nat>, tau: real)
    requires Positive(f) && batch != [] && tau >= 0.0
    requires forall s, d :: 0 <= s <= d && d + 1 < |batch| ==> batch[s] <= batch[d]
    ensures var m := Tiers(f, batch, tau);
      && Valid(m)
      && var s := Shortcut(m, 0);
         HandOver(m, |batch| - 1) == s && Bound(m, s) == Busy(m, |batch|)
  {
    var m := Tiers(f, batch, tau);
    TierStep(f, batch, tau);
    GrowingBatchesStayColliding(m, Step(f));
    RulesPickTheBindingShell(m);
    RecursionIsMaximum(m);
  }

  // ---- groups that are not aligned ----

  /** The tier of the lowest switch two ranks have in common, counted from 0. */
  function TierOf(i: nat, r: nat, perLeaf: nat, perPod: nat): nat
    requires 0 < perLeaf && 0 < perPod
  {
    if i / perLeaf == r / perLeaf then 0 else if i / perPod == r / perPod then 1 else 2
  }

  /** How many of the first n ranks other than r have tier d in common with it. */
  function PeersAt(r: nat, n: nat, perLeaf: nat, perPod: nat, d: nat): nat
    requires 0 < perLeaf && 0 < perPod
  {
    if n == 0 then 0
    else PeersAt(r, n - 1, perLeaf, perPod, d) + if n - 1 != r && TierOf(n - 1, r, perLeaf, perPod) == d then 1 else 0
  }

  /** The batches rank r of a contiguous group of n ranks receives. */
  method BatchesOf(r: nat, n: nat, perLeaf: nat, perPod: nat) returns (batch: seq<nat>)
    requires 0 < perLeaf && 0 < perPod
    ensures |batch| == 3 && forall d :: 0 <= d < 3 ==> batch[d] == PeersAt(r, n, perLeaf, perPod, d)
    ensures r < n ==> batch[0] + batch[1] + batch[2] == n - 1
  {
    batch := [0, 0, 0];
    for i := 0 to n
      invariant |batch| == 3 && forall d :: 0 <= d < 3 ==> batch[d] == PeersAt(r, i, perLeaf, perPod, d)
      invariant batch[0] + batch[1] + batch[2] == if r < i then i - 1 else i
    {
      if i != r {
        var d := TierOf(i, r, perLeaf, perPod);
        batch := batch[d := batch[d] + 1];
      }
    }
  }

  /** What member 16 of 20 sees with 4 ranks a leaf and 16 a pod: its own leaf's other three,
      nobody else in its pod, and the 16 of the other pod. */
  const STRANDED: seq<nat> := [3, 0, 16]

  lemma {:induction false} StrandedPeers(n: nat, d: nat)
    requires n <= 20 && d < 3
    ensures PeersAt(16, n, 4, 16, d) == if n <= 16 then (if d == 2 then n else 0) else if d == 0 then n - 17 else if d == 1 then 0 else 16
  {
    if n > 0 {
      StrandedPeers(n - 1, d);
    }
  }

  lemma StrandedBatches()
    ensures forall d :: 0 <= d < 3 ==> PeersAt(16, 20, 4, 16, d) == STRANDED[d]
  {
    forall d: nat | d < 3 ensures PeersAt(16, 20, 4, 16, d) == STRANDED[d] {
      StrandedPeers(20, d);
    }
  }

  /** For this member, on any fabric, the shortcut names the wrong shell exactly while its three
      blocks take at least one tier's step but less than two; the hand-over names the deepest
      and is wrong exactly when they take more than two. */
  lemma StrandedMember(f: Fabric, tau: real)
    requires Positive(f) && Step(f) > 0.0 && tau >= 0.0
    ensures var m := Tiers(f, STRANDED, tau);
      && Valid(m)
      && (Binds(m, Shortcut(m, 0)) <==> !(Step(f) <= 3.0 * tau < 2.0 * Step(f)))
      && HandOver(m, 2) == 2
      && (Binds(m, 2) <==> 3.0 * tau <= 2.0 * Step(f))
  {
    var m := Tiers(f, STRANDED, tau);
    TierStep(f, STRANDED, tau);
    hide Fill, Step, Tiers;
    assert m.release[2] - m.release[1] == Step(f) && m.release[1] - m.release[0] == Step(f);
    assert Between(m.batch, 0, 0) == 0 && Between(m.batch, 0, 1) == 3 && Between(m.batch, 0, 2) == 3;
    assert Between(m.batch, 1, 1) == 0 && Between(m.batch, 1, 2) == 0;
    assert Work(3, tau) == 3.0 * tau && Work(0, tau) == 0.0;
    assert !Collides(m, 1) && (Collides(m, 0) <==> 3.0 * tau >= Step(f));
    ShortcutBindsIff(m);
    HandOverBindsIff(m);
  }
}
