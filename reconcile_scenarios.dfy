/** The reconciler's integration examples, replayed against the model: ids
    `0`..`3` in queue `lel` of site `test`, workers `a`, `b` and `c` of
    capacity 2. */
module ReconcileScenarios {
  import opened Collections
  import opened Store
  import JQ = JobQueue
  import opened Reconciler

  const Lel := QueueKey("test", "lel")
  const A := WorkerKey("test", "a")
  const B := WorkerKey("test", "b")
  const C := WorkerKey("test", "c")

  /** `a`, `b` and `c`, registered in that order with capacity 2. */
  const Workers := [Worker("a", 2, true), Worker("b", 2, true), Worker("c", 2, true)]
  /** The same workers once the lease of `a` has expired. */
  const AExpired := [Worker("a", 2, false), Worker("b", 2, true), Worker("c", 2, true)]

  /** The names of the three workers, in registration order. */
  const Names := ["a", "b", "c"]

  const ClaimsA := map["0" := "a", "1" := "a"]
  const ClaimsAB := map["0" := "a", "1" := "a", "2" := "b", "3" := "b"]

  /** The board of site `test`: its one queue `lel`, its workers, the pending
      ids and claims of `lel`, and the claim indexes of `a`, `b` and `c`. */
  ghost predicate Board(store: Store, ws: seq<Worker>, p: seq<JobId>, c: map<JobId, WorkerName>,
                        ia: seq<JobId>, ib: seq<JobId>, ic: seq<JobId>)
    reads store
  {
    && store.Valid()
    && store.sites == {"test"}
    && store.QueuesOf("test") == {"lel"}
    && store.WorkersOf("test") == ws
    && store.PendingAt(Lel) == p
    && store.ClaimsAt(Lel) == c
    && store.IndexAt(A) == ia && store.IndexAt(B) == ib && store.IndexAt(C) == ic
  }

  /** Sweeping an empty board reports no site. */
  method ReconcileWithNoData() returns (stats: Stats)
    ensures stats.sites == []
  {
    var store := new Store();
    stats := Reconcile(store);
  }

  /** Adds ids `0`..`3` to a fresh board. */
  method AddFour() returns (store: Store, queue: JQ.JobQueue)
    ensures fresh(store) && store.Valid()
    ensures queue.store == store && queue.site == "test" && queue.queueName == "lel"
    ensures store.sites == {}
    ensures store.QueuesOf("test") == {"lel"}
    ensures store.WorkersOf("test") == []
    ensures store.PendingAt(Lel) == ["0", "1", "2", "3"]
    ensures store.ClaimsAt(Lel) == map[]
    ensures store.index == map[]
  {
    store := new Store();
    queue := new JQ.JobQueue(store, "test", "lel");
    assert queue.Key() == Lel;
    var length := queue.Add("0");
    assert store.PendingAt(Lel) == ["0"];
    length := queue.Add("1");
    assert store.PendingAt(Lel) == ["0", "1"];
    length := queue.Add("2");
    assert store.PendingAt(Lel) == ["0", "1", "2"];
    length := queue.Add("3");
  }

  /** Registers a worker not seen before with capacity 2: it joins the end of
      the registration order. */
  method RegisterNew(store: Store, queue: JQ.JobQueue, name: WorkerName, ghost ws: seq<Worker>)
    requires queue.store == store && queue.site == "test" && queue.queueName == "lel"
    requires store.Valid() && store.sites <= {"test"} && store.QueuesOf("test") == {"lel"}
    requires store.WorkersOf("test") == ws
    requires forall i | 0 <= i < |ws| :: ws[i].name != name
    modifies store`sites, store`queues, store`workers
    ensures store.Valid() && store.sites == {"test"} && store.QueuesOf("test") == {"lel"}
    ensures store.WorkersOf("test") == ws + [Worker(name, 2, true)]
  {
    UpsertAppends(ws, name, 2);
    queue.Register(name, 2);
  }

  /** Adds ids `0`..`3`, then registers `a`, `b` and `c` with capacity 2. */
  method Populated() returns (store: Store, queue: JQ.JobQueue)
    ensures fresh(store)
    ensures queue.store == store && queue.site == "test" && queue.queueName == "lel"
    ensures Board(store, Workers, ["0", "1", "2", "3"], map[], [], [], [])
  {
    store, queue := AddFour();
    RegisterNew(store, queue, "a", []);
    RegisterNew(store, queue, "b", [Worker("a", 2, true)]);
    RegisterNew(store, queue, "c", [Worker("a", 2, true), Worker("b", 2, true)]);
  }

  /** Registering one of `a`, `b`, `c` again with capacity 2 changes nothing. */
  lemma RefreshKeepsWorkers(i: nat)
    requires i < 3
    ensures Upsert(Workers, Names[i], 2) == Workers
  {
    UpsertRefreshes(Workers, Names[i], 2, i);
    assert Workers[i := Worker(Names[i], 2, true)] == Workers;
  }

  /** The claim-index keys of the three workers, which are distinct. */
  lemma WorkerKeys()
    ensures WorkerKey("test", Names[0]) == A && WorkerKey("test", Names[1]) == B && WorkerKey("test", Names[2]) == C
    ensures A != B && B != C && A != C
  {
  }

  /** Worker `Names[i]` claims with capacity 2. */
  method ClaimStep(store: Store, queue: JQ.JobQueue, i: nat, ghost p: seq<JobId>, ghost c: map<JobId, WorkerName>,
                   ghost ia: seq<JobId>, ghost ib: seq<JobId>, ghost ic: seq<JobId>) returns (claimed: seq<JobId>)
    requires queue.store == store && queue.site == "test" && queue.queueName == "lel"
    requires Board(store, Workers, p, c, ia, ib, ic)
    requires i < 3
    modifies store`sites, store`queues, store`workers, store`pending, store`claims, store`index
    ensures claimed == p[..JQ.Grant(|p|, 2, |if i == 0 then ia else if i == 1 then ib else ic|)]
    ensures Board(store, Workers, p[|claimed|..], c + JQ.Assign(claimed, Names[i]),
                  if i == 0 then ia + claimed else ia,
                  if i == 1 then ib + claimed else ib,
                  if i == 2 then ic + claimed else ic)
  {
    assert queue.Key() == Lel;
    RefreshKeepsWorkers(i);
    WorkerKeys();
    claimed := queue.Claim(Names[i], 2);
  }

  /** The lease of `a` runs out: it stays listed but no longer live, and its
      claim index is gone; its claims stay until the next sweep. */
  method ExpireA(store: Store, ghost p: seq<JobId>, ghost c: map<JobId, WorkerName>,
                 ghost ia: seq<JobId>, ghost ib: seq<JobId>, ghost ic: seq<JobId>)
    requires Board(store, Workers, p, c, ia, ib, ic)
    modifies store`workers, store`index
    ensures Board(store, AExpired, p, c, [], ib, ic)
  {
    WorkerKeys();
    JQ.Expire(store, "test", "a");
    assert MarkExpired(Workers, "a") == AExpired;
  }

  lemma ClaimsOfA()
    ensures map[] + JQ.Assign(["0", "1"], "a") == ClaimsA
  {
  }

  lemma ClaimsOfB()
    ensures ClaimsA + JQ.Assign(["2", "3"], "b") == ClaimsAB
  {
  }

  lemma NothingClaimed(c: map<JobId, WorkerName>, w: WorkerName)
    ensures c + JQ.Assign([], w) == c
  {
  }

  /** `a` claims, then `b`: `a` takes `0` and `1`, `b` takes `2` and `3`. */
  method ClaimedByAB() returns (store: Store, queue: JQ.JobQueue)
    ensures fresh(store)
    ensures queue.store == store && queue.site == "test" && queue.queueName == "lel"
    ensures Board(store, Workers, [], ClaimsAB, ["0", "1"], ["2", "3"], [])
  {
    store, queue := Populated();
    var claimed := ClaimStep(store, queue, 0, ["0", "1", "2", "3"], map[], [], [], []);
    assert claimed == ["0", "1"];
    assert ["0", "1", "2", "3"][|claimed|..] == ["2", "3"];
    ClaimsOfA();
    assert Board(store, Workers, ["2", "3"], ClaimsA, ["0", "1"], [], []);
    claimed := ClaimStep(store, queue, 1, ["2", "3"], ClaimsA, ["0", "1"], [], []);
    assert claimed == ["2", "3"];
    ClaimsOfB();
  }

  /** A worker holding its full capacity claims again and takes nothing. */
  method ClaimAtCapacity(store: Store, queue: JQ.JobQueue, i: nat)
    requires queue.store == store && queue.site == "test" && queue.queueName == "lel"
    requires Board(store, Workers, [], ClaimsAB, ["0", "1"], ["2", "3"], [])
    requires i < 2
    modifies store`sites, store`queues, store`workers, store`pending, store`claims, store`index
    ensures Board(store, Workers, [], ClaimsAB, ["0", "1"], ["2", "3"], [])
  {
    var claimed := ClaimStep(store, queue, i, [], ClaimsAB, ["0", "1"], ["2", "3"], []);
    assert claimed == [];
    NothingClaimed(ClaimsAB, Names[i]);
  }

  // ---------------------------------------------------------------------
  // The sweep's report

  /** A sweep of a board with the one site `test` and its one queue `lel`
      reports exactly that site, with the statistics of its state after the
      sweep. */
  lemma OnlySite(stats: Stats, qm: map<Site, set<QueueName>>, wm0: map<Site, seq<Worker>>,
                 pm0: map<QueueKey, seq<JobId>>, cm0: map<QueueKey, map<JobId, WorkerName>>,
                 wm: map<Site, seq<Worker>>, pm: map<QueueKey, seq<JobId>>,
                 cm: map<QueueKey, map<JobId, WorkerName>>, im: map<WorkerKey, seq<JobId>>)
    requires NoDup(SiteNames(stats.sites)) && Elems(SiteNames(stats.sites)) == {"test"}
    requires QueuesIn(qm, "test") == {"lel"}
    requires AllReported(stats.sites, qm, wm0, pm0, cm0, wm, pm, cm, im)
    ensures |stats.sites| == 1 && stats.sites[0].site == "test"
    ensures stats.sites[0] == SiteStatsOf("test", WorkersIn(wm, "test"), ["lel"], pm, cm, im, stats.sites[0].reclaimed)
    ensures QueuedAt(pm, "test", ["lel"]) == QueuedAt(pm0, "test", ["lel"]) + stats.sites[0].reclaimed
  {
    NoDupCard(SiteNames(stats.sites));
    assert SiteNames(stats.sites)[0] in Elems(SiteNames(stats.sites));
    var e := stats.sites[0];
    assert e in stats.sites;
    var qs := QueueNames(e.queues);
    NoDupCard(qs);
    assert qs[0] in Elems(qs);
    assert qs == ["lel"];
  }

  /** The statistics of site `test` taken over its one queue `lel`. */
  lemma OneQueueStats(ws: seq<Worker>, pm: map<QueueKey, seq<JobId>>, cm: map<QueueKey, map<JobId, WorkerName>>,
                      im: map<WorkerKey, seq<JobId>>, reclaimed: nat)
    ensures var cap, claimed := LiveCapacity(ws), |ClaimsIn(cm, Lel)|;
            SiteStatsOf("test", ws, ["lel"], pm, cm, im, reclaimed)
              == SiteStats("test", WorkerRows("test", ws, im),
                           [QueueStats("lel", |PendingIn(pm, Lel)|, claimed, cap, Available(cap, claimed))],
                           reclaimed, claimed, cap, Available(cap, claimed))
    ensures QueuedAt(pm, "test", ["lel"]) == |PendingIn(pm, Lel)|
  {
    var cap := LiveCapacity(ws);
    var rows := QueueRows("test", ["lel"], pm, cm, cap);
    assert rows == [QueueRow("lel", PendingIn(pm, Lel), ClaimsIn(cm, Lel), cap)];
    assert rows[..0] == [] && ["lel"][..0] == [];
    assert SumClaimed(rows) == |ClaimsIn(cm, Lel)|;
  }

  /** The sweep keeps the claim index of every worker that had not expired. */
  lemma IndexKept(qm: map<Site, set<QueueName>>,
                  wm0: map<Site, seq<Worker>>, pm0: map<QueueKey, seq<JobId>>,
                  cm0: map<QueueKey, map<JobId, WorkerName>>, im0: map<WorkerKey, seq<JobId>>,
                  wm: map<Site, seq<Worker>>, pm: map<QueueKey, seq<JobId>>,
                  cm: map<QueueKey, map<JobId, WorkerName>>, im: map<WorkerKey, seq<JobId>>,
                  done: seq<Site>, wk: WorkerKey)
    requires SitesSwept(qm, wm0, pm0, cm0, im0, wm, pm, cm, im, done)
    requires wk.worker !in DeadNames(WorkersIn(wm0, wk.site))
    ensures IndexIn(im, wk) == IndexIn(im0, wk)
  {
  }

  /** With every worker live, the worker rows list `a`, `b` and `c`. */
  lemma LiveRows(im: map<WorkerKey, seq<JobId>>)
    ensures WorkerRows("test", Workers, im)
              == [WorkerStats("a", |IndexIn(im, A)|), WorkerStats("b", |IndexIn(im, B)|), WorkerStats("c", |IndexIn(im, C)|)]
    ensures LiveOnly(Workers) == Workers && LiveCapacity(Workers) == 6 && DeadNames(Workers) == {}
  {
    assert LiveOnly(Workers[2..]) == Workers[2..];
    assert LiveOnly(Workers[1..]) == Workers[1..];
    assert LiveOnly(Workers) == Workers;
  }

  /** With `a` expired, the worker rows list `b` and `c` only. */
  lemma ExpiredRows(im: map<WorkerKey, seq<JobId>>)
    ensures LiveOnly(AExpired) == [Worker("b", 2, true), Worker("c", 2, true)]
    ensures WorkerRows("test", LiveOnly(AExpired), im) == [WorkerStats("b", |IndexIn(im, B)|), WorkerStats("c", |IndexIn(im, C)|)]
    ensures LiveCapacity(AExpired) == 4 && LiveCapacity(LiveOnly(AExpired)) == 4
    ensures DeadNames(AExpired) == {"a"}
  {
    assert LiveOnly(AExpired[2..]) == AExpired[2..];
    assert LiveOnly(AExpired[1..]) == AExpired[1..];
    assert LiveOnly(AExpired) == AExpired[1..];
    assert AExpired[0].name == "a" && !AExpired[0].live;
  }

  /** With every claim held by a live worker, the sweep reclaims nothing and
      reports `a` and `b` holding two ids each and `c` none, four claimed ids
      against a capacity of six, two available. */
  lemma LiveClaimsReport(stats: Stats, qm: map<Site, set<QueueName>>, wm0: map<Site, seq<Worker>>,
                         pm0: map<QueueKey, seq<JobId>>, cm0: map<QueueKey, map<JobId, WorkerName>>,
                         im0: map<WorkerKey, seq<JobId>>,
                         wm: map<Site, seq<Worker>>, pm: map<QueueKey, seq<JobId>>,
                         cm: map<QueueKey, map<JobId, WorkerName>>, im: map<WorkerKey, seq<JobId>>)
    requires NoDup(SiteNames(stats.sites)) && Elems(SiteNames(stats.sites)) == {"test"}
    requires QueuesIn(qm, "test") == {"lel"} && WorkersIn(wm0, "test") == Workers
    requires PendingIn(pm0, Lel) == [] && ClaimsIn(cm0, Lel) == ClaimsAB
    requires IndexIn(im0, A) == ["0", "1"] && IndexIn(im0, B) == ["2", "3"] && IndexIn(im0, C) == []
    requires SitesSwept(qm, wm0, pm0, cm0, im0, wm, pm, cm, im, SiteNames(stats.sites))
    requires AllReported(stats.sites, qm, wm0, pm0, cm0, wm, pm, cm, im)
    ensures stats.sites == [SiteStats("test", [WorkerStats("a", 2), WorkerStats("b", 2), WorkerStats("c", 0)],
                                      [QueueStats("lel", 0, 4, 6, 2)], 0, 4, 6, 2)]
    ensures ClaimsIn(cm, Lel) == ClaimsAB
  {
    OnlySite(stats, qm, wm0, pm0, cm0, wm, pm, cm, im);
    var e := stats.sites[0];
    assert "test" in SiteNames(stats.sites);
    LiveRows(im);
    NoExpiryNoReclaim(PendingIn(pm0, Lel), ClaimsIn(cm0, Lel), PendingIn(pm, Lel), ClaimsIn(cm, Lel));
    IndexKept(qm, wm0, pm0, cm0, im0, wm, pm, cm, im, SiteNames(stats.sites), A);
    IndexKept(qm, wm0, pm0, cm0, im0, wm, pm, cm, im, SiteNames(stats.sites), B);
    IndexKept(qm, wm0, pm0, cm0, im0, wm, pm, cm, im, SiteNames(stats.sites), C);
    OneQueueStats(Workers, pm, cm, im, e.reclaimed);
    OneQueueStats(Workers, pm0, cm0, im, e.reclaimed);
    assert |ClaimsAB| == 4;
    assert WorkersIn(wm, "test") == Workers;
    assert e.reclaimed == 0;
    assert e.workers == [WorkerStats("a", 2), WorkerStats("b", 2), WorkerStats("c", 0)];
    assert e.queues == [QueueStats("lel", 0, 4, 6, 2)];
  }

  /** Reclaiming the claims of `a` from an empty pending list puts back `0`
      and `1` and leaves `b` its two claims. */
  lemma ReclaimedFromA(p1: seq<JobId>, c1: map<JobId, WorkerName>)
    requires Requeued([], ClaimsAB, {"a"}, p1, c1)
    ensures c1 == map["2" := "b", "3" := "b"]
    ensures |p1| == 2 && Elems(p1) == {"0", "1"}
  {
    assert HeldBy(ClaimsAB, {"a"}) == {"0", "1"};
    assert p1[0..] == p1;
    NoDupCard(p1);
  }

  /** Once `a` has expired, the sweep gives its two claims back to `lel` and
      reports `b` holding two ids and `c` none, two queued, two claimed
      against a capacity of four, two available and two reclaimed. */
  lemma ExpiredClaimsReport(stats: Stats, qm: map<Site, set<QueueName>>, wm0: map<Site, seq<Worker>>,
                            pm0: map<QueueKey, seq<JobId>>, cm0: map<QueueKey, map<JobId, WorkerName>>,
                            im0: map<WorkerKey, seq<JobId>>,
                            wm: map<Site, seq<Worker>>, pm: map<QueueKey, seq<JobId>>,
                            cm: map<QueueKey, map<JobId, WorkerName>>, im: map<WorkerKey, seq<JobId>>)
    requires NoDup(SiteNames(stats.sites)) && Elems(SiteNames(stats.sites)) == {"test"}
    requires QueuesIn(qm, "test") == {"lel"} && WorkersIn(wm0, "test") == AExpired
    requires PendingIn(pm0, Lel) == [] && ClaimsIn(cm0, Lel) == ClaimsAB
    requires IndexIn(im0, B) == ["2", "3"] && IndexIn(im0, C) == []
    requires SitesSwept(qm, wm0, pm0, cm0, im0, wm, pm, cm, im, SiteNames(stats.sites))
    requires AllReported(stats.sites, qm, wm0, pm0, cm0, wm, pm, cm, im)
    ensures stats.sites == [SiteStats("test", [WorkerStats("b", 2), WorkerStats("c", 0)],
                                      [QueueStats("lel", 2, 2, 4, 2)], 2, 2, 4, 2)]
    ensures ClaimsIn(cm, Lel) == map["2" := "b", "3" := "b"]
    ensures Elems(PendingIn(pm, Lel)) == {"0", "1"}
  {
    OnlySite(stats, qm, wm0, pm0, cm0, wm, pm, cm, im);
    var e := stats.sites[0];
    assert "test" in SiteNames(stats.sites);
    ExpiredRows(im);
    ReclaimedFromA(PendingIn(pm, Lel), ClaimsIn(cm, Lel));
    IndexKept(qm, wm0, pm0, cm0, im0, wm, pm, cm, im, SiteNames(stats.sites), B);
    IndexKept(qm, wm0, pm0, cm0, im0, wm, pm, cm, im, SiteNames(stats.sites), C);
    OneQueueStats(LiveOnly(AExpired), pm, cm, im, e.reclaimed);
    OneQueueStats(LiveOnly(AExpired), pm0, cm0, im, e.reclaimed);
    assert |map["2" := "b", "3" := "b"]| == 2;
    assert WorkersIn(wm, "test") == LiveOnly(AExpired);
    assert e.reclaimed == 2;
    assert e.workers == [WorkerStats("b", 2), WorkerStats("c", 0)];
    assert e.queues == [QueueStats("lel", 2, 2, 4, 2)];
  }

  // ---------------------------------------------------------------------
  // Sweeping the populated board

  /** Sweeps a board where `a` holds `0`, `1` and `b` holds `2`, `3`, all
      workers live: the report is the one of the live board and both workers
      still hold their claims. */
  method SweepLive(store: Store, queue: JQ.JobQueue) returns (stats: Stats)
    requires queue.store == store && queue.site == "test" && queue.queueName == "lel"
    requires Board(store, Workers, [], ClaimsAB, ["0", "1"], ["2", "3"], [])
    modifies store`workers, store`pending, store`claims, store`index
    ensures stats.sites == [SiteStats("test", [WorkerStats("a", 2), WorkerStats("b", 2), WorkerStats("c", 0)],
                                      [QueueStats("lel", 0, 4, 6, 2)], 0, 4, 6, 2)]
    ensures store.ClaimsAt(Lel) == ClaimsAB
  {
    ghost var wm0, pm0, cm0, im0 := store.workers, store.pending, store.claims, store.index;
    stats := Reconcile(store);
    LiveClaimsReport(stats, store.queues, wm0, pm0, cm0, im0, store.workers, store.pending, store.claims, store.index);
  }

  /** Sweeps the fully claimed board once `a` has expired. */
  method SweepExpired(store: Store, queue: JQ.JobQueue) returns (stats: Stats)
    requires queue.store == store && queue.site == "test" && queue.queueName == "lel"
    requires Board(store, AExpired, [], ClaimsAB, [], ["2", "3"], [])
    modifies store`workers, store`pending, store`claims, store`index
    ensures stats.sites == [SiteStats("test", [WorkerStats("b", 2), WorkerStats("c", 0)],
                                      [QueueStats("lel", 2, 2, 4, 2)], 2, 2, 4, 2)]
    ensures store.ClaimsAt(Lel) == map["2" := "b", "3" := "b"]
  {
    ghost var wm0, pm0, cm0, im0 := store.workers, store.pending, store.claims, store.index;
    stats := Reconcile(store);
    ExpiredClaimsReport(stats, store.queues, wm0, pm0, cm0, im0, store.workers, store.pending, store.claims, store.index);
  }

  /** Claims by `a`, `b`, `a`, `b`: the last two find their worker at capacity. */
  method FullyClaimed() returns (store: Store, queue: JQ.JobQueue)
    ensures fresh(store)
    ensures queue.store == store && queue.site == "test" && queue.queueName == "lel"
    ensures Board(store, Workers, [], ClaimsAB, ["0", "1"], ["2", "3"], [])
  {
    store, queue := ClaimedByAB();
    ClaimAtCapacity(store, queue, 0);
    ClaimAtCapacity(store, queue, 1);
  }

  /** Checks `ids` for `worker` on queue `lel`, whose claims are `c`. */
  method CheckHeld(store: Store, queue: JQ.JobQueue, worker: WorkerName, ids: seq<JobId>,
                   ghost c: map<JobId, WorkerName>) returns (held: seq<JobId>)
    requires queue.store == store && queue.site == "test" && queue.queueName == "lel"
    requires store.ClaimsAt(Lel) == c
    ensures (forall i | 0 <= i < |ids| :: ids[i] in c && c[ids[i]] == worker) ==> held == ids
    ensures (forall i | 0 <= i < |ids| :: ids[i] !in c || c[ids[i]] != worker) ==> held == []
  {
    assert queue.Key() == Lel;
    held := queue.CheckClaims(worker, ids);
    if forall i | 0 <= i < |ids| :: ids[i] in c && c[ids[i]] == worker {
      JQ.HeldAmongAll(ids, c, worker);
    }
    if forall i | 0 <= i < |ids| :: ids[i] !in c || c[ids[i]] != worker {
      JQ.HeldAmongNone(ids, c, worker);
    }
  }

  /** All four ids claimed by live workers: nothing is reclaimed, and `a` and
      `b` still hold what they claimed. */
  method AllClaimedReport() returns (stats: Stats, heldA: seq<JobId>, heldB: seq<JobId>)
    ensures stats.sites == [SiteStats("test", [WorkerStats("a", 2), WorkerStats("b", 2), WorkerStats("c", 0)],
                                      [QueueStats("lel", 0, 4, 6, 2)], 0, 4, 6, 2)]
    ensures heldA == ["0", "1"] && heldB == ["2", "3"]
  {
    var store, queue := FullyClaimed();
    stats := SweepLive(store, queue);
    heldA := CheckHeld(store, queue, "a", ["0", "1"], ClaimsAB);
    heldB := CheckHeld(store, queue, "b", ["2", "3"], ClaimsAB);
  }

  /** Claims by `a`, `b`, `a`: the second claim of `a` finds it at capacity,
      so the board and the report are those of the fully claimed queue. */
  method UnclaimedAvailableReport() returns (stats: Stats, heldA: seq<JobId>, heldB: seq<JobId>)
    ensures stats.sites == [SiteStats("test", [WorkerStats("a", 2), WorkerStats("b", 2), WorkerStats("c", 0)],
                                      [QueueStats("lel", 0, 4, 6, 2)], 0, 4, 6, 2)]
    ensures heldA == ["0", "1"] && heldB == ["2"]
  {
    var store, queue := ClaimedByAB();
    ClaimAtCapacity(store, queue, 0);
    stats := SweepLive(store, queue);
    heldA := CheckHeld(store, queue, "a", ["0", "1"], ClaimsAB);
    heldB := CheckHeld(store, queue, "b", ["2"], ClaimsAB);
  }

  /** The fully claimed board once the registration of `a` has expired. */
  method ExpiredBoard() returns (store: Store, queue: JQ.JobQueue)
    ensures fresh(store)
    ensures queue.store == store && queue.site == "test" && queue.queueName == "lel"
    ensures Board(store, AExpired, [], ClaimsAB, [], ["2", "3"], [])
  {
    store, queue := FullyClaimed();
    ExpireA(store, [], ClaimsAB, ["0", "1"], ["2", "3"], []);
  }

  /** Worker `a` expires while holding `0` and `1`: the sweep gives them back
      to the queue, drops `a` from the report and its capacity from the
      site's, and `a` no longer holds anything. */
  method ExpiredReport() returns (stats: Stats, heldA: seq<JobId>, heldB: seq<JobId>)
    ensures stats.sites == [SiteStats("test", [WorkerStats("b", 2), WorkerStats("c", 0)],
                                      [QueueStats("lel", 2, 2, 4, 2)], 2, 2, 4, 2)]
    ensures heldA == [] && heldB == ["2"]
  {
    var store, queue := ExpiredBoard();
    stats := SweepExpired(store, queue);
    heldA := CheckHeld(store, queue, "a", ["0", "1"], map["2" := "b", "3" := "b"]);
    heldB := CheckHeld(store, queue, "b", ["2"], map["2" := "b", "3" := "b"]);
  }
}
