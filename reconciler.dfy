/** The reconciliation sweep: for every known site, give the claims of
    expired workers back to their queues, drop those workers, and report
    per-worker, per-queue and per-site statistics. */
module Reconciler {
  import opened Collections
  import opened Store

  datatype WorkerStats = WorkerStats(name: WorkerName, claimed: nat)
  datatype QueueStats = QueueStats(name: QueueName, queued: nat, claimed: nat, capacity: nat, available: nat)
  datatype SiteStats = SiteStats(site: Site, workers: seq<WorkerStats>, queues: seq<QueueStats>,
                                 reclaimed: nat, claimed: nat, capacity: nat, available: nat)
  datatype Stats = Stats(sites: seq<SiteStats>)

  /** Free capacity: capacity minus claimed, floored at zero. */
  function Available(capacity: nat, claimed: nat): (a: nat)
    ensures a <= capacity
    ensures a + claimed >= capacity
    ensures a == 0 || a + claimed == capacity
  {
    if claimed <= capacity then capacity - claimed else 0
  }

  // ---------------------------------------------------------------------
  // Reclaiming one queue

  /** The claimed ids whose holder is one of `dead`. */
  function HeldBy(c: map<JobId, WorkerName>, dead: set<WorkerName>): set<JobId> {
    set id | id in c && c[id] in dead
  }

  /** The claims that survive once the claims of `dead` are dropped. */
  function Release(c: map<JobId, WorkerName>, dead: set<WorkerName>): map<JobId, WorkerName> {
    map id | id in c && c[id] !in dead :: c[id]
  }

  /** One queue after reclaiming the claims of `dead`: their ids were appended,
      each once, at the tail of pending, behind the ids that were already
      waiting, and their claims are gone. */
  ghost predicate Requeued(p0: seq<JobId>, c0: map<JobId, WorkerName>, dead: set<WorkerName>,
                           p1: seq<JobId>, c1: map<JobId, WorkerName>)
  {
    && c1 == Release(c0, dead)
    && |p0| <= |p1| && p1[..|p0|] == p0
    && NoDup(p1[|p0|..])
    && Elems(p1[|p0|..]) == HeldBy(c0, dead)
  }

  /** Reclaiming keeps a queue disjoint, leaves no claim of a dead worker,
      conserves pending plus claimed, and grows pending by exactly the number
      of claims it drops. */
  lemma RequeueKeepsQueueOk(p0: seq<JobId>, c0: map<JobId, WorkerName>, dead: set<WorkerName>,
                            p1: seq<JobId>, c1: map<JobId, WorkerName>)
    requires QueueOk(p0, c0)
    requires Requeued(p0, c0, dead, p1, c1)
    ensures QueueOk(p1, c1)
    ensures forall id | id in c1 :: c1[id] !in dead
    ensures |p1| == |p0| + |HeldBy(c0, dead)|
    ensures |c1| + |HeldBy(c0, dead)| == |c0|
  {
    var moved := p1[|p0|..];
    var held := HeldBy(c0, dead);
    NoDupCard(moved);
    assert p1 == p0 + moved;
    assert c1.Keys == c0.Keys - held;
    assert c0.Keys == c1.Keys + held;
    assert c1.Keys !! held;
    assert |c0| == |c0.Keys| && |c1| == |c1.Keys|;
    forall i, j | 0 <= i < j < |p1| ensures p1[i] != p1[j] {
      if j < |p0| {
        assert p1[i] == p0[i] && p1[j] == p0[j];
      } else if i < |p0| {
        assert p1[j] == moved[j - |p0|] && moved[j - |p0|] in held;
        assert p1[i] == p0[i];
      } else {
        assert p1[i] == moved[i - |p0|] && p1[j] == moved[j - |p0|];
      }
    }
    forall i | 0 <= i < |p1| ensures p1[i] !in c1 {
      if i < |p0| {
        assert p1[i] == p0[i];
      } else {
        assert p1[i] == moved[i - |p0|] && moved[i - |p0|] in held;
      }
    }
  }

  /** With no expired worker, reclaiming changes nothing. */
  lemma NoExpiryNoReclaim(p0: seq<JobId>, c0: map<JobId, WorkerName>, p1: seq<JobId>, c1: map<JobId, WorkerName>)
    requires Requeued(p0, c0, {}, p1, c1)
    ensures p1 == p0 && c1 == c0
  {
    var moved := p1[|p0|..];
    assert HeldBy(c0, {}) == {};
    NoDupCard(moved);
    assert p1 == p0 + moved;
  }

  /** Moves, one at a time, every id of `c` claimed by a worker in `dead`
      from the claims to the tail of pending; gives back how many. */
  method Requeue(p: seq<JobId>, c: map<JobId, WorkerName>, dead: set<WorkerName>)
    returns (p': seq<JobId>, c': map<JobId, WorkerName>, moved: nat)
    ensures Requeued(p, c, dead, p', c')
    ensures moved == |HeldBy(c, dead)|
  {
    p', c' := p, c;
    var ids := Enumerate(HeldBy(c, dead));
    var i := 0;
    while i < |ids|
      invariant 0 <= i <= |ids|
      invariant p' == p + ids[..i]
      invariant c' == c - Elems(ids[..i])
    {
      assert ids[..i + 1] == ids[..i] + [ids[i]];
      assert Elems(ids[..i + 1]) == Elems(ids[..i]) + {ids[i]};
      p' := p' + [ids[i]];
      c' := c' - {ids[i]};
      i := i + 1;
    }
    assert ids[..i] == ids;
    assert c' == Release(c, dead);
    assert p'[..|p|] == p && p'[|p|..] == ids;
    moved := |ids|;
  }

  /** Reclaims, in queue `k` of the store, every claim held by a worker in `dead`. */
  method ReclaimQueue(store: Store, k: QueueKey, dead: set<WorkerName>) returns (moved: nat)
    requires store.Valid()
    modifies store`pending, store`claims
    ensures store.Valid()
    ensures Requeued(old(store.PendingAt(k)), old(store.ClaimsAt(k)), dead, store.PendingAt(k), store.ClaimsAt(k))
    ensures store.pending == old(store.pending)[k := store.PendingAt(k)]
    ensures store.claims == old(store.claims)[k := store.ClaimsAt(k)]
    ensures moved == |HeldBy(old(store.ClaimsAt(k)), dead)|
  {
    var p, c := store.PendingAt(k), store.ClaimsAt(k);
    var p', c';
    p', c', moved := Requeue(p, c, dead);
    RequeueKeepsQueueOk(p, c, dead, p', c');
    store.SetQueue(k, p', c');
  }

  // ---------------------------------------------------------------------
  // Statistics

  /** Number of pending ids over the queues `qs` of `site`. */
  function QueuedAt(pm: map<QueueKey, seq<JobId>>, site: Site, qs: seq<QueueName>): nat {
    if qs == [] then 0
    else QueuedAt(pm, site, qs[..|qs| - 1]) + |PendingIn(pm, QueueKey(site, qs[|qs| - 1]))|
  }

  /** Number of claims over the queues `qs` of `site`. */
  function ClaimedAt(cm: map<QueueKey, map<JobId, WorkerName>>, site: Site, qs: seq<QueueName>): nat {
    if qs == [] then 0
    else ClaimedAt(cm, site, qs[..|qs| - 1]) + |ClaimsIn(cm, QueueKey(site, qs[|qs| - 1]))|
  }

  function QueueNames(rows: seq<QueueStats>): seq<QueueName> {
    seq(|rows|, i requires 0 <= i < |rows| => rows[i].name)
  }

  function SiteNames(sts: seq<SiteStats>): seq<Site> {
    seq(|sts|, i requires 0 <= i < |sts| => sts[i].site)
  }

  function SumQueued(rows: seq<QueueStats>): nat {
    if rows == [] then 0 else SumQueued(rows[..|rows| - 1]) + rows[|rows| - 1].queued
  }

  function SumClaimed(rows: seq<QueueStats>): nat {
    if rows == [] then 0 else SumClaimed(rows[..|rows| - 1]) + rows[|rows| - 1].claimed
  }

  /** The statistics row of one queue; its capacity is that of the site. */
  function QueueRow(name: QueueName, p: seq<JobId>, c: map<JobId, WorkerName>, capacity: nat): QueueStats {
    QueueStats(name, |p|, |c|, capacity, Available(capacity, |c|))
  }

  function QueueRows(site: Site, qs: seq<QueueName>, pm: map<QueueKey, seq<JobId>>,
                     cm: map<QueueKey, map<JobId, WorkerName>>, capacity: nat): (rows: seq<QueueStats>)
  {
    seq(|qs|, i requires 0 <= i < |qs| =>
      QueueRow(qs[i], PendingIn(pm, QueueKey(site, qs[i])), ClaimsIn(cm, QueueKey(site, qs[i])), capacity))
  }

  /** The live workers, in registration order, each with the length of its claim index. */
  function WorkerRows(site: Site, ws: seq<Worker>, im: map<WorkerKey, seq<JobId>>): seq<WorkerStats> {
    var live := LiveOnly(ws);
    seq(|live|, i requires 0 <= i < |live| =>
      WorkerStats(live[i].name, |IndexIn(im, WorkerKey(site, live[i].name))|))
  }

  /** The statistics of one site, taken over the queues `qs`. */
  function SiteStatsOf(site: Site, ws: seq<Worker>, qs: seq<QueueName>, pm: map<QueueKey, seq<JobId>>,
                       cm: map<QueueKey, map<JobId, WorkerName>>, im: map<WorkerKey, seq<JobId>>,
                       reclaimed: nat): SiteStats
  {
    var capacity := LiveCapacity(ws);
    var rows := QueueRows(site, qs, pm, cm, capacity);
    var claimed := SumClaimed(rows);
    SiteStats(site, WorkerRows(site, ws, im), rows, reclaimed, claimed, capacity, Available(capacity, claimed))
  }

  /** The rows of a site count exactly its pending ids and its claims; every
      row and the site itself report capacity minus claimed, floored at zero,
      as available. */
  lemma {:induction false} SiteStatsCount(site: Site, ws: seq<Worker>, qs: seq<QueueName>, pm: map<QueueKey, seq<JobId>>,
                                          cm: map<QueueKey, map<JobId, WorkerName>>, im: map<WorkerKey, seq<JobId>>,
                                          reclaimed: nat)
    ensures var st := SiteStatsOf(site, ws, qs, pm, cm, im, reclaimed);
            && QueueNames(st.queues) == qs
            && SumQueued(st.queues) == QueuedAt(pm, site, qs)
            && st.claimed == ClaimedAt(cm, site, qs)
            && st.capacity == LiveCapacity(ws)
            && st.available == (if st.claimed <= st.capacity then st.capacity - st.claimed else 0)
            && forall i | 0 <= i < |st.queues| ::
                 && st.queues[i].capacity == st.capacity
                 && st.queues[i].available == (if st.queues[i].claimed <= st.capacity then st.capacity - st.queues[i].claimed else 0)
  {
    RowSums(site, qs, pm, cm, LiveCapacity(ws));
  }

  lemma {:induction false} RowSums(site: Site, qs: seq<QueueName>, pm: map<QueueKey, seq<JobId>>,
                                   cm: map<QueueKey, map<JobId, WorkerName>>, capacity: nat)
    ensures SumQueued(QueueRows(site, qs, pm, cm, capacity)) == QueuedAt(pm, site, qs)
    ensures SumClaimed(QueueRows(site, qs, pm, cm, capacity)) == ClaimedAt(cm, site, qs)
  {
    if qs != [] {
      var init := qs[..|qs| - 1];
      var rows := QueueRows(site, qs, pm, cm, capacity);
      assert rows[..|rows| - 1] == QueueRows(site, init, pm, cm, capacity);
      RowSums(site, init, pm, cm, capacity);
    }
  }

  /** Worker rows list exactly the live workers, in registration order. */
  lemma WorkerRowsAreLive(site: Site, ws: seq<Worker>, im: map<WorkerKey, seq<JobId>>)
    requires UniqueNames(ws)
    ensures |WorkerRows(site, ws, im)| == |LiveOnly(ws)|
    ensures forall r | r in WorkerRows(site, ws, im) :: exists w :: w in ws && w.live && w.name == r.name
    ensures forall w | w in ws && w.live :: WorkerStats(w.name, |IndexIn(im, WorkerKey(site, w.name))|) in WorkerRows(site, ws, im)
  {
    LiveOnlyKeeps(ws);
    var live := LiveOnly(ws);
    var rows := WorkerRows(site, ws, im);
    forall r | r in rows ensures exists w :: w in ws && w.live && w.name == r.name {
      var i :| 0 <= i < |rows| && rows[i] == r;
      assert live[i] in live;
    }
    forall w | w in ws && w.live ensures WorkerStats(w.name, |IndexIn(im, WorkerKey(site, w.name))|) in rows {
      assert w in live;
      var i :| 0 <= i < |live| && live[i] == w;
      assert rows[i] == WorkerStats(w.name, |IndexIn(im, WorkerKey(site, w.name))|);
    }
  }

  /** Sums over a site's queues only look at that site's keys for those queues. */
  lemma {:induction false} SumsFrame(site: Site, qs: seq<QueueName>,
                                     pm: map<QueueKey, seq<JobId>>, cm: map<QueueKey, map<JobId, WorkerName>>,
                                     pm': map<QueueKey, seq<JobId>>, cm': map<QueueKey, map<JobId, WorkerName>>)
    requires forall q | q in qs :: PendingIn(pm', QueueKey(site, q)) == PendingIn(pm, QueueKey(site, q))
    requires forall q | q in qs :: ClaimsIn(cm', QueueKey(site, q)) == ClaimsIn(cm, QueueKey(site, q))
    ensures QueuedAt(pm', site, qs) == QueuedAt(pm, site, qs)
    ensures ClaimedAt(cm', site, qs) == ClaimedAt(cm, site, qs)
  {
    if qs != [] {
      var init := qs[..|qs| - 1];
      assert forall q | q in init :: q in qs;
      assert qs[|qs| - 1] in qs;
      SumsFrame(site, init, pm, cm, pm', cm');
    }
  }

  /** A site's statistics only look at that site's keys. */
  lemma SiteStatsFrame(site: Site, ws: seq<Worker>, qs: seq<QueueName>,
                       pm: map<QueueKey, seq<JobId>>, cm: map<QueueKey, map<JobId, WorkerName>>, im: map<WorkerKey, seq<JobId>>,
                       pm': map<QueueKey, seq<JobId>>, cm': map<QueueKey, map<JobId, WorkerName>>, im': map<WorkerKey, seq<JobId>>,
                       reclaimed: nat)
    requires forall k: QueueKey | k.site == site :: PendingIn(pm', k) == PendingIn(pm, k) && ClaimsIn(cm', k) == ClaimsIn(cm, k)
    requires forall k: WorkerKey | k.site == site :: IndexIn(im', k) == IndexIn(im, k)
    ensures SiteStatsOf(site, ws, qs, pm', cm', im', reclaimed) == SiteStatsOf(site, ws, qs, pm, cm, im, reclaimed)
  {
    var cap := LiveCapacity(ws);
    assert QueueRows(site, qs, pm', cm', cap) == QueueRows(site, qs, pm, cm, cap);
    assert WorkerRows(site, ws, im') == WorkerRows(site, ws, im);
  }

  /** Over a site's queues, reclaiming conserves queued plus claimed, and the
      growth of the queued count equals the drop of the claimed count. */
  lemma {:induction false} RequeueConservesSite(site: Site, qs: seq<QueueName>, dead: set<WorkerName>,
                                                pm0: map<QueueKey, seq<JobId>>, cm0: map<QueueKey, map<JobId, WorkerName>>,
                                                pm1: map<QueueKey, seq<JobId>>, cm1: map<QueueKey, map<JobId, WorkerName>>)
    requires forall q | q in qs :: QueueOk(PendingIn(pm0, QueueKey(site, q)), ClaimsIn(cm0, QueueKey(site, q)))
    requires forall q | q in qs :: Requeued(PendingIn(pm0, QueueKey(site, q)), ClaimsIn(cm0, QueueKey(site, q)), dead,
                                           PendingIn(pm1, QueueKey(site, q)), ClaimsIn(cm1, QueueKey(site, q)))
    ensures QueuedAt(pm1, site, qs) + ClaimedAt(cm1, site, qs) == QueuedAt(pm0, site, qs) + ClaimedAt(cm0, site, qs)
    ensures QueuedAt(pm0, site, qs) <= QueuedAt(pm1, site, qs)
  {
    if qs != [] {
      var init := qs[..|qs| - 1];
      var k := QueueKey(site, qs[|qs| - 1]);
      assert qs[|qs| - 1] in qs;
      assert forall q | q in init :: q in qs;
      RequeueConservesSite(site, init, dead, pm0, cm0, pm1, cm1);
      RequeueKeepsQueueOk(PendingIn(pm0, k), ClaimsIn(cm0, k), dead, PendingIn(pm1, k), ClaimsIn(cm1, k));
    }
  }

  // ---------------------------------------------------------------------
  // The sweep

  /** The queues `done` of `site` have been reclaimed from (`pm0`, `cm0`) to
      (`pm`, `cm`), every other queue is untouched, and `reclaimed` ids went
      back to pending. */
  ghost predicate SweptUpTo(pm0: map<QueueKey, seq<JobId>>, cm0: map<QueueKey, map<JobId, WorkerName>>,
                            pm: map<QueueKey, seq<JobId>>, cm: map<QueueKey, map<JobId, WorkerName>>,
                            site: Site, done: seq<QueueName>, dead: set<WorkerName>, reclaimed: nat)
  {
    && (forall q | q in done ::
          Requeued(PendingIn(pm0, QueueKey(site, q)), ClaimsIn(cm0, QueueKey(site, q)), dead,
                   PendingIn(pm, QueueKey(site, q)), ClaimsIn(cm, QueueKey(site, q))))
    && (forall k: QueueKey | !(k.site == site && k.queue in done) ::
          PendingIn(pm, k) == PendingIn(pm0, k) && ClaimsIn(cm, k) == ClaimsIn(cm0, k))
    && QueuedAt(pm, site, done) == QueuedAt(pm0, site, done) + reclaimed
  }

  /** Reclaiming one more queue `q` keeps every queue outside `done + [q]`
      untouched and leaves every queue of `done + [q]` requeued. */
  lemma SweepStepFrame(pm0: map<QueueKey, seq<JobId>>, cm0: map<QueueKey, map<JobId, WorkerName>>,
                       pm: map<QueueKey, seq<JobId>>, cm: map<QueueKey, map<JobId, WorkerName>>,
                       pm1: map<QueueKey, seq<JobId>>, cm1: map<QueueKey, map<JobId, WorkerName>>,
                       site: Site, done: seq<QueueName>, q: QueueName, dead: set<WorkerName>, reclaimed: nat, moved: nat)
    requires SweptUpTo(pm0, cm0, pm, cm, site, done, dead, reclaimed)
    requires q !in done
    requires QueueOk(PendingIn(pm0, QueueKey(site, q)), ClaimsIn(cm0, QueueKey(site, q)))
    requires Requeued(PendingIn(pm, QueueKey(site, q)), ClaimsIn(cm, QueueKey(site, q)), dead,
                           PendingIn(pm1, QueueKey(site, q)), ClaimsIn(cm1, QueueKey(site, q)))
    requires pm1 == pm[QueueKey(site, q) := PendingIn(pm1, QueueKey(site, q))]
    requires cm1 == cm[QueueKey(site, q) := ClaimsIn(cm1, QueueKey(site, q))]
    ensures forall q' | q' in done + [q] ::
              Requeued(PendingIn(pm0, QueueKey(site, q')), ClaimsIn(cm0, QueueKey(site, q')), dead,
                       PendingIn(pm1, QueueKey(site, q')), ClaimsIn(cm1, QueueKey(site, q')))
    ensures forall k: QueueKey | !(k.site == site && k.queue in done + [q]) ::
              PendingIn(pm1, k) == PendingIn(pm0, k) && ClaimsIn(cm1, k) == ClaimsIn(cm0, k)
  {
    var k := QueueKey(site, q);
    var next := done + [q];
    assert PendingIn(pm, k) == PendingIn(pm0, k) && ClaimsIn(cm, k) == ClaimsIn(cm0, k);
    forall q' | q' in next
      ensures Requeued(PendingIn(pm0, QueueKey(site, q')), ClaimsIn(cm0, QueueKey(site, q')), dead,
                       PendingIn(pm1, QueueKey(site, q')), ClaimsIn(cm1, QueueKey(site, q')))
    {
      if q' != q {
        assert q' in done;
        assert PendingIn(pm1, QueueKey(site, q')) == PendingIn(pm, QueueKey(site, q'));
        assert ClaimsIn(cm1, QueueKey(site, q')) == ClaimsIn(cm, QueueKey(site, q'));
      }
    }
    forall k': QueueKey | !(k'.site == site && k'.queue in next)
      ensures PendingIn(pm1, k') == PendingIn(pm0, k') && ClaimsIn(cm1, k') == ClaimsIn(cm0, k')
    {
      assert k' != k && !(k'.site == site && k'.queue in done);
    }
  }

  /** Reclaiming one more queue `q` extends the sweep by `q`. */
  lemma SweepStep(pm0: map<QueueKey, seq<JobId>>, cm0: map<QueueKey, map<JobId, WorkerName>>,
                  pm: map<QueueKey, seq<JobId>>, cm: map<QueueKey, map<JobId, WorkerName>>,
                  pm1: map<QueueKey, seq<JobId>>, cm1: map<QueueKey, map<JobId, WorkerName>>,
                  site: Site, done: seq<QueueName>, q: QueueName, dead: set<WorkerName>, reclaimed: nat, moved: nat)
    requires SweptUpTo(pm0, cm0, pm, cm, site, done, dead, reclaimed)
    requires q !in done
    requires QueueOk(PendingIn(pm0, QueueKey(site, q)), ClaimsIn(cm0, QueueKey(site, q)))
    requires Requeued(PendingIn(pm, QueueKey(site, q)), ClaimsIn(cm, QueueKey(site, q)), dead,
                      PendingIn(pm1, QueueKey(site, q)), ClaimsIn(cm1, QueueKey(site, q)))
    requires pm1 == pm[QueueKey(site, q) := PendingIn(pm1, QueueKey(site, q))]
    requires cm1 == cm[QueueKey(site, q) := ClaimsIn(cm1, QueueKey(site, q))]
    requires moved == |HeldBy(ClaimsIn(cm, QueueKey(site, q)), dead)|
    ensures SweptUpTo(pm0, cm0, pm1, cm1, site, done + [q], dead, reclaimed + moved)
  {
    var k := QueueKey(site, q);
    var next := done + [q];
    assert PendingIn(pm, k) == PendingIn(pm0, k) && ClaimsIn(cm, k) == ClaimsIn(cm0, k);
    RequeueKeepsQueueOk(PendingIn(pm0, k), ClaimsIn(cm0, k), dead, PendingIn(pm1, k), ClaimsIn(cm1, k));
    SumsFrame(site, done, pm, cm, pm1, cm1);
    assert next[..|next| - 1] == done;
    assert QueuedAt(pm1, site, next) == QueuedAt(pm1, site, done) + |PendingIn(pm1, k)|;
    assert QueuedAt(pm0, site, next) == QueuedAt(pm0, site, done) + |PendingIn(pm0, k)|;
    SweepStepFrame(pm0, cm0, pm, cm, pm1, cm1, site, done, q, dead, reclaimed, moved);
  }

  /** Reclaims, queue by queue over `qs`, every claim of `site` held by a
      worker in `dead`; gives back how many claims went back to pending. */
  method ReclaimSite(store: Store, site: Site, qs: seq<QueueName>, dead: set<WorkerName>) returns (reclaimed: nat)
    requires store.Valid()
    requires NoDup(qs)
    modifies store`pending, store`claims
    ensures store.Valid()
    ensures SweptUpTo(old(store.pending), old(store.claims), store.pending, store.claims, site, qs, dead, reclaimed)
  {
    ghost var pm0, cm0 := store.pending, store.claims;
    reclaimed := 0;
    var i := 0;
    while i < |qs|
      invariant 0 <= i <= |qs|
      invariant store.Valid()
      invariant SweptUpTo(pm0, cm0, store.pending, store.claims, site, qs[..i], dead, reclaimed)
    {
      var k := QueueKey(site, qs[i]);
      ghost var pmBefore, cmBefore := store.pending, store.claims;
      assert qs[i] !in qs[..i] by {
        forall j | 0 <= j < i ensures qs[j] != qs[i] {}
      }
      var moved := ReclaimQueue(store, k, dead);
      SweepStep(pm0, cm0, pmBefore, cmBefore, store.pending, store.claims, site, qs[..i], qs[i], dead, reclaimed, moved);
      assert qs[..i + 1] == qs[..i] + [qs[i]];
      reclaimed := reclaimed + moved;
      i := i + 1;
    }
    assert qs[..i] == qs;
  }

  /** The sites `done` have been reconciled from the state (`wm0`, `pm0`,
      `cm0`, `im0`) to (`wm`, `pm`, `cm`, `im`): their workers are the live
      ones, the registered queues of each have been reclaimed from its
      expired workers, whose claim indexes are gone; nothing else changed. */
  ghost predicate SitesSwept(qm: map<Site, set<QueueName>>,
                             wm0: map<Site, seq<Worker>>, pm0: map<QueueKey, seq<JobId>>,
                             cm0: map<QueueKey, map<JobId, WorkerName>>, im0: map<WorkerKey, seq<JobId>>,
                             wm: map<Site, seq<Worker>>, pm: map<QueueKey, seq<JobId>>,
                             cm: map<QueueKey, map<JobId, WorkerName>>, im: map<WorkerKey, seq<JobId>>,
                             done: seq<Site>)
  {
    && (forall s :: WorkersIn(wm, s) == if s in done then LiveOnly(WorkersIn(wm0, s)) else WorkersIn(wm0, s))
    && (forall k: QueueKey | k.site in done && k.queue in QueuesIn(qm, k.site) ::
          Requeued(PendingIn(pm0, k), ClaimsIn(cm0, k), DeadNames(WorkersIn(wm0, k.site)), PendingIn(pm, k), ClaimsIn(cm, k)))
    && (forall k: QueueKey | !(k.site in done && k.queue in QueuesIn(qm, k.site)) ::
          PendingIn(pm, k) == PendingIn(pm0, k) && ClaimsIn(cm, k) == ClaimsIn(cm0, k))
    && (forall wk: WorkerKey :: wk in im <==>
          wk in im0 && !(wk.site in done && wk.worker in DeadNames(WorkersIn(wm0, wk.site))))
    && (forall wk | wk in im :: im[wk] == im0[wk])
  }

  /** `e` is the report of its site: it lists the site's registered queues
      once each, matches the statistics of the state (`wm`, `pm`, `cm`, `im`),
      keeps the capacity the site had before expiry, and accounts for every
      reclaimed id against the state (`pm0`, `cm0`). */
  ghost predicate Reported(e: SiteStats, qm: map<Site, set<QueueName>>, wm0: map<Site, seq<Worker>>,
                           pm0: map<QueueKey, seq<JobId>>, cm0: map<QueueKey, map<JobId, WorkerName>>,
                           wm: map<Site, seq<Worker>>, pm: map<QueueKey, seq<JobId>>,
                           cm: map<QueueKey, map<JobId, WorkerName>>, im: map<WorkerKey, seq<JobId>>)
  {
    var qs := QueueNames(e.queues);
    && NoDup(qs) && Elems(qs) == QueuesIn(qm, e.site)
    && e == SiteStatsOf(e.site, WorkersIn(wm, e.site), qs, pm, cm, im, e.reclaimed)
    && e.capacity == LiveCapacity(WorkersIn(wm0, e.site))
    && QueuedAt(pm, e.site, qs) == QueuedAt(pm0, e.site, qs) + e.reclaimed
    && SumQueued(e.queues) + e.claimed == QueuedAt(pm0, e.site, qs) + ClaimedAt(cm0, e.site, qs)
  }

  /** Every entry of `entries` is the accurate report of its site. */
  ghost predicate AllReported(entries: seq<SiteStats>, qm: map<Site, set<QueueName>>, wm0: map<Site, seq<Worker>>,
                              pm0: map<QueueKey, seq<JobId>>, cm0: map<QueueKey, map<JobId, WorkerName>>,
                              wm: map<Site, seq<Worker>>, pm: map<QueueKey, seq<JobId>>,
                              cm: map<QueueKey, map<JobId, WorkerName>>, im: map<WorkerKey, seq<JobId>>)
  {
    forall e | e in entries :: Reported(e, qm, wm0, pm0, cm0, wm, pm, cm, im)
  }

  /** Reclaiming every registered queue of `site`, keeping its live workers
      and dropping the claim indexes of its expired ones sweeps that one site. */
  lemma OneSiteSwept(qm: map<Site, set<QueueName>>,
                     wm: map<Site, seq<Worker>>, pm: map<QueueKey, seq<JobId>>,
                     cm: map<QueueKey, map<JobId, WorkerName>>, im: map<WorkerKey, seq<JobId>>,
                     wm1: map<Site, seq<Worker>>, pm1: map<QueueKey, seq<JobId>>,
                     cm1: map<QueueKey, map<JobId, WorkerName>>, im1: map<WorkerKey, seq<JobId>>,
                     site: Site, qs: seq<QueueName>, reclaimed: nat)
    requires Elems(qs) == QueuesIn(qm, site)
    requires SweptUpTo(pm, cm, pm1, cm1, site, qs, DeadNames(WorkersIn(wm, site)), reclaimed)
    requires wm1 == wm[site := LiveOnly(WorkersIn(wm, site))]
    requires im1 == im - (set w | w in DeadNames(WorkersIn(wm, site)) :: WorkerKey(site, w))
    ensures SitesSwept(qm, wm, pm, cm, im, wm1, pm1, cm1, im1, [site])
  {
    assert forall s :: s in [site] <==> s == site;
    forall wk: WorkerKey
      ensures wk in im1 <==> wk in im && !(wk.site in [site] && wk.worker in DeadNames(WorkersIn(wm, wk.site)))
    {
      assert wk in (set w | w in DeadNames(WorkersIn(wm, site)) :: WorkerKey(site, w))
             <==> wk.site == site && wk.worker in DeadNames(WorkersIn(wm, site));
    }
  }

  /** Reconciles one site: gives every expired worker's claims back to every
      queue of the site, drops the expired workers and their claim indexes,
      and reports the site's statistics over the resulting state. */
  method ReconcileSite(store: Store, site: Site) returns (st: SiteStats)
    requires store.Valid()
    modifies store`workers, store`pending, store`claims, store`index
    ensures store.Valid()
    ensures SitesSwept(store.queues, old(store.workers), old(store.pending), old(store.claims), old(store.index),
                       store.workers, store.pending, store.claims, store.index, [site])
    ensures st.site == site
    ensures Reported(st, store.queues, old(store.workers), old(store.pending), old(store.claims),
                     store.workers, store.pending, store.claims, store.index)
  {
    var ws := store.WorkersOf(site);
    var dead := DeadNames(ws);
    var qs := Enumerate(store.QueuesOf(site));
    ghost var wm0, pm0, cm0, im0 := store.workers, store.pending, store.claims, store.index;
    var reclaimed := ReclaimSite(store, site, qs, dead);
    RequeueConservesSite(site, qs, dead, pm0, cm0, store.pending, store.claims);

    LiveOnlyKeeps(ws);
    store.SetWorkers(site, LiveOnly(ws));
    store.index := store.index - (set w | w in dead :: WorkerKey(site, w));
    OneSiteSwept(store.queues, wm0, pm0, cm0, im0, store.workers, store.pending, store.claims, store.index, site, qs, reclaimed);

    st := SiteStatsOf(site, LiveOnly(ws), qs, store.pending, store.claims, store.index, reclaimed);
    SiteStatsCount(site, LiveOnly(ws), qs, store.pending, store.claims, store.index, reclaimed);
  }

  /** Sweeps compose: a sweep of `done` followed by a sweep of one more
      site is a sweep of `done + [site]`. */
  lemma SitesSweptStep(qm: map<Site, set<QueueName>>,
                       wm0: map<Site, seq<Worker>>, pm0: map<QueueKey, seq<JobId>>,
                       cm0: map<QueueKey, map<JobId, WorkerName>>, im0: map<WorkerKey, seq<JobId>>,
                       wm: map<Site, seq<Worker>>, pm: map<QueueKey, seq<JobId>>,
                       cm: map<QueueKey, map<JobId, WorkerName>>, im: map<WorkerKey, seq<JobId>>,
                       wm1: map<Site, seq<Worker>>, pm1: map<QueueKey, seq<JobId>>,
                       cm1: map<QueueKey, map<JobId, WorkerName>>, im1: map<WorkerKey, seq<JobId>>,
                       done: seq<Site>, site: Site)
    requires SitesSwept(qm, wm0, pm0, cm0, im0, wm, pm, cm, im, done)
    requires SitesSwept(qm, wm, pm, cm, im, wm1, pm1, cm1, im1, [site])
    requires site !in done
    ensures SitesSwept(qm, wm0, pm0, cm0, im0, wm1, pm1, cm1, im1, done + [site])
  {
    var next := done + [site];
    assert forall s :: s in next <==> s in done || s == site;
    assert forall s :: s in [site] <==> s == site;
    assert WorkersIn(wm, site) == WorkersIn(wm0, site);
    forall s ensures WorkersIn(wm1, s) == if s in next then LiveOnly(WorkersIn(wm0, s)) else WorkersIn(wm0, s) {
      if s != site {
        assert WorkersIn(wm1, s) == WorkersIn(wm, s);
      }
    }
    forall k: QueueKey | k.site in next && k.queue in QueuesIn(qm, k.site)
      ensures Requeued(PendingIn(pm0, k), ClaimsIn(cm0, k), DeadNames(WorkersIn(wm0, k.site)), PendingIn(pm1, k), ClaimsIn(cm1, k))
    {
      if k.site != site {
        assert PendingIn(pm1, k) == PendingIn(pm, k) && ClaimsIn(cm1, k) == ClaimsIn(cm, k);
      } else {
        assert PendingIn(pm, k) == PendingIn(pm0, k) && ClaimsIn(cm, k) == ClaimsIn(cm0, k);
      }
    }
    forall k: QueueKey | !(k.site in next && k.queue in QueuesIn(qm, k.site))
      ensures PendingIn(pm1, k) == PendingIn(pm0, k) && ClaimsIn(cm1, k) == ClaimsIn(cm0, k)
    {
      assert !(k.site in done && k.queue in QueuesIn(qm, k.site));
      assert !(k.site in [site] && k.queue in QueuesIn(qm, k.site));
    }
    forall wk: WorkerKey
      ensures wk in im1 <==> wk in im0 && !(wk.site in next && wk.worker in DeadNames(WorkersIn(wm0, wk.site)))
    {
      if wk.site == site {
        assert wk in im <==> wk in im0;
      }
    }
  }

  /** Reconciling another site keeps every earlier site's report accurate. */
  lemma ReportedStep(e: SiteStats, qm: map<Site, set<QueueName>>, wm0: map<Site, seq<Worker>>,
                     pm0: map<QueueKey, seq<JobId>>, cm0: map<QueueKey, map<JobId, WorkerName>>,
                     wm: map<Site, seq<Worker>>, pm: map<QueueKey, seq<JobId>>,
                     cm: map<QueueKey, map<JobId, WorkerName>>, im: map<WorkerKey, seq<JobId>>,
                     wm1: map<Site, seq<Worker>>, pm1: map<QueueKey, seq<JobId>>,
                     cm1: map<QueueKey, map<JobId, WorkerName>>, im1: map<WorkerKey, seq<JobId>>,
                     site: Site)
    requires Reported(e, qm, wm0, pm0, cm0, wm, pm, cm, im)
    requires e.site != site
    requires WorkersIn(wm1, e.site) == WorkersIn(wm, e.site)
    requires forall k: QueueKey | k.site != site :: PendingIn(pm1, k) == PendingIn(pm, k) && ClaimsIn(cm1, k) == ClaimsIn(cm, k)
    requires forall k: WorkerKey | k.site != site :: IndexIn(im1, k) == IndexIn(im, k)
    ensures Reported(e, qm, wm0, pm0, cm0, wm1, pm1, cm1, im1)
  {
    var qs := QueueNames(e.queues);
    SiteStatsFrame(e.site, WorkersIn(wm, e.site), qs, pm, cm, im, pm1, cm1, im1, e.reclaimed);
    SumsFrame(e.site, qs, pm, cm, pm1, cm1);
  }

  /** Sweeping a site not yet reported keeps every earlier report accurate. */
  lemma ReportsKept(entries: seq<SiteStats>, qm: map<Site, set<QueueName>>, wm0: map<Site, seq<Worker>>,
                    pm0: map<QueueKey, seq<JobId>>, cm0: map<QueueKey, map<JobId, WorkerName>>,
                    wm: map<Site, seq<Worker>>, pm: map<QueueKey, seq<JobId>>,
                    cm: map<QueueKey, map<JobId, WorkerName>>, im: map<WorkerKey, seq<JobId>>,
                    wm1: map<Site, seq<Worker>>, pm1: map<QueueKey, seq<JobId>>,
                    cm1: map<QueueKey, map<JobId, WorkerName>>, im1: map<WorkerKey, seq<JobId>>,
                    site: Site)
    requires AllReported(entries, qm, wm0, pm0, cm0, wm, pm, cm, im)
    requires site !in SiteNames(entries)
    requires SitesSwept(qm, wm, pm, cm, im, wm1, pm1, cm1, im1, [site])
    ensures AllReported(entries, qm, wm0, pm0, cm0, wm1, pm1, cm1, im1)
  {
    assert forall s :: s in [site] <==> s == site;
    forall e | e in entries ensures Reported(e, qm, wm0, pm0, cm0, wm1, pm1, cm1, im1) {
      var j :| 0 <= j < |entries| && entries[j] == e;
      assert e.site == SiteNames(entries)[j];
      assert WorkersIn(wm1, e.site) == WorkersIn(wm, e.site);
      forall k: WorkerKey | k.site != site ensures IndexIn(im1, k) == IndexIn(im, k) {
        assert k in im1 <==> k in im;
      }
      ReportedStep(e, qm, wm0, pm0, cm0, wm, pm, cm, im, wm1, pm1, cm1, im1, site);
    }
  }

  /** A site reconciled in the middle of the sweep is reported accurately
      against the state before the whole sweep. */
  lemma SiteNewlyReported(st: SiteStats, qm: map<Site, set<QueueName>>,
                          wm0: map<Site, seq<Worker>>, pm0: map<QueueKey, seq<JobId>>,
                          cm0: map<QueueKey, map<JobId, WorkerName>>, im0: map<WorkerKey, seq<JobId>>,
                          wm: map<Site, seq<Worker>>, pm: map<QueueKey, seq<JobId>>,
                          cm: map<QueueKey, map<JobId, WorkerName>>, im: map<WorkerKey, seq<JobId>>,
                          wm1: map<Site, seq<Worker>>, pm1: map<QueueKey, seq<JobId>>,
                          cm1: map<QueueKey, map<JobId, WorkerName>>, im1: map<WorkerKey, seq<JobId>>,
                          done: seq<Site>)
    requires SitesSwept(qm, wm0, pm0, cm0, im0, wm, pm, cm, im, done)
    requires st.site !in done
    requires Reported(st, qm, wm, pm, cm, wm1, pm1, cm1, im1)
    ensures Reported(st, qm, wm0, pm0, cm0, wm1, pm1, cm1, im1)
  {
    SumsFrame(st.site, QueueNames(st.queues), pm, cm, pm0, cm0);
  }

  /** Appending an accurate report keeps every report accurate. */
  lemma ReportAppended(entries: seq<SiteStats>, st: SiteStats, qm: map<Site, set<QueueName>>,
                       wm0: map<Site, seq<Worker>>, pm0: map<QueueKey, seq<JobId>>,
                       cm0: map<QueueKey, map<JobId, WorkerName>>,
                       wm: map<Site, seq<Worker>>, pm: map<QueueKey, seq<JobId>>,
                       cm: map<QueueKey, map<JobId, WorkerName>>, im: map<WorkerKey, seq<JobId>>)
    requires AllReported(entries, qm, wm0, pm0, cm0, wm, pm, cm, im)
    requires Reported(st, qm, wm0, pm0, cm0, wm, pm, cm, im)
    ensures AllReported(entries + [st], qm, wm0, pm0, cm0, wm, pm, cm, im)
  {
    assert forall e | e in entries + [st] :: e in entries || e == st;
  }

  /** One iteration of the sweep: reconciling a site not yet swept keeps the
      sweep and the reports accurate and adds the site's own report. */
  lemma SweepExtends(entries: seq<SiteStats>, st: SiteStats, qm: map<Site, set<QueueName>>,
                     wm0: map<Site, seq<Worker>>, pm0: map<QueueKey, seq<JobId>>,
                     cm0: map<QueueKey, map<JobId, WorkerName>>, im0: map<WorkerKey, seq<JobId>>,
                     wm: map<Site, seq<Worker>>, pm: map<QueueKey, seq<JobId>>,
                     cm: map<QueueKey, map<JobId, WorkerName>>, im: map<WorkerKey, seq<JobId>>,
                     wm1: map<Site, seq<Worker>>, pm1: map<QueueKey, seq<JobId>>,
                     cm1: map<QueueKey, map<JobId, WorkerName>>, im1: map<WorkerKey, seq<JobId>>,
                     done: seq<Site>, site: Site)
    requires SiteNames(entries) == done && site !in done && st.site == site
    requires SitesSwept(qm, wm0, pm0, cm0, im0, wm, pm, cm, im, done)
    requires AllReported(entries, qm, wm0, pm0, cm0, wm, pm, cm, im)
    requires SitesSwept(qm, wm, pm, cm, im, wm1, pm1, cm1, im1, [site])
    requires Reported(st, qm, wm, pm, cm, wm1, pm1, cm1, im1)
    ensures SiteNames(entries + [st]) == done + [site]
    ensures SitesSwept(qm, wm0, pm0, cm0, im0, wm1, pm1, cm1, im1, done + [site])
    ensures AllReported(entries + [st], qm, wm0, pm0, cm0, wm1, pm1, cm1, im1)
  {
    SitesSweptStep(qm, wm0, pm0, cm0, im0, wm, pm, cm, im, wm1, pm1, cm1, im1, done, site);
    ReportsKept(entries, qm, wm0, pm0, cm0, wm, pm, cm, im, wm1, pm1, cm1, im1, site);
    SiteNewlyReported(st, qm, wm0, pm0, cm0, im0, wm, pm, cm, im, wm1, pm1, cm1, im1, done);
    ReportAppended(entries, st, qm, wm0, pm0, cm0, wm1, pm1, cm1, im1);
  }

  /** Before the first site, nothing has been swept and nothing reported. */
  lemma SweepStarts(qm: map<Site, set<QueueName>>,
                    wm: map<Site, seq<Worker>>, pm: map<QueueKey, seq<JobId>>,
                    cm: map<QueueKey, map<JobId, WorkerName>>, im: map<WorkerKey, seq<JobId>>,
                    done: seq<Site>, entries: seq<SiteStats>)
    requires done == [] && entries == []
    ensures SitesSwept(qm, wm, pm, cm, im, wm, pm, cm, im, done)
    ensures AllReported(entries, qm, wm, pm, cm, wm, pm, cm, im)
  {
  }

  /** One step of the sweep: reconciles `site`, not yet swept, and appends
      its report to `entries`. */
  method SweepOne(store: Store, site: Site, entries: seq<SiteStats>,
                  ghost wm0: map<Site, seq<Worker>>, ghost pm0: map<QueueKey, seq<JobId>>,
                  ghost cm0: map<QueueKey, map<JobId, WorkerName>>, ghost im0: map<WorkerKey, seq<JobId>>,
                  ghost done: seq<Site>)
    returns (entries': seq<SiteStats>)
    requires store.Valid()
    requires SiteNames(entries) == done && site !in done
    requires SitesSwept(store.queues, wm0, pm0, cm0, im0, store.workers, store.pending, store.claims, store.index, done)
    requires AllReported(entries, store.queues, wm0, pm0, cm0, store.workers, store.pending, store.claims, store.index)
    modifies store`workers, store`pending, store`claims, store`index
    ensures store.Valid()
    ensures SiteNames(entries') == done + [site]
    ensures SitesSwept(store.queues, wm0, pm0, cm0, im0, store.workers, store.pending, store.claims, store.index, done + [site])
    ensures AllReported(entries', store.queues, wm0, pm0, cm0, store.workers, store.pending, store.claims, store.index)
  {
    ghost var wm, pm, cm, im := store.workers, store.pending, store.claims, store.index;
    var st := ReconcileSite(store, site);
    SweepExtends(entries, st, store.queues, wm0, pm0, cm0, im0, wm, pm, cm, im,
                 store.workers, store.pending, store.claims, store.index, done, site);
    entries' := entries + [st];
  }

  /** The sweep keeps every claim index backed by claims: the claims it
      drops belong to expired workers, whose indexes it drops too. */
  lemma SweepKeepsIndexOk(qm: map<Site, set<QueueName>>,
                          wm0: map<Site, seq<Worker>>, pm0: map<QueueKey, seq<JobId>>,
                          cm0: map<QueueKey, map<JobId, WorkerName>>, im0: map<WorkerKey, seq<JobId>>,
                          wm: map<Site, seq<Worker>>, pm: map<QueueKey, seq<JobId>>,
                          cm: map<QueueKey, map<JobId, WorkerName>>, im: map<WorkerKey, seq<JobId>>,
                          done: seq<Site>)
    requires IndexOk(cm0, im0)
    requires SitesSwept(qm, wm0, pm0, cm0, im0, wm, pm, cm, im, done)
    ensures IndexOk(cm, im)
  {
    forall wk, i | 0 <= i < |IndexIn(im, wk)| ensures Holds(cm, wk, IndexIn(im, wk)[i]) {
      var id := IndexIn(im, wk)[i];
      assert wk in im;
      assert IndexIn(im, wk) == IndexIn(im0, wk);
      var q :| id in ClaimsIn(cm0, QueueKey(wk.site, q)) && ClaimsIn(cm0, QueueKey(wk.site, q))[id] == wk.worker;
      var k := QueueKey(wk.site, q);
      if k.site in done && k.queue in QueuesIn(qm, k.site) {
        assert wk.worker !in DeadNames(WorkersIn(wm0, wk.site));
        assert ClaimsIn(cm, k) == Release(ClaimsIn(cm0, k), DeadNames(WorkersIn(wm0, k.site)));
      }
      assert id in ClaimsIn(cm, k) && ClaimsIn(cm, k)[id] == wk.worker;
    }
  }

  /** After a sweep, no swept site has an expired worker left. */
  lemma SweptLeavesNoExpired(qm: map<Site, set<QueueName>>,
                             wm0: map<Site, seq<Worker>>, pm0: map<QueueKey, seq<JobId>>,
                             cm0: map<QueueKey, map<JobId, WorkerName>>, im0: map<WorkerKey, seq<JobId>>,
                             wm: map<Site, seq<Worker>>, pm: map<QueueKey, seq<JobId>>,
                             cm: map<QueueKey, map<JobId, WorkerName>>, im: map<WorkerKey, seq<JobId>>,
                             done: seq<Site>)
    requires SitesSwept(qm, wm0, pm0, cm0, im0, wm, pm, cm, im, done)
    ensures forall s | s in done :: DeadNames(WorkersIn(wm, s)) == {}
  {
    forall s | s in done ensures DeadNames(WorkersIn(wm, s)) == {} {
      LiveOnlyMembers(WorkersIn(wm0, s));
      var l := WorkersIn(wm, s);
      forall i | 0 <= i < |l| ensures l[i].live {
        assert l[i] in l;
      }
    }
  }

  /** A sweep of sites that have no expired worker changes nothing: every
      worker list, queue and claim index stays as it was. */
  lemma {:induction false} IdleSweep(qm: map<Site, set<QueueName>>,
                                     wm: map<Site, seq<Worker>>, pm: map<QueueKey, seq<JobId>>,
                                     cm: map<QueueKey, map<JobId, WorkerName>>, im: map<WorkerKey, seq<JobId>>,
                                     wm1: map<Site, seq<Worker>>, pm1: map<QueueKey, seq<JobId>>,
                                     cm1: map<QueueKey, map<JobId, WorkerName>>, im1: map<WorkerKey, seq<JobId>>,
                                     done: seq<Site>)
    requires forall s | s in done :: DeadNames(WorkersIn(wm, s)) == {}
    requires SitesSwept(qm, wm, pm, cm, im, wm1, pm1, cm1, im1, done)
    ensures forall s :: WorkersIn(wm1, s) == WorkersIn(wm, s)
    ensures forall k :: PendingIn(pm1, k) == PendingIn(pm, k) && ClaimsIn(cm1, k) == ClaimsIn(cm, k)
    ensures im1 == im
  {
    forall s ensures WorkersIn(wm1, s) == WorkersIn(wm, s) {
      if s in done {
        LiveOnlyAllLive(WorkersIn(wm, s));
      }
    }
    forall k ensures PendingIn(pm1, k) == PendingIn(pm, k) && ClaimsIn(cm1, k) == ClaimsIn(cm, k) {
      if k.site in done && k.queue in QueuesIn(qm, k.site) {
        NoExpiryNoReclaim(PendingIn(pm, k), ClaimsIn(cm, k), PendingIn(pm1, k), ClaimsIn(cm1, k));
      }
    }
  }

  /** Reports of a sweep that moved no pending id count nothing as reclaimed. */
  lemma IdleReports(entries: seq<SiteStats>, qm: map<Site, set<QueueName>>, wm0: map<Site, seq<Worker>>,
                    pm0: map<QueueKey, seq<JobId>>, cm0: map<QueueKey, map<JobId, WorkerName>>,
                    wm: map<Site, seq<Worker>>, pm: map<QueueKey, seq<JobId>>,
                    cm: map<QueueKey, map<JobId, WorkerName>>, im: map<WorkerKey, seq<JobId>>)
    requires AllReported(entries, qm, wm0, pm0, cm0, wm, pm, cm, im)
    requires forall k :: PendingIn(pm, k) == PendingIn(pm0, k) && ClaimsIn(cm, k) == ClaimsIn(cm0, k)
    ensures forall e | e in entries :: e.reclaimed == 0
  {
    forall e | e in entries ensures e.reclaimed == 0 {
      var qs := QueueNames(e.queues);
      SumsFrame(e.site, qs, pm0, cm0, pm, cm);
    }
  }

  /** A sweep straight after a sweep of the same sites is idle: every worker
      list, queue and claim index stays as the first left it, the second
      reclaims nothing, and the first one's reports still hold. */
  lemma SecondSweepIdle(qm: map<Site, set<QueueName>>,
                        wm0: map<Site, seq<Worker>>, pm0: map<QueueKey, seq<JobId>>,
                        cm0: map<QueueKey, map<JobId, WorkerName>>, im0: map<WorkerKey, seq<JobId>>,
                        wm: map<Site, seq<Worker>>, pm: map<QueueKey, seq<JobId>>,
                        cm: map<QueueKey, map<JobId, WorkerName>>, im: map<WorkerKey, seq<JobId>>,
                        wm1: map<Site, seq<Worker>>, pm1: map<QueueKey, seq<JobId>>,
                        cm1: map<QueueKey, map<JobId, WorkerName>>, im1: map<WorkerKey, seq<JobId>>,
                        first: seq<SiteStats>, second: seq<SiteStats>)
    requires SitesSwept(qm, wm0, pm0, cm0, im0, wm, pm, cm, im, SiteNames(first))
    requires AllReported(first, qm, wm0, pm0, cm0, wm, pm, cm, im)
    requires forall s | s in SiteNames(second) :: s in Elems(SiteNames(first))
    requires SitesSwept(qm, wm, pm, cm, im, wm1, pm1, cm1, im1, SiteNames(second))
    requires AllReported(second, qm, wm, pm, cm, wm1, pm1, cm1, im1)
    ensures forall s :: WorkersIn(wm1, s) == WorkersIn(wm, s)
    ensures forall k :: PendingIn(pm1, k) == PendingIn(pm, k) && ClaimsIn(cm1, k) == ClaimsIn(cm, k)
    ensures im1 == im
    ensures forall e | e in second :: e.reclaimed == 0
    ensures forall e | e in first ::
              e == SiteStatsOf(e.site, WorkersIn(wm1, e.site), QueueNames(e.queues), pm1, cm1, im1, e.reclaimed)
  {
    SweptLeavesNoExpired(qm, wm0, pm0, cm0, im0, wm, pm, cm, im, SiteNames(first));
    IdleSweep(qm, wm, pm, cm, im, wm1, pm1, cm1, im1, SiteNames(second));
    IdleReports(second, qm, wm, pm, cm, wm1, pm1, cm1, im1);
    forall e | e in first
      ensures e == SiteStatsOf(e.site, WorkersIn(wm1, e.site), QueueNames(e.queues), pm1, cm1, im1, e.reclaimed)
    {
      SiteStatsFrame(e.site, WorkersIn(wm, e.site), QueueNames(e.queues), pm, cm, im, pm1, cm1, im1, e.reclaimed);
    }
  }

  /** The sweep over every site in `sites`. With no site at all it reports an
      empty site list rather than failing. */
  method Reconcile(store: Store) returns (stats: Stats)
    requires store.Valid()
    modifies store`workers, store`pending, store`claims, store`index
    ensures store.Valid()
    ensures store.sites == {} ==> stats.sites == []
    ensures NoDup(SiteNames(stats.sites)) && Elems(SiteNames(stats.sites)) == store.sites
    ensures SitesSwept(store.queues, old(store.workers), old(store.pending), old(store.claims), old(store.index),
                       store.workers, store.pending, store.claims, store.index, SiteNames(stats.sites))
    ensures AllReported(stats.sites, store.queues, old(store.workers), old(store.pending), old(store.claims),
                        store.workers, store.pending, store.claims, store.index)
    ensures IndexOk(old(store.claims), old(store.index)) ==> IndexOk(store.claims, store.index)
  {
    var ss := Enumerate(store.sites);
    var entries: seq<SiteStats> := [];
    ghost var wm0, pm0, cm0, im0 := store.workers, store.pending, store.claims, store.index;
    ghost var done: seq<Site> := [];
    SweepStarts(store.queues, wm0, pm0, cm0, im0, done, entries);
    var i := 0;
    while i < |ss|
      invariant 0 <= i <= |ss| && done == ss[..i]
      invariant store.Valid()
      invariant SiteNames(entries) == done
      invariant SitesSwept(store.queues, wm0, pm0, cm0, im0, store.workers, store.pending, store.claims, store.index, done)
      invariant AllReported(entries, store.queues, wm0, pm0, cm0, store.workers, store.pending, store.claims, store.index)
    {
      var site := ss[i];
      assert site !in done by {
        forall j | 0 <= j < i ensures ss[j] != site {}
      }
      entries := SweepOne(store, site, entries, wm0, pm0, cm0, im0, done);
      assert ss[..i + 1] == done + [site];
      done := done + [site];
      i := i + 1;
    }
    assert done == ss;
    stats := Stats(entries);
    if IndexOk(cm0, im0) {
      SweepKeepsIndexOk(store.queues, wm0, pm0, cm0, im0, store.workers, store.pending, store.claims, store.index, done);
    }
  }

  /** A second sweep straight after a first one finds no expired worker: it
      reclaims nothing and changes no worker list, queue or claim index, so
      the first sweep's reports still describe the store. */
  method ReconcileAgain(store: Store) returns (first: Stats, second: Stats)
    requires store.Valid()
    modifies store`workers, store`pending, store`claims, store`index
    ensures store.Valid()
    ensures NoDup(SiteNames(second.sites)) && Elems(SiteNames(second.sites)) == Elems(SiteNames(first.sites))
    ensures forall e | e in second.sites :: e.reclaimed == 0
    ensures forall e | e in second.sites ::
              e == SiteStatsOf(e.site, store.WorkersOf(e.site), QueueNames(e.queues), store.pending, store.claims, store.index, 0)
    ensures forall e | e in first.sites ::
              e == SiteStatsOf(e.site, store.WorkersOf(e.site), QueueNames(e.queues), store.pending, store.claims, store.index, e.reclaimed)
    ensures forall s | s in store.sites :: DeadNames(store.WorkersOf(s)) == {}
  {
    ghost var wm0, pm0, cm0, im0 := store.workers, store.pending, store.claims, store.index;
    first := Reconcile(store);
    ghost var wm, pm, cm, im := store.workers, store.pending, store.claims, store.index;
    second := Reconcile(store);
    assert forall s | s in SiteNames(second.sites) :: s in Elems(SiteNames(first.sites));
    SecondSweepIdle(store.queues, wm0, pm0, cm0, im0, wm, pm, cm, im, store.workers, store.pending, store.claims, store.index,
                    first.sites, second.sites);
    SweptLeavesNoExpired(store.queues, wm, pm, cm, im, store.workers, store.pending, store.claims, store.index,
                         SiteNames(second.sites));
  }
}
