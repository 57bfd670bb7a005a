/** The job queue of one (site, queue name): registration, adding, claiming,
    removing and checking claims, and the site-wide queries that fail with
    `Invalid` for a site that was never registered. */
module JobQueue {
  import opened Collections
  import opened Store

  /** Result of a site-wide query: `Invalid` when the site is not in `sites`. */
  datatype Lookup<T> = Ok(value: T) | Invalid

  /** One job as the queries show it: unclaimed jobs have no `claimedBy`. */
  datatype JobView = JobView(id: JobId, claimedBy: Option<WorkerName>)

  /** The jobs of one queue of a site. */
  datatype QueueListing = QueueListing(queue: QueueName, jobs: seq<JobView>)

  /** How many pending ids a claim hands out: as many as the queue has,
      but no more than the worker's free capacity, capacity minus what it
      already holds, floored at zero. */
  function Grant(pendingCount: nat, capacity: nat, held: nat): (n: nat)
    ensures n <= pendingCount
    ensures n == 0 || held + n <= capacity
    ensures n == pendingCount || held + n >= capacity
  {
    if held >= capacity then 0
    else if capacity - held < pendingCount then capacity - held
    else pendingCount
  }

  /** Claims that tag each of `ids` with `worker`. */
  function Assign(ids: seq<JobId>, worker: WorkerName): map<JobId, WorkerName> {
    map id | id in ids :: worker
  }

  /** The ids of `ids`, in their order, that `worker` holds in `claims`. */
  function HeldAmong(ids: seq<JobId>, claims: map<JobId, WorkerName>, worker: WorkerName): (r: seq<JobId>)
    ensures forall id :: id in r <==> id in ids && id in claims && claims[id] == worker
    ensures |r| <= |ids|
  {
    if ids == [] then []
    else
      var last := ids[|ids| - 1];
      HeldAmong(ids[..|ids| - 1], claims, worker)
        + (if last in claims && claims[last] == worker then [last] else [])
  }

  /** When `worker` holds every one of `ids`, checking them gives them all back, in order. */
  lemma {:induction false} HeldAmongAll(ids: seq<JobId>, claims: map<JobId, WorkerName>, worker: WorkerName)
    requires forall i | 0 <= i < |ids| :: ids[i] in claims && claims[ids[i]] == worker
    ensures HeldAmong(ids, claims, worker) == ids
  {
    if ids != [] {
      var init := ids[..|ids| - 1];
      HeldAmongAll(init, claims, worker);
      assert ids == init + [ids[|ids| - 1]];
    }
  }

  /** Checking keeps the held ids in the order they were given. */
  lemma {:induction false} HeldAmongInOrder(ids: seq<JobId>, claims: map<JobId, WorkerName>, worker: WorkerName)
    ensures Subsequence(HeldAmong(ids, claims, worker), ids)
  {
    var r := HeldAmong(ids, claims, worker);
    if ids == [] {
      assert Embedding(r, ids, []);
    } else {
      var n := |ids| - 1;
      var x, init := ids[n], ids[..n];
      var h := HeldAmong(init, claims, worker);
      HeldAmongInOrder(init, claims, worker);
      var pos0 :| Embedding(h, init, pos0);
      EmbedSnoc(x, h, init, pos0);
      assert ids == init + [x];
      var pos := if x in claims && claims[x] == worker then pos0 + [n] else pos0;
      assert r == h + (if x in claims && claims[x] == worker then [x] else []);
      assert Embedding(r, ids, pos);
    }
  }

  /** When `worker` holds none of `ids`, checking them gives nothing back. */
  lemma {:induction false} HeldAmongNone(ids: seq<JobId>, claims: map<JobId, WorkerName>, worker: WorkerName)
    requires forall i | 0 <= i < |ids| :: ids[i] !in claims || claims[ids[i]] != worker
    ensures HeldAmong(ids, claims, worker) == []
  {
    if ids != [] {
      HeldAmongNone(ids[..|ids| - 1], claims, worker);
    }
  }

  /** Goes through `ids` one by one and keeps those `worker` holds. */
  method FilterHeld(ids: seq<JobId>, claims: map<JobId, WorkerName>, worker: WorkerName) returns (held: seq<JobId>)
    ensures held == HeldAmong(ids, claims, worker)
  {
    held := [];
    var i := 0;
    while i < |ids|
      invariant 0 <= i <= |ids|
      invariant held == HeldAmong(ids[..i], claims, worker)
    {
      assert ids[..i + 1][..i] == ids[..i];
      assert HeldAmong(ids[..i + 1], claims, worker)
             == HeldAmong(ids[..i], claims, worker) + (if ids[i] in claims && claims[ids[i]] == worker then [ids[i]] else []);
      if ids[i] in claims && claims[ids[i]] == worker {
        held := held + [ids[i]];
      }
      i := i + 1;
    }
    assert ids[..i] == ids;
  }

  /** A claim keeps a queue disjoint: the oldest `n` ids leave pending and
      become claims. */
  lemma ClaimKeepsQueueOk(p: seq<JobId>, c: map<JobId, WorkerName>, n: nat, worker: WorkerName)
    requires QueueOk(p, c)
    requires n <= |p|
    ensures QueueOk(p[n..], c + Assign(p[..n], worker))
  {
    var taken, rest := p[..n], p[n..];
    NoDupSlice(p, n, |p|);
    assert p[n..|p|] == rest;
    forall i | 0 <= i < |rest| ensures rest[i] !in c + Assign(taken, worker) {
      assert rest[i] == p[n + i];
      forall j | 0 <= j < n ensures taken[j] != rest[i] {
        assert taken[j] == p[j];
      }
    }
  }

  /** A claim moves ids from pending to the claims without losing or
      duplicating any: pending plus claims keeps its size. */
  lemma ClaimConserves(p: seq<JobId>, c: map<JobId, WorkerName>, n: nat, worker: WorkerName)
    requires QueueOk(p, c)
    requires n <= |p|
    ensures |p[n..]| + |c + Assign(p[..n], worker)| == |p| + |c|
  {
    var taken := p[..n];
    var a := Assign(taken, worker);
    NoDupSlice(p, 0, n);
    assert p[0..n] == taken;
    NoDupCard(taken);
    assert a.Keys == Elems(taken);
    assert c.Keys !! a.Keys by {
      forall j | 0 <= j < n ensures taken[j] !in c {
        assert taken[j] == p[j];
      }
    }
    assert (c + a).Keys == c.Keys + a.Keys;
  }

  /** Pops the oldest `n` pending ids one at a time, tagging each as claimed
      by `worker` and appending it to the worker's claim index. */
  method TakeOldest(p: seq<JobId>, c: map<JobId, WorkerName>, idx: seq<JobId>, n: nat, worker: WorkerName)
    returns (p': seq<JobId>, c': map<JobId, WorkerName>, idx': seq<JobId>, taken: seq<JobId>)
    requires n <= |p|
    ensures taken == p[..n] && p' == p[n..]
    ensures c' == c + Assign(taken, worker)
    ensures idx' == idx + taken
  {
    p', c', idx', taken := p, c, idx, [];
    var i := 0;
    while i < n
      invariant 0 <= i <= n
      invariant taken == p[..i]
      invariant p' == p[i..]
      invariant c' == c + Assign(taken, worker)
      invariant idx' == idx + taken
    {
      var id := p'[0];
      assert p[..i + 1] == taken + [id];
      assert Assign(taken + [id], worker) == Assign(taken, worker)[id := worker];
      p' := p'[1..];
      c' := c'[id := worker];
      idx' := idx' + [id];
      taken := taken + [id];
      i := i + 1;
    }
  }

  /** A claim keeps every claim index backed by claims: the ids it adds to
      the claimer's index are claimed by it, and the claims it adds were free. */
  lemma ClaimKeepsIndexOk(cm: map<QueueKey, map<JobId, WorkerName>>, im: map<WorkerKey, seq<JobId>>,
                          k: QueueKey, worker: WorkerName, taken: seq<JobId>)
    requires IndexOk(cm, im)
    requires forall id | id in taken :: id !in ClaimsIn(cm, k)
    ensures var wk := WorkerKey(k.site, worker);
            IndexOk(cm[k := ClaimsIn(cm, k) + Assign(taken, worker)], im[wk := IndexIn(im, wk) + taken])
  {
    var wk0 := WorkerKey(k.site, worker);
    var cm' := cm[k := ClaimsIn(cm, k) + Assign(taken, worker)];
    var im' := im[wk0 := IndexIn(im, wk0) + taken];
    forall wk, i | 0 <= i < |IndexIn(im', wk)| ensures Holds(cm', wk, IndexIn(im', wk)[i]) {
      var id := IndexIn(im', wk)[i];
      if wk == wk0 && i >= |IndexIn(im, wk0)| {
        assert id == taken[i - |IndexIn(im, wk0)|];
        assert QueueKey(wk.site, k.queue) == k;
        assert id in ClaimsIn(cm', QueueKey(wk.site, k.queue));
      } else {
        assert id == IndexIn(im, wk)[i];
        var q :| id in ClaimsIn(cm, QueueKey(wk.site, q)) && ClaimsIn(cm, QueueKey(wk.site, q))[id] == wk.worker;
        var kq := QueueKey(wk.site, q);
        if kq == k {
          assert id !in taken;
        }
        assert id in ClaimsIn(cm', kq) && ClaimsIn(cm', kq)[id] == wk.worker;
      }
    }
  }

  /** Removing `id` from a queue's claims and from its holder's claim index
      keeps every claim index backed by claims. */
  lemma RemoveKeepsIndexOk(cm: map<QueueKey, map<JobId, WorkerName>>, im: map<WorkerKey, seq<JobId>>,
                           k: QueueKey, id: JobId)
    requires IndexOk(cm, im)
    ensures var c := ClaimsIn(cm, k);
            IndexOk(cm[k := c - {id}],
                    if id in c then im[WorkerKey(k.site, c[id]) := Without(IndexIn(im, WorkerKey(k.site, c[id])), id)] else im)
  {
    var c := ClaimsIn(cm, k);
    var cm' := cm[k := c - {id}];
    var im' := if id in c then im[WorkerKey(k.site, c[id]) := Without(IndexIn(im, WorkerKey(k.site, c[id])), id)] else im;
    forall wk, i | 0 <= i < |IndexIn(im', wk)| ensures Holds(cm', wk, IndexIn(im', wk)[i]) {
      var x := IndexIn(im', wk)[i];
      var j: nat;
      if id in c && wk == WorkerKey(k.site, c[id]) {
        assert x in Without(IndexIn(im, wk), id);
        j :| j < |IndexIn(im, wk)| && IndexIn(im, wk)[j] == x;
      } else {
        j := i;
      }
      assert x == IndexIn(im, wk)[j];
      var q :| x in ClaimsIn(cm, QueueKey(wk.site, q)) && ClaimsIn(cm, QueueKey(wk.site, q))[x] == wk.worker;
      var kq := QueueKey(wk.site, q);
      if kq == k {
        assert x != id;
      }
      assert x in ClaimsIn(cm', kq) && ClaimsIn(cm', kq)[x] == wk.worker;
    }
  }

  /** Deleting a claim index keeps the others backed by claims. */
  lemma DropIndexKeepsOk(cm: map<QueueKey, map<JobId, WorkerName>>, im: map<WorkerKey, seq<JobId>>, wk0: WorkerKey)
    requires IndexOk(cm, im)
    ensures IndexOk(cm, im - {wk0})
  {
    forall wk, i | 0 <= i < |IndexIn(im - {wk0}, wk)| ensures Holds(cm, wk, IndexIn(im - {wk0}, wk)[i]) {
      assert IndexIn(im - {wk0}, wk) == IndexIn(im, wk);
    }
  }

  /** Removing `id` keeps a queue disjoint; what it removes is one entry if
      the id was pending or claimed, and nothing otherwise. */
  lemma RemoveKeepsQueueOk(p: seq<JobId>, c: map<JobId, WorkerName>, id: JobId)
    requires QueueOk(p, c)
    ensures QueueOk(Without(p, id), c - {id})
    ensures |Without(p, id)| + |c - {id}| + (if id in p || id in c then 1 else 0) == |p| + |c|
  {
    WithoutOnce(p, id);
    var w := Without(p, id);
    forall i | 0 <= i < |w| ensures w[i] !in c - {id} {
      assert w[i] in w;
      var j :| 0 <= j < |p| && p[j] == w[i];
    }
    if id in p {
      var j :| 0 <= j < |p| && p[j] == id;
      assert id !in c;
    }
    if id in c {
      assert (c - {id}).Keys == c.Keys - {id};
    } else {
      assert c - {id} == c;
    }
  }

  /** Adding a fresh id at the tail keeps a queue disjoint. */
  lemma AddKeepsQueueOk(p: seq<JobId>, c: map<JobId, WorkerName>, id: JobId)
    requires QueueOk(p, c)
    requires id !in p && id !in c
    ensures QueueOk(p + [id], c)
  {
    var q := p + [id];
    forall i, j | 0 <= i < j < |q| ensures q[i] != q[j] {
      if j == |p| {
        assert q[i] == p[i];
      } else {
        assert q[i] == p[i] && q[j] == p[j];
      }
    }
  }

  /** The ids of a list of jobs. */
  function Ids(vs: seq<JobView>): (r: seq<JobId>)
  {
    seq(|vs|, i requires 0 <= i < |vs| => vs[i].id)
  }

  /** `jobs` lists a queue: its pending ids newest-added first, without a
      claimant, then each claimed id once, with the worker holding it. */
  ghost predicate IsListing(jobs: seq<JobView>, p: seq<JobId>, c: map<JobId, WorkerName>) {
    && |jobs| == |p| + |c|
    && jobs[..|p|] == NewestFirst(p)
    && NoDup(Ids(jobs[|p|..]))
    && (forall v | v in jobs[|p|..] :: v.id in c && v.claimedBy == Some(c[v.id]))
  }

  /** The pending ids, most recently added first, none of them claimed. */
  function NewestFirst(p: seq<JobId>): (r: seq<JobView>)
    ensures |r| == |p|
    ensures forall i | 0 <= i < |p| :: r[i] == JobView(p[|p| - 1 - i], None)
  {
    if p == [] then []
    else [JobView(p[|p| - 1], None)] + NewestFirst(p[..|p| - 1])
  }

  /** A listing names every claimed id: the ids after the pending part are
      exactly the claims' keys. */
  lemma ListingCoversClaims(jobs: seq<JobView>, p: seq<JobId>, c: map<JobId, WorkerName>)
    requires IsListing(jobs, p, c)
    ensures Elems(Ids(jobs[|p|..])) == c.Keys
  {
    var t := Ids(jobs[|p|..]);
    ListedAreClaimed(jobs[|p|..], c);
    NoDupCard(t);
    assert |c| == |c.Keys|;
    SubsetSameSize(Elems(t), c.Keys);
  }

  lemma ListedAreClaimed(claimed: seq<JobView>, c: map<JobId, WorkerName>)
    requires forall v | v in claimed :: v.id in c
    ensures Elems(Ids(claimed)) <= c.Keys
  {
    var t := Ids(claimed);
    forall i | 0 <= i < |t| ensures t[i] in c {
      assert claimed[i] in claimed;
    }
  }

  /** Builds the listing of one queue. */
  method Listing(store: Store, k: QueueKey) returns (jobs: seq<JobView>)
    ensures IsListing(jobs, store.PendingAt(k), store.ClaimsAt(k))
  {
    var p := store.PendingAt(k);
    var c := store.ClaimsAt(k);
    var ids := Enumerate(c.Keys);
    jobs := NewestFirst(p);
    var i := 0;
    while i < |ids|
      invariant 0 <= i <= |ids|
      invariant |jobs| == |p| + i
      invariant jobs[..|p|] == NewestFirst(p)
      invariant Ids(jobs[|p|..]) == ids[..i]
      invariant forall v | v in jobs[|p|..] :: v.id in c && v.claimedBy == Some(c[v.id])
    {
      assert ids[i] in Elems(ids);
      assert ids[..i + 1] == ids[..i] + [ids[i]];
      jobs := jobs + [JobView(ids[i], Some(c[ids[i]]))];
      i := i + 1;
    }
    assert ids[..i] == ids;
    assert |c| == |c.Keys|;
  }

  /** Lists every job of one queue of `site`; `Invalid` when the site was
      never registered. */
  method ForQueue(store: Store, site: Site, queueName: QueueName) returns (r: Lookup<seq<JobView>>)
    ensures r.Invalid? <==> site !in store.sites
    ensures r.Ok? ==> IsListing(r.value, store.PendingAt(QueueKey(site, queueName)), store.ClaimsAt(QueueKey(site, queueName)))
  {
    if site !in store.sites {
      return Invalid;
    }
    var jobs := Listing(store, QueueKey(site, queueName));
    r := Ok(jobs);
  }

  function ListedQueues(ls: seq<QueueListing>): seq<QueueName> {
    seq(|ls|, i requires 0 <= i < |ls| => ls[i].queue)
  }

  /** Lists every queue registered under `site`, each once, with its jobs;
      `Invalid` when the site was never registered. */
  method ForSite(store: Store, site: Site) returns (r: Lookup<seq<QueueListing>>)
    ensures r.Invalid? <==> site !in store.sites
    ensures r.Ok? ==> NoDup(ListedQueues(r.value)) && Elems(ListedQueues(r.value)) == store.QueuesOf(site)
    ensures r.Ok? ==> forall i | 0 <= i < |r.value| ::
              IsListing(r.value[i].jobs, store.PendingAt(QueueKey(site, r.value[i].queue)),
                        store.ClaimsAt(QueueKey(site, r.value[i].queue)))
  {
    if site !in store.sites {
      return Invalid;
    }
    var names := Enumerate(store.QueuesOf(site));
    var ls: seq<QueueListing> := [];
    var i := 0;
    while i < |names|
      invariant 0 <= i <= |names|
      invariant ListedQueues(ls) == names[..i]
      invariant forall j | 0 <= j < i ::
                  IsListing(ls[j].jobs, store.PendingAt(QueueKey(site, ls[j].queue)),
                            store.ClaimsAt(QueueKey(site, ls[j].queue)))
    {
      var jobs := Listing(store, QueueKey(site, names[i]));
      ls := ls + [QueueListing(names[i], jobs)];
      i := i + 1;
    }
    assert names[..i] == names;
    r := Ok(ls);
  }

  /** The ids `worker` holds in one queue of `site`, in the order it claimed
      them; `Invalid` when the site was never registered. */
  method ForWorker(store: Store, site: Site, worker: WorkerName, queueName: QueueName) returns (r: Lookup<seq<JobId>>)
    ensures r.Invalid? <==> site !in store.sites
    ensures r.Ok? ==> r.value == HeldAmong(store.IndexAt(WorkerKey(site, worker)),
                                           store.ClaimsAt(QueueKey(site, queueName)), worker)
    ensures r.Ok? && store.IndexAt(WorkerKey(site, worker)) == [] ==> r.value == []
  {
    if site !in store.sites {
      return Invalid;
    }
    var held := FilterHeld(store.IndexAt(WorkerKey(site, worker)), store.ClaimsAt(QueueKey(site, queueName)), worker);
    r := Ok(held);
  }

  /** Expiry of a worker's lease: its presence, capacity and claim-index keys
      disappear. Its claims stay in the queues until reconciliation. */
  method Expire(store: Store, site: Site, worker: WorkerName)
    requires store.Valid()
    modifies store`workers, store`index
    ensures store.Valid()
    ensures store.workers == old(store.workers)[site := MarkExpired(old(store.WorkersOf(site)), worker)]
    ensures store.index == old(store.index) - {WorkerKey(site, worker)}
    ensures IndexOk(store.claims, old(store.index)) ==> IndexOk(store.claims, store.index)
  {
    if IndexOk(store.claims, store.index) {
      DropIndexKeepsOk(store.claims, store.index, WorkerKey(site, worker));
    }
    var ws := store.WorkersOf(site);
    store.SetWorkers(site, MarkExpired(ws, worker));
    store.index := store.index - {WorkerKey(site, worker)};
  }

  /** A job queue object: a handle on the store plus one site and queue name. */
  class JobQueue {
    const store: Store
    const site: Site
    const queueName: QueueName

    constructor (store: Store, site: Site, queueName: QueueName)
      ensures this.store == store && this.site == site && this.queueName == queueName
    {
      this.store := store;
      this.site := site;
      this.queueName := queueName;
    }

    function Key(): QueueKey {
      QueueKey(site, queueName)
    }

    /** Records the site, this queue under the site, and the worker with
        `capacity`, refreshing its lease. */
    method Register(worker: WorkerName, capacity: nat)
      requires store.Valid()
      modifies store`sites, store`queues, store`workers
      ensures store.Valid()
      ensures store.sites == old(store.sites) + {site}
      ensures store.queues == old(store.queues)[site := old(store.QueuesOf(site)) + {queueName}]
      ensures store.workers == old(store.workers)[site := Upsert(old(store.WorkersOf(site)), worker, capacity)]
    {
      var ws := store.WorkersOf(site);
      UpsertPlaces(ws, worker, capacity);
      store.sites := store.sites + {site};
      store.queues := store.queues[site := store.QueuesOf(site) + {queueName}];
      store.SetWorkers(site, Upsert(ws, worker, capacity));
    }

    /** Appends a new job id at the tail of pending and records the queue
        under the site; gives back the new pending length. */
    method Add(jobId: JobId) returns (length: nat)
      requires store.Valid()
      requires jobId !in store.PendingAt(Key()) && jobId !in store.ClaimsAt(Key())
      modifies store`queues, store`pending
      ensures store.Valid()
      ensures store.queues == old(store.queues)[site := old(store.QueuesOf(site)) + {queueName}]
      ensures store.pending == old(store.pending)[Key() := old(store.PendingAt(Key())) + [jobId]]
      ensures length == |store.PendingAt(Key())| == |old(store.PendingAt(Key()))| + 1
    {
      var p := store.PendingAt(Key());
      AddKeepsQueueOk(p, store.ClaimsAt(Key()), jobId);
      store.queues := store.queues[site := store.QueuesOf(site) + {queueName}];
      store.SetPending(Key(), p + [jobId]);
      length := |p| + 1;
    }

    /** Moves the oldest pending ids, as many as the worker's free capacity
        allows, into the claims under its name and onto its claim index. */
    method TakeForWorker(worker: WorkerName, capacity: nat) returns (claimed: seq<JobId>)
      requires store.Valid()
      modifies store`pending, store`claims, store`index
      ensures store.Valid()
      ensures var p0 := old(store.PendingAt(Key()));
              var n := Grant(|p0|, capacity, |old(store.IndexAt(WorkerKey(site, worker)))|);
              && claimed == p0[..n]
              && store.pending == old(store.pending)[Key() := p0[n..]]
      ensures store.claims == old(store.claims)[Key() := old(store.ClaimsAt(Key())) + Assign(claimed, worker)]
      ensures store.index == old(store.index)[WorkerKey(site, worker) := old(store.IndexAt(WorkerKey(site, worker))) + claimed]
      ensures |store.PendingAt(Key())| + |store.ClaimsAt(Key())| == old(|store.PendingAt(Key())| + |store.ClaimsAt(Key())|)
      ensures old(IndexOk(store.claims, store.index)) ==> IndexOk(store.claims, store.index)
    {
      var k := Key();
      var wk := WorkerKey(site, worker);
      var p, c, idx := store.PendingAt(k), store.ClaimsAt(k), store.IndexAt(wk);
      var n := Grant(|p|, capacity, |idx|);
      if IndexOk(store.claims, store.index) {
        forall id | id in p[..n] ensures id !in c {
          var j :| 0 <= j < n && p[..n][j] == id;
          assert p[j] == id;
        }
        ClaimKeepsIndexOk(store.claims, store.index, k, worker, p[..n]);
      }
      ClaimKeepsQueueOk(p, c, n, worker);
      ClaimConserves(p, c, n, worker);
      var p', c', idx';
      p', c', idx', claimed := TakeOldest(p, c, idx, n, worker);
      store.SetQueue(k, p', c');
      store.index := store.index[wk := idx'];
    }

    /** Refreshes the worker's registration with `capacity`, then moves the
        oldest pending ids, as many as its free capacity allows, into the
        claims under its name and onto its claim index. Gives back the ids
        it moved; never fails for lack of jobs or capacity. */
    method Claim(worker: WorkerName, capacity: nat) returns (claimed: seq<JobId>)
      requires store.Valid()
      modifies store`sites, store`queues, store`workers, store`pending, store`claims, store`index
      ensures store.Valid()
      ensures store.sites == old(store.sites) + {site}
      ensures store.queues == old(store.queues)[site := old(store.QueuesOf(site)) + {queueName}]
      ensures store.workers == old(store.workers)[site := Upsert(old(store.WorkersOf(site)), worker, capacity)]
      ensures var p0 := old(store.PendingAt(Key()));
              var n := Grant(|p0|, capacity, |old(store.IndexAt(WorkerKey(site, worker)))|);
              && claimed == p0[..n]
              && store.pending == old(store.pending)[Key() := p0[n..]]
      ensures store.claims == old(store.claims)[Key() := old(store.ClaimsAt(Key())) + Assign(claimed, worker)]
      ensures store.index == old(store.index)[WorkerKey(site, worker) := old(store.IndexAt(WorkerKey(site, worker))) + claimed]
      ensures |store.PendingAt(Key())| + |store.ClaimsAt(Key())| == old(|store.PendingAt(Key())| + |store.ClaimsAt(Key())|)
      ensures old(IndexOk(store.claims, store.index)) ==> IndexOk(store.claims, store.index)
    {
      Register(worker, capacity);
      claimed := TakeForWorker(worker, capacity);
    }

    /** Deletes `jobId` from pending and from the claims, and from the claim
        index of the worker holding it. Gives back 1 when the id was pending
        or claimed and 0 otherwise. */
    method Remove(jobId: JobId) returns (removed: nat)
      requires store.Valid()
      modifies store`pending, store`claims, store`index
      ensures store.Valid()
      ensures removed == if jobId in old(store.PendingAt(Key())) || jobId in old(store.ClaimsAt(Key())) then 1 else 0
      ensures store.pending == old(store.pending)[Key() := Without(old(store.PendingAt(Key())), jobId)]
      ensures store.claims == old(store.claims)[Key() := old(store.ClaimsAt(Key())) - {jobId}]
      ensures jobId in old(store.ClaimsAt(Key())) ==>
                var wk := WorkerKey(site, old(store.ClaimsAt(Key()))[jobId]);
                store.index == old(store.index)[wk := Without(old(store.IndexAt(wk)), jobId)]
      ensures jobId !in old(store.ClaimsAt(Key())) ==> store.index == old(store.index)
      ensures |store.PendingAt(Key())| + |store.ClaimsAt(Key())| + removed
              == old(|store.PendingAt(Key())| + |store.ClaimsAt(Key())|)
      ensures old(IndexOk(store.claims, store.index)) ==> IndexOk(store.claims, store.index)
    {
      var k := Key();
      var p, c := store.PendingAt(k), store.ClaimsAt(k);
      if IndexOk(store.claims, store.index) {
        RemoveKeepsIndexOk(store.claims, store.index, k, jobId);
      }
      var p', c' := Without(p, jobId), c - {jobId};
      RemoveKeepsQueueOk(p, c, jobId);
      store.SetQueue(k, p', c');
      if jobId in c {
        var wk := WorkerKey(site, c[jobId]);
        store.index := store.index[wk := Without(store.IndexAt(wk), jobId)];
      }
      removed := if jobId in p || jobId in c then 1 else 0;
    }

    /** Of `jobIds`, in their order, those this queue records as claimed by `worker`. */
    method CheckClaims(worker: WorkerName, jobIds: seq<JobId>) returns (held: seq<JobId>)
      ensures held == HeldAmong(jobIds, store.ClaimsAt(Key()), worker)
      ensures forall id :: id in held <==> id in jobIds && id in store.ClaimsAt(Key()) && store.ClaimsAt(Key())[id] == worker
    {
      held := FilterHeld(jobIds, store.ClaimsAt(Key()), worker);
    }
  }
}
