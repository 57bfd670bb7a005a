/** The shared keyed store that every job queue of every site reads and writes.
    Each field stands for one family of keys; a key that does not exist reads
    as the empty value, as an absent list, hash or set does in the store. */
module Store {
  import opened Collections

  type Site = string
  type QueueName = string
  type WorkerName = string
  type JobId = string

  datatype QueueKey = QueueKey(site: Site, queue: QueueName)
  datatype WorkerKey = WorkerKey(site: Site, worker: WorkerName)

  /** A registered worker. `live` stands for the presence of the worker's
      lease-backed keys: its presence key and its capacity, created by
      registration, and its claim index, created by its first claim. Expiry
      deletes the three together. */
  datatype Worker = Worker(name: WorkerName, capacity: nat, live: bool)

  /** No worker name is registered twice at a site. */
  ghost predicate UniqueNames(ws: seq<Worker>) {
    forall i, j | 0 <= i < j < |ws| :: ws[i].name != ws[j].name
  }

  /** Registration of `name`: refreshes the entry already there, in place,
      or appends a new one. Either way the worker is live with `capacity`. */
  function Upsert(ws: seq<Worker>, name: WorkerName, capacity: nat): seq<Worker> {
    if ws == [] then [Worker(name, capacity, true)]
    else if ws[0].name == name then [Worker(name, capacity, true)] + ws[1..]
    else [ws[0]] + Upsert(ws[1..], name, capacity)
  }

  /** Registering a worker that is already there refreshes it at its place
      in the registration order. */
  lemma {:induction false} UpsertRefreshes(ws: seq<Worker>, name: WorkerName, capacity: nat, i: nat)
    requires UniqueNames(ws)
    requires i < |ws| && ws[i].name == name
    ensures Upsert(ws, name, capacity) == ws[i := Worker(name, capacity, true)]
  {
    if i > 0 {
      var tail := ws[1..];
      assert ws[0].name != name;
      assert UniqueNames(tail) by {
        forall a, b | 0 <= a < b < |tail| ensures tail[a].name != tail[b].name {
          assert tail[a] == ws[a + 1] && tail[b] == ws[b + 1];
        }
      }
      assert tail[i - 1] == ws[i];
      UpsertRefreshes(tail, name, capacity, i - 1);
      assert ws[i := Worker(name, capacity, true)] == [ws[0]] + tail[i - 1 := Worker(name, capacity, true)];
    }
  }

  /** Registering a new worker appends it. */
  lemma {:induction false} UpsertAppends(ws: seq<Worker>, name: WorkerName, capacity: nat)
    requires forall i | 0 <= i < |ws| :: ws[i].name != name
    ensures Upsert(ws, name, capacity) == ws + [Worker(name, capacity, true)]
  {
    if ws != [] {
      var tail := ws[1..];
      assert forall i | 0 <= i < |tail| :: tail[i].name != name by {
        forall i | 0 <= i < |tail| ensures tail[i].name != name {
          assert tail[i] == ws[i + 1];
        }
      }
      UpsertAppends(tail, name, capacity);
      assert ws + [Worker(name, capacity, true)] == [ws[0]] + (tail + [Worker(name, capacity, true)]);
    }
  }

  /** Registering a worker that is already there refreshes it at its place in
      the registration order; registering a new one appends it. Names stay unique. */
  lemma UpsertPlaces(ws: seq<Worker>, name: WorkerName, capacity: nat)
    requires UniqueNames(ws)
    ensures UniqueNames(Upsert(ws, name, capacity))
    ensures forall i | 0 <= i < |ws| && ws[i].name == name ::
              Upsert(ws, name, capacity) == ws[i := Worker(name, capacity, true)]
    ensures (forall i | 0 <= i < |ws| :: ws[i].name != name) ==>
              Upsert(ws, name, capacity) == ws + [Worker(name, capacity, true)]
  {
    var w := Worker(name, capacity, true);
    forall i | 0 <= i < |ws| && ws[i].name == name ensures Upsert(ws, name, capacity) == ws[i := w] {
      UpsertRefreshes(ws, name, capacity, i);
    }
    if i :| 0 <= i < |ws| && ws[i].name == name {
      UpsertRefreshes(ws, name, capacity, i);
      var r := ws[i := w];
      assert forall a | 0 <= a < |r| :: r[a].name == ws[a].name;
    } else {
      UpsertAppends(ws, name, capacity);
      var r := ws + [w];
      assert forall a | 0 <= a < |ws| :: r[a] == ws[a];
    }
  }

  /** Expiry of `name`: its lease-backed keys are gone, so it is no longer live. */
  function MarkExpired(ws: seq<Worker>, name: WorkerName): (r: seq<Worker>)
    ensures |r| == |ws|
    ensures forall i | 0 <= i < |ws| ::
              && r[i].name == ws[i].name
              && r[i].capacity == ws[i].capacity
              && r[i].live == (ws[i].live && ws[i].name != name)
    ensures UniqueNames(ws) ==> UniqueNames(r)
  {
    seq(|ws|, i requires 0 <= i < |ws| => if ws[i].name == name then ws[i].(live := false) else ws[i])
  }

  /** The live workers, in registration order. */
  function LiveOnly(ws: seq<Worker>): seq<Worker> {
    if ws == [] then []
    else if ws[0].live then [ws[0]] + LiveOnly(ws[1..])
    else LiveOnly(ws[1..])
  }

  /** Dropping the expired workers keeps the live ones in registration order. */
  lemma {:induction false} LiveOnlyInOrder(ws: seq<Worker>)
    ensures Subsequence(LiveOnly(ws), ws)
  {
    if ws == [] {
      assert Embedding(LiveOnly(ws), ws, []);
    } else {
      var tail := ws[1..];
      LiveOnlyInOrder(tail);
      var pos0 :| Embedding(LiveOnly(tail), tail, pos0);
      EmbedCons(ws[0], LiveOnly(tail), tail, pos0);
      assert ws == [ws[0]] + tail;
    }
  }

  lemma LiveOrDead(ws: seq<Worker>, i: nat)
    requires i < |ws|
    ensures ws[i].live || ws[i].name in DeadNames(ws)
  {
  }

  /** A worker list with no expired worker is its own live part. */
  lemma {:induction false} LiveOnlyAllLive(ws: seq<Worker>)
    requires DeadNames(ws) == {}
    ensures LiveOnly(ws) == ws
  {
    if ws != [] {
      forall i | 0 <= i < |ws| ensures ws[i].live {
        LiveOrDead(ws, i);
      }
      assert DeadNames(ws[1..]) <= DeadNames(ws) by {
        forall i | 0 <= i < |ws[1..]| ensures ws[1..][i] == ws[i + 1] {}
      }
      LiveOnlyAllLive(ws[1..]);
      assert ws == [ws[0]] + ws[1..];
    }
  }

  /** Names of the workers whose keys have expired. */
  function DeadNames(ws: seq<Worker>): set<WorkerName> {
    set i | 0 <= i < |ws| && !ws[i].live :: ws[i].name
  }

  /** Sum of the capacities of the live workers. */
  function LiveCapacity(ws: seq<Worker>): nat {
    if ws == [] then 0
    else (if ws[0].live then ws[0].capacity else 0) + LiveCapacity(ws[1..])
  }

  /** Dropping the expired workers keeps exactly the live ones. */
  lemma {:induction false} LiveOnlyMembers(ws: seq<Worker>)
    ensures forall w :: w in LiveOnly(ws) <==> w in ws && w.live
  {
    if ws != [] {
      var tail := ws[1..];
      LiveOnlyMembers(tail);
      assert ws == [ws[0]] + tail;
    }
  }

  /** Dropping the expired workers keeps the names unique. */
  lemma {:induction false} LiveOnlyUnique(ws: seq<Worker>)
    requires UniqueNames(ws)
    ensures UniqueNames(LiveOnly(ws))
  {
    if ws != [] {
      var tail := ws[1..];
      assert UniqueNames(tail) by {
        forall i, j | 0 <= i < j < |tail| ensures tail[i].name != tail[j].name {
          assert tail[i] == ws[i + 1] && tail[j] == ws[j + 1];
        }
      }
      LiveOnlyUnique(tail);
      if ws[0].live {
        var l := LiveOnly(ws);
        assert l == [ws[0]] + LiveOnly(tail);
        LiveOnlyMembers(tail);
        forall i, j | 0 <= i < j < |l| ensures l[i].name != l[j].name {
          if i == 0 {
            assert l[j] in LiveOnly(tail);
            var k :| 0 <= k < |tail| && tail[k] == l[j];
            assert tail[k] == ws[k + 1];
          }
        }
      }
    }
  }

  /** Dropping the expired workers keeps the live capacity. */
  lemma {:induction false} LiveOnlyCapacity(ws: seq<Worker>)
    ensures LiveCapacity(LiveOnly(ws)) == LiveCapacity(ws)
  {
    if ws != [] {
      LiveOnlyCapacity(ws[1..]);
      if ws[0].live {
        assert LiveOnly(ws) == [ws[0]] + LiveOnly(ws[1..]);
        assert LiveOnly(ws)[1..] == LiveOnly(ws[1..]);
      }
    }
  }

  /** Dropping the expired workers keeps exactly the live ones, in order,
      with unique names and the same total capacity. */
  lemma LiveOnlyKeeps(ws: seq<Worker>)
    requires UniqueNames(ws)
    ensures UniqueNames(LiveOnly(ws))
    ensures forall w :: w in LiveOnly(ws) <==> w in ws && w.live
    ensures LiveCapacity(LiveOnly(ws)) == LiveCapacity(ws)
    ensures DeadNames(LiveOnly(ws)) == {}
  {
    LiveOnlyMembers(ws);
    LiveOnlyUnique(ws);
    LiveOnlyCapacity(ws);
    var l := LiveOnly(ws);
    forall i | 0 <= i < |l| ensures l[i].live {
      assert l[i] in l;
    }
  }

  /** Expiry of a live worker takes exactly its capacity out of the site's
      live capacity. */
  lemma {:induction false} ExpireDropsCapacity(ws: seq<Worker>, k: nat)
    requires UniqueNames(ws)
    requires k < |ws| && ws[k].live
    ensures LiveCapacity(MarkExpired(ws, ws[k].name)) + ws[k].capacity == LiveCapacity(ws)
  {
    var name := ws[k].name;
    var tail := ws[1..];
    var r := MarkExpired(ws, name);
    assert r[1..] == MarkExpired(tail, name);
    if k == 0 {
      assert forall i | 0 <= i < |tail| :: tail[i].name != name by {
        forall i | 0 <= i < |tail| ensures tail[i].name != name {
          assert tail[i] == ws[i + 1];
        }
      }
      UntouchedCapacity(tail, name);
    } else {
      assert UniqueNames(tail) by {
        forall i, j | 0 <= i < j < |tail| ensures tail[i].name != tail[j].name {
          assert tail[i] == ws[i + 1] && tail[j] == ws[j + 1];
        }
      }
      assert tail[k - 1] == ws[k];
      ExpireDropsCapacity(tail, k - 1);
    }
  }

  /** Marking a name no worker has leaves the capacity alone. */
  lemma {:induction false} UntouchedCapacity(ws: seq<Worker>, name: WorkerName)
    requires forall i | 0 <= i < |ws| :: ws[i].name != name
    ensures LiveCapacity(MarkExpired(ws, name)) == LiveCapacity(ws)
  {
    if ws != [] {
      var r := MarkExpired(ws, name);
      assert r[1..] == MarkExpired(ws[1..], name);
      assert r[0] == ws[0];
      UntouchedCapacity(ws[1..], name);
    }
  }

  /** Disjointness of one queue: no id is pending twice, and no pending id is
      also claimed. */
  ghost predicate QueueOk(pending: seq<JobId>, claims: map<JobId, WorkerName>) {
    NoDup(pending) && forall i | 0 <= i < |pending| :: pending[i] !in claims
  }

  /** Every queue of the store is disjoint. */
  ghost predicate QueuesOk(pm: map<QueueKey, seq<JobId>>, cm: map<QueueKey, map<JobId, WorkerName>>) {
    forall k :: QueueOk(PendingIn(pm, k), ClaimsIn(cm, k))
  }

  /** Worker names are unique at every site. */
  ghost predicate NamesOk(wm: map<Site, seq<Worker>>) {
    forall s :: UniqueNames(WorkersIn(wm, s))
  }

  function QueuesIn(m: map<Site, set<QueueName>>, s: Site): set<QueueName> {
    if s in m then m[s] else {}
  }

  function WorkersIn(m: map<Site, seq<Worker>>, s: Site): seq<Worker> {
    if s in m then m[s] else []
  }

  /** Replacing one site's worker list by one with unique names keeps the
      names unique at every site. */
  lemma WorkersUpdateKeepsUnique(m: map<Site, seq<Worker>>, site: Site, ws: seq<Worker>, m': map<Site, seq<Worker>>)
    requires NamesOk(m)
    requires UniqueNames(ws) && m' == m[site := ws]
    ensures NamesOk(m')
  {
    forall s ensures UniqueNames(WorkersIn(m', s)) {
      if s != site {
        assert WorkersIn(m', s) == WorkersIn(m, s);
      }
    }
  }

  /** Replacing one queue's pending list and claims by a disjoint pair keeps
      every queue disjoint. */
  lemma QueueUpdateKeepsOk(pm: map<QueueKey, seq<JobId>>, cm: map<QueueKey, map<JobId, WorkerName>>,
                           k: QueueKey, p: seq<JobId>, c: map<JobId, WorkerName>,
                           pm': map<QueueKey, seq<JobId>>, cm': map<QueueKey, map<JobId, WorkerName>>)
    requires QueuesOk(pm, cm)
    requires QueueOk(p, c)
    requires PendingIn(pm', k) == p && ClaimsIn(cm', k) == c
    requires forall k' | k' != k :: PendingIn(pm', k') == PendingIn(pm, k') && ClaimsIn(cm', k') == ClaimsIn(cm, k')
    ensures QueuesOk(pm', cm')
  {
    forall k' ensures QueueOk(PendingIn(pm', k'), ClaimsIn(cm', k')) {
      if k' != k {
        assert PendingIn(pm', k') == PendingIn(pm, k');
      }
    }
  }

  /** `worker` of `site` holds `id` in one of the site's queues. */
  ghost predicate Holds(cm: map<QueueKey, map<JobId, WorkerName>>, wk: WorkerKey, id: JobId) {
    exists q :: id in ClaimsIn(cm, QueueKey(wk.site, q)) && ClaimsIn(cm, QueueKey(wk.site, q))[id] == wk.worker
  }

  /** Every id on a worker's claim index is claimed by that worker in some
      queue of its site. */
  ghost predicate IndexOk(cm: map<QueueKey, map<JobId, WorkerName>>, im: map<WorkerKey, seq<JobId>>) {
    forall wk, i | 0 <= i < |IndexIn(im, wk)| :: Holds(cm, wk, IndexIn(im, wk)[i])
  }

  function PendingIn(m: map<QueueKey, seq<JobId>>, k: QueueKey): seq<JobId> {
    if k in m then m[k] else []
  }

  function ClaimsIn(m: map<QueueKey, map<JobId, WorkerName>>, k: QueueKey): map<JobId, WorkerName> {
    if k in m then m[k] else map[]
  }

  function IndexIn(m: map<WorkerKey, seq<JobId>>, k: WorkerKey): seq<JobId> {
    if k in m then m[k] else []
  }

  class Store {
    /** The `sites` set. */
    var sites: set<Site>
    /** The queue names registered under each site. */
    var queues: map<Site, set<QueueName>>
    /** The workers of each site, in registration order. */
    var workers: map<Site, seq<Worker>>
    /** Each queue's pending job ids, oldest first. */
    var pending: map<QueueKey, seq<JobId>>
    /** Each queue's claims: job id to the worker holding it. */
    var claims: map<QueueKey, map<JobId, WorkerName>>
    /** Each worker's claim index: the ids it claimed, in claim order. */
    var index: map<WorkerKey, seq<JobId>>

    /** An empty keyspace. */
    constructor ()
      ensures sites == {} && queues == map[] && workers == map[]
      ensures pending == map[] && claims == map[] && index == map[]
      ensures Valid() && IndexOk(claims, index)
    {
      sites, queues, workers := {}, map[], map[];
      pending, claims, index := map[], map[], map[];
    }

    function QueuesOf(s: Site): set<QueueName>
      reads this`queues
    {
      QueuesIn(queues, s)
    }

    function WorkersOf(s: Site): seq<Worker>
      reads this`workers
    {
      WorkersIn(workers, s)
    }

    function PendingAt(k: QueueKey): seq<JobId>
      reads this`pending
    {
      PendingIn(pending, k)
    }

    function ClaimsAt(k: QueueKey): map<JobId, WorkerName>
      reads this`claims
    {
      ClaimsIn(claims, k)
    }

    function IndexAt(k: WorkerKey): seq<JobId>
      reads this`index
    {
      IndexIn(index, k)
    }

    /** Every queue is disjoint and every site's worker names are unique. */
    ghost predicate Valid()
      reads this`pending, this`claims, this`workers
    {
      QueuesOk(pending, claims) && NamesOk(workers)
    }

    /** Writes one queue's pending list and claims, which must be disjoint. */
    method SetQueue(k: QueueKey, p: seq<JobId>, c: map<JobId, WorkerName>)
      requires Valid() && QueueOk(p, c)
      modifies this`pending, this`claims
      ensures Valid()
      ensures pending == old(pending)[k := p] && claims == old(claims)[k := c]
    {
      QueueUpdateKeepsOk(pending, claims, k, p, c, pending[k := p], claims[k := c]);
      pending := pending[k := p];
      claims := claims[k := c];
    }

    /** Writes one queue's pending list, which must be disjoint from its claims. */
    method SetPending(k: QueueKey, p: seq<JobId>)
      requires Valid() && QueueOk(p, ClaimsIn(claims, k))
      modifies this`pending
      ensures Valid()
      ensures pending == old(pending)[k := p]
    {
      QueueUpdateKeepsOk(pending, claims, k, p, ClaimsIn(claims, k), pending[k := p], claims);
      pending := pending[k := p];
    }

    /** Writes one site's worker list, whose names must be unique. */
    method SetWorkers(s: Site, ws: seq<Worker>)
      requires Valid() && UniqueNames(ws)
      modifies this`workers
      ensures Valid()
      ensures workers == old(workers)[s := ws]
    {
      WorkersUpdateKeepsUnique(workers, s, ws, workers[s := ws]);
      workers := workers[s := ws];
    }
  }
}
