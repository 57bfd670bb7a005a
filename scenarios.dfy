/** The job queue's unit examples, replayed against the model: site `test`,
    queue `lel`, worker `a`. The default capacity of a worker is not fixed by
    the examples, so it is a parameter here. The reset before each example
    deletes the queue, its claims, the site's queue and worker lists, the
    presence key of `a` and the site itself, but not the claim index of `a`:
    each example therefore starts from a board that holds only a `leftover`
    index for `a`, also a parameter. */
module Scenarios {
  import opened Collections
  import opened Store
  import JQ = JobQueue

  /** The board left by the reset before each example: nothing but the
      claim index of `a`, which the reset does not delete. */
  method UnitBoard(leftover: seq<JobId>) returns (store: Store, queue: JQ.JobQueue)
    ensures fresh(store) && store.Valid()
    ensures queue.store == store && queue.site == "test" && queue.queueName == "lel"
    ensures store.sites == {} && store.queues == map[] && store.workers == map[]
    ensures store.pending == map[] && store.claims == map[]
    ensures store.index == map[WorkerKey("test", "a") := leftover]
  {
    store := new Store();
    queue := new JQ.JobQueue(store, "test", "lel");
    store.index := store.index[WorkerKey("test", "a") := leftover];
  }

  /** A board with nothing registered: every lookup is `Invalid`, no claim
      is held and nothing is removed. */
  method LookupsWithNoData(leftover: seq<JobId>)
    returns (forWorker: JQ.Lookup<seq<JobId>>, forSite: JQ.Lookup<seq<JQ.QueueListing>>,
             forQueue: JQ.Lookup<seq<JQ.JobView>>, held: seq<JobId>, removed: nat)
    ensures forWorker == JQ.Invalid && forSite == JQ.Invalid && forQueue == JQ.Invalid
    ensures held == []
    ensures removed == 0
  {
    var store, queue := UnitBoard(leftover);
    forWorker := JQ.ForWorker(store, "test", "a", "lel");
    forSite := JQ.ForSite(store, "test");
    forQueue := JQ.ForQueue(store, "test", "lel");

    held := queue.CheckClaims("a", ["0", "1", "2", "3"]);
    JQ.HeldAmongNone(["0", "1", "2", "3"], map[], "a");
    removed := queue.Remove("0");
  }

  /** On an empty board, registering records the site, the queue and the
      worker, a claim yields nothing and the first add makes a pending list
      of one. */
  method RegisterWithNoData(capacity: nat, leftover: seq<JobId>)
    returns (sites: set<Site>, queues: set<QueueName>, workers: seq<Worker>, claimed: seq<JobId>, length: nat)
    ensures sites == {"test"} && queues == {"lel"} && workers == [Worker("a", capacity, true)]
    ensures claimed == []
    ensures length == 1
  {
    var store, queue := Registered(capacity, leftover);
    sites, queues, workers := store.sites, store.QueuesOf("test"), store.WorkersOf("test");
    claimed := queue.Claim("a", capacity);
    length := queue.Add("0");
  }

  /** Registers worker `a` on the board left by the reset. */
  method Registered(capacity: nat, leftover: seq<JobId>) returns (store: Store, queue: JQ.JobQueue)
    ensures fresh(store) && store.Valid()
    ensures queue.store == store && queue.site == "test" && queue.queueName == "lel"
    ensures store.sites == {"test"}
    ensures store.QueuesOf("test") == {"lel"}
    ensures store.WorkersOf("test") == [Worker("a", capacity, true)]
    ensures store.PendingAt(QueueKey("test", "lel")) == []
    ensures store.ClaimsAt(QueueKey("test", "lel")) == map[]
    ensures store.IndexAt(WorkerKey("test", "a")) == leftover
  {
    store, queue := UnitBoard(leftover);
    queue.Register("a", capacity);
  }

  /** Registers worker `a` and adds ids `0` and `1` to the board left by the reset. */
  method QueuedTwo(capacity: nat, leftover: seq<JobId>) returns (store: Store, queue: JQ.JobQueue)
    ensures fresh(store) && store.Valid()
    ensures queue.store == store && queue.site == "test" && queue.queueName == "lel"
    ensures store.sites == {"test"}
    ensures store.QueuesOf("test") == {"lel"}
    ensures store.WorkersOf("test") == [Worker("a", capacity, true)]
    ensures store.PendingAt(QueueKey("test", "lel")) == ["0", "1"]
    ensures store.ClaimsAt(QueueKey("test", "lel")) == map[]
    ensures store.IndexAt(WorkerKey("test", "a")) == leftover
  {
    store, queue := Registered(capacity, leftover);
    var length := queue.Add("0");
    length := queue.Add("1");
  }

  /** Registers worker `a` and adds ids `0`..`3` to the board left by the reset. */
  method Queued(capacity: nat, leftover: seq<JobId>) returns (store: Store, queue: JQ.JobQueue)
    ensures fresh(store) && store.Valid()
    ensures queue.store == store && queue.site == "test" && queue.queueName == "lel"
    ensures store.sites == {"test"}
    ensures store.QueuesOf("test") == {"lel"}
    ensures store.WorkersOf("test") == [Worker("a", capacity, true)]
    ensures store.PendingAt(QueueKey("test", "lel")) == ["0", "1", "2", "3"]
    ensures store.ClaimsAt(QueueKey("test", "lel")) == map[]
    ensures store.IndexAt(WorkerKey("test", "a")) == leftover
  {
    store, queue := QueuedTwo(capacity, leftover);
    var length := queue.Add("2");
    length := queue.Add("3");
  }

  /** With four queued ids, registering `a` again keeps the site, the queue
      and the worker registered, and leaves the queue alone. */
  method RegisterWithQueuedJobIds(capacity: nat, leftover: seq<JobId>) returns (store: Store, queue: JQ.JobQueue)
    ensures fresh(store) && store.Valid()
    ensures queue.store == store && queue.site == "test" && queue.queueName == "lel"
    ensures store.sites == {"test"}
    ensures store.QueuesOf("test") == {"lel"}
    ensures store.WorkersOf("test") == [Worker("a", capacity, true)]
    ensures store.PendingAt(QueueKey("test", "lel")) == ["0", "1", "2", "3"]
    ensures store.ClaimsAt(QueueKey("test", "lel")) == map[]
    ensures store.IndexAt(WorkerKey("test", "a")) == leftover
  {
    store, queue := Queued(capacity, leftover);
    queue.Register("a", capacity);
  }

  /** With four queued ids the listings show them newest first and unclaimed,
      and `a` holds none of them. */
  method ListWithQueuedJobIds(capacity: nat, leftover: seq<JobId>)
    returns (forWorker: JQ.Lookup<seq<JobId>>, forQueue: JQ.Lookup<seq<JQ.JobView>>, held: seq<JobId>)
    ensures forWorker == JQ.Ok([])
    ensures forQueue == JQ.Ok([JQ.JobView("3", None), JQ.JobView("2", None), JQ.JobView("1", None), JQ.JobView("0", None)])
    ensures held == []
  {
    var store, queue := RegisterWithQueuedJobIds(capacity, leftover);
    var listing := [JQ.JobView("3", None), JQ.JobView("2", None), JQ.JobView("1", None), JQ.JobView("0", None)];
    assert JQ.NewestFirst(["0", "1", "2", "3"]) == listing;

    forWorker := JQ.ForWorker(store, "test", "a", "lel");
    JQ.HeldAmongNone(leftover, map[], "a");

    forQueue := JQ.ForQueue(store, "test", "lel");
    assert forQueue.Ok?;
    assert forQueue.value == forQueue.value[..4];

    held := queue.CheckClaims("a", ["0", "1", "2", "3"]);
    JQ.HeldAmongNone(["0", "1", "2", "3"], map[], "a");
  }

  /** With four queued ids the site listing has the one queue `lel`. */
  method ListSiteWithQueuedJobIds(capacity: nat, leftover: seq<JobId>) returns (forSite: JQ.Lookup<seq<JQ.QueueListing>>)
    ensures forSite == JQ.Ok([JQ.QueueListing("lel", [JQ.JobView("3", None), JQ.JobView("2", None),
                                                       JQ.JobView("1", None), JQ.JobView("0", None)])])
  {
    var store, queue := RegisterWithQueuedJobIds(capacity, leftover);
    var listing := [JQ.JobView("3", None), JQ.JobView("2", None), JQ.JobView("1", None), JQ.JobView("0", None)];
    assert JQ.NewestFirst(["0", "1", "2", "3"]) == listing;

    forSite := JQ.ForSite(store, "test");
    assert forSite.Ok?;
    var sites := forSite.value;
    NoDupCard(JQ.ListedQueues(sites));
    assert |sites| == 1;
    assert sites[0].queue in Elems(JQ.ListedQueues(sites));
    assert sites[0].jobs == sites[0].jobs[..4];
    assert sites == [JQ.QueueListing("lel", listing)];
  }

  /** With four queued ids a claim takes the oldest ones, as many as the
      capacity left over the leftover index allows; with no leftover index,
      up to capacity. */
  method ClaimWithQueuedJobIds(capacity: nat, leftover: seq<JobId>) returns (claimed: seq<JobId>)
    ensures claimed == ["0", "1", "2", "3"][..JQ.Grant(4, capacity, |leftover|)]
    ensures |leftover| >= capacity ==> claimed == []
    ensures leftover == [] && capacity <= 4 ==> claimed == ["0", "1", "2", "3"][..capacity]
    ensures leftover == [] && capacity >= 4 ==> claimed == ["0", "1", "2", "3"]
  {
    var store, queue := RegisterWithQueuedJobIds(capacity, leftover);
    claimed := queue.Claim("a", capacity);
  }

  /** With four queued ids, removing a queued one removes one entry. */
  method RemoveQueued(capacity: nat, leftover: seq<JobId>) returns (removed: nat, pending: seq<JobId>)
    ensures removed == 1
    ensures pending == ["1", "2", "3"]
  {
    var store, queue := Queued(capacity, leftover);
    removed := queue.Remove("0");
    assert Without(["3"], "0") == ["3"];
    assert Without(["2", "3"], "0") == ["2", "3"];
    assert Without(["1", "2", "3"], "0") == ["1", "2", "3"];
    pending := store.PendingAt(QueueKey("test", "lel"));
  }

  /** With four queued ids, adding a fifth gives a pending length of five. */
  method AddToQueued(capacity: nat, leftover: seq<JobId>) returns (length: nat)
    ensures length == 5
  {
    var store, queue := RegisterWithQueuedJobIds(capacity, leftover);
    length := queue.Add("4");
  }
}
