/**
 The per-address queue of queue-job.js and session-record.js, and what it gives the jobs
 that load, change and store a record: every interleaving is a sequential execution.
 */
module Queue {

  import opened Outcomes

  type Key = string

  /** The promise of a job, by the job's number. */
  type Promise = nat

  function TailOf(queues: map<Key, Promise>, key: Key): Option<Promise> {
    if key in queues then Some(queues[key]) else None
  }

  /** The clean-up callback of a settled promise: the entry goes if it is still the tail. */
  function CleanedUp(queues: map<Key, Promise>, key: Key, run: Promise): map<Key, Promise> {
    if TailOf(queues, key) == Some(run) then queues - {key} else queues
  }

  /** What add does to the tails. */
  function Added(queues: map<Key, Promise>, key: Key, inside: set<Key>, run: Promise): map<Key, Promise> {
    if key in inside then queues else queues[key := run]
  }

  /** What add did with a job: dropped it, or chained it after a promise (none: at once). */
  datatype Placing = Dropped | Chained(run: Promise, after: Option<Promise>)

  class QueueJob {
    var queues: map<Key, Promise>

    constructor ()
      ensures queues == map[]
    {
      queues := map[];
    }

    /** add: inside holds the keys of the jobs this call was made from. */
    method Add(key: Key, inside: set<Key>, run: Promise) returns (placing: Placing)
      modifies this
      ensures placing == if key in inside then Dropped else Chained(run, TailOf(old(queues), key))
      ensures queues == Added(old(queues), key, inside, run)
    {
      if key in inside {
        return Dropped;
      }
      var after := if key in queues then Some(queues[key]) else None;
      queues := queues[key := run];
      return Chained(run, after);
    }

    /** run: the keys a job's own calls are made from. */
    method Context(key: Key, inside: set<Key>) returns (chain: set<Key>)
      ensures chain == inside + {key}
    {
      return inside + {key};
    }

    method Cleanup(key: Key, run: Promise)
      modifies this
      ensures queues == CleanedUp(old(queues), key, run)
    {
      if key in queues && queues[key] == run {
        queues := queues - {key};
      }
    }
  }

  /** QUEUE_INDEX: one queue for each storage and address. */
  class QueueIndex {
    var byStorage: map<nat, map<Key, QueueJob>>

    function Find(storage: nat, addr: Key): Option<QueueJob>
      reads this
    {
      if storage in byStorage && addr in byStorage[storage] then Some(byStorage[storage][addr]) else None
    }

    /** No queue serves two places. */
    ghost predicate Valid()
      reads this
    {
      forall s: nat, a, s': nat, a' :: Find(s, a).Some? && Find(s, a) == Find(s', a') ==> s == s' && a == a'
    }

    constructor ()
      ensures Valid() && forall s: nat, a :: Find(s, a) == None
    {
      byStorage := map[];
    }

    /** sharedQueue: the queue found before, or a new one; no other place changes. */
    method SharedQueue(storage: nat, addr: Key) returns (q: QueueJob)
      requires Valid()
      modifies this
      ensures Valid() && Find(storage, addr) == Some(q)
      ensures old(Find(storage, addr)).Some? ==> q == old(Find(storage, addr)).value
      ensures old(Find(storage, addr)).None? ==> fresh(q) && q.queues == map[]
      ensures forall s: nat, a :: (s, a) != (storage, addr) ==> Find(s, a) == old(Find(s, a))
    {
      if storage !in byStorage {
        byStorage := byStorage[storage := map[]];
      }
      var byAddr := byStorage[storage];
      if addr in byAddr {
        return byAddr[addr];
      }
      ghost var before := byStorage;
      q := new QueueJob();
      byStorage := byStorage[storage := byAddr[addr := q]];
      forall s: nat, a, s': nat, a' | Find(s, a).Some? && Find(s, a) == Find(s', a')
        ensures s == s' && a == a'
      {
        assert (s, a) != (storage, addr) ==> s in before && a in before[s] && Find(s, a).value == before[s][a];
        assert (s', a') != (storage, addr) ==> s' in before && a' in before[s'] && Find(s', a').value == before[s'][a'];
        assert old(Find(s, a)).Some? && old(Find(s, a)) == old(Find(s', a')) ==> s == s' && a == a';
      }
    }
  }

  // ---- jobs over a store ----

  /** What a job does with the record it loaded: what it stores, if anything, and what its
      promise settles with. */
  datatype Outcome<+V, +R> = Outcome(written: Option<V>, settles: R)

  datatype Phase<+V, +R> = Waiting | Running | Loaded(seen: Option<V>) | Written(result: R) | Settled(result: R)

  /** A job, what it waits for, and the keys its own calls are made from. */
  datatype Job<!V, +R> = Job(key: Key, after: Option<Promise>, body: Option<V> -> Outcome<V, R>, phase: Phase<V, R>,
                             context: set<Key>)

  /** Every job ever added, the tails, the clean-ups done, and the records stored. */
  datatype World<!V, +R> = World(jobs: seq<Job<V, R>>, queues: map<Key, Promise>, cleaned: set<nat>, store: map<Key, V>)

  /** A call of add comes from outside every job, or from one that has begun. */
  datatype Action<!V, !R> =
    | Add(key: Key, body: Option<V> -> Outcome<V, R>, caller: Option<nat>)
    | Start(j: nat)
    | Load(j: nat)
    | Write(j: nat)
    | Settle(j: nat)
    | Cleanup(j: nat)

  function Stored<V>(store: map<Key, V>, key: Key): Option<V> {
    if key in store then Some(store[key]) else None
  }

  function Put<V>(store: map<Key, V>, key: Key, v: Option<V>): map<Key, V> {
    match v
    case None => store
    case Some(x) => store[key := x]
  }

  function Advance<V, R>(w: World<V, R>, j: nat, phase: Phase<V, R>): World<V, R>
    requires j < |w.jobs|
  {
    w.(jobs := w.jobs[j := w.jobs[j].(phase := phase)])
  }

  /** The keys of the jobs a call is made from. */
  function Inside<V(!new), R(!new)>(w: World<V, R>, caller: Option<nat>): set<Key> {
    match caller
    case None => {}
    case Some(i) => if i < |w.jobs| then w.jobs[i].context else {}
  }

  predicate Enabled<V(!new), R(!new)>(w: World<V, R>, a: Action<V, R>) {
    match a
    case Add(_, _, caller) => caller.Some? ==> caller.value < |w.jobs| && !w.jobs[caller.value].phase.Waiting?
    case Start(j) =>
      && j < |w.jobs| && w.jobs[j].phase.Waiting?
      && (w.jobs[j].after.Some? ==> w.jobs[j].after.value < |w.jobs| && w.jobs[w.jobs[j].after.value].phase.Settled?)
    case Load(j) => j < |w.jobs| && w.jobs[j].phase.Running?
    case Write(j) => j < |w.jobs| && w.jobs[j].phase.Loaded?
    case Settle(j) => j < |w.jobs| && w.jobs[j].phase.Written?
    case Cleanup(j) => j < |w.jobs| && w.jobs[j].phase.Settled? && j !in w.cleaned
  }

  function After<V(!new), R(!new)>(w: World<V, R>, a: Action<V, R>): World<V, R>
    requires Enabled(w, a)
  {
    match a
    case Add(key, body, caller) =>
      var inside := Inside(w, caller);
      if key in inside then w
      else w.(jobs := w.jobs + [Job(key, TailOf(w.queues, key), body, Waiting, inside + {key})],
              queues := Added(w.queues, key, inside, |w.jobs|))
    case Start(j) => Advance(w, j, Running)
    case Load(j) => Advance(w, j, Loaded(Stored(w.store, w.jobs[j].key)))
    case Write(j) =>
      var outcome := w.jobs[j].body(w.jobs[j].phase.seen);
      Advance(w, j, Written(outcome.settles)).(store := Put(w.store, w.jobs[j].key, outcome.written))
    case Settle(j) => Advance(w, j, Settled(w.jobs[j].phase.result))
    case Cleanup(j) => w.(queues := CleanedUp(w.queues, w.jobs[j].key, j), cleaned := w.cleaned + {j})
  }

  /** A queue object driven through one action keeps the tails of the world: it drops what the
      world drops, and chains a job after what the world chains it after, with its context. */
  method Drive<V(!new), R(!new)>(q: QueueJob, w: World<V, R>, a: Action<V, R>) returns (added: Option<Job<V, R>>)
    requires q.queues == w.queues && Enabled(w, a)
    modifies q
    ensures q.queues == After(w, a).queues
    ensures a.Add? ==> After(w, a).jobs == w.jobs + match added case None => [] case Some(job) => [job]
  {
    added := None;
    match a {
      case Add(key, body, caller) =>
        var placing := q.Add(key, Inside(w, caller), |w.jobs|);
        match placing {
          case Dropped =>
          case Chained(_, after) =>
            var context := q.Context(key, Inside(w, caller));
            added := Some(Job(key, after, body, Waiting, context));
        }
      case Cleanup(j) => q.Cleanup(w.jobs[j].key, j);
      case _ =>
    }
  }

  // ---- sequential execution ----

  predicate HasWritten<V, R>(job: Job<V, R>) {
    job.phase.Written? || job.phase.Settled?
  }

  /** The record of key after the first n jobs, taken one after the other, of which those
      count that have written. */
  function Replay<V, R>(first: Option<V>, jobs: seq<Job<V, R>>, key: Key, n: nat): Option<V>
    requires n <= |jobs|
  {
    if n == 0 then first
    else
      var before := Replay(first, jobs, key, n - 1);
      var job := jobs[n - 1];
      if job.key == key && HasWritten(job) && job.body(before).written.Some? then job.body(before).written else before
  }

  lemma ReplaySame<V, R>(first: Option<V>, jobs: seq<Job<V, R>>, jobs': seq<Job<V, R>>, key: Key, n: nat)
    requires n <= |jobs| && n <= |jobs'|
    requires forall i :: 0 <= i < n && (jobs[i].key == key || jobs'[i].key == key) ==> Alike(jobs[i], jobs'[i])
    ensures Replay(first, jobs, key, n) == Replay(first, jobs', key, n)
  {
  }

  ghost predicate Alike<V, R>(job: Job<V, R>, job': Job<V, R>) {
    job.key == job'.key && job.body == job'.body && (HasWritten(job) <==> HasWritten(job'))
  }

  /** Jobs of other kinds, and those that have not written, leave the record alone. */
  lemma ReplaySkips<V, R>(first: Option<V>, jobs: seq<Job<V, R>>, key: Key, m: nat, n: nat)
    requires m <= n <= |jobs|
    requires forall i :: m <= i < n && jobs[i].key == key ==> !HasWritten(jobs[i])
    ensures Replay(first, jobs, key, n) == Replay(first, jobs, key, m)
  {
  }

  // ---- the invariant ----

  /** Job j waits for the job of its key before it; when it waits for none, there is none
      that has not settled. */
  ghost predicate ChainedRight<V(!new), R(!new)>(w: World<V, R>, j: nat)
    requires j < |w.jobs|
  {
    match w.jobs[j].after
    case Some(i) => i < j && w.jobs[i].key == w.jobs[j].key && NoneBetween(w, i, j, w.jobs[j].key)
    case None => forall i :: 0 <= i < j && w.jobs[i].key == w.jobs[j].key ==> w.jobs[i].phase.Settled?
  }

  ghost predicate NoneBetween<V(!new), R(!new)>(w: World<V, R>, i: nat, j: nat, key: Key)
    requires j <= |w.jobs|
  {
    forall k :: i < k < j ==> w.jobs[k].key != key
  }

  /** A tail is the last job of its key; a key without one has only settled jobs. */
  ghost predicate TailRight<V(!new), R(!new)>(w: World<V, R>, key: Key) {
    match TailOf(w.queues, key)
    case Some(t) => t < |w.jobs| && w.jobs[t].key == key && NoneBetween(w, t, |w.jobs|, key)
    case None => forall i :: 0 <= i < |w.jobs| && w.jobs[i].key == key ==> w.jobs[i].phase.Settled?
  }

  /** A job that has begun has only settled jobs of its key before it. */
  ghost predicate InOrder<V(!new), R(!new)>(w: World<V, R>, j: nat)
    requires j < |w.jobs|
  {
    !w.jobs[j].phase.Waiting? ==>
      forall i :: 0 <= i < j && w.jobs[i].key == w.jobs[j].key ==> w.jobs[i].phase.Settled?
  }

  /** A job's own calls are made from inside its key. */
  ghost predicate InContext<V(!new), R(!new)>(w: World<V, R>, j: nat)
    requires j < |w.jobs|
  {
    w.jobs[j].key in w.jobs[j].context
  }

  /** A job sees, and settles with, what sequential execution gives it. */
  ghost predicate AsSequential<V(!new), R(!new)>(first: map<Key, V>, w: World<V, R>, j: nat)
    requires j < |w.jobs|
  {
    var job := w.jobs[j];
    var before := Replay(Stored(first, job.key), w.jobs, job.key, j);
    && (job.phase.Loaded? ==> job.phase.seen == before)
    && (HasWritten(job) ==> job.phase.result == job.body(before).settles)
  }

  ghost predicate Inv<V(!new), R(!new)>(first: map<Key, V>, w: World<V, R>) {
    && (forall j :: 0 <= j < |w.jobs| ==> ChainedRight(w, j))
    && (forall key :: TailRight(w, key))
    && (forall j :: 0 <= j < |w.jobs| ==> InOrder(w, j) && InContext(w, j))
    && (forall j :: 0 <= j < |w.jobs| ==> AsSequential(first, w, j))
    && (forall key :: Stored(w.store, key) == Replay(Stored(first, key), w.jobs, key, |w.jobs|))
  }

  // ---- every step keeps it ----

  /** While a job is under way the jobs of its key before it have settled and those after it
      wait: no two jobs of one key overlap. */
  lemma Alone<V(!new), R(!new)>(w: World<V, R>, j: nat, i: nat)
    requires forall k :: 0 <= k < |w.jobs| ==> InOrder(w, k)
    requires i < |w.jobs| && j < |w.jobs| && i != j && w.jobs[i].key == w.jobs[j].key
    requires !w.jobs[j].phase.Waiting? && !w.jobs[j].phase.Settled?
    ensures if i < j then w.jobs[i].phase.Settled? else w.jobs[i].phase.Waiting?
  {
    assert InOrder(w, i) && InOrder(w, j);
  }

  /** The job a waiting one waits for has settled, and so have all before it. */
  lemma Ready<V(!new), R(!new)>(w: World<V, R>, j: nat)
    requires forall k :: 0 <= k < |w.jobs| ==> InOrder(w, k)
    requires j < |w.jobs| && ChainedRight(w, j) && Enabled(w, Start(j))
    ensures forall i :: 0 <= i < j && w.jobs[i].key == w.jobs[j].key ==> w.jobs[i].phase.Settled?
  {
    if w.jobs[j].after.Some? {
      assert InOrder(w, w.jobs[j].after.value);
    }
  }

  lemma AddKeepsInv<V(!new), R(!new)>(first: map<Key, V>, w: World<V, R>, a: Action<V, R>)
    requires Inv(first, w) && a.Add? && Enabled(w, a)
    ensures Inv(first, After(w, a))
  {
    if a.key !in Inside(w, a.caller) {
      var w' := After(w, a);
      assert forall j :: 0 <= j < |w.jobs| ==> w'.jobs[j] == w.jobs[j];
      forall j | 0 <= j < |w'.jobs|
        ensures ChainedRight(w', j) && InOrder(w', j) && InContext(w', j) && AsSequential(first, w', j)
      {
        if j < |w.jobs| {
          assert ChainedRight(w, j) && InOrder(w, j) && InContext(w, j) && AsSequential(first, w, j);
          ReplaySame(Stored(first, w.jobs[j].key), w.jobs, w'.jobs, w.jobs[j].key, j);
        } else {
          assert TailRight(w, a.key);
        }
      }
      forall key
        ensures TailRight(w', key)
        ensures Stored(w'.store, key) == Replay(Stored(first, key), w'.jobs, key, |w'.jobs|)
      {
        assert TailRight(w, key);
        ReplaySame(Stored(first, key), w.jobs, w'.jobs, key, |w.jobs|);
      }
    }
  }

  /** Moving one job on keeps the chain of waits and the tails. */
  lemma AdvanceKeepsChain<V(!new), R(!new)>(w: World<V, R>, j: nat, phase: Phase<V, R>)
    requires j < |w.jobs| && !w.jobs[j].phase.Settled?
    requires forall k :: 0 <= k < |w.jobs| ==> ChainedRight(w, k)
    requires forall key :: TailRight(w, key)
    ensures forall k :: 0 <= k < |w.jobs| ==> ChainedRight(Advance(w, j, phase), k)
    ensures forall key :: TailRight(Advance(w, j, phase), key)
  {
    var w' := Advance(w, j, phase);
    forall k | 0 <= k < |w.jobs|
      ensures ChainedRight(w', k)
    {
      assert ChainedRight(w, k);
    }
    forall key
      ensures TailRight(w', key)
    {
      assert TailRight(w, key);
    }
  }

  lemma AdvanceKeepsOrder<V(!new), R(!new)>(w: World<V, R>, j: nat, phase: Phase<V, R>)
    requires j < |w.jobs| && !w.jobs[j].phase.Settled?
    requires forall k :: 0 <= k < |w.jobs| ==> InOrder(w, k) && InContext(w, k)
    requires forall i :: 0 <= i < j && w.jobs[i].key == w.jobs[j].key ==> w.jobs[i].phase.Settled?
    ensures forall k :: 0 <= k < |w.jobs| ==> InOrder(Advance(w, j, phase), k) && InContext(Advance(w, j, phase), k)
  {
    forall k | 0 <= k < |w.jobs|
      ensures InOrder(Advance(w, j, phase), k) && InContext(Advance(w, j, phase), k)
    {
      assert InOrder(w, k) && InContext(w, k);
    }
  }

  /** A step that does not write, of a job that has not written, or has and still has. */
  lemma QuietStep<V(!new), R(!new)>(first: map<Key, V>, w: World<V, R>, j: nat, phase: Phase<V, R>)
    requires Inv(first, w) && j < |w.jobs| && !w.jobs[j].phase.Settled?
    requires forall i :: 0 <= i < j && w.jobs[i].key == w.jobs[j].key ==> w.jobs[i].phase.Settled?
    requires HasWritten(w.jobs[j]) <==> phase.Written? || phase.Settled?
    requires phase.Loaded? ==> phase.seen == Replay(Stored(first, w.jobs[j].key), w.jobs, w.jobs[j].key, j)
    requires HasWritten(w.jobs[j]) ==> phase.result == w.jobs[j].phase.result
    ensures Inv(first, Advance(w, j, phase))
  {
    var w' := Advance(w, j, phase);
    AdvanceKeepsChain(w, j, phase);
    AdvanceKeepsOrder(w, j, phase);
    forall k | 0 <= k < |w.jobs|
      ensures AsSequential(first, w', k)
    {
      assert AsSequential(first, w, k);
      ReplaySame(Stored(first, w.jobs[k].key), w.jobs, w'.jobs, w.jobs[k].key, k);
    }
    forall key
      ensures Stored(w'.store, key) == Replay(Stored(first, key), w'.jobs, key, |w'.jobs|)
    {
      ReplaySame(Stored(first, key), w.jobs, w'.jobs, key, |w.jobs|);
    }
  }

  /** The record as a job under way finds it is the one left by the jobs before it. */
  lemma StoreIsReplay<V(!new), R(!new)>(first: map<Key, V>, w: World<V, R>, j: nat)
    requires Inv(first, w) && j < |w.jobs|
    requires !w.jobs[j].phase.Waiting? && !HasWritten(w.jobs[j])
    ensures Stored(w.store, w.jobs[j].key) == Replay(Stored(first, w.jobs[j].key), w.jobs, w.jobs[j].key, j)
  {
    forall i | j <= i < |w.jobs| && w.jobs[i].key == w.jobs[j].key
      ensures !HasWritten(w.jobs[i])
    {
      if i != j {
        Alone(w, j, i);
      }
    }
    ReplaySkips(Stored(first, w.jobs[j].key), w.jobs, w.jobs[j].key, j, |w.jobs|);
  }

  lemma WriteKeepsStore<V(!new), R(!new)>(first: map<Key, V>, w: World<V, R>, j: nat, key: Key)
    requires Inv(first, w) && Enabled(w, Write(j))
    ensures var w' := After(w, Write(j));
            Stored(w'.store, key) == Replay(Stored(first, key), w'.jobs, key, |w'.jobs|)
  {
    var w' := After(w, Write(j));
    if key != w.jobs[j].key {
      ReplaySame(Stored(first, key), w.jobs, w'.jobs, key, |w.jobs|);
    } else {
      StoreIsReplay(first, w, j);
      assert AsSequential(first, w, j);
      ReplaySame(Stored(first, key), w.jobs, w'.jobs, key, j);
      forall i | j + 1 <= i < |w'.jobs| && w'.jobs[i].key == key
        ensures !HasWritten(w'.jobs[i])
      {
        Alone(w, j, i);
      }
      ReplaySkips(Stored(first, key), w'.jobs, key, j + 1, |w'.jobs|);
    }
  }

  lemma WriteKeepsInv<V(!new), R(!new)>(first: map<Key, V>, w: World<V, R>, j: nat)
    requires Inv(first, w) && Enabled(w, Write(j))
    ensures Inv(first, After(w, Write(j)))
  {
    var w' := After(w, Write(j));
    var phase := w'.jobs[j].phase;
    assert InOrder(w, j) && AsSequential(first, w, j);
    AdvanceKeepsChain(w, j, phase);
    AdvanceKeepsOrder(w, j, phase);
    var moved := Advance(w, j, phase);
    forall k | 0 <= k < |w'.jobs|
      ensures ChainedRight(w', k) && InOrder(w', k) && InContext(w', k) && AsSequential(first, w', k)
    {
      assert ChainedRight(moved, k) && InOrder(moved, k) && InContext(moved, k) && AsSequential(first, w, k);
      if k > j && w.jobs[k].key == w.jobs[j].key {
        Alone(w, j, k);
      } else {
        ReplaySame(Stored(first, w.jobs[k].key), w.jobs, w'.jobs, w.jobs[k].key, k);
      }
    }
    forall key
      ensures TailRight(w', key)
      ensures Stored(w'.store, key) == Replay(Stored(first, key), w'.jobs, key, |w'.jobs|)
    {
      assert TailRight(moved, key);
      WriteKeepsStore(first, w, j, key);
    }
  }

  lemma CleanupKeepsInv<V(!new), R(!new)>(first: map<Key, V>, w: World<V, R>, j: nat)
    requires Inv(first, w) && Enabled(w, Cleanup(j))
    ensures Inv(first, After(w, Cleanup(j)))
  {
    var w' := After(w, Cleanup(j));
    forall k | 0 <= k < |w.jobs|
      ensures ChainedRight(w', k) && InOrder(w', k) && InContext(w', k) && AsSequential(first, w', k)
    {
      assert ChainedRight(w, k) && InOrder(w, k) && InContext(w, k) && AsSequential(first, w, k);
    }
    assert InOrder(w, j);
    forall key
      ensures TailRight(w', key)
    {
      assert TailRight(w, key);
    }
  }

  lemma StepKeepsInv<V(!new), R(!new)>(first: map<Key, V>, w: World<V, R>, a: Action<V, R>)
    requires Inv(first, w) && Enabled(w, a)
    ensures Inv(first, After(w, a))
  {
    match a
    case Add(_, _, _) => AddKeepsInv(first, w, a);
    case Start(j) =>
      Ready(w, j);
      QuietStep(first, w, j, Running);
    case Load(j) =>
      assert InOrder(w, j);
      StoreIsReplay(first, w, j);
      QuietStep(first, w, j, Loaded(Stored(w.store, w.jobs[j].key)));
    case Write(j) => WriteKeepsInv(first, w, j);
    case Settle(j) =>
      assert InOrder(w, j);
      QuietStep(first, w, j, Settled(w.jobs[j].phase.result));
    case Cleanup(j) => CleanupKeepsInv(first, w, j);
  }

  // ---- every run ----

  function Empty<V, R>(first: map<Key, V>): World<V, R> {
    World([], map[], {}, first)
  }

  /** Where a run of the queue leads, from nothing added, if each of its steps can be taken. */
  function Run<V(!new), R(!new)>(first: map<Key, V>, acts: seq<Action<V, R>>): Option<World<V, R>> {
    if acts == [] then Some(Empty(first))
    else
      match Run(first, acts[..|acts| - 1])
      case None => None
      case Some(before) => if Enabled(before, acts[|acts| - 1]) then Some(After(before, acts[|acts| - 1])) else None
  }

  lemma {:induction false} RunKeepsInv<V(!new), R(!new)>(first: map<Key, V>, acts: seq<Action<V, R>>, w: World<V, R>)
    requires Run(first, acts) == Some(w)
    ensures Inv(first, w)
  {
    if acts != [] {
      var before := Run(first, acts[..|acts| - 1]).value;
      RunKeepsInv(first, acts[..|acts| - 1], before);
      StepKeepsInv(first, before, acts[|acts| - 1]);
    }
  }

  /** Executing the jobs of one key one after the other, whole. */
  function Sequentially<V, R>(first: Option<V>, jobs: seq<Job<V, R>>, key: Key, n: nat): Option<V>
    requires n <= |jobs|
  {
    if n == 0 then first
    else
      var before := Sequentially(first, jobs, key, n - 1);
      if jobs[n - 1].key == key && jobs[n - 1].body(before).written.Some? then jobs[n - 1].body(before).written
      else before
  }

  lemma ReplayAll<V(!new), R(!new)>(first: Option<V>, jobs: seq<Job<V, R>>, key: Key, n: nat)
    requires n <= |jobs| && forall i :: 0 <= i < n && jobs[i].key == key ==> jobs[i].phase.Settled?
    ensures Replay(first, jobs, key, n) == Sequentially(first, jobs, key, n)
  {
  }

  lemma SettlesSequentially<V(!new), R(!new)>(first: map<Key, V>, acts: seq<Action<V, R>>, w: World<V, R>, j: nat)
    requires Run(first, acts) == Some(w) && j < |w.jobs| && w.jobs[j].phase.Settled?
    ensures w.jobs[j].phase.result
         == w.jobs[j].body(Sequentially(Stored(first, w.jobs[j].key), w.jobs, w.jobs[j].key, j)).settles
  {
    RunKeepsInv(first, acts, w);
    assert InOrder(w, j) && AsSequential(first, w, j);
    ReplayAll(Stored(first, w.jobs[j].key), w.jobs, w.jobs[j].key, j);
  }

  /** In every state of every run: two jobs of one key are never under way together; they
      begin in the order they were added; a job that has settled has settled with the result
      sequential execution gives it; and when all jobs of a key have settled its record is the
      one sequential execution leaves. */
  lemma Linearizable<V(!new), R(!new)>(first: map<Key, V>, acts: seq<Action<V, R>>, w: World<V, R>)
    requires Run(first, acts) == Some(w)
    ensures forall i, j :: 0 <= i < j < |w.jobs| && w.jobs[i].key == w.jobs[j].key && !w.jobs[j].phase.Waiting? ==>
              w.jobs[i].phase.Settled?
    ensures forall j :: 0 <= j < |w.jobs| && w.jobs[j].phase.Settled? ==>
              w.jobs[j].phase.result
              == w.jobs[j].body(Sequentially(Stored(first, w.jobs[j].key), w.jobs, w.jobs[j].key, j)).settles
    ensures forall key :: (forall i :: 0 <= i < |w.jobs| && w.jobs[i].key == key ==> w.jobs[i].phase.Settled?) ==>
              Stored(w.store, key) == Sequentially(Stored(first, key), w.jobs, key, |w.jobs|)
  {
    RunKeepsInv(first, acts, w);
    forall i, j | 0 <= i < j < |w.jobs| && w.jobs[i].key == w.jobs[j].key && !w.jobs[j].phase.Waiting?
      ensures w.jobs[i].phase.Settled?
    {
      assert InOrder(w, j);
    }
    forall j | 0 <= j < |w.jobs| && w.jobs[j].phase.Settled?
      ensures w.jobs[j].phase.result
           == w.jobs[j].body(Sequentially(Stored(first, w.jobs[j].key), w.jobs, w.jobs[j].key, j)).settles
    {
      SettlesSequentially(first, acts, w, j);
    }
    forall key | forall i :: 0 <= i < |w.jobs| && w.jobs[i].key == key ==> w.jobs[i].phase.Settled?
      ensures Stored(w.store, key) == Sequentially(Stored(first, key), w.jobs, key, |w.jobs|)
    {
      ReplayAll(Stored(first, key), w.jobs, key, |w.jobs|);
    }
  }

  function NextStep<V, R>(w: World<V, R>, j: nat): Action<V, R>
    requires j < |w.jobs|
  {
    match w.jobs[j].phase
    case Waiting => Start(j)
    case Running => Load(j)
    case Loaded(_) => Write(j)
    case Written(_) => Settle(j)
    case Settled(_) => Cleanup(j)
  }

  /** No job is left waiting for good: the first job of a key that has not settled can move. */
  lemma NeverStuck<V(!new), R(!new)>(first: map<Key, V>, acts: seq<Action<V, R>>, w: World<V, R>, j: nat)
    requires Run(first, acts) == Some(w) && j < |w.jobs| && !w.jobs[j].phase.Settled?
    requires forall i :: 0 <= i < j && w.jobs[i].key == w.jobs[j].key ==> w.jobs[i].phase.Settled?
    ensures Enabled(w, NextStep(w, j))
  {
    RunKeepsInv(first, acts, w);
    assert ChainedRight(w, j);
  }

  /** A tail is forgotten only when every job of its key has settled, so that a job chained
      after nothing follows no job under way. */
  lemma ForgottenWhenSettled<V(!new), R(!new)>(first: map<Key, V>, acts: seq<Action<V, R>>, w: World<V, R>, key: Key)
    requires Run(first, acts) == Some(w) && key !in w.queues
    ensures forall i :: 0 <= i < |w.jobs| && w.jobs[i].key == key ==> w.jobs[i].phase.Settled?
  {
    RunKeepsInv(first, acts, w);
    assert TailRight(w, key);
  }

  /** A job that has begun and adds a job of its own key has it dropped; nothing changes. */
  lemma ReentryIsDropped<V(!new), R(!new)>(first: map<Key, V>, acts: seq<Action<V, R>>, w: World<V, R>, j: nat,
                                           body: Option<V> -> Outcome<V, R>)
    requires Run(first, acts) == Some(w) && j < |w.jobs| && !w.jobs[j].phase.Waiting?
    ensures Run(first, acts + [Add(w.jobs[j].key, body, Some(j))]) == Some(w)
  {
    RunKeepsInv(first, acts, w);
    assert InContext(w, j);
    var all := acts + [Add(w.jobs[j].key, body, Some(j))];
    assert all[..|all| - 1] == acts;
  }
}
