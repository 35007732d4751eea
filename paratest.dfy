/** The `run` branch of `process`: fill the shared queue with every test
    identifier the plugin finds, create `min(environments, tids)` workers,
    start them one by one with one `None` sentinel put after each start,
    then wait for the queue's unfinished count to reach zero and for every
    worker to return.

    The main thread and the workers are real threads in the program. Here
    they are one sequential loop that, at every step, lets ANY thread that
    can move take its next step (the choice is left open with `:|`), so
    what is proved about the loop holds for every interleaving. */
module Paratest {
  import opened Common
  import opened Plugins
  import opened WorkQueue
  import opened Workers

  /** Where the main thread is once the workers are created: about to start
      worker k, about to put the sentinel for worker k, in `shared_queue.join()`,
      in the loop of `t.join()` calls, or returned. */
  datatype MainPc = Starting(k: nat) | Putting(k: nat) | AwaitQueue | AwaitWorkers | Finished

  /** The identifiers as queue entries, in order. */
  function Wrap(ids: seq<TestId>): (items: seq<Item>)
    ensures |items| == |ids|
    ensures forall j :: 0 <= j < |ids| ==> items[j] == Some(ids[j])
  {
    if ids == [] then [] else [Some(ids[0])] + Wrap(ids[1..])
  }

  /** The k `None` sentinels. */
  function Sentinels(k: nat): (items: seq<Item>)
    ensures |items| == k
    ensures forall j :: 0 <= j < k ==> items[j] == None
  {
    if k == 0 then [] else Sentinels(k - 1) + [None]
  }

  /** Everything ever put on the queue once k sentinels are in: every found
      identifier in `find`'s order, then the sentinels. */
  function Queued(found: seq<TestId>, k: nat): seq<Item>
  {
    Wrap(found) + Sentinels(k)
  }

  /** The identifiers handed to `run` in a log, in call order. */
  function RunSequence(log: seq<Event>): seq<TestId>
  {
    Flatten(log, RunListOf)
  }

  /** All plugin `run` calls in a log, one element per call. */
  function RunCalls(log: seq<Event>): multiset<TestId>
  {
    Gather(log, RunOf)
  }

  // ---- per-element measures used by the invariant ----

  function RunOf(e: Event): multiset<TestId>
  {
    if e.Run? then multiset{e.tid} else multiset{}
  }

  function RunListOf(e: Event): seq<TestId>
  {
    if e.Run? then [e.tid] else []
  }

  function InitOf(e: Event): nat
  {
    if e.InitEnvironment? then 1 else 0
  }

  function ItemIds(x: Item): multiset<TestId>
  {
    if x.Some? then multiset{x.value} else multiset{}
  }

  function ItemList(x: Item): seq<TestId>
  {
    if x.Some? then [x.value] else []
  }

  function FalsyItem(x: Item): nat
  {
    if ItemTruthy(x) then 0 else 1
  }

  /** A worker between its `get` and its `task_done`. */
  function Holding(w: Pc): nat
  {
    if w.Taken? || w.Processed? then 1 else 0
  }

  /** A worker that has popped its falsy entry: it has returned, or will
      return after its `task_done`. */
  function Retired(w: Pc): nat
  {
    if w.Stopped? || ((w.Taken? || w.Processed?) && !ItemTruthy(w.item)) then 1 else 0
  }

  /** A worker that has made its `init_environment` call. */
  function PastInit(w: Pc): nat
  {
    if w.NotStarted? || w.Started? then 0 else 1
  }

  /** The identifier a worker has popped and not yet handed to `run`. */
  function Unrun(w: Pc): multiset<TestId>
  {
    if w.Taken? then ItemIds(w.item) else multiset{}
  }

  function UnrunList(w: Pc): seq<TestId>
  {
    if w.Taken? then ItemList(w.item) else []
  }

  /** Steps a worker has left before it must wait on the queue or return. */
  function Weight(w: Pc): nat
  {
    match w
    case NotStarted => 1
    case Started => 1
    case AtLoop => 0
    case Taken(_) => 2
    case Processed(_) => 1
    case Stopped => 0
  }

  // ---- the main thread ----

  /** How many workers the main thread has started. */
  function StartedCount(m: MainPc, n: nat): nat
  {
    match m
    case Starting(k) => k
    case Putting(k) => k + 1
    case _ => n
  }

  /** How many sentinels the main thread has put. */
  function PutCount(m: MainPc, n: nat): nat
  {
    match m
    case Starting(k) => k
    case Putting(k) => k
    case _ => n
  }

  predicate MainInRange(m: MainPc, n: nat)
  {
    match m
    case Starting(k) => k <= n
    case Putting(k) => k < n
    case _ => true
  }

  /** Steps the main thread has left, counting three for each sentinel it
      has still to put (the put, and the get and task_done of it). */
  function MainWeight(m: MainPc, n: nat): nat
  {
    match m
    case Starting(k) => if k <= n then 5 * (n - k) + 3 else 3
    case Putting(k) => if k < n then 5 * (n - k) + 2 else 2
    case AwaitQueue => 2
    case AwaitWorkers => 1
    case Finished => 0
  }

  /** The main thread can move: starting and putting never block,
      `shared_queue.join()` waits for the unfinished count to be zero,
      and the `t.join()` loop for every worker to have returned. */
  predicate MainReady(m: MainPc, unfinished: nat, ws: seq<Pc>)
  {
    match m
    case Starting(_) => true
    case Putting(_) => true
    case AwaitQueue => unfinished == 0
    case AwaitWorkers => forall j :: 0 <= j < |ws| ==> ws[j].Stopped?
    case Finished => false
  }

  /** One step of the main thread, from pc `m`, queue contents `items` and
      unfinished count `unfinished` and worker states `ws` to `m2`,
      `items2`, `unfinished2` and `ws2`: start worker k (or, once all n are
      started, enter `shared_queue.join()`), put the sentinel that follows
      a start, return from `shared_queue.join()`, return from the
      `t.join()` loop. */
  predicate MainStepRel(n: nat, m: MainPc, items: seq<Item>, unfinished: nat, ws: seq<Pc>,
                        m2: MainPc, items2: seq<Item>, unfinished2: nat, ws2: seq<Pc>)
  {
    match m
    case Starting(k) =>
      items2 == items && unfinished2 == unfinished
      && if k < n then k < |ws| && m2 == Putting(k) && ws2 == ws[k := Started]
         else m2 == AwaitQueue && ws2 == ws
    case Putting(k) =>
      m2 == Starting(k + 1) && items2 == items + [None] && unfinished2 == unfinished + 1 && ws2 == ws
    case AwaitQueue =>
      m2 == AwaitWorkers && items2 == items && unfinished2 == unfinished && ws2 == ws
    case AwaitWorkers =>
      m2 == Finished && items2 == items && unfinished2 == unfinished && ws2 == ws
    case Finished => false
  }

  /** Some thread can take a step. */
  predicate AnyReady(m: MainPc, items: seq<Item>, unfinished: nat, ws: seq<Pc>)
  {
    MainReady(m, unfinished, ws) || exists i :: 0 <= i < |ws| && Ready(ws[i], items)
  }

  function Potential(items: seq<Item>, ws: seq<Pc>, m: MainPc, n: nat): nat
  {
    3 * |items| + Total(ws, Weight) + MainWeight(m, n)
  }

  /** The state of the run between any two steps, in seven parts. */
  ghost predicate Inv(plugin: Plugin, n: nat, items: seq<Item>, unfinished: nat,
                      ws: seq<Pc>, m: MainPc, log: seq<Event>, taken: seq<Item>)
  {
    && Shape(n, ws, m)
    && QueueAccount(plugin.found, n, items, unfinished, ws, m, taken)
    && Retirement(ws, taken)
    && RunAccount(ws, log, taken)
    && InitAccount(ws, log)
    && LogAgreesWithPlugin(plugin, log)
    && RunOrder(ws, log, taken)
  }

  /** `n` workers; exactly those from the start index on are not started;
      once the main thread returns, every worker has returned. */
  ghost predicate Shape(n: nat, ws: seq<Pc>, m: MainPc)
  {
    && |ws| == n
    && MainInRange(m, n)
    && (forall j :: 0 <= j < n ==> (ws[j].NotStarted? <==> j >= StartedCount(m, n)))
    && (m.Finished? ==> forall j :: 0 <= j < n ==> ws[j].Stopped?)
  }

  /** What was taken followed by what is queued is the identifiers in
      order followed by the sentinels put so far; the unfinished count is
      the queue length plus the workers holding an entry, and zero once
      `shared_queue.join()` has returned; with no workers nothing is taken. */
  ghost predicate QueueAccount(found: seq<TestId>, n: nat, items: seq<Item>, unfinished: nat,
                               ws: seq<Pc>, m: MainPc, taken: seq<Item>)
  {
    && taken + items == Queued(found, PutCount(m, n))
    && unfinished == |items| + Total(ws, Holding)
    && (m.AwaitWorkers? || m.Finished? ==> unfinished == 0)
    && (n == 0 ==> taken == [])
  }

  /** Every falsy entry taken has retired exactly one worker. */
  ghost predicate Retirement(ws: seq<Pc>, taken: seq<Item>)
  {
    Total(taken, FalsyItem) == Total(ws, Retired)
  }

  /** The identifiers run, plus those popped and not yet run, are those taken. */
  ghost predicate RunAccount(ws: seq<Pc>, log: seq<Event>, taken: seq<Item>)
  {
    RunCalls(log) + Gather(ws, Unrun) == Gather(taken, ItemIds)
  }

  /** One `init_environment` call per worker that got past it. */
  ghost predicate InitAccount(ws: seq<Pc>, log: seq<Event>)
  {
    Total(log, InitOf) == Total(ws, PastInit)
  }

  /** With a single worker, the identifiers run, followed by the one it has
      popped and not yet run, are those taken, in the order taken. */
  ghost predicate RunOrder(ws: seq<Pc>, log: seq<Event>, taken: seq<Item>)
  {
    |ws| == 1 ==> RunSequence(log) + UnrunList(ws[0]) == Flatten(taken, ItemList)
  }

  ghost predicate LogAgreesWithPlugin(plugin: Plugin, log: seq<Event>)
  {
    forall j :: 0 <= j < |log| ==> AgreesWithPlugin(plugin, log[j])
  }

  // ---- facts about what is queued ----

  lemma {:induction false} WrapIds(ids: seq<TestId>)
    ensures Gather(Wrap(ids), ItemIds) == multiset(ids)
  {
    if ids != [] {
      assert Wrap(ids)[1..] == Wrap(ids[1..]);
      WrapIds(ids[1..]);
      assert ids == [ids[0]] + ids[1..];
    }
  }

  lemma WrapFalsy(ids: seq<TestId>)
    ensures Total(Wrap(ids), FalsyItem) == 0 <==> AllTruthy(ids)
  {
    if AllTruthy(ids) {
      TotalOfZeros(Wrap(ids), FalsyItem);
    } else {
      var j :| 0 <= j < |ids| && !Truthy(ids[j]);
      TotalAtLeast(Wrap(ids), FalsyItem, j);
    }
  }

  lemma {:induction false} WrapList(ids: seq<TestId>)
    ensures Flatten(Wrap(ids), ItemList) == ids
  {
    if ids != [] {
      assert Wrap(ids)[1..] == Wrap(ids[1..]);
      WrapList(ids[1..]);
    }
  }

  lemma {:induction false} SentinelsList(k: nat)
    ensures Flatten(Sentinels(k), ItemList) == []
  {
    if k > 0 {
      FlattenAppend(Sentinels(k - 1), [None], ItemList);
      SentinelsList(k - 1);
      assert Flatten([None], ItemList) == [] + Flatten([None][1..], ItemList);
    }
  }

  /** Read in order, everything queued carries exactly the found
      identifiers in `find`'s order. */
  lemma QueuedList(found: seq<TestId>, k: nat)
    ensures Flatten(Queued(found, k), ItemList) == found
  {
    FlattenAppend(Wrap(found), Sentinels(k), ItemList);
    WrapList(found);
    SentinelsList(k);
  }

  /** Everything queued carries exactly the found identifiers, and exactly
      k falsy entries when every identifier is truthy. */
  lemma QueuedCounts(found: seq<TestId>, k: nat)
    ensures Gather(Queued(found, k), ItemIds) == multiset(found)
    ensures Total(Queued(found, k), FalsyItem) == Total(Wrap(found), FalsyItem) + k
  {
    GatherAppend(Wrap(found), Sentinels(k), ItemIds);
    TotalAppend(Wrap(found), Sentinels(k), FalsyItem);
    WrapIds(found);
    GatherOfEmpties(Sentinels(k), ItemIds);
    TotalOfOnes(Sentinels(k), FalsyItem);
  }

  /** With truthy identifiers, the falsy entries among the first L queued
      are exactly the sentinels among them: every sentinel sits behind
      every identifier. */
  lemma PrefixFalsy(found: seq<TestId>, k: nat, L: nat)
    requires AllTruthy(found) && L <= |found| + k
    ensures Total(Queued(found, k)[..L], FalsyItem) == if L <= |found| then 0 else L - |found|
  {
    var q := Queued(found, k);
    if L <= |found| {
      assert q[..L] == Wrap(found[..L]);
      WrapFalsy(found[..L]);
    } else {
      assert q[..L] == Wrap(found) + Sentinels(L - |found|);
      QueuedCounts(found, L - |found|);
      WrapFalsy(found);
    }
  }

  // ---- the invariant: established, and kept by every step ----

  lemma InitialInv(plugin: Plugin, n: nat, ws: seq<Pc>)
    requires |ws| == n && forall j :: 0 <= j < n ==> ws[j] == NotStarted
    ensures Inv(plugin, n, Wrap(plugin.found), |plugin.found|, ws, Starting(0), [], [])
  {
    TotalOfZeros(ws, Holding);
    TotalOfZeros(ws, Retired);
    TotalOfZeros(ws, PastInit);
    GatherOfEmpties(ws, Unrun);
    assert Queued(plugin.found, 0) == Wrap(plugin.found);
  }

  /** `t.start()` for worker k. */
  lemma StartKeeps(plugin: Plugin, n: nat, items: seq<Item>, unfinished: nat,
                   ws: seq<Pc>, k: nat, log: seq<Event>, taken: seq<Item>)
    requires Inv(plugin, n, items, unfinished, ws, Starting(k), log, taken) && k < n
    ensures Inv(plugin, n, items, unfinished, ws[k := Started], Putting(k), log, taken)
    ensures Potential(items, ws[k := Started], Putting(k), n) < Potential(items, ws, Starting(k), n)
  {
    var ws2 := ws[k := Started];
    assert ws[k] == NotStarted;
    assert Shape(n, ws2, Putting(k));
    assert QueueAccount(plugin.found, n, items, unfinished, ws2, Putting(k), taken) by {
      TotalUpdate(ws, k, Started, Holding);
    }
    assert Retirement(ws2, taken) by {
      TotalUpdate(ws, k, Started, Retired);
    }
    assert RunAccount(ws2, log, taken) by {
      GatherUpdate(ws, k, Started, Unrun);
    }
    assert InitAccount(ws2, log) by {
      TotalUpdate(ws, k, Started, PastInit);
    }
    assert RunOrder(ws2, log, taken);
    TotalUpdate(ws, k, Started, Weight);
  }

  /** `shared_queue.put(None)` after the start of worker k. */
  lemma PutKeeps(plugin: Plugin, n: nat, items: seq<Item>, unfinished: nat,
                 ws: seq<Pc>, k: nat, log: seq<Event>, taken: seq<Item>)
    requires Inv(plugin, n, items, unfinished, ws, Putting(k), log, taken)
    ensures Inv(plugin, n, items + [None], unfinished + 1, ws, Starting(k + 1), log, taken)
    ensures Potential(items + [None], ws, Starting(k + 1), n) < Potential(items, ws, Putting(k), n)
  {
    assert Sentinels(k + 1) == Sentinels(k) + [None];
    assert taken + (items + [None]) == (taken + items) + [None];
    assert Queued(plugin.found, k + 1) == Queued(plugin.found, k) + [None];
  }

  // Each part of the invariant survives a change of worker i to w2 that
  // moves `extra` from the head of the queue to `taken` and appends `e` to
  // the log, given how the worker's own measures change.

  lemma ShapeKept(n: nat, ws: seq<Pc>, m: MainPc, i: nat, w2: Pc)
    requires Shape(n, ws, m) && i < |ws|
    requires !ws[i].NotStarted? && !ws[i].Stopped? && !w2.NotStarted?
    ensures Shape(n, ws[i := w2], m)
  {
  }

  lemma QueueKept(found: seq<TestId>, n: nat, items: seq<Item>, unfinished: nat,
                  ws: seq<Pc>, m: MainPc, taken: seq<Item>,
                  i: nat, w2: Pc, extra: seq<Item>, items2: seq<Item>, unfinished2: nat)
    requires QueueAccount(found, n, items, unfinished, ws, m, taken) && |ws| == n && i < n
    requires extra + items2 == items && unfinished2 <= unfinished
    requires unfinished2 + Holding(ws[i]) + |extra| == unfinished + Holding(w2)
    ensures QueueAccount(found, n, items2, unfinished2, ws[i := w2], m, taken + extra)
  {
    TotalUpdate(ws, i, w2, Holding);
    assert (taken + extra) + items2 == taken + items;
  }

  lemma RetirementKept(ws: seq<Pc>, taken: seq<Item>, i: nat, w2: Pc, extra: seq<Item>)
    requires Retirement(ws, taken) && i < |ws|
    requires Retired(w2) == Retired(ws[i]) + Total(extra, FalsyItem)
    ensures Retirement(ws[i := w2], taken + extra)
  {
    TotalUpdate(ws, i, w2, Retired);
    TotalAppend(taken, extra, FalsyItem);
  }

  lemma RunAccountKept(ws: seq<Pc>, log: seq<Event>, taken: seq<Item>,
                       i: nat, w2: Pc, e: seq<Event>, extra: seq<Item>)
    requires RunAccount(ws, log, taken) && i < |ws|
    requires Unrun(w2) + RunCalls(e) == Unrun(ws[i]) + Gather(extra, ItemIds)
    ensures RunAccount(ws[i := w2], log + e, taken + extra)
  {
    GatherUpdate(ws, i, w2, Unrun);
    GatherAppend(log, e, RunOf);
    GatherAppend(taken, extra, ItemIds);
    Rebalance(RunCalls(log), RunCalls(e), Gather(ws, Unrun), Gather(ws[i := w2], Unrun),
              Gather(taken, ItemIds), Gather(extra, ItemIds), Unrun(ws[i]), Unrun(w2));
  }

  /** The sequence algebra behind `RunOrderKept`. */
  lemma Reorder<U>(l: seq<U>, e: seq<U>, u: seq<U>, u2: seq<U>, t: seq<U>, x: seq<U>)
    requires l + u == t && e + u2 == u + x
    ensures (l + e) + u2 == t + x
  {
    calc {
      (l + e) + u2;
      l + (e + u2);
      l + (u + x);
      (l + u) + x;
    }
  }

  /** The multiset algebra behind `RunAccountKept`. */
  lemma Rebalance<U>(r: multiset<U>, e: multiset<U>, g: multiset<U>, g2: multiset<U>,
                     t: multiset<U>, x: multiset<U>, a: multiset<U>, b: multiset<U>)
    requires g2 + a == g + b && b + e == a + x && r + g == t
    ensures r + e + g2 == t + x
  {
    calc {
      r + e + g2 + a;
      r + e + (g2 + a);
      r + e + (g + b);
      (r + g) + (b + e);
      t + (a + x);
      t + x + a;
    }
    assert forall y :: (r + e + g2)[y] == (t + x)[y] by {
      forall y
        ensures (r + e + g2)[y] == (t + x)[y]
      {
        assert (r + e + g2 + a)[y] == (t + x + a)[y];
      }
    }
  }

  lemma InitAccountKept(ws: seq<Pc>, log: seq<Event>, i: nat, w2: Pc, e: seq<Event>)
    requires InitAccount(ws, log) && i < |ws|
    requires PastInit(w2) == PastInit(ws[i]) + Total(e, InitOf)
    ensures InitAccount(ws[i := w2], log + e)
  {
    TotalUpdate(ws, i, w2, PastInit);
    TotalAppend(log, e, InitOf);
  }

  lemma LogKept(plugin: Plugin, log: seq<Event>, e: seq<Event>)
    requires LogAgreesWithPlugin(plugin, log)
    requires forall j :: 0 <= j < |e| ==> AgreesWithPlugin(plugin, e[j])
    ensures LogAgreesWithPlugin(plugin, log + e)
  {
  }

  lemma RunOrderKept(ws: seq<Pc>, log: seq<Event>, taken: seq<Item>,
                     i: nat, w2: Pc, e: seq<Event>, extra: seq<Item>)
    requires RunOrder(ws, log, taken) && i < |ws|
    requires RunSequence(e) + UnrunList(w2) == UnrunList(ws[i]) + Flatten(extra, ItemList)
    ensures RunOrder(ws[i := w2], log + e, taken + extra)
  {
    if |ws| == 1 {
      assert i == 0 && ws[i := w2][0] == w2;
      FlattenAppend(log, e, RunListOf);
      FlattenAppend(taken, extra, ItemList);
      Reorder(RunSequence(log), RunSequence(e), UnrunList(ws[i]), UnrunList(w2),
              Flatten(taken, ItemList), Flatten(extra, ItemList));
    }
  }

  lemma PotentialDrops(items: seq<Item>, ws: seq<Pc>, m: MainPc, n: nat,
                       i: nat, w2: Pc, items2: seq<Item>)
    requires i < |ws| && 3 * |items2| + Weight(w2) < 3 * |items| + Weight(ws[i])
    ensures Potential(items2, ws[i := w2], m, n) < Potential(items, ws, m, n)
  {
    TotalUpdate(ws, i, w2, Weight);
  }

  /** How one step changes a worker's own measures, when it moves from `w`
      to `w2`, takes `extra` from the head of the queue (`items` to
      `items2`), takes the unfinished count from `unfinished` to
      `unfinished2` and makes the calls `e`. */
  ghost predicate Move(plugin: Plugin, w: Pc, w2: Pc, extra: seq<Item>, items: seq<Item>,
                       items2: seq<Item>, unfinished: nat, unfinished2: nat, e: seq<Event>)
  {
    && !w.NotStarted? && !w.Stopped? && !w2.NotStarted?
    && extra + items2 == items && unfinished2 <= unfinished
    && unfinished2 + Holding(w) + |extra| == unfinished + Holding(w2)
    && Retired(w2) == Retired(w) + Total(extra, FalsyItem)
    && Unrun(w2) + RunCalls(e) == Unrun(w) + Gather(extra, ItemIds)
    && PastInit(w2) == PastInit(w) + Total(e, InitOf)
    && RunSequence(e) + UnrunList(w2) == UnrunList(w) + Flatten(extra, ItemList)
    && (forall j :: 0 <= j < |e| ==> AgreesWithPlugin(plugin, e[j]))
    && 3 * |items2| + Weight(w2) < 3 * |items| + Weight(w)
  }

  /** Every step `Step` can take is such a move, provided a worker about to
      call `task_done` finds its entry still unfinished. */
  lemma StepIsMove(plugin: Plugin, w: Pc, items: seq<Item>, unfinished: nat,
                   w2: Pc, items2: seq<Item>, unfinished2: nat, e: seq<Event>)
    requires Ready(w, items) && StepRel(plugin, w, items, unfinished, w2, items2, unfinished2, e)
    requires w.Processed? ==> unfinished > 0
    ensures Move(plugin, w, w2, if w.AtLoop? then [items[0]] else [], items, items2,
                 unfinished, unfinished2, e)
  {
    match w
    case Started =>
      InitIsMove(plugin, items, unfinished);
    case AtLoop =>
      GetIsMove(plugin, items, unfinished);
    case Taken(x) =>
      ProcessIsMove(plugin, x, items, unfinished);
    case Processed(x) =>
      TaskDoneIsMove(plugin, x, items, unfinished);
  }

  lemma InitIsMove(plugin: Plugin, items: seq<Item>, unfinished: nat)
    ensures Move(plugin, Started, AtLoop, [], items, items, unfinished, unfinished, [InitEnvironment(1)])
  {
    Singletons(InitEnvironment(1), InitOf, RunOf, RunListOf);
  }

  lemma GetIsMove(plugin: Plugin, items: seq<Item>, unfinished: nat)
    requires items != []
    ensures Move(plugin, AtLoop, Taken(items[0]), [items[0]], items, items[1..], unfinished, unfinished, [])
  {
    Singletons(items[0], FalsyItem, ItemIds, ItemList);
    assert [items[0]] + items[1..] == items;
  }

  lemma ProcessIsMove(plugin: Plugin, x: Item, items: seq<Item>, unfinished: nat)
    ensures Move(plugin, Taken(x), Processed(x), [], items, items, unfinished, unfinished,
                 Workers.Process(plugin, x))
  {
    if x.Some? {
      Singletons(Run(x.value, plugin.fails(x.value)), InitOf, RunOf, RunListOf);
    }
  }

  lemma TaskDoneIsMove(plugin: Plugin, x: Item, items: seq<Item>, unfinished: nat)
    requires unfinished > 0
    ensures Move(plugin, Processed(x), if ItemTruthy(x) then AtLoop else Stopped, [], items, items,
                 unfinished, unfinished - 1, [])
  {
  }

  /** One step of worker i, as `Step` takes it, keeps the invariant and
      lowers the potential. */
  lemma WorkerStepKeeps(plugin: Plugin, n: nat, items: seq<Item>, unfinished: nat,
                        ws: seq<Pc>, m: MainPc, log: seq<Event>, taken: seq<Item>,
                        i: nat, w2: Pc, items2: seq<Item>, unfinished2: nat, events: seq<Event>)
    requires Inv(plugin, n, items, unfinished, ws, m, log, taken)
    requires i < |ws| && Ready(ws[i], items)
    requires StepRel(plugin, ws[i], items, unfinished, w2, items2, unfinished2, events)
    ensures Inv(plugin, n, items2, unfinished2, ws[i := w2], m, log + events,
                if ws[i].AtLoop? then taken + [items[0]] else taken)
    ensures Potential(items2, ws[i := w2], m, n) < Potential(items, ws, m, n)
  {
    var extra: seq<Item> := if ws[i].AtLoop? then [items[0]] else [];
    if ws[i].Processed? {
      // the entry is still unfinished, so `task_done` does not raise
      TotalAtLeast(ws, Holding, i);
    }
    StepIsMove(plugin, ws[i], items, unfinished, w2, items2, unfinished2, events);
    StepKeeps(plugin, n, items, unfinished, ws, m, log, taken, i, w2, extra, items2, unfinished2, events);
    assert taken + extra == if ws[i].AtLoop? then taken + [items[0]] else taken;
  }

  /** The parts combined: a move of worker i keeps the invariant and
      lowers the potential. */
  lemma StepKeeps(plugin: Plugin, n: nat, items: seq<Item>, unfinished: nat,
                  ws: seq<Pc>, m: MainPc, log: seq<Event>, taken: seq<Item>,
                  i: nat, w2: Pc, extra: seq<Item>, items2: seq<Item>, unfinished2: nat, e: seq<Event>)
    requires Inv(plugin, n, items, unfinished, ws, m, log, taken) && i < |ws|
    requires Move(plugin, ws[i], w2, extra, items, items2, unfinished, unfinished2, e)
    ensures Inv(plugin, n, items2, unfinished2, ws[i := w2], m, log + e, taken + extra)
    ensures Potential(items2, ws[i := w2], m, n) < Potential(items, ws, m, n)
  {
    ShapeKept(n, ws, m, i, w2);
    QueueKept(plugin.found, n, items, unfinished, ws, m, taken, i, w2, extra, items2, unfinished2);
    RetirementKept(ws, taken, i, w2, extra);
    RunAccountKept(ws, log, taken, i, w2, e, extra);
    InitAccountKept(ws, log, i, w2, e);
    LogKept(plugin, log, e);
    RunOrderKept(ws, log, taken, i, w2, e, extra);
    PotentialDrops(items, ws, m, n, i, w2, items2);
  }

  // ---- when no thread can move ----

  /** With truthy identifiers, and at least one environment whenever there
      is something to run, the threads never all block before the main
      thread returns. */
  lemma CondMeansProgress(plugin: Plugin, environments: nat, n: nat, items: seq<Item>,
                          unfinished: nat, ws: seq<Pc>, m: MainPc, log: seq<Event>, taken: seq<Item>)
    requires Inv(plugin, n, items, unfinished, ws, m, log, taken)
    requires n == Min(environments, |plugin.found|)
    requires AllTruthy(plugin.found) && (plugin.found == [] || environments > 0)
    ensures m.Finished? || AnyReady(m, items, unfinished, ws)
  {
    match m
    case Starting(_) =>
    case Putting(_) =>
    case Finished =>
    case AwaitWorkers =>
      JoinedWorkersStopped(plugin, n, items, unfinished, ws, log, taken);
    case AwaitQueue =>
      if unfinished > 0 {
        var j := WaitingQueueMoves(plugin, environments, n, items, unfinished, ws, log, taken);
      }
  }

  /** Once `shared_queue.join()` has returned, every worker has taken its
      sentinel, done its `task_done` and returned, so the `t.join()` loop
      does not wait. */
  lemma JoinedWorkersStopped(plugin: Plugin, n: nat, items: seq<Item>, unfinished: nat,
                             ws: seq<Pc>, log: seq<Event>, taken: seq<Item>)
    requires Inv(plugin, n, items, unfinished, ws, AwaitWorkers, log, taken)
    ensures forall j :: 0 <= j < |ws| ==> ws[j].Stopped?
  {
    assert taken == Queued(plugin.found, n);
    QueuedCounts(plugin.found, n);
    TotalAtMostLength(ws, Retired);
    forall j | 0 <= j < n
      ensures ws[j].Stopped?
    {
      TotalFull(ws, Retired, j);
      TotalAtLeast(ws, Holding, j);
    }
  }

  /** With truthy identifiers, and an environment whenever there is work,
      some worker can move while `shared_queue.join()` waits with tasks
      unfinished: one holding an entry, or, when the queue is not empty,
      one that has not taken a falsy entry yet. */
  lemma WaitingQueueMoves(plugin: Plugin, environments: nat, n: nat, items: seq<Item>,
                          unfinished: nat, ws: seq<Pc>, log: seq<Event>, taken: seq<Item>)
    returns (j: nat)
    requires Inv(plugin, n, items, unfinished, ws, AwaitQueue, log, taken)
    requires n == Min(environments, |plugin.found|)
    requires AllTruthy(plugin.found) && (plugin.found == [] || environments > 0)
    requires unfinished > 0
    ensures j < |ws| && Ready(ws[j], items)
  {
    if items == [] {
      j := TotalPositive(ws, Holding);
    } else {
      var q := Queued(plugin.found, n);
      assert |taken| < |q| && taken == q[..|taken|];
      PrefixFalsy(plugin.found, n, |taken|);
      j := TotalShort(ws, Retired);
    }
  }

  /** Conversely, the main thread returns only if every identifier is
      truthy and there is at least one environment whenever there is
      something to run. */
  lemma FinishedMeansCond(plugin: Plugin, environments: nat, n: nat, items: seq<Item>,
                          unfinished: nat, ws: seq<Pc>, log: seq<Event>, taken: seq<Item>)
    requires Inv(plugin, n, items, unfinished, ws, Finished, log, taken)
    requires n == Min(environments, |plugin.found|)
    ensures AllTruthy(plugin.found)
    ensures plugin.found == [] || environments > 0
  {
    var found := plugin.found;
    assert taken == Queued(found, n);
    assert |taken| == |found| + n;
    QueuedCounts(found, n);
    TotalAtMostLength(ws, Retired);
    WrapFalsy(found);
  }

  /** When the main thread returns, every entry was taken, each found
      identifier was run once per occurrence, every worker made its
      `init_environment` call and returned. */
  lemma FinishedOutcome(plugin: Plugin, n: nat, items: seq<Item>, unfinished: nat,
                        ws: seq<Pc>, log: seq<Event>, taken: seq<Item>)
    requires Inv(plugin, n, items, unfinished, ws, Finished, log, taken)
    ensures items == [] && taken == Queued(plugin.found, n)
    ensures RunCalls(log) == multiset(plugin.found)
    ensures Total(log, InitOf) == n
  {
    assert taken == Queued(plugin.found, n);
    QueuedCounts(plugin.found, n);
    GatherOfEmpties(ws, Unrun);
    TotalOfOnes(ws, PastInit);
  }

  /** At any point, only found identifiers have been run, and each at most
      as often as `find` yielded it. */
  lemma RunsWithinFound(plugin: Plugin, n: nat, items: seq<Item>, unfinished: nat,
                        ws: seq<Pc>, m: MainPc, log: seq<Event>, taken: seq<Item>)
    requires Inv(plugin, n, items, unfinished, ws, m, log, taken)
    ensures RunCalls(log) <= multiset(plugin.found)
  {
    GatherAppend(taken, items, ItemIds);
    QueuedCounts(plugin.found, PutCount(m, n));
  }

  /** With a single worker, the identifiers run so far are a prefix of
      what `find` yielded, in its order; once the main thread returns they
      are all of it. */
  lemma SingleWorkerOrder(plugin: Plugin, items: seq<Item>, unfinished: nat,
                          ws: seq<Pc>, m: MainPc, log: seq<Event>, taken: seq<Item>)
    requires Inv(plugin, 1, items, unfinished, ws, m, log, taken)
    ensures RunSequence(log) <= plugin.found
    ensures m.Finished? ==> RunSequence(log) == plugin.found
  {
    SingleWorkerSplit(plugin.found, items, unfinished, ws, m, log, taken);
    var rest := UnrunList(ws[0]) + Flatten(items, ItemList);
    assert plugin.found == RunSequence(log) + rest;
    if m.Finished? {
      assert ws[0].Stopped? && items == [];
      assert rest == [];
    }
  }

  /** With a single worker, `find`'s output is split, in order, into what
      was run, what the worker holds and what is still queued. */
  lemma SingleWorkerSplit(found: seq<TestId>, items: seq<Item>, unfinished: nat,
                          ws: seq<Pc>, m: MainPc, log: seq<Event>, taken: seq<Item>)
    requires |ws| == 1 && QueueAccount(found, 1, items, unfinished, ws, m, taken)
    requires RunOrder(ws, log, taken)
    ensures found == RunSequence(log) + (UnrunList(ws[0]) + Flatten(items, ItemList))
  {
    var t, c := Flatten(taken, ItemList), Flatten(items, ItemList);
    assert t + c == found by {
      FlattenAppend(taken, items, ItemList);
      QueuedList(found, PutCount(m, 1));
    }
    Reorder(RunSequence(log), [], UnrunList(ws[0]), UnrunList(ws[0]) + c, t, c);
    assert RunSequence(log) + [] == RunSequence(log);
  }

  // ---- the run ----

  /** `for tid in self.plugin.find(...)`: put every identifier, counting them. */
  method FillQueue(q: SharedQueue<Item>, found: seq<TestId>) returns (tids: nat)
    requires q.Valid() && q.items == [] && q.unfinished == 0
    modifies q
    ensures q.Valid()
    ensures q.items == Wrap(found) && q.unfinished == |found|
    ensures tids == |found|
  {
    tids := 0;
    for i := 0 to |found|
      invariant q.Valid()
      invariant q.items == Wrap(found[..i]) && q.unfinished == i && tids == i
    {
      assert Wrap(found[..i + 1]) == Wrap(found[..i]) + [Some(found[i])];
      q.Put(Some(found[i]));
      tids := tids + 1;
    }
    assert found[..|found|] == found;
  }

  /** The worker objects, created and not started. */
  method NewWorkers(count: nat) returns (workers: seq<Pc>)
    ensures |workers| == count
    ensures forall j :: 0 <= j < count ==> workers[j] == NotStarted
  {
    workers := [];
    for i := 0 to count
      invariant |workers| == i && forall j :: 0 <= j < i ==> workers[j] == NotStarted
    {
      workers := workers + [NotStarted];
    }
  }

  /** One step of the main thread: `t.start()`, `shared_queue.put(None)`,
      the return of `shared_queue.join()` or of the `t.join()` loop. */
  method MainStep(plugin: Plugin, n: nat, q: SharedQueue<Item>, ws: seq<Pc>, m: MainPc,
                  log: seq<Event>, taken: seq<Item>) returns (ws2: seq<Pc>, m2: MainPc)
    requires q.Valid() && Inv(plugin, n, q.items, q.unfinished, ws, m, log, taken)
    requires MainReady(m, q.unfinished, ws)
    modifies q
    ensures q.Valid() && Inv(plugin, n, q.items, q.unfinished, ws2, m2, log, taken)
    ensures MainStepRel(n, m, old(q.items), old(q.unfinished), ws, m2, q.items, q.unfinished, ws2)
    ensures Potential(q.items, ws2, m2, n) < Potential(old(q.items), ws, m, n)
  {
    ws2 := ws;
    match m
    case Starting(k) =>
      if k < n {
        StartKeeps(plugin, n, q.items, q.unfinished, ws, k, log, taken);
        ws2, m2 := ws[k := Started], Putting(k);
      } else {
        m2 := AwaitQueue;
      }
    case Putting(k) =>
      PutKeeps(plugin, n, q.items, q.unfinished, ws, k, log, taken);
      q.Put(None);
      m2 := Starting(k + 1);
    case AwaitQueue =>
      m2 := AwaitWorkers;
    case AwaitWorkers =>
      m2 := Finished;
  }

  /** One step of worker a, with its calls appended to the log and the
      entry it takes, if any, to `taken`. */
  method WorkerStep(plugin: Plugin, n: nat, q: SharedQueue<Item>, ws: seq<Pc>, m: MainPc,
                    log: seq<Event>, taken: seq<Item>, a: nat)
    returns (ws2: seq<Pc>, log2: seq<Event>, taken2: seq<Item>)
    requires q.Valid() && Inv(plugin, n, q.items, q.unfinished, ws, m, log, taken)
    requires a < |ws| && Ready(ws[a], q.items)
    modifies q
    ensures q.Valid() && Inv(plugin, n, q.items, q.unfinished, ws2, m, log2, taken2)
    ensures |ws2| == |ws| && ws2 == ws[a := ws2[a]]
    ensures |log2| >= |log| && log2[..|log|] == log
    ensures StepRel(plugin, ws[a], old(q.items), old(q.unfinished), ws2[a], q.items, q.unfinished,
                    log2[|log|..])
    ensures taken2 == if ws[a].AtLoop? then taken + [old(q.items)[0]] else taken
    ensures Potential(q.items, ws2, m, n) < Potential(old(q.items), ws, m, n)
  {
    ghost var items0, unfinished0 := q.items, q.unfinished;
    var w := ws[a];
    var w2, events := Step(w, q, plugin);
    WorkerStepKeeps(plugin, n, items0, unfinished0, ws, m, log, taken,
                    a, w2, q.items, q.unfinished, events);
    taken2 := if w.AtLoop? then taken + [w2.item] else taken;
    ws2, log2 := ws[a := w2], log + events;
    assert log2[..|log|] == log && log2[|log|..] == events;
  }

  /** The `run` action of `process`, for a plugin whose `find` yields
      `plugin.found` and a configured number of environments. Returns the
      number of identifiers found, the number of workers created, the
      entries the workers took in the order they took them, what is left
      in the queue, the final worker states, every call made into the
      plugin, and whether `process` returned (both joins completed)
      rather than blocking forever. */
  method Process(plugin: Plugin, environments: nat)
    returns (tids: nat, workerCount: nat, taken: seq<Item>, remaining: seq<Item>,
             workers: seq<Pc>, log: seq<Event>, completed: bool)
    ensures tids == |plugin.found|
    ensures workerCount == Min(environments, tids) && |workers| == workerCount
    ensures taken + remaining == Wrap(plugin.found) + Sentinels(workerCount)
    ensures RunCalls(log) <= multiset(plugin.found)
    ensures forall j :: 0 <= j < |log| ==> AgreesWithPlugin(plugin, log[j])
    ensures completed <==> AllTruthy(plugin.found) && (plugin.found == [] || environments > 0)
    ensures completed ==> remaining == [] && RunCalls(log) == multiset(plugin.found)
    ensures completed ==> Total(log, InitOf) == workerCount
    ensures completed ==> forall j :: 0 <= j < workerCount ==> workers[j].Stopped?
    ensures workerCount == 1 ==> RunSequence(log) <= plugin.found
    ensures completed && workerCount == 1 ==> RunSequence(log) == plugin.found
  {
    var q := new SharedQueue<Item>();
    var found := plugin.found;
    tids := FillQueue(q, found);
    workerCount := Min(environments, tids);
    workers := NewWorkers(workerCount);

    var main := Starting(0);
    log, taken := [], [];
    InitialInv(plugin, workerCount, workers);
    while AnyReady(main, q.items, q.unfinished, workers)
      invariant q.Valid()
      invariant Inv(plugin, workerCount, q.items, q.unfinished, workers, main, log, taken)
      decreases Potential(q.items, workers, main, workerCount)
    {
      var a :| 0 <= a <= |workers| &&
        if a == |workers| then MainReady(main, q.unfinished, workers) else Ready(workers[a], q.items);
      if a == |workers| {
        workers, main := MainStep(plugin, workerCount, q, workers, main, log, taken);
      } else {
        workers, log, taken := WorkerStep(plugin, workerCount, q, workers, main, log, taken, a);
      }
    }

    remaining := q.items;
    completed := main.Finished?;
    if AllTruthy(found) && (found == [] || environments > 0) {
      CondMeansProgress(plugin, environments, workerCount, q.items, q.unfinished, workers, main, log, taken);
    }
    if completed {
      FinishedMeansCond(plugin, environments, workerCount, q.items, q.unfinished, workers, log, taken);
      FinishedOutcome(plugin, workerCount, q.items, q.unfinished, workers, log, taken);
    }
    RunsWithinFound(plugin, workerCount, q.items, q.unfinished, workers, main, log, taken);
    if workerCount == 1 {
      SingleWorkerOrder(plugin, q.items, q.unfinished, workers, main, log, taken);
    }
  }

  // ---- the bundled dummy plugins ----

  /** The dummy plugin: `find` yields 'foo', 'bar', 'bazz' and `run` never
      raises. With the default of five environments the run creates three
      workers, completes, runs each identifier once and logs no failure. */
  method DummyRun() returns (workerCount: nat, log: seq<Event>, completed: bool)
    ensures completed && workerCount == 3
    ensures RunCalls(log) == multiset{"foo", "bar", "bazz"}
    ensures Total(log, InitOf) == 3
    ensures forall j :: 0 <= j < |log| && log[j].Run? ==> !log[j].raised
  {
    var plugin := Plugin(["foo", "bar", "bazz"], tid => false);
    assert AllTruthy(plugin.found);
    var tids, taken, remaining, workers;
    tids, workerCount, taken, remaining, workers, log, completed := Process(plugin, 5);
  }

  /** The variant whose `run` raises for 'bazz': with two environments the
      run still completes and runs all three identifiers, and a failure is
      logged exactly for the 'bazz' run. */
  method FailingDummyRun() returns (workerCount: nat, log: seq<Event>, completed: bool)
    ensures completed && workerCount == 2
    ensures RunCalls(log) == multiset{"foo", "bar", "bazz"}
    ensures forall j :: 0 <= j < |log| && log[j].Run? ==> (log[j].raised <==> log[j].tid == "bazz")
  {
    var plugin := Plugin(["foo", "bar", "bazz"], tid => tid == "bazz");
    assert AllTruthy(plugin.found);
    var tids, taken, remaining, workers;
    tids, workerCount, taken, remaining, workers, log, completed := Process(plugin, 2);
  }
}
