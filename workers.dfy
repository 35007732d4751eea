/** One worker thread (`Worker` in the program). Its `run` loop is cut
    into the atomic steps another thread can interleave with: the
    `init_environment` call, one `get`, one `process`, one `task_done`
    followed by the loop test. */
module Workers {
  import opened Plugins
  import opened WorkQueue

  /** Where the thread is in `Worker.run`; `Taken` and `Processed` carry
      the local `item`. */
  datatype Pc =
    | NotStarted          // created, `start` not yet called
    | Started             // running, before `init_environment`
    | AtLoop              // about to `get` (the loop test just passed)
    | Taken(item: Item)   // `get` returned `item`
    | Processed(item: Item)  // `process(item)` returned
    | Stopped             // `run` returned

  /** `Worker.process`: the calls one queue entry leads to. The sentinel
      leads to none; an identifier to exactly one `run` call, whose failure
      is caught and logged. */
  function Process(plugin: Plugin, item: Item): (events: seq<Event>)
    ensures item.None? ==> events == []
    ensures item.Some? ==> |events| == 1 && events[0].Run? && events[0].tid == item.value
    ensures forall j :: 0 <= j < |events| ==> AgreesWithPlugin(plugin, events[j])
  {
    match item
    case None => []
    case Some(tid) => [Run(tid, plugin.fails(tid))]
  }

  /** A thread can take its next step: it has been started and has not
      returned, and a `get` waits while the queue is empty. */
  predicate Ready(w: Pc, queued: seq<Item>)
  {
    match w
    case NotStarted => false
    case Started => true
    case AtLoop => queued != []
    case Taken(_) => true
    case Processed(_) => true
    case Stopped => false
  }

  /** One step of `Worker.run`, from thread state `w` and queue contents and
      unfinished count (`items`, `unfinished`) to `w2`, `items2`,
      `unfinished2`, with the plugin calls made on the way. */
  predicate StepRel(plugin: Plugin, w: Pc, items: seq<Item>, unfinished: nat,
                    w2: Pc, items2: seq<Item>, unfinished2: nat, events: seq<Event>)
  {
    match w
    case Started =>
      w2 == AtLoop && events == [InitEnvironment(1)]
      && items2 == items && unfinished2 == unfinished
    case AtLoop =>
      items != [] && w2 == Taken(items[0]) && events == []
      && items2 == items[1..] && unfinished2 == unfinished
    case Taken(item) =>
      w2 == Processed(item) && events == Process(plugin, item)
      && items2 == items && unfinished2 == unfinished
    case Processed(item) =>
      events == [] && items2 == items
      && if unfinished > 0 then
           unfinished2 == unfinished - 1 && w2 == (if ItemTruthy(item) then AtLoop else Stopped)
         else
           // task_done raised: the exception ends the thread
           unfinished2 == unfinished && w2 == Stopped
    case NotStarted => false
    case Stopped => false
  }

  /** Runs one step of the thread in state `w` against the shared queue. */
  method Step(w: Pc, q: SharedQueue<Item>, plugin: Plugin) returns (w2: Pc, events: seq<Event>)
    requires q.Valid() && Ready(w, q.items)
    modifies q
    ensures q.Valid()
    ensures StepRel(plugin, w, old(q.items), old(q.unfinished), w2, q.items, q.unfinished, events)
  {
    match w
    case Started =>
      // self.plugin.init_environment(1)
      w2, events := AtLoop, [InitEnvironment(1)];
    case AtLoop =>
      var item := q.Get();
      w2, events := Taken(item), [];
    case Taken(item) =>
      events := Process(plugin, item);
      w2 := Processed(item);
    case Processed(item) =>
      var raised := q.TaskDone();
      events := [];
      w2 := if raised || !ItemTruthy(item) then Stopped else AtLoop;
  }
}
