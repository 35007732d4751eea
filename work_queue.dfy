/** The shared FIFO queue of the run: Python's `queue.Queue` as the program
    uses it, with its count of unfinished tasks (raised by `put`, lowered by
    `task_done`, awaited by `join`, which returns once it is zero). Blocking
    is not modelled here: a `get` on an empty queue, or a `join` with tasks
    unfinished, is simply never scheduled by the caller. */
module WorkQueue {

  class SharedQueue<T> {
    /** Entries put and not yet taken, oldest first. */
    var items: seq<T>
    /** Python's `unfinished_tasks`. */
    var unfinished: nat
    /** How many times `put` and `task_done` (the successful ones) were called. */
    ghost var puts: nat
    ghost var dones: nat

    /** The unfinished count is always puts minus task_done calls. */
    ghost predicate Valid()
      reads this
    {
      unfinished + dones == puts
    }

    constructor ()
      ensures Valid()
      ensures items == [] && unfinished == 0 && puts == 0 && dones == 0
    {
      items := [];
      unfinished := 0;
      puts := 0;
      dones := 0;
    }

    /** `put`: append at the tail and count one more unfinished task. */
    method Put(x: T)
      requires Valid()
      modifies this
      ensures Valid()
      ensures items == old(items) + [x]
      ensures unfinished == old(unfinished) + 1
      ensures puts == old(puts) + 1 && dones == old(dones)
    {
      items := items + [x];
      unfinished := unfinished + 1;
      puts := puts + 1;
    }

    /** `get` on a non-empty queue: remove and return the head; the entry
        stays unfinished until `task_done`. */
    method Get() returns (x: T)
      requires Valid()
      requires items != []
      modifies this
      ensures Valid()
      ensures x == old(items)[0] && items == old(items)[1..]
      ensures unfinished == old(unfinished)
      ensures puts == old(puts) && dones == old(dones)
    {
      x := items[0];
      items := items[1..];
    }

    /** `task_done`: one fewer unfinished task; with none left it raises
        ValueError instead (reported as `raised`) and changes nothing. */
    method TaskDone() returns (raised: bool)
      requires Valid()
      modifies this
      ensures Valid()
      ensures raised <==> old(unfinished) == 0
      ensures items == old(items)
      ensures unfinished == if raised then old(unfinished) else old(unfinished) - 1
      ensures puts == old(puts)
    {
      raised := unfinished == 0;
      if !raised {
        unfinished := unfinished - 1;
        dones := dones + 1;
      }
    }
  }
}
