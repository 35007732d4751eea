/** What the scheduler sees of a test plugin, of the queue entries and of
    the calls it makes into the plugin. */
module Plugins {

  datatype Option<+T> = None | Some(value: T)

  /** A test identifier as `find` yields it. */
  type TestId = string

  /** Python truthiness of an identifier: only the empty string is falsy. */
  predicate Truthy(tid: TestId)
  {
    tid != ""
  }

  /** A queue entry: a test identifier, or `None`, the stop sentinel. */
  type Item = Option<TestId>

  /** Python truthiness of a queue entry, as `while item:` tests it. */
  predicate ItemTruthy(item: Item)
  {
    item.Some? && Truthy(item.value)
  }

  predicate AllTruthy(ids: seq<TestId>)
  {
    forall i :: 0 <= i < |ids| ==> Truthy(ids[i])
  }

  /** The plugin object: what its `find` yields for the configured path, in
      order, and which identifiers make its `run` raise. */
  datatype Plugin = Plugin(found: seq<TestId>, fails: TestId -> bool)

  /** A call a worker makes into the plugin: `init_environment(arg)`, or
      `run(tid)`, with `raised` set when `run` raised and the exception was
      logged. */
  datatype Event = InitEnvironment(arg: int) | Run(tid: TestId, raised: bool)

  /** Every `init_environment` call passes 1, and a failure is logged for a
      `run` call exactly when the plugin fails on that identifier. */
  predicate AgreesWithPlugin(plugin: Plugin, e: Event)
  {
    match e
    case InitEnvironment(arg) => arg == 1
    case Run(tid, raised) => raised == plugin.fails(tid)
  }
}
