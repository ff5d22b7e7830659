/**
 * The plugin gateway: the runtime's only way to learn of external inputs.
 * The interface has two implementations, the in-memory test double and the
 * file-queue gateway; `PluginGateway` is the choice between them.
 */
module PluginGateways {
  import opened Wrappers
  import opened ExternalInputs
  import opened JsonLines
  import opened FileInputQueues
  import opened FileQueueGateways

  /** The in-memory test double: inputs queued in a list. */
  class FakePluginGateway {
    var queued: seq<ExternalInput>

    constructor (queued: seq<ExternalInput>)
      ensures this.queued == queued
    {
      this.queued := queued;
    }

    /**
     * `pull_inputs()`: hands over a copy of everything queued, in order, and
     * empties the queue, so a second pull with nothing newly queued returns [].
     */
    method PullInputs() returns (items: seq<ExternalInput>)
      modifies this
      ensures items == old(queued) && queued == []
    {
      items := queued;
      queued := [];
    }
  }

  datatype PluginGateway =
    | Fake(fake: FakePluginGateway)
    | FileQueue(fileQueue: FileQueueGateway)
  {
    /** The object a pull changes. */
    function Repr(): set<object> {
      match this
      case Fake(f) => {f}
      case FileQueue(q) => {q}
    }

    /** A pull can read every queue line from the cursor on. */
    predicate CanPull()
      reads Repr(), if FileQueue? then {fileQueue.queue} else {}
    {
      FileQueue? ==> EachRecord(From(fileQueue.queue.Lines(), fileQueue.cursor), WellFormedInput)
    }

    /** The inputs the next pull hands over, in order. */
    function Pending(): seq<ExternalInput>
      requires CanPull()
      reads Repr(), if FileQueue? then {fileQueue.queue} else {}
    {
      match this
      case Fake(f) => f.queued
      case FileQueue(q) => ReadSinceResult(q.queue.file, q.cursor).0
    }
  }

  /**
   * `gateway.pull_inputs()`, dispatched on the implementation: it returns what
   * was pending and leaves nothing pending until more inputs arrive.
   */
  method Pull(g: PluginGateway) returns (items: seq<ExternalInput>)
    requires g.CanPull()
    modifies g.Repr()
    ensures items == old(g.Pending())
    ensures g.CanPull() && g.Pending() == []
    ensures g.Fake? ==> items == old(g.fake.queued) && g.fake.queued == []
    ensures g.FileQueue? ==> (items, g.fileQueue.cursor) == ReadSinceResult(g.fileQueue.queue.file, old(g.fileQueue.cursor))
    ensures g.FileQueue? ==> g.fileQueue.pulled == old(g.fileQueue.pulled) + items
  {
    match g
    case Fake(f) =>
      items := f.PullInputs();
    case FileQueue(q) =>
      items := q.PullInputs();
  }
}
