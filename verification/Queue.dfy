/** The rate-limited work queue, as far as the controller relies on it: an item is never given
    to two workers at once, and an item added while it is being worked on is given out again
    afterwards. */
module Queues {
  import opened Api

  datatype Item = SbpRef(name: string) | BindingRef(name: string) | StatusRef(key: string)

  /** dirty: to be processed; processing: given to a worker; delayed: to become dirty later. */
  datatype Queue = Queue(dirty: set<Item>, processing: set<Item>, delayed: set<Item>)
  {
    function Add(i: Item): Queue { this.(dirty := dirty + {i}) }
    function AddRateLimited(i: Item): Queue { this.(delayed := delayed + {i}) }
    function Ripen(i: Item): Queue { this.(delayed := delayed - {i}, dirty := dirty + {i}) }
    predicate CanGet(i: Item) { i in dirty && i !in processing }
    function Get(i: Item): Queue { this.(dirty := dirty - {i}, processing := processing + {i}) }
    function Done(i: Item): Queue { this.(processing := processing - {i}) }
  }

  const EMPTY_QUEUE := Queue({}, {}, {})

  /** A change of the StagedBindingPolicy cache on its way to the handlers. */
  datatype Notification = Added(sbp: Sbp) | Updated(older: Sbp, newer: Sbp) | Deleted(sbp: Sbp)

  /** Which notifications the handlers turn into a queued name: updates only if the generation
      has changed. */
  function Enqueues(m: Notification): Option<string> {
    match m
    case Added(sbp) => Some(sbp.name)
    case Deleted(sbp) => Some(sbp.name)
    case Updated(older, newer) => if older.generation != newer.generation then Some(newer.name) else None
  }

  /** The queue once the handlers are through with a notification. */
  function Handled(q: Queue, m: Notification): Queue {
    match Enqueues(m)
    case Some(name) => q.Add(SbpRef(name))
    case None => q
  }

  /** A change of the Binding cache on its way to the handlers: no older object for an addition
      and for a deletion. */
  datatype BindingNotice = BindingNotice(older: Option<Binding>, binding: Binding)

  function BindingEnqueues(m: BindingNotice): Option<string> {
    if m.older.None? || m.older.value.generation != m.binding.generation then Some(m.binding.name) else None
  }

  function BindingHandled(q: Queue, m: BindingNotice): Queue {
    match BindingEnqueues(m)
    case Some(name) => q.Add(BindingRef(name))
    case None => q
  }

  /** Where a worker is with the name it has taken: nothing read yet, holding a snapshot (None:
      not found), or through with it. */
  datatype Phase<T> = Taken | Holding(snapshot: Option<T>) | Through(failed: bool)

  class WorkQueue {
    var dirty: set<Item>
    var processing: set<Item>
    var delayed: set<Item>

    function Value(): Queue
      reads this
    {
      Queue(dirty, processing, delayed)
    }

    constructor ()
      ensures Value() == EMPTY_QUEUE
    {
      dirty, processing, delayed := {}, {}, {};
    }

    method Add(i: Item)
      modifies this
      ensures Value() == old(Value()).Add(i)
    {
      dirty := dirty + {i};
    }

    method AddRateLimited(i: Item)
      modifies this
      ensures Value() == old(Value()).AddRateLimited(i)
    {
      delayed := delayed + {i};
    }

    /** Hands out some item that nobody is working on; None stands for blocking. */
    method Get() returns (item: Option<Item>)
      modifies this
      ensures item.None? ==> Value() == old(Value()) && forall i :: !Value().CanGet(i)
      ensures item.Some? ==> old(Value()).CanGet(item.value) && Value() == old(Value()).Get(item.value)
    {
      var ready := dirty - processing;
      if ready == {} {
        assert forall i :: i in dirty ==> i in processing by {
          forall i | i in dirty ensures i in processing { assert i !in ready; }
        }
        return None;
      }
      var i :| i in ready;
      dirty, processing := dirty - {i}, processing + {i};
      item := Some(i);
    }

    /** The delay of an item is over. */
    method Ripen(i: Item)
      modifies this
      ensures Value() == old(Value()).Ripen(i)
    {
      dirty, delayed := dirty + {i}, delayed - {i};
    }

    method Done(i: Item)
      modifies this
      ensures Value() == old(Value()).Done(i)
    {
      processing := processing - {i};
    }
  }
}
