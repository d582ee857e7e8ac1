/**
 * The ownership of per-source sequence counters in the event scheduler
 * (sstmac/common/event_scheduler.h, stand-alone build). Every event
 * component owns one 32-bit counter; the scheduler part of the component
 * reaches it through a pointer. A subcomponent built from a scheduler copies
 * that pointer, so the component and all its subcomponents draw sequence
 * numbers from the same cell. The scheduler also reaches the event manager
 * of its execution unit, which supplies the current time and thread count.
 */
module EventScheduler {
  import opened Words

  /** `locatable::null_threadid`, the thread id of a component with no event manager (its definition is not part of this model). */
  const NULL_THREAD_ID: int := -1

  type DeviceId = int

  /** The part of an execution unit's `event_manager` the scheduler reads. */
  class EventManager {
    var now: int          // now(), in ticks
    const nthread: int    // nthread()
    const threadId: int   // thread_id()

    constructor (now: int, nthread: int, threadId: int)
      ensures this.now == now && this.nthread == nthread && this.threadId == threadId
    {
      this.now := now;
      this.nthread := nthread;
      this.threadId := threadId;
    }
  }

  /** The `uint32_t` cell an event component owns and its schedulers point at. */
  class SeqCounter {
    var value: nat

    ghost predicate Valid()
      reads this
    {
      value < TWO32
    }

    constructor ()
      ensures Valid() && value == 0
    {
      value := 0;
    }
  }

  /**
   * An `event_scheduler`, built either as an `event_component` (which owns a
   * fresh counter) or as an `event_subcomponent` of another scheduler (which
   * shares the parent's counter).
   */
  class EventScheduler {
    const eventman: EventManager?   // eventman_
    const seqnum: SeqCounter        // seqnum_, the counter cell pointed at
    const location: DeviceId        // event_location()
    const threadId: int             // thread_id()

    /**
     * `event_component(params, cid, id, mgr)`: the counter is the component's
     * own, starting at 0; the thread is the manager's, or the null thread
     * without a manager. `cid` is only used by the integrated build.
     */
    constructor Component(cid: nat, id: DeviceId, mgr: EventManager?)
      ensures fresh(seqnum) && seqnum.Valid() && seqnum.value == 0
      ensures eventman == mgr && location == id
      ensures mgr != null ==> threadId == mgr.threadId
      ensures mgr == null ==> threadId == NULL_THREAD_ID
    {
      eventman := mgr;
      location := id;
      threadId := if mgr != null then mgr.threadId else NULL_THREAD_ID;
      seqnum := new SeqCounter();
    }

    /** `event_subcomponent(parent)`: the parent's manager, location, thread and counter cell. */
    constructor Subcomponent(parent: EventScheduler)
      ensures seqnum == parent.seqnum
      ensures eventman == parent.eventman && location == parent.location && threadId == parent.threadId
    {
      eventman := parent.eventman;
      seqnum := parent.seqnum;
      location := parent.location;
      threadId := parent.threadId;
    }

    /** `now()`: the current time of the owning event manager. */
    function Now(): (t: int)
      requires eventman != null
      reads eventman
      ensures t == eventman.now
    {
      eventman.now
    }

    /** `nthread()`: the thread count of the owning event manager. */
    function NThread(): (n: int)
      requires eventman != null
      ensures n == eventman.nthread
    {
      eventman.nthread
    }

    /** `event_mgr()`: the manager passed at construction. */
    function EventMgr(): (mgr: EventManager?)
      ensures mgr == eventman
    {
      eventman
    }

    /**
     * `(*seqnum_)++`, the step the scheduling calls (whose bodies are not
     * part of this model) take through the shared pointer: the counter cell
     * advances with 32-bit wrap-around and the value before is returned.
     */
    method NextSeqnum() returns (s: nat)
      requires seqnum.Valid()
      modifies seqnum
      ensures seqnum.Valid()
      ensures s == old(seqnum.value)
      ensures seqnum.value == (old(seqnum.value) + 1) % TWO32
    {
      s := seqnum.value;
      seqnum.value := (seqnum.value + 1) % TWO32;
    }
  }

  /**
   * A subcomponent of `parent` draws the sequence number that follows the
   * parent's, and the parent then sees the subcomponent's increment: both
   * advance one counter.
   */
  method SubcomponentSharesCounter(parent: EventScheduler) returns (sub: EventScheduler, fromParent: nat, fromSub: nat)
    requires parent.seqnum.Valid() && parent.seqnum.value < TWO32 - 2
    modifies parent.seqnum
    ensures fresh(sub) && sub.seqnum == parent.seqnum
    ensures fromSub == fromParent + 1
    ensures parent.seqnum.value == old(parent.seqnum.value) + 2
  {
    sub := new EventScheduler.Subcomponent(parent);
    fromParent := parent.NextSeqnum();
    fromSub := sub.NextSeqnum();
  }
}
