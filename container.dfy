/**
 * The per-thread handle cache behind `Container`.
 *
 * Every container shares one thread-specific slot (the static `_realm`), which holds
 * at most one `RealmWrapper` per thread.  Here the slot is a map from thread to
 * wrapper, and the running thread is an explicit `tid` argument.  Opening a wrapper
 * may create files and may throw; whether the store engine would succeed is an
 * `OpenOutcome` argument, and a failure is returned as a `Result`.
 */
module HandleCache {
  import opened Wrappers

  type ThreadId = nat

  type QueueId = nat

  /** `Realm.Configuration`: how to locate and open a store, compared by value. */
  datatype Configuration = Configuration(
    fileURL: Option<string>,
    inMemoryIdentifier: Option<string>,
    encryptionKey: Option<seq<bv8>>,
    readOnly: bool,
    schemaVersion: nat,
    deleteRealmIfMigrationNeeded: bool)

  /** The error the store engine throws when it cannot open a store. */
  datatype OpenError = OpenError(description: string)

  /** What the store engine does if asked to open a store at this point. */
  datatype OpenOutcome = Opens | FailsWith(error: OpenError)

  /** An open store handle. */
  class Realm {
    const configuration: Configuration

    constructor (configuration: Configuration)
      ensures this.configuration == configuration
    {
      this.configuration := configuration;
    }
  }

  /** `RealmWrapper`: a store handle together with the queue it was opened for. */
  class RealmWrapper {
    const realm: Realm
    const queue: Option<QueueId>

    constructor (configuration: Configuration, queue: Option<QueueId>)
      ensures fresh(realm)
      ensures realm.configuration == configuration && this.queue == queue
    {
      realm := new Realm(configuration);
      this.queue := queue;
    }
  }

  /** `try RealmWrapper(conf:queue:)`: a new wrapper, or the engine's error. */
  method OpenWrapper(configuration: Configuration, queue: Option<QueueId>, outcome: OpenOutcome)
    returns (r: Result<RealmWrapper, OpenError>)
    ensures outcome.FailsWith? ==> r == Failure(outcome.error)
    ensures outcome.Opens? ==> r.Success? && fresh(r.value)
    ensures r.Success? ==> r.value.realm.configuration == configuration && r.value.queue == queue
  {
    match outcome
    case Opens =>
      var w := new RealmWrapper(configuration, queue);
      r := Success(w);
    case FailsWith(error) =>
      r := Failure(error);
  }

  /** `ThreadSpecificVariable<RealmWrapper>`: each thread's current value, if it has one. */
  class ThreadSlot {
    var values: map<ThreadId, RealmWrapper>

    constructor ()
      ensures values == map[]
    {
      values := map[];
    }
  }

  /** The condition under which `init` opens a new wrapper: the slot is empty, or holds another configuration. */
  predicate NeedsOpen(values: map<ThreadId, RealmWrapper>, tid: ThreadId, configuration: Configuration)
  {
    tid !in values || values[tid].realm.configuration != configuration
  }

  class Container {
    const configuration: Configuration
    const queue: Option<QueueId>
    /** The slot every container shares. */
    const slot: ThreadSlot

    /**
     * Internal: stores the fields and nothing else.  Only `Init` calls it, after it has
     * dealt with the slot, so every container is created through `init`'s slot logic.
     */
    constructor Make(configuration: Configuration, queue: Option<QueueId>, slot: ThreadSlot)
      ensures this.configuration == configuration && this.queue == queue && this.slot == slot
    {
      this.configuration := configuration;
      this.queue := queue;
      this.slot := slot;
    }

    /**
     * `init(configuration:queue:)` on thread `tid`: the thread's slot is replaced by a
     * newly opened wrapper when it is empty or holds another configuration; a failure to
     * open is thrown and leaves the slot as it was; other threads' slots are untouched.
     */
    static method Init(configuration: Configuration, queue: Option<QueueId>, slot: ThreadSlot,
                       tid: ThreadId, outcome: OpenOutcome)
      returns (r: Result<Container, OpenError>)
      modifies slot
      ensures !NeedsOpen(old(slot.values), tid, configuration) ==>
        r.Success? && slot.values == old(slot.values)
      ensures NeedsOpen(old(slot.values), tid, configuration) && outcome.FailsWith? ==>
        r == Failure(outcome.error) && slot.values == old(slot.values)
      ensures NeedsOpen(old(slot.values), tid, configuration) && outcome.Opens? ==>
        r.Success? && tid in slot.values && fresh(slot.values[tid]) &&
        slot.values == old(slot.values)[tid := slot.values[tid]] &&
        slot.values[tid].queue == queue
      ensures r.Success? ==>
        fresh(r.value) && r.value.configuration == configuration && r.value.queue == queue &&
        r.value.slot == slot &&
        tid in slot.values && slot.values[tid].realm.configuration == configuration
    {
      if NeedsOpen(slot.values, tid, configuration) {
        var attempt := OpenWrapper(configuration, queue, outcome);
        if attempt.Failure? {
          return Failure(attempt.error);
        }
        slot.values := slot.values[tid := attempt.value];
      }
      var c := new Container.Make(configuration, queue, slot);
      r := Success(c);
    }

    /** `newInstance(queue:)`: a container with this container's configuration. */
    method NewInstance(queue: Option<QueueId>, tid: ThreadId, outcome: OpenOutcome)
      returns (r: Result<Container, OpenError>)
      modifies slot
      ensures !NeedsOpen(old(slot.values), tid, configuration) ==>
        r.Success? && slot.values == old(slot.values)
      ensures NeedsOpen(old(slot.values), tid, configuration) && outcome.FailsWith? ==>
        r == Failure(outcome.error) && slot.values == old(slot.values)
      ensures NeedsOpen(old(slot.values), tid, configuration) && outcome.Opens? ==>
        r.Success? && tid in slot.values && fresh(slot.values[tid]) &&
        slot.values == old(slot.values)[tid := slot.values[tid]] &&
        slot.values[tid].queue == queue
      ensures r.Success? ==>
        fresh(r.value) && r.value.configuration == configuration && r.value.queue == queue &&
        r.value.slot == slot &&
        tid in slot.values && slot.values[tid].realm.configuration == configuration
    {
      r := Init(configuration, queue, slot, tid, outcome);
    }

    /**
     * `wrapper()` on thread `tid`: whatever the slot holds, whatever its configuration;
     * on an empty slot, a wrapper opened with this container's configuration and queue,
     * stored in the slot before it is returned.  Other threads' slots are untouched.
     */
    method Wrapper(tid: ThreadId, outcome: OpenOutcome) returns (r: Result<RealmWrapper, OpenError>)
      modifies slot
      ensures tid in old(slot.values) ==>
        r == Success(old(slot.values)[tid]) && slot.values == old(slot.values)
      ensures tid !in old(slot.values) && outcome.FailsWith? ==>
        r == Failure(outcome.error) && slot.values == old(slot.values)
      ensures tid !in old(slot.values) && outcome.Opens? ==>
        r.Success? && fresh(r.value) &&
        r.value.realm.configuration == configuration && r.value.queue == queue &&
        slot.values == old(slot.values)[tid := r.value]
    {
      if tid in slot.values {
        return Success(slot.values[tid]);
      }
      r := OpenWrapper(configuration, queue, outcome);
      if r.Success? {
        slot.values := slot.values[tid := r.value];
      }
    }

    /** `realm()`: the handle of `wrapper()`. */
    method ResolveRealm(tid: ThreadId, outcome: OpenOutcome) returns (r: Result<Realm, OpenError>)
      modifies slot
      ensures tid in old(slot.values) ==>
        r == Success(old(slot.values)[tid].realm) && slot.values == old(slot.values)
      ensures tid !in old(slot.values) && outcome.FailsWith? ==>
        r == Failure(outcome.error) && slot.values == old(slot.values)
      ensures tid !in old(slot.values) && outcome.Opens? ==>
        r.Success? && r.value.configuration == configuration &&
        tid in slot.values && fresh(slot.values[tid]) && r.value == slot.values[tid].realm &&
        slot.values[tid].queue == queue &&
        slot.values == old(slot.values)[tid := slot.values[tid]]
    {
      var w := Wrapper(tid, outcome);
      match w
      case Success(wrapper) =>
        r := Success(wrapper.realm);
      case Failure(error) =>
        r := Failure(error);
    }
  }

  // ---------------------------------------------------------------------------
  // What callers can rely on across several calls

  /** A second `wrapper()` on the same thread returns the wrapper the first one returned. */
  method WrapperIsCached(c: Container, tid: ThreadId, first: OpenOutcome, second: OpenOutcome)
    returns (r1: Result<RealmWrapper, OpenError>, r2: Result<RealmWrapper, OpenError>)
    modifies c.slot
    ensures r1.Success? ==> r2 == r1
    ensures forall t :: t != tid ==>
      (t in c.slot.values <==> t in old(c.slot.values)) &&
      (t in c.slot.values ==> c.slot.values[t] == old(c.slot.values)[t])
  {
    r1 := c.Wrapper(tid, first);
    r2 := c.Wrapper(tid, second);
  }

  /**
   * Two containers with equal configurations, created on the same thread, resolve to the
   * same cached wrapper, whatever queues they were given; the second one opens nothing.
   */
  method EqualConfigurationsShareWrapper(configuration: Configuration, q1: Option<QueueId>, q2: Option<QueueId>,
                                         slot: ThreadSlot, tid: ThreadId,
                                         o1: OpenOutcome, o2: OpenOutcome, o3: OpenOutcome, o4: OpenOutcome)
    returns (c1: Result<Container, OpenError>, c2: Result<Container, OpenError>,
             w1: Result<RealmWrapper, OpenError>, w2: Result<RealmWrapper, OpenError>,
             ghost afterFirst: map<ThreadId, RealmWrapper>)
    modifies slot
    ensures c1.Success? ==> c2.Success? && w1.Success? && w2 == w1
    ensures c1.Success? ==> w1.value.realm.configuration == configuration
    ensures c1.Success? ==> tid in slot.values && w1 == Success(slot.values[tid])
    ensures c1.Success? ==> slot.values == afterFirst && tid in afterFirst && w1 == Success(afterFirst[tid])
  {
    c1 := Container.Init(configuration, q1, slot, tid, o1);
    afterFirst := slot.values;
    if c1.Failure? {
      c2, w1, w2 := c1, Failure(c1.error), Failure(c1.error);
      return;
    }
    c2 := Container.Init(configuration, q2, slot, tid, o2);
    w1 := c1.value.Wrapper(tid, o3);
    w2 := c2.value.Wrapper(tid, o4);
  }

  /**
   * `wrapper()` does not compare configurations: once a second container with another
   * configuration has replaced the thread's slot, the first container resolves to the
   * second one's store.
   */
  method WrapperFollowsLatestInit(a: Configuration, b: Configuration, slot: ThreadSlot, tid: ThreadId,
                                  o1: OpenOutcome, o2: OpenOutcome, o3: OpenOutcome)
    returns (first: Result<Container, OpenError>, second: Result<Container, OpenError>,
             w: Result<RealmWrapper, OpenError>)
    requires a != b
    modifies slot
    ensures first.Success? && second.Success? ==>
      w.Success? && w.value.realm.configuration == b && w.value.realm.configuration != first.value.configuration
  {
    first := Container.Init(a, None, slot, tid, o1);
    second := Container.Init(b, None, slot, tid, o2);
    if first.Success? {
      w := first.value.Wrapper(tid, o3);
    } else {
      w := Failure(OpenError(""));
    }
  }
}
