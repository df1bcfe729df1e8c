/**
 * The lifecycle of one Meteor as a pure state machine. A Snapshot is the
 * part of the world a Meteor's operations can change: the registry, the
 * Meteor's own fields and the fields of its resource. Step says what one
 * operation does to it and Run what a sequence of operations does. The
 * Meteor class (module MeteorHandle) is proved to follow Step, so the
 * lemmas here hold of the objects as well.
 *
 * The handle type is a parameter H so that this module need not import the
 * class that it specifies.
 */
module Lifecycle {
  import opened Wrappers
  import opened Collaborators

  datatype Snapshot<H> = Snapshot(
    cache: map<Resource, H>,          // the registry
    resource: Resource,               // the Meteor's r, fixed at construction
    destroyed: bool,                  // isDestroyed
    attachment: Payload,              // o
    broadcaster: Broadcaster,         // r.getBroadcaster()
    serializer: Option<Serializer>,   // the serializer set on r
    transport: TransportKind,         // r.transport(), which no operation changes
    calls: seq<Call>)                 // calls delegated to r or its broadcaster

  /** The operations of a Meteor that change something. */
  datatype Op =
    | Suspend(timeout: int)
    | SuspendFor(timeout: int, unit: TimeUnit)
    | ResumeOnBroadcast(flag: bool)
    | Resume
    | Broadcast(message: Payload)
    | Schedule(message: Payload, period: int)
    | DelayBroadcast(message: Payload, period: int)
    | SetBroadcaster(b: Broadcaster)
    | Attach(o: Payload)
    | AddListener(listener: Listener)
    | RemoveListener(listener: Listener)
    | Destroy

  /** The operations that consult the destroyed flag first: all but three. */
  predicate Guarded(op: Op) {
    !op.ResumeOnBroadcast? && !op.Attach? && !op.Destroy?
  }

  /** Whether a sequence of operations contains a destroy. */
  predicate HasDestroy(ops: seq<Op>) {
    exists i | 0 <= i < |ops| :: ops[i].Destroy?
  }

  /** The effect of one operation. */
  function Step<H>(s: Snapshot<H>, op: Op): (t: Snapshot<H>)
    ensures t.resource == s.resource && t.serializer == s.serializer && t.transport == s.transport
    // the flag is set by destroy alone and never cleared
    ensures t.destroyed == (s.destroyed || op.Destroy?)
    // once destroyed, a guarded operation changes nothing and delegates nothing
    ensures s.destroyed && Guarded(op) ==> t == s
    // the log only grows, by at most one call
    ensures s.calls <= t.calls && |t.calls| <= |s.calls| + 1
    // only resume and destroy touch the registry, and they only remove r
    ensures t.cache == if op.Destroy? || (op.Resume? && !s.destroyed) then s.cache - {s.resource} else s.cache
  {
    match op
    case ResumeOnBroadcast(flag) => s.(calls := s.calls + [ResumeOnBroadcastCall(flag)])
    case Attach(o) => s.(attachment := o)
    case Destroy => s.(destroyed := true, cache := s.cache - {s.resource})
    case _ => if s.destroyed then s else Delegate(s, op)
  }

  /** What a guarded operation does on a live handle. */
  function Delegate<H>(s: Snapshot<H>, op: Op): Snapshot<H>
    requires Guarded(op)
  {
    match op
    case Suspend(timeout) => s.(calls := s.calls + [SuspendCall(timeout)])
    case SuspendFor(timeout, unit) => s.(calls := s.calls + [SuspendForCall(timeout, unit)])
    case Resume => s.(calls := s.calls + [ResumeCall], cache := s.cache - {s.resource})
    case Broadcast(o) => s.(calls := s.calls + [BroadcastCall(s.broadcaster, o)])
    case Schedule(o, period) => s.(calls := s.calls + [ScheduleFixedCall(s.broadcaster, o, period, Seconds)])
    case DelayBroadcast(o, period) => s.(calls := s.calls + [DelayCall(s.broadcaster, o, period, Seconds)])
    case SetBroadcaster(b) => s.(broadcaster := b)
    case AddListener(l) => s.(calls := s.calls + [AddListenerCall(l)])
    case RemoveListener(l) => s.(calls := s.calls + [RemoveListenerCall(l)])
  }

  /** The effect of a sequence of operations, applied in order. */
  function Run<H>(s: Snapshot<H>, ops: seq<Op>): (t: Snapshot<H>)
    ensures t.resource == s.resource && t.serializer == s.serializer && t.transport == s.transport
    ensures s.destroyed ==> t.destroyed
    ensures s.calls <= t.calls
    ensures s.resource !in s.cache ==> s.resource !in t.cache
    decreases |ops|
  {
    if ops == [] then s else Run(Step(s, ops[0]), ops[1..])
  }

  /** The calls that operations which ignore the flag delegate: resumeOnBroadcast's. */
  function UnguardedCalls(ops: seq<Op>): seq<Call>
    decreases |ops|
  {
    if ops == [] then []
    else (if ops[0].ResumeOnBroadcast? then [ResumeOnBroadcastCall(ops[0].flag)] else [])
         + UnguardedCalls(ops[1..])
  }

  lemma {:induction false} RunAppend<H>(s: Snapshot<H>, a: seq<Op>, b: seq<Op>)
    ensures Run(s, a + b) == Run(Run(s, a), b)
    decreases |a|
  {
    if a == [] {
      assert a + b == b;
    } else {
      assert (a + b)[0] == a[0];
      assert (a + b)[1..] == a[1..] + b;
      RunAppend(Step(s, a[0]), a[1..], b);
    }
  }

  /** One operation on a destroyed handle: the induction step of DestroyedAbsorbs. */
  lemma DestroyedStep<H>(s: Snapshot<H>, op: Op)
    requires s.destroyed
    ensures Step(s, op).destroyed && Step(s, op).broadcaster == s.broadcaster
    ensures Step(s, op).calls == s.calls + UnguardedCalls([op])
  {
    assert [op][1..] == [];
  }

  /**
   * After destroy nothing a guarded operation does reaches the resource or
   * its broadcaster: only resumeOnBroadcast's calls are still delegated,
   * and the flag stays set.
   */
  lemma {:induction false} DestroyedAbsorbs<H>(s: Snapshot<H>, ops: seq<Op>)
    requires s.destroyed
    ensures Run(s, ops).destroyed
    ensures Run(s, ops).broadcaster == s.broadcaster
    ensures Run(s, ops).calls == s.calls + UnguardedCalls(ops)
    decreases |ops|
  {
    if ops == [] {
      assert s.calls + [] == s.calls;
    } else {
      var t := Step(s, ops[0]);
      DestroyedStep(s, ops[0]);
      DestroyedAbsorbs(t, ops[1..]);
      assert Run(s, ops) == Run(t, ops[1..]);
      assert [ops[0]][1..] == [];
      var head := UnguardedCalls([ops[0]]);
      assert UnguardedCalls(ops) == head + UnguardedCalls(ops[1..]);
      assert s.calls + head + UnguardedCalls(ops[1..]) == s.calls + (head + UnguardedCalls(ops[1..]));
    }
  }

  /**
   * After destroy the registry changes only if destroy is called again,
   * which again removes whatever r maps to.
   */
  lemma {:induction false} DestroyedKeepsRegistry<H>(s: Snapshot<H>, ops: seq<Op>)
    requires s.destroyed
    ensures Run(s, ops).cache == if HasDestroy(ops) then s.cache - {s.resource} else s.cache
    decreases |ops|
  {
    if ops != [] {
      var t := Step(s, ops[0]);
      DestroyedKeepsRegistry(t, ops[1..]);
      if ops[0].Destroy? {
        assert HasDestroy(ops);
        assert t.cache - {s.resource} == t.cache;
      } else if HasDestroy(ops[1..]) {
        var i :| 0 <= i < |ops[1..]| && ops[1..][i].Destroy?;
        assert ops[i + 1].Destroy?;
      } else {
        forall i | 0 <= i < |ops| ensures !ops[i].Destroy? {
          if i > 0 { assert ops[i] == ops[1..][i - 1]; }
        }
      }
    }
  }

  /** A destroy anywhere in a sequence leaves the handle destroyed and unregistered at the end. */
  lemma DestroyIsFinal<H>(s: Snapshot<H>, ops: seq<Op>, i: nat)
    requires i < |ops| && ops[i].Destroy?
    ensures Run(s, ops).destroyed
    ensures s.resource !in Run(s, ops).cache
  {
    assert ops == ops[..i] + [ops[i]] + ops[i + 1..];
    RunAppend(s, ops[..i] + [ops[i]], ops[i + 1..]);
    RunAppend(s, ops[..i], [ops[i]]);
    var u := Run(s, ops[..i]);
    assert Run(u, [ops[i]]) == Step(u, Destroy);
    DestroyedKeepsRegistry(Step(u, Destroy), ops[i + 1..]);
  }

  /** Destroying twice leaves the same state as destroying once. */
  lemma DestroyIdempotent<H>(s: Snapshot<H>)
    ensures Run(s, [Destroy, Destroy]) == Run(s, [Destroy])
  {
    assert [Destroy, Destroy][1..] == [Destroy];
  }

  /** The attachment changes only by attach, whatever else happens, destroy included. */
  lemma {:induction false} AttachmentSurvives<H>(s: Snapshot<H>, ops: seq<Op>)
    requires forall i | 0 <= i < |ops| :: !ops[i].Attach?
    ensures Run(s, ops).attachment == s.attachment
    decreases |ops|
  {
    if ops != [] {
      AttachmentSurvives(Step(s, ops[0]), ops[1..]);
    }
  }

  /** What is attached before destroy is still the attachment afterwards. */
  lemma AttachThenDestroy<H>(s: Snapshot<H>, o: Payload, ops: seq<Op>)
    requires forall i | 0 <= i < |ops| :: !ops[i].Attach?
    ensures Run(s, [Attach(o), Destroy] + ops).attachment == o
    ensures Run(s, [Attach(o), Destroy] + ops).destroyed
  {
    RunAppend(s, [Attach(o), Destroy], ops);
    var u := Run(s, [Attach(o), Destroy]);
    assert [Attach(o), Destroy][1..] == [Destroy];
    assert u == Run(Step(s, Attach(o)), [Destroy]) == Step(Step(s, Attach(o)), Destroy);
    AttachmentSurvives(u, ops);
  }

  /**
   * Resume unregisters without destroying: a later broadcast is still
   * delegated, to the same broadcaster, and a second resume delegates again.
   */
  lemma ResumeDoesNotDestroy<H>(s: Snapshot<H>, o: Payload)
    requires !s.destroyed
    ensures var t := Step(Step(Step(s, Resume), Broadcast(o)), Resume);
      && !t.destroyed
      && t.cache == s.cache - {s.resource}
      && t.calls == s.calls + [ResumeCall, BroadcastCall(s.broadcaster, o), ResumeCall]
  {
  }
}
