# Meteor: handle registry and lifecycle, modelled in Dafny

Atmosphere's `Meteor` is a handle that servlet code obtains for a request
whose response it wants to suspend, push to from any thread, and later
resume. Each handle wraps the request's `AtmosphereResource`. Most of its
operations delegate to that resource or to the resource's `Broadcaster`,
and they do so only while the handle's `isDestroyed` flag is clear. A
process-wide map, `cache`, records the handle built for each resource.

The model has four modules:

- `Wrappers` (wrappers.dfy): `Option` stands for a Java `null` result and
  `Result` for an exception thrown to the caller.
- `Collaborators` (collaborators.dfy): stand-ins for the external objects.
  A `Broadcaster` holds its scope and its config's filter list. A `Resource`
  holds its broadcaster, serializer and transport, plus a log of every call
  a handle delegates to it or to its broadcaster. A broadcaster call is
  logged with the broadcaster it went to.
- `Lifecycle` (lifecycle.dfy): one handle's state machine as pure functions.
  A `Snapshot` is everything a handle's operations can change: the
  registry, the handle's flag and attachment, and the resource's
  broadcaster, serializer, transport and call log. No operation changes
  the serializer or the transport, and `Step` says so. `Step` applies one operation and
  `Run` a sequence of operations. The lemmas about `Run` are the properties
  that hold over any number of calls.
- `MeteorHandle` (meteor.dfy): the objects. `Request` is reduced to its
  attribute map. `Registry` is the `cache` map. `Meteor` is the handle
  class, with the four `build` overloads and `lookup` as static members.
  Every handle operation guarantees `View() == Step(old(View()), op)`,
  so the `Lifecycle` lemmas apply to the objects too. The short scenario
  methods at the end of the module use this.

`Registry.Valid()` is the registry invariant. Each entry maps a resource
to a live handle that is bound to that resource and belongs to this
registry. `Registry`'s constructor establishes it, and the Meteor constructor,
`resume`, `attach` and `destroy` preserve it.

The registry is passed to `build` and kept in each handle
(`Meteor.registry`), instead of being a static map. `BroadcasterFactory`
is replaced by a `made: Option<Broadcaster>` argument to `BuildInScope`:
`Some(b)` is the broadcaster the factory returns, `None` means the factory
threw. Member names follow the Java names, including `attachement` and
`delayBroadadcast`.

The model follows the code in three places where the code is easy to misread:

- `resume()` does not set the destroyed flag. After a resume, the handle
  still delegates `broadcast`, and a second `resume` delegates again
  (`ResumeDoesNotDestroy`).
- `resume()` and `destroy()` remove the registry entry by resource alone.
  Destroying an older handle therefore unregisters a newer handle built for
  the same resource, and the newer handle stays live
  (`StaleDestroyUnregistersSuccessor`). For the same reason `destroy` is
  not a no-op once the handle is destroyed: a second call removes whatever
  the resource maps to by then.
- `addListener` and `removeListener` return the handle even when it is
  destroyed. `setBroadcaster` returns nothing.

## Model

| member | source | states |
|---|---|---|
| `Lifecycle.Step` | modules/cpr/src/main/java/org/atmosphere/cpr/Meteor.java:198-361 | The resource, serializer and transport never change. Only destroy sets the flag and nothing clears it. Once destroyed, every guarded operation leaves the whole state unchanged. The call log only grows, by at most one call. Only resume (when live) and destroy change the registry, and they only remove r. |
| `Lifecycle.Run` | modules/cpr/src/main/java/org/atmosphere/cpr/Meteor.java:198-361 | Over any sequence of operations: the flag is never cleared, the resource, serializer and transport never change, the log only grows, and an unregistered resource is never registered again by a handle operation. |
| `Lifecycle.DestroyedAbsorbs` | modules/cpr/src/main/java/org/atmosphere/cpr/Meteor.java:198-353 | After destroy, any sequence of operations keeps the flag set and the broadcaster unchanged. The log grows only by the `resumeOnBroadcast` calls in the sequence, which ignore the flag. |
| `Lifecycle.DestroyedKeepsRegistry` | modules/cpr/src/main/java/org/atmosphere/cpr/Meteor.java:358-361 | After destroy, the registry changes only if destroy is called again, and then only by removing r. |
| `Lifecycle.DestroyIsFinal` | modules/cpr/src/main/java/org/atmosphere/cpr/Meteor.java:358-361 | If a sequence contains a destroy anywhere, the handle ends destroyed and r ends unregistered, whatever comes after it. |
| `Lifecycle.DestroyIdempotent` | modules/cpr/src/main/java/org/atmosphere/cpr/Meteor.java:358-361 | Destroying twice leaves the same state as destroying once. |
| `Lifecycle.AttachmentSurvives` | modules/cpr/src/main/java/org/atmosphere/cpr/Meteor.java:314-325 | Only attach changes the attachment. Every other operation, destroy included, leaves it as it was. |
| `Lifecycle.AttachThenDestroy` | modules/cpr/src/main/java/org/atmosphere/cpr/Meteor.java:323-325 | An attachment stored before destroy is still the attachment after it, followed by any operations other than attach. |
| `Lifecycle.ResumeDoesNotDestroy` | modules/cpr/src/main/java/org/atmosphere/cpr/Meteor.java:244-261 | On a live handle, resume then broadcast then resume delegates all three calls, in order, to the same broadcaster. It removes r from the registry and the handle stays live. |
| `MeteorHandle.Registry.constructor` | modules/cpr/src/main/java/org/atmosphere/cpr/Meteor.java:87-88 | Starts empty, which satisfies the registry invariant `Valid()`. |
| `MeteorHandle.Registry.Get` | modules/cpr/src/main/java/org/atmosphere/cpr/Meteor.java:113 | Returns the entry for the key, or none exactly when the key is absent. |
| `MeteorHandle.Registry.Put` | modules/cpr/src/main/java/org/atmosphere/cpr/Meteor.java:103 | Maps the key to the handle and overwrites any earlier entry. Nothing else changes. |
| `MeteorHandle.Registry.Remove` | modules/cpr/src/main/java/org/atmosphere/cpr/Meteor.java:247 | Removes the key. Removing an absent key changes nothing. |
| `MeteorHandle.Meteor.constructor` | modules/cpr/src/main/java/org/atmosphere/cpr/Meteor.java:93-104 | Sets r's serializer to s, even when s is null. Appends the filters to r's broadcaster config in list order, and appends nothing for a null list. Registers the new live handle for r, overwriting any entry. Changes nothing else on r and keeps the registry invariant. |
| `MeteorHandle.Meteor.LookupAsWritten` | modules/cpr/src/main/java/org/atmosphere/cpr/Meteor.java:112-114 | lookup as coded: it throws exactly when the request has no resource attribute. Otherwise it agrees with `Lookup`. |
| `MeteorHandle.Meteor.Lookup` | modules/cpr/src/main/java/org/atmosphere/cpr/Meteor.java:106-114 | A pure read: the handle registered for the request's resource, or none when nothing is registered for it or the request has no resource. |
| `MeteorHandle.Meteor.Build` | modules/cpr/src/main/java/org/atmosphere/cpr/Meteor.java:123-125 | Same as `BuildInScope` with APPLICATION scope, no filters and no serializer. |
| `MeteorHandle.Meteor.BuildWithSerializer` | modules/cpr/src/main/java/org/atmosphere/cpr/Meteor.java:136-138 | Same as `BuildInScope` with APPLICATION scope and no filters. |
| `MeteorHandle.Meteor.BuildWithFilters` | modules/cpr/src/main/java/org/atmosphere/cpr/Meteor.java:150-152 | Same as `BuildInScope` with APPLICATION scope. r's broadcaster is left unchanged apart from the appended filters. |
| `MeteorHandle.Meteor.BuildInScope` | modules/cpr/src/main/java/org/atmosphere/cpr/Meteor.java:165-189 | Fails exactly when no resource is bound, or when the scope is REQUEST and the factory fails. A failure changes nothing: not the registry, the request or the resource. On success the handle is fresh and live, `cache[r]` is that handle and the request's METEOR attribute holds it. With APPLICATION, r keeps its broadcaster, which receives the filters. With REQUEST, the factory's broadcaster is set to REQUEST scope, replaces r's and receives the filters, and the request gets `SKIP_BROADCASTER_CREATION = TRUE`. |
| `MeteorHandle.Meteor.ExpectedError` | modules/cpr/src/main/java/org/atmosphere/cpr/Meteor.java:167-180 | The binding is checked before the factory is used. A missing attribute gives the "not defined" error, an attribute that is not a resource gives a cast error, and a bound request can only fail in the factory. |
| `MeteorHandle.Meteor.Suspend` | modules/cpr/src/main/java/org/atmosphere/cpr/Meteor.java:198-202 | Returns null and leaves r untouched once destroyed. Otherwise it delegates `suspend(l)` and returns this. r's transport and serializer stay as they were. |
| `MeteorHandle.Meteor.ResumeOnBroadcast` | modules/cpr/src/main/java/org/atmosphere/cpr/Meteor.java:209-212 | Delegates whether or not the handle is destroyed, and returns this. r's transport and serializer stay as they were. |
| `MeteorHandle.Meteor.Transport` | modules/cpr/src/main/java/org/atmosphere/cpr/Meteor.java:220-222 | Returns r's transport, without consulting the flag. |
| `MeteorHandle.Meteor.SuspendFor` | modules/cpr/src/main/java/org/atmosphere/cpr/Meteor.java:233-237 | Returns null and leaves r untouched once destroyed. Otherwise it delegates `suspend(timeout, unit)` and returns this. r's transport and serializer stay as they were. |
| `MeteorHandle.Meteor.Resume` | modules/cpr/src/main/java/org/atmosphere/cpr/Meteor.java:244-249 | Returns null and changes nothing once destroyed. Otherwise it delegates one resume, then unregisters r, and leaves the flag clear. r's transport and serializer stay as they were. |
| `MeteorHandle.Meteor.Broadcast` | modules/cpr/src/main/java/org/atmosphere/cpr/Meteor.java:257-261 | Returns null and delegates nothing once destroyed. Otherwise it broadcasts to r's current broadcaster. r's transport and serializer stay as they were. |
| `MeteorHandle.Meteor.Schedule` | modules/cpr/src/main/java/org/atmosphere/cpr/Meteor.java:270-274 | Returns null and delegates nothing once destroyed. Otherwise it schedules a fixed broadcast with the period in SECONDS. r's transport and serializer stay as they were. |
| `MeteorHandle.Meteor.DelayBroadadcast` | modules/cpr/src/main/java/org/atmosphere/cpr/Meteor.java:283-287 | Returns null and delegates nothing once destroyed. Otherwise it delays a broadcast by the period in SECONDS. r's transport and serializer stay as they were. |
| `MeteorHandle.Meteor.GetBroadcaster` | modules/cpr/src/main/java/org/atmosphere/cpr/Meteor.java:294-297 | Absent exactly when the handle is destroyed. Otherwise it is r's current broadcaster. |
| `MeteorHandle.Meteor.SetBroadcaster` | modules/cpr/src/main/java/org/atmosphere/cpr/Meteor.java:304-307 | Changes nothing on r once destroyed. Otherwise it replaces r's broadcaster. r's transport and serializer stay as they were. |
| `MeteorHandle.Meteor.Attachement` | modules/cpr/src/main/java/org/atmosphere/cpr/Meteor.java:314-316 | Returns the stored attachment, whether or not the handle is destroyed. |
| `MeteorHandle.Meteor.Attach` | modules/cpr/src/main/java/org/atmosphere/cpr/Meteor.java:323-325 | Stores the attachment even on a destroyed handle. It changes nothing else. |
| `MeteorHandle.Meteor.AddListener` | modules/cpr/src/main/java/org/atmosphere/cpr/Meteor.java:334-339 | Changes nothing on r once destroyed, but still returns this. Otherwise it delegates the add. r's transport and serializer stay as they were. |
| `MeteorHandle.Meteor.RemoveListener` | modules/cpr/src/main/java/org/atmosphere/cpr/Meteor.java:348-353 | Changes nothing on r once destroyed, but still returns this. Otherwise it delegates the remove. r's transport and serializer stay as they were. |
| `MeteorHandle.Meteor.Destroy` | modules/cpr/src/main/java/org/atmosphere/cpr/Meteor.java:358-361 | Sets the flag and unregisters r, without resuming r or delegating anything. |
| `MeteorHandle.Meteor.GetAtmosphereResource` | modules/cpr/src/main/java/org/atmosphere/cpr/Meteor.java:376-378 | Always the constructor's r, destroyed or not. |
| `MeteorHandle.UnboundLookupThrows` | modules/cpr/src/main/java/org/atmosphere/cpr/Meteor.java:112-114 | On a request without a resource, lookup as coded throws, where the documented lookup returns none. |
| `MeteorHandle.LookupFindsLiveHandle` | modules/cpr/src/main/java/org/atmosphere/cpr/Meteor.java:103-114 | In a registry that satisfies its invariant, a handle found by lookup is live and bound to the request's resource. |
| `MeteorHandle.BuildThenLookup` | modules/cpr/src/main/java/org/atmosphere/cpr/Meteor.java:186-188 | A lookup by the same request right after a successful build returns exactly the new handle. After a failed build it returns what it returned before. |
| `MeteorHandle.StaleDestroyUnregistersSuccessor` | modules/cpr/src/main/java/org/atmosphere/cpr/Meteor.java:358-361 | Build twice for one resource, then destroy the first handle: the live second handle is no longer found by lookup. |
| `MeteorHandle.AttachSurvivesDestroy` | modules/cpr/src/main/java/org/atmosphere/cpr/Meteor.java:314-325 | attach, destroy, attachement returns what was attached, and the handle is unregistered. |
| `MeteorHandle.ResumeBroadcastResume` | modules/cpr/src/main/java/org/atmosphere/cpr/Meteor.java:244-261 | On live handle objects, resume, broadcast, resume all return this and delegate three calls in order, and the handle stays live. |
| `MeteorHandle.DestroyedIsInert` | modules/cpr/src/main/java/org/atmosphere/cpr/Meteor.java:198-353 | After destroy: both suspends, resume, broadcast, schedule and the delayed broadcast return null, `getBroadcaster` is absent, and no call reaches r, not even from setBroadcaster or the listener methods. |

## Left out

- Thread safety: the `ConcurrentHashMap` and the `AtomicBoolean` are modelled as ordinary sequential state. Races between threads are not modelled.
- The registry is an object passed to `build`, not a static field. One registry per process is the caller's choice.
- `UUID.randomUUID()` naming of REQUEST-scoped broadcasters: the factory's broadcaster is an argument, so nothing is claimed about its name or uniqueness, or that it differs from r's previous broadcaster.
- `BroadcasterFactory` failures (and a failing `getAtmosphereConfig()`) are a single opaque `FactoryFailed` outcome. The factory returning null, which the code would dereference, is not modelled.
- Broadcaster internals: fan-out, filter execution, serializer use, scheduling timers and `TimeUnit` conversion belong to external classes. The model records each delegated call with its arguments, not its effect.
- The resource's side of `suspend`, `resume`, `resumeOnBroadcast`, `addEventListener` and `removeEventListener` (its listener collection, its suspended state) belongs to the external `AtmosphereResource`. These calls are recorded only.
- The debug logging in `destroyed()` is not modelled. The private `destroyed()` is a read of the `destroyed` field.
- `HttpServletRequest` is reduced to its attributes. The three attribute names are constructors of `AttrName`. Their string values are defined in `FrameworkConfig` and `AtmosphereResourceImpl`, which are not part of this model.
- `Broadcaster.SCOPE` and `AtmosphereResource.TRANSPORT` are not part of this model. `build` only tests for REQUEST, so `Scope` has just APPLICATION and REQUEST. `TransportKind` lists the transports named in the documentation plus one for all others.
- Timeouts and periods are Java `long` values that the handle only passes on. The model passes unbounded integers, with no arithmetic that could wrap.
- Null arguments: `Broadcaster`, `Listener` and `Payload` values are never null in the model, so `setBroadcaster(null)`, `addListener(null)` and `removeListener(null)` cannot be expressed. In particular the NullPointerException that a `broadcast`, `schedule` or `delayBroadadcast` after `setBroadcaster(null)` would raise is not modelled. `Payload.Null` stands only for a null message or attachment, which the handle passes on without dereferencing.
- Making operations unavailable after `resume()`, as one might expect of a resumed handle, is not modelled. The code does not set the flag on resume, and the model follows the code.

## Findings

| source | as written | input that shows it | evidently intended | confidence | as-written member | corrected member |
|---|---|---|---|---|---|---|
| modules/cpr/src/main/java/org/atmosphere/cpr/Meteor.java:112-114 | `cache.get(r.getAttribute(ATMOSPHERE_RESOURCE))` passes null to `ConcurrentHashMap.get`, which throws `NullPointerException` | a request with no `ATMOSPHERE_RESOURCE` attribute, i.e. one that did not pass through the Meteor servlet | return null ("a Meteor or null if not found"), just as for a resource with no handle | high; not executed | `MeteorHandle.Meteor.LookupAsWritten` (with `MeteorHandle.UnboundLookupThrows`) | `MeteorHandle.Meteor.Lookup` |
