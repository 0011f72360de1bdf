// The API server: a store of objects, and what each call of the operator does to it.
module Cluster {
  import opened Text
  import opened Api
  import opened Objects

  type Contents = map<Key, Object>

  // Versions and uids below the counters have been given out.
  datatype Store = Store(objects: Contents, nextVersion: nat, nextUid: nat)

  datatype Request =
    | Get(key: Key)
    | Create(manifest: Manifest)
    | Apply(manifest: Manifest)
    | Delete(key: Key, only: Option<Precondition>)
    | Update(key: Key, obj: Object)
    | PatchStatus(key: Key, conditions: seq<Condition>)

  datatype Precondition = Precondition(uid: nat, version: nat)

  // A conflict, an object that already exists and a refusal are all just failures to the
  // operator.
  datatype Response = Found(obj: Object) | Done | NotFound | Failed

  // ---- Effects of writes ---------------------------------------------------

  function Owners(m: Manifest): set<nat> {
    if m.owner == None then {} else {m.owner.value}
  }

  // Every write takes a fresh version.
  function Put(store: Store, key: Key, obj: Object): Store {
    store.(objects := store.objects[key := obj.(version := store.nextVersion)], nextVersion := store.nextVersion + 1)
  }

  // A created object takes a fresh uid as well.
  function Insert(store: Store, m: Manifest): Store {
    var obj := Object(store.nextUid, store.nextVersion, Meta(m.labels, Owners(m), {}, false), m.body);
    Store(store.objects[m.key := obj], store.nextVersion + 1, store.nextUid + 1)
  }

  function Remove(store: Store, key: Key): Store {
    store.(objects := store.objects - {key})
  }

  // Server-side apply sets the desired fields and keeps the others: labels and owners are
  // merged, the status of a workload stays.
  function Merged(obj: Object, m: Manifest): Object {
    obj.(
      meta := obj.meta.(labels := obj.meta.labels + m.labels, owners := obj.meta.owners + Owners(m)),
      body := if obj.body.Workload? && m.body.Workload? then m.body.(status := obj.body.status) else m.body)
  }

  // A write that changes nothing does not even change the version.
  function Replace(store: Store, key: Key, obj: Object): Store
    requires key in store.objects
  {
    if obj == store.objects[key] then store else Put(store, key, obj)
  }

  // Updating a custom resource: the caller's metadata and spec, the stored status and
  // deletion mark. A resource marked for deletion goes away with its last finalizer.
  function Updated(stored: Object, obj: Object): Object {
    stored.(
      meta := obj.meta.(deleting := stored.meta.deleting),
      body := if obj.body.Resource? && stored.body.Resource?
              then obj.body.(conditions := stored.body.conditions) else stored.body)
  }

  // Status conditions are a map keyed by type: applied entries replace those of their type.
  function MergedConditions(stored: seq<Condition>, applied: seq<Condition>): seq<Condition> {
    applied + OtherTypes(stored, applied)
  }

  function OtherTypes(stored: seq<Condition>, applied: seq<Condition>): seq<Condition> {
    if stored == [] then []
    else
      (if exists i | 0 <= i < |applied| :: applied[i].ctype == stored[0].ctype then [] else [stored[0]])
      + OtherTypes(stored[1..], applied)
  }

  function WithConditions(stored: Object, applied: seq<Condition>): Object {
    if stored.body.Resource?
    then stored.(body := stored.body.(conditions := MergedConditions(stored.body.conditions, applied)))
    else stored
  }

  // What the server does with a write, when it does it.
  function Serve(store: Store, request: Request): (Store, Response) {
    match request
    case Get(key) =>
      (store, if key in store.objects then Found(store.objects[key]) else NotFound)
    case Create(m) =>
      if m.key in store.objects then (store, Failed) else (Insert(store, m), Done)
    case Apply(m) =>
      if m.key in store.objects then (Replace(store, m.key, Merged(store.objects[m.key], m)), Done)
      else (Insert(store, m), Done)
    case Delete(key, only) =>
      if key !in store.objects then (store, NotFound)
      else
        var stored := store.objects[key];
        if only.Some? && only.value != Precondition(stored.uid, stored.version) then (store, Failed)
        else (Remove(store, key), Done)
    case Update(key, obj) =>
      if key !in store.objects then (store, NotFound)
      else
        var stored := store.objects[key];
        if obj.version != stored.version then (store, Failed)
        else
          var next := Updated(stored, obj);
          (if next.meta.deleting && next.meta.finalizers == {} then Remove(store, key)
           else Replace(store, key, next), Done)
    case PatchStatus(key, conditions) =>
      if key !in store.objects then (store, NotFound)
      else (Replace(store, key, WithConditions(store.objects[key], conditions)), Done)
  }

  // A call may be refused, or take effect and still look like a failure to its caller.
  datatype Outcome = Served | Refused | Lost

  function Call(store: Store, request: Request, outcome: Outcome): (Store, Response) {
    match outcome
    case Served => Serve(store, request)
    case Refused => (store, Failed)
    case Lost => (Serve(store, request).0, Failed)
  }

  // ---- Versions ------------------------------------------------------------

  ghost predicate WellFormed(store: Store) {
    forall key | key in store.objects :: store.objects[key].version < store.nextVersion
  }

  // `later` comes after `earlier`: what is not as it was has a version that was still
  // unused then.
  ghost predicate Follows(earlier: Store, later: Store) {
    && earlier.nextVersion <= later.nextVersion
    && forall key | key in later.objects ::
         || (key in earlier.objects && later.objects[key] == earlier.objects[key])
         || earlier.nextVersion <= later.objects[key].version
  }

  lemma ServeFollows(store: Store, request: Request)
    requires WellFormed(store)
    ensures WellFormed(Serve(store, request).0)
    ensures Follows(store, Serve(store, request).0)
  {
  }

  lemma CallFollows(store: Store, request: Request, outcome: Outcome)
    requires WellFormed(store)
    ensures WellFormed(Call(store, request, outcome).0)
    ensures Follows(store, Call(store, request, outcome).0)
  {
    ServeFollows(store, request);
  }

  lemma FollowsTransitive(a: Store, b: Store, c: Store)
    requires Follows(a, b) && Follows(b, c)
    ensures Follows(a, c)
  {
  }

  // An object that has the same version at two times had it all the time in between.
  lemma SameVersionSameObject(a: Store, b: Store, c: Store, key: Key)
    requires WellFormed(a) && Follows(a, b) && Follows(b, c)
    requires key in a.objects && key in c.objects && a.objects[key].version == c.objects[key].version
    ensures key in b.objects && b.objects[key] == a.objects[key] == c.objects[key]
  {
  }

  // Which object a write may touch, and what may stand there afterwards.
  function Target(request: Request): Key {
    match request
    case Get(key) => key
    case Create(m) => m.key
    case Apply(m) => m.key
    case Delete(key, _) => key
    case Update(key, _) => key
    case PatchStatus(key, _) => key
  }

  lemma OnlyTargetChanges(store: Store, request: Request, outcome: Outcome, key: Key)
    requires key != Target(request)
    ensures var after := Call(store, request, outcome).0;
      && (key in after.objects <==> key in store.objects)
      && (key in after.objects ==> after.objects[key] == store.objects[key])
  {
  }
}
