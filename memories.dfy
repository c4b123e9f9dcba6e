/**
 * The per-object memory store of the operator: one mutable record per
 * Kubernetes object, kept in memory only and keyed by the object's uid.
 */
module Memories {
  import opened Wrappers
  import opened Bodies
  import Memos

  type HandlerId = string

  type DaemonId = string

  /**
   * A running daemon. Its guarding task, logger, handler and stopper are
   * not part of this model; a daemon is an opaque token here.
   */
  datatype Daemon = Daemon(token: nat)

  /** The two ways key derivation can leave the string-keyed domain. */
  datatype BuildKeyError =
    | MetadataNotMapping  // `metadata` is present but has no `.get` (Python raises AttributeError)
    | NonStringUid        // a truthy `uid` that is not a string

  /**
   * The key of a resource's memory: its `metadata.uid`, or `""` when there is
   * no metadata, no uid, or a falsy uid (`None`, empty string, ...).
   */
  function BuildKey(body: RawBody): (r: Result<string, BuildKeyError>)
    ensures "metadata" !in body ==> r == Ok("")
    ensures "metadata" in body && !body["metadata"].Obj? ==> r == Err(MetadataNotMapping)
    ensures "metadata" in body && body["metadata"].Obj? ==>
              var meta := body["metadata"].fields;
              && ("uid" !in meta ==> r == Ok(""))
              && ("uid" in meta && meta["uid"].Str? ==> r == Ok(meta["uid"].s))
              && ("uid" in meta && !meta["uid"].Str? ==>
                    r == if Truthy(meta["uid"]) then Err(NonStringUid) else Ok(""))
    ensures r.Ok? && r.value != "" ==>
              && "metadata" in body && body["metadata"].Obj?
              && "uid" in body["metadata"].fields
              && body["metadata"].fields["uid"] == Str(r.value)
  {
    var metadata := Get(body, "metadata", Obj(map[]));
    if !metadata.Obj? then Err(MetadataNotMapping)
    else
      var uid := Get(metadata.fields, "uid", Null);
      if !Truthy(uid) then Ok("")
      else if uid.Str? then Ok(uid.s)
      else Err(NonStringUid)
  }

  /**
   * The key depends on nothing but the body's `metadata.uid`: two bodies that
   * agree on it share one memory, however else they differ.
   */
  lemma KeyDependsOnlyOnUid(b1: RawBody, b2: RawBody)
    requires Get(b1, "metadata", Obj(map[])).Obj? && Get(b2, "metadata", Obj(map[])).Obj?
    requires Get(Get(b1, "metadata", Obj(map[])).fields, "uid", Null)
          == Get(Get(b2, "metadata", Obj(map[])).fields, "uid", Null)
    ensures BuildKey(b1) == BuildKey(b2)
  {
  }

  /** A system memo about a single resource: user data, bookkeeping flags, daemons. */
  class ResourceMemory {
    var memo: Memos.Memo
    var noticedByListing: bool
    var fullyHandledOnce: bool
    var liveFreshBody: Option<RawBody>
    var idleResetTime: real
    var foreverStopped: set<HandlerId>
    var daemons: map<DaemonId, Daemon>

    /** The field defaults of a record created with the given flag at the given time. */
    ghost predicate HasDefaults(noticed: bool, now: real)
      reads this, memo
    {
      && memo.items == map[]
      && noticedByListing == noticed
      && !fullyHandledOnce
      && liveFreshBody == None
      && idleResetTime == now
      && foreverStopped == {}
      && daemons == map[]
    }

    /** `ResourceMemory(noticed_by_listing=...)`; `now` is the monotonic clock's reading. */
    constructor (noticedByListing: bool, now: real)
      ensures fresh(memo)
      ensures HasDefaults(noticedByListing, now)
    {
      memo := new Memos.Memo();
      this.noticedByListing := noticedByListing;
      fullyHandledOnce := false;
      liveFreshBody := None;
      idleResetTime := now;
      foreverStopped := {};
      daemons := map[];
    }
  }

  /** The effect of one call of the container on its set of keys. */
  datatype KeyCall = Recalled(key: string) | Forgotten(key: string)

  function Apply(keys: set<string>, call: KeyCall): set<string> {
    match call
    case Recalled(k) => keys + {k}
    case Forgotten(k) => keys - {k}
  }

  /** The keys stored after the calls, in order, starting from `keys`. */
  function Replay(keys: set<string>, calls: seq<KeyCall>): set<string> {
    if calls == [] then keys
    else Apply(Replay(keys, calls[..|calls| - 1]), calls[|calls| - 1])
  }

  /** The last of the calls that names `key`, if any. */
  function LastCallOn(calls: seq<KeyCall>, key: string): Option<KeyCall> {
    if calls == [] then None
    else if calls[|calls| - 1].key == key then Some(calls[|calls| - 1])
    else LastCallOn(calls[..|calls| - 1], key)
  }

  /**
   * After any sequence of recalls and forgets, a key is stored exactly when
   * the last call naming it was a recall (or, if none names it, when it was
   * stored at the start): calls on other keys never add or remove it.
   */
  lemma {:induction false} ReplayedKeys(keys: set<string>, calls: seq<KeyCall>, key: string)
    ensures key in Replay(keys, calls) <==>
              match LastCallOn(calls, key)
              case None => key in keys
              case Some(c) => c.Recalled?
  {
    if calls != [] {
      ReplayedKeys(keys, calls[..|calls| - 1], key);
    }
  }

  /** A container of the memories of every resource handled by one operator. */
  class ResourceMemories {
    var items: map<string, ResourceMemory>

    /** No record is stored under two keys. */
    ghost predicate Valid()
      reads this
    {
      forall k1, k2 :: k1 in items && k2 in items && k1 != k2 ==> items[k1] != items[k2]
    }

    constructor ()
      ensures Valid()
      ensures items == map[]
    {
      items := map[];
    }

    /** Every stored record, each exactly once; the container is not changed. */
    method IterAllMemories() returns (rs: seq<ResourceMemory>)
      requires Valid()
      ensures forall m :: m in rs <==> m in items.Values
      ensures forall i, j :: 0 <= i < j < |rs| ==> rs[i] != rs[j]
      ensures |rs| == |items|
    {
      rs := [];
      ghost var visited: seq<string> := [];
      var remaining := items.Keys;
      while remaining != {}
        invariant remaining <= items.Keys
        invariant |visited| == |rs|
        invariant |visited| + |remaining| == |items|
        invariant forall i :: 0 <= i < |visited| ==> visited[i] in items && rs[i] == items[visited[i]]
        invariant forall k :: k in visited <==> k in items && k !in remaining
        invariant forall i, j :: 0 <= i < j < |visited| ==> visited[i] != visited[j]
        decreases remaining
      {
        var key :| key in remaining;
        rs := rs + [items[key]];
        visited := visited + [key];
        remaining := remaining - {key};
      }
      forall m | m in items.Values ensures m in rs {
        var k :| k in items && items[k] == m;
        assert k in visited;
        var i :| 0 <= i < |visited| && visited[i] == k;
        assert rs[i] == m;
      }
    }

    /**
     * The record stored under the body's key; when none is stored, a record
     * with default fields is inserted under that key first.
     * A stored record is returned as it is, whatever `noticedByListing` says.
     */
    method Recall(body: RawBody, noticedByListing: bool, now: real) returns (r: Result<ResourceMemory, BuildKeyError>)
      requires Valid()
      modifies this
      ensures Valid()
      ensures BuildKey(body).Err? ==> r == Err(BuildKey(body).error) && items == old(items)
      ensures BuildKey(body).Ok? ==>
                var key := BuildKey(body).value;
                && r.Ok? && key in items && items[key] == r.value
                && items.Keys == Apply(old(items.Keys), Recalled(key))
      ensures BuildKey(body).Ok? && BuildKey(body).value in old(items) ==>
                items == old(items) && r == Ok(old(items)[BuildKey(body).value])
      ensures BuildKey(body).Ok? && BuildKey(body).value !in old(items) ==>
                && r.Ok? && fresh(r.value) && fresh(r.value.memo)
                && items == old(items)[BuildKey(body).value := r.value]
                && r.value.HasDefaults(noticedByListing, now)
    {
      var key := BuildKey(body);
      if key.Err? {
        return Err(key.error);
      }
      if key.value !in items {
        var memory := new ResourceMemory(noticedByListing, now);
        items := items[key.value := memory];
      }
      r := Ok(items[key.value]);
    }

    /** Drops the record stored under the body's key, if there is one; the other keys keep theirs. */
    method Forget(body: RawBody) returns (err: Option<BuildKeyError>)
      requires Valid()
      modifies this
      ensures Valid()
      ensures BuildKey(body).Err? ==> err == Some(BuildKey(body).error) && items == old(items)
      ensures BuildKey(body).Ok? ==>
                && err == None
                && items == old(items) - {BuildKey(body).value}
                && items.Keys == Apply(old(items.Keys), Forgotten(BuildKey(body).value))
    {
      var key := BuildKey(body);
      if key.Err? {
        return Some(key.error);
      }
      if key.value in items {
        items := items - {key.value};
      }
      err := None;
    }
  }

  /**
   * Forgetting a resource and recalling it again yields a new record with the
   * default fields, never the record that was forgotten.
   */
  method ForgetThenRecall(store: ResourceMemories, body: RawBody, noticedByListing: bool, now: real)
    returns (r: Result<ResourceMemory, BuildKeyError>)
    requires store.Valid()
    modifies store
    ensures store.Valid()
    ensures BuildKey(body).Ok? ==>
              && r.Ok? && fresh(r.value) && fresh(r.value.memo)
              && r.value.HasDefaults(noticedByListing, now)
              && (BuildKey(body).value in old(store.items) ==> r.value != old(store.items)[BuildKey(body).value])
    ensures BuildKey(body).Ok? ==> store.items == old(store.items)[BuildKey(body).value := r.value]
    ensures BuildKey(body).Err? ==> r == Err(BuildKey(body).error) && store.items == old(store.items)
  {
    var _ := store.Forget(body);
    r := store.Recall(body, noticedByListing, now);
  }

  /**
   * Forgetting a resource twice leaves the store as forgetting it once: only
   * its own key is gone, and both calls report the same outcome.
   */
  method ForgetTwice(store: ResourceMemories, body: RawBody) returns (first: Option<BuildKeyError>, second: Option<BuildKeyError>)
    requires store.Valid()
    modifies store
    ensures store.Valid()
    ensures first == second
    ensures BuildKey(body).Ok? ==> first == None && store.items == old(store.items) - {BuildKey(body).value}
    ensures BuildKey(body).Err? ==> first == Some(BuildKey(body).error) && store.items == old(store.items)
  {
    first := store.Forget(body);
    second := store.Forget(body);
  }

  /** A body whose `metadata.uid` is `key`, so that `BuildKey` gives back `key`. */
  function BodyWithUid(key: string): (body: RawBody)
    ensures BuildKey(body) == Ok(key)
  {
    map["metadata" := Obj(map["uid" := Str(key)])]
  }

  /**
   * Runs the calls, in order, on the store: the keys it holds afterwards are
   * the ones `Replay` predicts, so `ReplayedKeys` describes the store itself.
   */
  method RunCalls(store: ResourceMemories, calls: seq<KeyCall>, now: real)
    requires store.Valid()
    modifies store
    ensures store.Valid()
    ensures store.items.Keys == Replay(old(store.items.Keys), calls)
  {
    ghost var start := store.items.Keys;
    var i := 0;
    while i < |calls|
      invariant 0 <= i <= |calls|
      invariant store.Valid()
      invariant store.items.Keys == Replay(start, calls[..i])
    {
      assert calls[..i + 1][..i] == calls[..i];
      match calls[i] {
        case Recalled(key) =>
          var _ := store.Recall(BodyWithUid(key), false, now);
        case Forgotten(key) =>
          var _ := store.Forget(BodyWithUid(key));
      }
      i := i + 1;
    }
    assert calls[..|calls|] == calls;
  }
}
