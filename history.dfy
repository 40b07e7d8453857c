/** The history screen (src/features/history/HistoryScreen.tsx): remote sessions
    fetched from the backend, merged with the sessions cached on the device. */
module History {
  import opened Wrappers
  import opened Domain
  import opened Sequences
  import opened JournalRepository
  import opened JournalStore

  /** How many sessions the screen asks the backend for. */
  const HistoryLimit: nat := 20

  const BackendUnreachable := "Unable to reach the backend. Showing local history only."

  /** The identifiers of `sessions`, in order. */
  function Ids(sessions: seq<JournalSession>): (ids: seq<string>)
    ensures |ids| == |sessions| && forall i :: 0 <= i < |sessions| ==> ids[i] == sessions[i].id
  {
    seq(|sessions|, i requires 0 <= i < |sessions| => sessions[i].id)
  }

  /** The session the merged list shows for `id`: the last remote session with
      that id if there is one (later `set`s overwrite), else the first local one
      (later local ones are skipped by the `has` check). */
  function Winner(remote: seq<JournalSession>, local: seq<JournalSession>, id: string): (w: JournalSession)
    requires id in Ids(remote) + Ids(local)
    ensures w.id == id
  {
    if id in Ids(remote) then remote[LastIndex(Ids(remote), id)]
    else local[FirstIndex(Ids(local), id)]
  }

  /** The reference merge: one session per distinct identifier of remote then
      local, in order of first appearance, each the `Winner` for its id. */
  function Merged(remote: seq<JournalSession>, local: seq<JournalSession>): (merged: seq<JournalSession>)
    ensures |merged| == |Distinct(Ids(remote) + Ids(local))|
  {
    var order := Distinct(Ids(remote) + Ids(local));
    seq(|order|, i requires 0 <= i < |order| => Winner(remote, local, order[i]))
  }

  /** The `Map` after `set` has been called with the first `i` remote sessions:
      `keys` is its key order and `values` its contents. */
  ghost predicate RemoteFilled(remote: seq<JournalSession>, i: nat, keys: seq<string>, values: map<string, JournalSession>)
  {
    && i <= |remote|
    && keys == Distinct(Ids(remote)[..i])
    && (forall id :: id in values <==> id in Ids(remote)[..i])
    && (forall id :: id in values ==> values[id] == remote[LastIndex(Ids(remote)[..i], id)])
  }

  /** The `Map` after the remote sessions and the first `j` local ones went in. */
  ghost predicate LocalFilled(remote: seq<JournalSession>, local: seq<JournalSession>, j: nat,
                              keys: seq<string>, values: map<string, JournalSession>)
  {
    && j <= |local|
    && keys == Distinct(Ids(remote) + Ids(local)[..j])
    && (forall id :: id in values <==> id in Ids(remote) + Ids(local)[..j])
    && (forall id :: id in values ==>
          values[id] == (if id in Ids(remote) then remote[LastIndex(Ids(remote), id)]
                         else local[FirstIndex(Ids(local)[..j], id)]))
  }

  /** `LocalFilled` from its four parts. */
  lemma LocalFilledIntro(remote: seq<JournalSession>, local: seq<JournalSession>, j: nat,
                         keys: seq<string>, values: map<string, JournalSession>)
    requires j <= |local|
    requires keys == Distinct(Ids(remote) + Ids(local)[..j])
    requires forall id :: id in values <==> id in Ids(remote) + Ids(local)[..j]
    requires forall id :: id in values ==>
      values[id] == (if id in Ids(remote) then remote[LastIndex(Ids(remote), id)]
                     else local[FirstIndex(Ids(local)[..j], id)])
    ensures LocalFilled(remote, local, j, keys, values)
  {
  }

  /** `map.set(item.id, item)` for the next remote session: a new key is appended,
      an existing one keeps its place and gets the new value. */
  lemma RemoteSetStep(remote: seq<JournalSession>, i: nat, keys: seq<string>, values: map<string, JournalSession>)
    requires RemoteFilled(remote, i, keys, values) && i < |remote|
    ensures RemoteFilled(remote, i + 1,
      if remote[i].id in values then keys else keys + [remote[i].id],
      values[remote[i].id := remote[i]])
  {
    var ids := Ids(remote);
    var item := remote[i];
    var pre, post := ids[..i], ids[..i + 1];
    assert post == pre + [item.id];
    DistinctSnoc(pre, item.id);
    var values' := values[item.id := item];
    assert forall id :: id in values' <==> id in post;
    forall id | id in values'
      ensures values'[id] == remote[LastIndex(post, id)]
    {
      LastIndexSnoc(pre, item.id, id);
    }
  }

  /** `if (!map.has(item.id)) map.set(item.id, item)` for the next local session. */
  lemma LocalSetStep(remote: seq<JournalSession>, local: seq<JournalSession>, j: nat,
                     keys: seq<string>, values: map<string, JournalSession>)
    requires LocalFilled(remote, local, j, keys, values) && j < |local|
    ensures LocalFilled(remote, local, j + 1,
      if local[j].id in values then keys else keys + [local[j].id],
      if local[j].id in values then values else values[local[j].id := local[j]])
  {
    if local[j].id in values {
      LocalSetKnown(remote, local, j, keys, values);
    } else {
      LocalSetNew(remote, local, j, keys, values);
    }
  }

  /** A local session whose id is already a key changes nothing. */
  lemma LocalSetKnown(remote: seq<JournalSession>, local: seq<JournalSession>, j: nat,
                      keys: seq<string>, values: map<string, JournalSession>)
    requires LocalFilled(remote, local, j, keys, values) && j < |local| && local[j].id in values
    ensures LocalFilled(remote, local, j + 1, keys, values)
  {
    var remoteIds, localIds := Ids(remote), Ids(local);
    var pre, post := remoteIds + localIds[..j], remoteIds + localIds[..j + 1];
    LocalIdsSnoc(remoteIds, localIds, j);
    assert local[j].id in pre;
    assert keys == Distinct(post) by {
      DistinctSnoc(pre, local[j].id);
    }
    assert forall id :: id in post <==> id in pre;
    assert forall id :: id in values <==> id in post;
    assert forall id :: id in values ==>
      values[id] == (if id in remoteIds then remote[LastIndex(remoteIds, id)]
                     else local[FirstIndex(localIds[..j + 1], id)])
    by {
      LocalFirstIndexStep(localIds, j);
      forall id | id in values && id !in remoteIds
        ensures FirstIndex(localIds[..j + 1], id) == FirstIndex(localIds[..j], id)
      {
        assert id in localIds[..j];
      }
    }
    LocalFilledIntro(remote, local, j + 1, keys, values);
  }

  /** A local session with a new id is appended to the keys and stored. */
  lemma LocalSetNew(remote: seq<JournalSession>, local: seq<JournalSession>, j: nat,
                    keys: seq<string>, values: map<string, JournalSession>)
    requires LocalFilled(remote, local, j, keys, values) && j < |local| && local[j].id !in values
    ensures LocalFilled(remote, local, j + 1, keys + [local[j].id], values[local[j].id := local[j]])
  {
    var remoteIds, localIds := Ids(remote), Ids(local);
    var item := local[j];
    var pre, post := remoteIds + localIds[..j], remoteIds + localIds[..j + 1];
    var values' := values[item.id := item];
    LocalIdsSnoc(remoteIds, localIds, j);
    assert item.id !in remoteIds && item.id !in localIds[..j];
    assert keys + [item.id] == Distinct(post) by {
      DistinctSnoc(pre, item.id);
    }
    assert forall id :: id in post <==> id in pre || id == item.id;
    assert forall id :: id in values' <==> id in post;
    LocalFirstIndexStep(localIds, j);
    forall id | id in values'
      ensures values'[id] == (if id in remoteIds then remote[LastIndex(remoteIds, id)]
                              else local[FirstIndex(localIds[..j + 1], id)])
    {
      if id != item.id && id !in remoteIds {
        assert id in localIds[..j];
      }
    }
    LocalFilledIntro(remote, local, j + 1, keys + [item.id], values');
  }

  lemma LocalIdsSnoc(remoteIds: seq<string>, localIds: seq<string>, j: nat)
    requires j < |localIds|
    ensures localIds[..j + 1] == localIds[..j] + [localIds[j]]
    ensures remoteIds + localIds[..j + 1] == (remoteIds + localIds[..j]) + [localIds[j]]
  {
    assert localIds[..j + 1] == localIds[..j] + [localIds[j]];
  }

  lemma LocalFirstIndexStep(localIds: seq<string>, j: nat)
    requires j < |localIds|
    ensures forall id :: id in localIds[..j + 1] ==>
      FirstIndex(localIds[..j + 1], id) == if id in localIds[..j] then FirstIndex(localIds[..j], id) else j
  {
    assert localIds[..j + 1] == localIds[..j] + [localIds[j]];
    forall id | id in localIds[..j + 1]
      ensures FirstIndex(localIds[..j + 1], id) == if id in localIds[..j] then FirstIndex(localIds[..j], id) else j
    {
      FirstIndexSnoc(localIds[..j], localIds[j], id);
    }
  }

  /** Once every remote session is in, the local phase starts with nothing local. */
  lemma RemoteDone(remote: seq<JournalSession>, local: seq<JournalSession>, keys: seq<string>, values: map<string, JournalSession>)
    requires RemoteFilled(remote, |remote|, keys, values)
    ensures LocalFilled(remote, local, 0, keys, values)
  {
    assert Ids(remote)[..|remote|] == Ids(remote);
    assert Ids(remote) + Ids(local)[..0] == Ids(remote);
  }

  /** Once every local session is in, the values in key order are the merge. */
  lemma LocalDone(remote: seq<JournalSession>, local: seq<JournalSession>, keys: seq<string>, values: map<string, JournalSession>)
    requires LocalFilled(remote, local, |local|, keys, values)
    ensures |keys| == |Merged(remote, local)|
    ensures forall k :: 0 <= k < |keys| ==> keys[k] in values && values[keys[k]] == Merged(remote, local)[k]
  {
    assert Ids(local)[..|local|] == Ids(local);
  }

  /** `remoteSessions.forEach((item) => map.set(item.id, item))` on a new `Map`. */
  method SetRemote(remote: seq<JournalSession>) returns (keys: seq<string>, values: map<string, JournalSession>)
    ensures RemoteFilled(remote, |remote|, keys, values)
  {
    keys, values := [], map[];
    for i := 0 to |remote|
      invariant RemoteFilled(remote, i, keys, values)
    {
      RemoteSetStep(remote, i, keys, values);
      var item := remote[i];
      if item.id !in values {
        keys := keys + [item.id];
      }
      values := values[item.id := item];
    }
  }

  /** `localSessions.forEach(...)`: each local session is set only when its id is
      not in the `Map` yet. */
  method AddLocal(remote: seq<JournalSession>, local: seq<JournalSession>,
                  keys0: seq<string>, values0: map<string, JournalSession>)
    returns (keys: seq<string>, values: map<string, JournalSession>)
    requires LocalFilled(remote, local, 0, keys0, values0)
    ensures LocalFilled(remote, local, |local|, keys, values)
  {
    keys, values := keys0, values0;
    for j := 0 to |local|
      invariant LocalFilled(remote, local, j, keys, values)
    {
      LocalSetStep(remote, local, j, keys, values);
      var item := local[j];
      if item.id !in values {
        keys := keys + [item.id];
        values := values[item.id := item];
      }
    }
  }

  /** `Array.from(map.values())`: the values in key order. */
  method ValuesInOrder(keys: seq<string>, values: map<string, JournalSession>) returns (list: seq<JournalSession>)
    requires forall k :: 0 <= k < |keys| ==> keys[k] in values
    ensures |list| == |keys|
    ensures forall k :: 0 <= k < |keys| ==> list[k] == values[keys[k]]
  {
    list := [];
    for t := 0 to |keys|
      invariant |list| == t
      invariant forall k :: 0 <= k < t ==> list[k] == values[keys[k]]
    {
      list := list + [values[keys[t]]];
    }
  }

  /** The `combined` memo: a `Map` keyed by id, filled with every remote session
      and then with each local session whose id it does not hold yet; its values
      in insertion order. `keys` and `values` together are the `Map`. */
  method Combine(remote: seq<JournalSession>, local: seq<JournalSession>) returns (combined: seq<JournalSession>)
    ensures combined == Merged(remote, local)
  {
    var keys, values := SetRemote(remote);
    RemoteDone(remote, local, keys, values);
    keys, values := AddLocal(remote, local, keys, values);
    LocalDone(remote, local, keys, values);
    combined := ValuesInOrder(keys, values);
  }

  /** The merged list lists the distinct identifiers of remote then local, in
      order of first appearance. */
  lemma MergedIds(remote: seq<JournalSession>, local: seq<JournalSession>)
    ensures Ids(Merged(remote, local)) == Distinct(Ids(remote) + Ids(local))
  {
  }

  /** Every remote session's id is in the merged list, and the entry for an id
      that some remote session has is the last remote session with that id: the
      remote copy wins over a local one. */
  lemma MergedRemoteWins(remote: seq<JournalSession>, local: seq<JournalSession>)
    ensures forall k :: 0 <= k < |remote| ==> remote[k].id in Ids(Merged(remote, local))
    ensures var merged := Merged(remote, local);
      forall i :: 0 <= i < |merged| && merged[i].id in Ids(remote) ==>
        merged[i] == remote[LastIndex(Ids(remote), merged[i].id)]
  {
    MergedIds(remote, local);
    var all := Ids(remote) + Ids(local);
    forall k | 0 <= k < |remote| ensures remote[k].id in Ids(Merged(remote, local)) {
      assert all[k] == remote[k].id;
    }
  }

  /** Every local session's id is in the merged list; an entry whose id no remote
      session has is the first local session with that id. */
  lemma MergedLocalFirst(remote: seq<JournalSession>, local: seq<JournalSession>)
    ensures forall k :: 0 <= k < |local| ==> local[k].id in Ids(Merged(remote, local))
    ensures var merged := Merged(remote, local);
      forall i :: 0 <= i < |merged| && merged[i].id !in Ids(remote) ==>
        merged[i] == local[FirstIndex(Ids(local), merged[i].id)]
  {
    MergedIds(remote, local);
    var all := Ids(remote) + Ids(local);
    forall k | 0 <= k < |local| ensures local[k].id in Ids(Merged(remote, local)) {
      assert all[|remote| + k] == local[k].id;
    }
  }

  /** No two merged sessions share an id, and there are as many as there are
      distinct ids across both lists. */
  lemma MergedUnique(remote: seq<JournalSession>, local: seq<JournalSession>)
    ensures NoDup(Ids(Merged(remote, local)))
    ensures |Merged(remote, local)| == |Elements(Ids(remote)) + Elements(Ids(local))|
  {
    MergedIds(remote, local);
    var all := Ids(remote) + Ids(local);
    DistinctCard(all);
    assert Elements(all) == Elements(Ids(remote)) + Elements(Ids(local));
  }

  /** Merged sessions come in the order their ids were first inserted: remote
      order first, then local order, so every session taken from the remote list
      precedes every local-only one. */
  lemma MergedOrder(remote: seq<JournalSession>, local: seq<JournalSession>)
    ensures var merged := Merged(remote, local);
      forall i, j :: 0 <= i < j < |merged| ==>
        FirstIndex(Ids(remote) + Ids(local), merged[i].id) < FirstIndex(Ids(remote) + Ids(local), merged[j].id)
    ensures var merged := Merged(remote, local);
      forall i, j :: 0 <= i < |merged| && 0 <= j < |merged| && merged[i].id in Ids(remote) && merged[j].id !in Ids(remote) ==>
        i < j
  {
    var all := Ids(remote) + Ids(local);
    var merged := Merged(remote, local);
    MergedIds(remote, local);
    DistinctOrder(all);
    forall i, j | 0 <= i < |merged| && 0 <= j < |merged| && merged[i].id in Ids(remote) && merged[j].id !in Ids(remote)
      ensures i < j
    {
      FirstIndexConcat(Ids(remote), Ids(local), merged[i].id);
      FirstIndexConcat(Ids(remote), Ids(local), merged[j].id);
    }
  }

  /** Nothing remote and nothing local merge to nothing ("No sessions yet."). */
  lemma MergedEmpty()
    ensures Merged([], []) == []
  {
  }

  /** A remote list that repeats an id keeps the last copy, at the first copy's place. */
  lemma RepeatedRemoteId(a1: JournalSession, b: JournalSession, a2: JournalSession)
    requires a1.id == a2.id && a1.id != b.id
    ensures Merged([a1, b, a2], []) == [a2, b]
  {
    var ids := Ids([a1, b, a2]);
    assert ids == [a1.id, b.id, a1.id];
    assert ids[..2][..1] == [a1.id];
    assert Distinct(ids[..1]) == [a1.id];
    assert Distinct(ids[..2]) == [a1.id, b.id];
    assert Ids([a1, b, a2]) + Ids([]) == ids;
    assert Distinct(ids) == [a1.id, b.id];
    assert LastIndex(ids, a1.id) == 2;
  }

  class HistoryScreen {
    var remoteSessions: seq<JournalSession>
    var loading: bool
    var error: Option<string>
    const db: RowStore
    const cache: JournalProvider

    constructor (db: RowStore, cache: JournalProvider)
      ensures remoteSessions == [] && !loading && error == None
      ensures this.db == db && this.cache == cache
    {
      remoteSessions, loading, error := [], false, None;
      this.db, this.cache := db, cache;
    }

    /** `loadSessions`: nothing happens without a signed-in user; otherwise the
        fetch result replaces `remoteSessions`, or on failure they stay and the
        error is shown. `loading` ends false either way. */
    method LoadSessions(userId: Option<string>, parse: Parse)
      modifies this, db`log
      ensures !SignedIn(userId) ==>
        && remoteSessions == old(remoteSessions) && loading == old(loading) && error == old(error)
        && db.log == old(db.log)
      ensures SignedIn(userId) ==>
        var outcome := FetchOutcome(db.sessions, db.summaries, db.faults, userId.value, HistoryLimit, parse);
        && !loading
        && db.log == old(db.log) + FetchRequests(db.sessions, db.faults, userId.value, HistoryLimit)
        && (outcome.Success? ==> remoteSessions == outcome.value && error == None)
        && (outcome.Failure? ==> remoteSessions == old(remoteSessions) && error == Some(BackendUnreachable))
    {
      if !SignedIn(userId) {
        return;
      }
      loading := true;
      error := None;
      var data := FetchRecentSessions(db, userId.value, HistoryLimit, parse);
      if data.Success? {
        remoteSessions := data.value;
      } else {
        error := Some(BackendUnreachable);
      }
      loading := false;
    }

    /** The list the screen shows: remote sessions merged with the cached ones. */
    method Combined() returns (combined: seq<JournalSession>)
      ensures combined == Merged(remoteSessions, cache.sessions)
    {
      combined := Combine(remoteSessions, cache.sessions);
    }
  }
}
