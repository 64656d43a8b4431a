/**
  The records the core reads and writes, the durable keyed store that holds
  them, the background work queue's jobs, and the generic "upsert a batch of
  keyed records" fold that every crawl step applies to the store.

  The store's collaborators whose bodies are not part of this model
  (UpdateUser, UpdateChannel, StoreSlackMessage, MarkChannelCrawled,
  GetChannelLatestCrawled, MarkWorkspaceUpdated) are modelled as plain map
  updates, a lookup, and an append to a log.
*/
module Backend {
  import opened Wrappers

  /** One workspace's OAuth grant (AuthorizationDS). */
  datatype Authorization = Authorization(
    id: string,
    name: string,
    accessToken: string,
    scope: string,
    authorizingUser: string,
    installerUser: string,
    created: int,
    updated: int)

  /** The arguments of UpdateUser, as stored. */
  datatype User = User(
    id: string,
    team: string,
    name: string,
    realName: string,
    firstName: string,
    lastName: string,
    email: string,
    deleted: bool,
    isBot: bool)

  /** The arguments of UpdateChannel, as stored; `flag` is its eighth argument. */
  datatype Channel = Channel(
    id: string,
    team: string,
    name: string,
    topic: string,
    purpose: string,
    isArchived: bool,
    isPrivate: bool,
    flag: bool)

  /** A chat message: its timestamp text and everything else, kept opaque. */
  datatype Message = Message(ts: string, payload: string)

  /** Messages are upserted per workspace, channel and timestamp. */
  datatype MessageKey = MessageKey(team: string, channel: string, ts: string)

  /** The key of a channel's crawl watermark. */
  datatype ChannelKey = ChannelKey(team: string, channel: string)

  datatype Workspace = Workspace(id: string, nextUpdate: int)

  /** AssetDS. */
  datatype Asset = Asset(
    uri: string,
    url: string,
    owner: string,
    secretId: string,
    source: string,
    cohort: string,
    affiliate: string,
    tags: string,
    created: int)

  /** MeasurementDS. */
  datatype Measurement = Measurement(
    uri: string,
    user: string,
    ip: string,
    userAgent: string,
    acceptLanguage: string,
    created: int)

  /** GeoLocationDS. */
  datatype GeoLocation = GeoLocation(
    ip: string,
    host: string,
    isp: string,
    city: string,
    countryCode: string,
    countryName: string,
    latitude: string,
    longitude: string)

  /**
    The durable store. Authorizations are keyed by workspace id
    (AuthorizationKey), assets by URI (AssetKey), geolocations by IP
    (GeoLocationKey); measurements get store-chosen keys and so form a log,
    as do the MarkWorkspaceUpdated calls. `workspaces` is the workspace
    table in the order the store's queries return it.
  */
  datatype Datastore = Datastore(
    auths: map<string, Authorization>,
    users: map<string, User>,
    channels: map<string, Channel>,
    messages: map<MessageKey, Message>,
    crawled: map<ChannelKey, int>,
    workspaces: seq<Workspace>,
    workspaceMarks: seq<string>,
    assets: map<string, Asset>,
    geoLocations: map<string, GeoLocation>,
    measurements: seq<Measurement>)

  /** A request on the background work queue: a job endpoint and its query parameters. */
  datatype Job =
    | UsersJob(id: string, cursor: string)
    | ChannelsJob(id: string, cursor: string)
    | MessagesJob(id: string, channel: string, latest: string)

  datatype Error = NoSuchEntity | RemoteCallFailed | PutFailed | QueryFailed

  /** How a handler ended: normally, after reporting an error, or by a runtime panic. */
  datatype Status = Done | Reported(error: Error) | Panicked

  /** GetChannelLatestCrawled: the channel's watermark, 0 for a channel never crawled. */
  function Watermark(st: Datastore, team: string, channel: string): int {
    var k := ChannelKey(team, channel);
    if k in st.crawled then st.crawled[k] else 0
  }

  /** MarkChannelCrawled. */
  function MarkCrawled(st: Datastore, team: string, channel: string, now: int): (st': Datastore)
    ensures Watermark(st', team, channel) == now
    ensures forall t, c :: ChannelKey(t, c) != ChannelKey(team, channel) ==>
      Watermark(st', t, c) == Watermark(st, t, c)
    // nothing but the crawl marks changes
    ensures st' == st.(crawled := st'.crawled)
  {
    st.(crawled := st.crawled[ChannelKey(team, channel) := now])
  }

  // ----- batches of upserts -----

  /** The keys a batch writes. */
  function KeysOf<K, V>(entries: seq<(K, V)>): set<K>
    decreases |entries|
  {
    if entries == [] then {} else KeysOf(entries[..|entries| - 1]) + {entries[|entries| - 1].0}
  }

  /** The map after upserting `entries` one after the other. */
  function PutAll<K, V>(m: map<K, V>, entries: seq<(K, V)>): (r: map<K, V>)
    ensures r.Keys == m.Keys + KeysOf(entries)
    decreases |entries|
  {
    if entries == [] then m
    else
      var last := entries[|entries| - 1];
      PutAll(m, entries[..|entries| - 1])[last.0 := last.1]
  }

  /** The entries of `pairs[..n]` whose write the store accepted. */
  function Accepted<K, V>(pairs: seq<(K, V)>, accepted: nat -> bool, n: nat): seq<(K, V)>
    requires n <= |pairs|
  {
    if n == 0 then []
    else Accepted(pairs, accepted, n - 1) + (if accepted(n - 1) then [pairs[n - 1]] else [])
  }

  predicate DistinctKeys<K(==), V>(pairs: seq<(K, V)>) {
    forall i, j :: 0 <= i < j < |pairs| ==> pairs[i].0 != pairs[j].0
  }

  lemma {:induction false} PutAllAppend<K, V>(m: map<K, V>, entries: seq<(K, V)>, e: (K, V))
    ensures PutAll(m, entries + [e]) == PutAll(m, entries)[e.0 := e.1]
  {
    assert (entries + [e])[..|entries|] == entries;
  }

  /** One step of a loop that upserts `pairs[i]` when the store accepts it. */
  lemma {:induction false} AcceptedStep<K, V>(m: map<K, V>, pairs: seq<(K, V)>, accepted: nat -> bool, i: nat)
    requires i < |pairs|
    ensures PutAll(m, Accepted(pairs, accepted, i + 1)) ==
      if accepted(i) then PutAll(m, Accepted(pairs, accepted, i))[pairs[i].0 := pairs[i].1]
      else PutAll(m, Accepted(pairs, accepted, i))
  {
    var prev := Accepted(pairs, accepted, i);
    assert Accepted(pairs, accepted, i + 1) == prev + (if accepted(i) then [pairs[i]] else []);
    if accepted(i) {
      PutAllAppend(m, prev, pairs[i]);
    } else {
      assert prev + [] == prev;
    }
  }

  /** When the store accepts every write, the batch is the whole prefix. */
  lemma {:induction false} AcceptedAll<K, V>(pairs: seq<(K, V)>, accepted: nat -> bool, n: nat)
    requires n <= |pairs|
    requires forall i :: accepted(i)
    ensures Accepted(pairs, accepted, n) == pairs[..n]
  {
    if n > 0 {
      AcceptedAll(pairs, accepted, n - 1);
      assert pairs[..n] == pairs[..n - 1] + [pairs[n - 1]];
    }
  }

  /** A key the batch does not write keeps its old entry. */
  lemma {:induction false} PutAllElsewhere<K, V>(m: map<K, V>, entries: seq<(K, V)>, k: K)
    requires k in m && k !in KeysOf(entries)
    ensures PutAll(m, entries)[k] == m[k]
    decreases |entries|
  {
    if entries != [] {
      PutAllElsewhere(m, entries[..|entries| - 1], k);
    }
  }

  /** What the batch writes under a key does not depend on what was there before. */
  lemma {:induction false} PutAllOverrides<K, V>(m1: map<K, V>, m2: map<K, V>, entries: seq<(K, V)>, k: K)
    requires k in KeysOf(entries)
    ensures PutAll(m1, entries)[k] == PutAll(m2, entries)[k]
    decreases |entries|
  {
    var last := entries[|entries| - 1];
    if last.0 != k {
      PutAllOverrides(m1, m2, entries[..|entries| - 1], k);
    }
  }

  /** Applying the same batch twice leaves the store as applying it once. */
  lemma {:induction false} PutAllIdempotent<K, V>(m: map<K, V>, entries: seq<(K, V)>)
    ensures PutAll(PutAll(m, entries), entries) == PutAll(m, entries)
  {
    var once := PutAll(m, entries);
    var twice := PutAll(once, entries);
    forall k | k in twice
      ensures twice[k] == once[k]
    {
      if k in KeysOf(entries) {
        PutAllOverrides(once, m, entries, k);
      } else {
        PutAllElsewhere(once, entries, k);
      }
    }
  }

  /** The keys an accepted batch writes are those of the accepted pairs. */
  lemma {:induction false} AcceptedKeys<K, V>(pairs: seq<(K, V)>, accepted: nat -> bool, n: nat, k: K)
    requires n <= |pairs|
    ensures k in KeysOf(Accepted(pairs, accepted, n)) <==>
      exists j :: 0 <= j < n && accepted(j) && pairs[j].0 == k
  {
    if n > 0 {
      AcceptedKeys(pairs, accepted, n - 1, k);
      if accepted(n - 1) {
        var prev := Accepted(pairs, accepted, n - 1);
        assert (prev + [pairs[n - 1]])[..|prev|] == prev;
      } else {
        assert Accepted(pairs, accepted, n) == Accepted(pairs, accepted, n - 1);
      }
    }
  }

  /** With distinct keys, an accepted pair's record is what the store holds afterwards. */
  lemma {:induction false} AcceptedStored<K, V>(m: map<K, V>, pairs: seq<(K, V)>, accepted: nat -> bool, n: nat, j: nat)
    requires n <= |pairs| && DistinctKeys(pairs)
    requires j < n && accepted(j)
    ensures pairs[j].0 in PutAll(m, Accepted(pairs, accepted, n))
    ensures PutAll(m, Accepted(pairs, accepted, n))[pairs[j].0] == pairs[j].1
  {
    AcceptedStep(m, pairs, accepted, n - 1);
    if j < n - 1 {
      AcceptedStored(m, pairs, accepted, n - 1, j);
    }
  }
}
