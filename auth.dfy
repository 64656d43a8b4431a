/**
  The workspace authorization accessor of internal/backend/auth.go: a
  read-through cache in front of the store, and a read-modify-write update
  of the stored record that leaves the cache alone.
*/
module Auth {
  import opened Wrappers
  import opened Backend

  /** The memcache entries that hold authorizations; expiry is not modelled. */
  type Cache = map<string, Authorization>

  /** The memcache key of a workspace's authorization. */
  function CacheKey(id: string): string {
    "workspace.auth" + id
  }

  /** Distinct workspaces never share a cache entry. */
  lemma CacheKeyInjective(a: string, b: string)
    ensures CacheKey(a) == CacheKey(b) ==> a == b
  {
    var prefix := "workspace.auth";
    if CacheKey(a) == CacheKey(b) {
      assert a == CacheKey(a)[|prefix|..];
      assert b == CacheKey(b)[|prefix|..];
    }
  }

  /** The record GetAuthorization yields: the cached one if any, else the stored one. */
  function Resolve(cache: Cache, auths: map<string, Authorization>, id: string): Option<Authorization> {
    if CacheKey(id) in cache then Some(cache[CacheKey(id)])
    else if id in auths then Some(auths[id])
    else None
  }

  /** The cache after GetAuthorization: populated on a miss that the store can answer. */
  function CacheAfterGet(cache: Cache, auths: map<string, Authorization>, id: string): Cache {
    if CacheKey(id) !in cache && id in auths then cache[CacheKey(id) := auths[id]] else cache
  }

  /** GetAuthorization. */
  method GetAuthorization(cache: Cache, auths: map<string, Authorization>, id: string)
    returns (r: Result<Authorization, Error>, cache': Cache)
    // a hit answers from the cache, whatever the store holds
    ensures CacheKey(id) in cache ==> r == Ok(cache[CacheKey(id)]) && cache' == cache
    // a miss the store can answer returns the stored record and caches it
    ensures CacheKey(id) !in cache && id in auths ==>
      r == Ok(auths[id]) && cache' == cache[CacheKey(id) := auths[id]]
    // a miss the store cannot answer fails and caches nothing
    ensures CacheKey(id) !in cache && id !in auths ==> r == Err(NoSuchEntity) && cache' == cache
  {
    var key := CacheKey(id);
    if key in cache {
      r, cache' := Ok(cache[key]), cache;
    } else if id in auths {
      var auth := auths[id];
      cache' := cache[key := auth];
      r := Ok(auth);
    } else {
      r, cache' := Err(NoSuchEntity), cache;
    }
  }

  /**
    GetAuthToken: the access token of the record GetAuthorization yields, or
    its error. GetAuthorization never yields a missing record without an
    error, so the source's nil-record branch has no counterpart here.
  */
  method GetAuthToken(cache: Cache, auths: map<string, Authorization>, id: string)
    returns (token: Result<string, Error>, cache': Cache)
    ensures cache' == CacheAfterGet(cache, auths, id)
    ensures Resolve(cache, auths, id).Some? ==> token == Ok(Resolve(cache, auths, id).value.accessToken)
    ensures Resolve(cache, auths, id).None? ==> token == Err(NoSuchEntity)
  {
    var auth;
    auth, cache' := GetAuthorization(cache, auths, id);
    if auth.Err? {
      return Err(auth.error), cache';
    }
    token := Ok(auth.value.accessToken);
  }

  /**
    UpdateAuthorization: overlay token, scope and the update time on the
    stored record, or create a full record when the store's Get fails.
    `readOk` is whether that Get succeeds: every failed Get, not only a
    missing record, leads to a fresh record. `firstReading` and
    `secondReading` are the two successive clock readings the source takes;
    `putOk` is whether the store accepts the put. The cache is not a
    parameter: the update never touches it.
  */
  method UpdateAuthorization(st: Datastore, id: string, name: string, token: string, scope: string,
                             authorizingUser: string, installerUser: string, readOk: bool,
                             firstReading: int, secondReading: int, putOk: bool)
    returns (st': Datastore, err: Option<Error>)
    ensures err == None <==> putOk
    ensures !putOk ==> st' == st
    // only the authorization under `id` may change
    ensures putOk ==> id in st'.auths && st' == st.(auths := st.auths[id := st'.auths[id]])
    // an existing record keeps its identity, name, users and creation time
    ensures putOk && readOk && id in st.auths ==>
      st'.auths[id] == st.auths[id].(accessToken := token, scope := scope, updated := firstReading)
    ensures putOk && !(readOk && id in st.auths) ==>
      st'.auths[id] == Authorization(id, name, token, scope, authorizingUser, installerUser,
                                     firstReading, secondReading)
  {
    var auth: Authorization;
    if readOk && id in st.auths {
      auth := st.auths[id];
      auth := auth.(accessToken := token);
      auth := auth.(scope := scope);
      auth := auth.(updated := firstReading);
    } else {
      auth := Authorization(id, name, token, scope, authorizingUser, installerUser,
                            firstReading, secondReading);
    }
    if putOk {
      st' := st.(auths := st.auths[id := auth]);
      err := None;
    } else {
      st' := st;
      err := Some(PutFailed);
    }
  }

  /**
    A cached token goes stale: after an update of a workspace whose
    authorization is cached, reading its token still yields the cached one,
    while the store holds the new one.
  */
  method UpdateThenReadToken(st: Datastore, cache: Cache, id: string, token: string, scope: string,
                             now: int)
    returns (st': Datastore, seen: Result<string, Error>)
    requires CacheKey(id) in cache
    ensures id in st'.auths && st'.auths[id].accessToken == token
    ensures seen == Ok(cache[CacheKey(id)].accessToken)
  {
    var err;
    st', err := UpdateAuthorization(st, id, "", token, scope, "", "", true, now, now, true);
    var cache';
    seen, cache' := GetAuthToken(cache, st'.auths, id);
  }
}
