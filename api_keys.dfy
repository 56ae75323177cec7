/** The API-key collection: an in-memory list of keys, mirrored to local
    storage once loading is over, with create, regenerate, revoke and
    delete, and the read-only selectors. Each operation is atomic: the
    simulated delays are collapsed, and the clock, the generated key texts
    and the storage entry are parameters or fields. */
module ApiKeys {
  import opened Wrappers
  import opened JsBuiltins
  import opened DataUtils
  import opened KeyGenerator

  datatype ApiKey = ApiKey(
    id: string,
    name: string,
    key: string,
    created: string,
    lastUsed: Option<string>,
    status: KeyStatus)

  /** What reading the storage entry can give: text that is not JSON (or
      the empty string), JSON that is not an array, or a list of keys. */
  datatype StoredKeys = Unparseable | NotAnArray | KeyList(keys: seq<ApiKey>)

  const NameRequired: string := "API key name is required"

  // ---------------------------------------------------------------------
  // The list updates

  /** `prev.map(k => k.id === id ? { ...k, key, created } : k)`. */
  function Regenerate(keys: seq<ApiKey>, id: string, newKey: string, created: string): (r: seq<ApiKey>)
    ensures |r| == |keys|
    ensures forall i :: 0 <= i < |r| ==>
              r[i].id == keys[i].id && r[i].name == keys[i].name
              && r[i].status == keys[i].status && r[i].lastUsed == keys[i].lastUsed
    ensures forall i :: 0 <= i < |r| && keys[i].id == id ==> r[i].key == newKey && r[i].created == created
    ensures forall i :: 0 <= i < |r| && keys[i].id != id ==> r[i] == keys[i]
  {
    if keys == [] then []
    else
      [if keys[0].id == id then keys[0].(key := newKey, created := created) else keys[0]]
      + Regenerate(keys[1..], id, newKey, created)
  }

  /** `prev.map(k => k.id === id ? { ...k, status: 'revoked' } : k)`. */
  function Revoke(keys: seq<ApiKey>, id: string): (r: seq<ApiKey>)
    ensures |r| == |keys|
    ensures forall i :: 0 <= i < |r| && keys[i].id == id ==> r[i] == keys[i].(status := Revoked)
    ensures forall i :: 0 <= i < |r| && keys[i].id != id ==> r[i] == keys[i]
  {
    if keys == [] then []
    else
      [if keys[0].id == id then keys[0].(status := Revoked) else keys[0]]
      + Revoke(keys[1..], id)
  }

  /** `prev.filter(k => k.id !== id)`: every record with that id goes, and
      every other record stays as often as it was there. */
  function Without(keys: seq<ApiKey>, id: string): (r: seq<ApiKey>)
    ensures |r| <= |keys|
    ensures forall k :: k in r ==> k in keys && k.id != id
    ensures forall k: ApiKey :: multiset(r)[k] == if k.id == id then 0 else multiset(keys)[k]
  {
    if keys == [] then []
    else
      var rest := Without(keys[1..], id);
      assert keys == [keys[0]] + keys[1..];
      if keys[0].id == id then rest else [keys[0]] + rest
  }

  /** Deleting keeps the remaining records in their order: it works on each
      stretch of the list separately. */
  lemma {:induction false} WithoutConcat(a: seq<ApiKey>, b: seq<ApiKey>, id: string)
    ensures Without(a + b, id) == Without(a, id) + Without(b, id)
  {
    if a == [] {
      assert a + b == b;
    } else {
      assert (a + b)[0] == a[0];
      assert (a + b)[1..] == a[1..] + b;
      WithoutConcat(a[1..], b, id);
    }
  }

  /** An id no record has leaves the list unchanged under regenerate,
      revoke and delete alike. */
  lemma {:induction false} UnknownIdChangesNothing(keys: seq<ApiKey>, id: string, newKey: string, created: string)
    requires forall i :: 0 <= i < |keys| ==> keys[i].id != id
    ensures Regenerate(keys, id, newKey, created) == keys
    ensures Revoke(keys, id) == keys
    ensures Without(keys, id) == keys
  {
    if keys != [] {
      UnknownIdChangesNothing(keys[1..], id, newKey, created);
    }
  }

  /** Revoking twice is revoking once. */
  lemma RevokeIdempotent(keys: seq<ApiKey>, id: string)
    ensures Revoke(Revoke(keys, id), id) == Revoke(keys, id)
  {
  }

  /** Status only moves from active to revoked: a revoked record stays
      revoked under regenerate and revoke, and regenerate revives nothing. */
  lemma StatusIsOneWay(keys: seq<ApiKey>, id: string, newKey: string, created: string, i: nat)
    requires i < |keys| && keys[i].status == Revoked
    ensures Regenerate(keys, id, newKey, created)[i].status == Revoked
    ensures Revoke(keys, id)[i].status == Revoked
  {
  }

  // ---------------------------------------------------------------------
  // Ids

  predicate UniqueIds(keys: seq<ApiKey>)
  {
    forall i, j :: 0 <= i < j < |keys| ==> keys[i].id != keys[j].id
  }

  /** Regenerate, revoke and delete keep ids unique; create keeps them
      unique when the new id is not taken. */
  lemma {:induction false} UpdatesKeepIdsUnique(keys: seq<ApiKey>, id: string, newKey: string, created: string, added: ApiKey)
    requires UniqueIds(keys)
    ensures UniqueIds(Regenerate(keys, id, newKey, created))
    ensures UniqueIds(Revoke(keys, id))
    ensures UniqueIds(Without(keys, id))
    ensures (forall i :: 0 <= i < |keys| ==> keys[i].id != added.id) ==> UniqueIds(keys + [added])
  {
    WithoutKeepsIdsUnique(keys, id);
  }

  lemma {:induction false} WithoutKeepsIdsUnique(keys: seq<ApiKey>, id: string)
    requires UniqueIds(keys)
    ensures UniqueIds(Without(keys, id))
  {
    if keys != [] {
      var rest := Without(keys[1..], id);
      WithoutKeepsIdsUnique(keys[1..], id);
      if keys[0].id != id {
        forall k | k in rest
          ensures k.id != keys[0].id
        {
          HeadIdNotInTail(keys, k);
        }
        UniqueIdsCons(keys[0], rest);
      }
    }
  }

  lemma HeadIdNotInTail(keys: seq<ApiKey>, k: ApiKey)
    requires UniqueIds(keys) && |keys| > 0 && k in keys[1..]
    ensures k.id != keys[0].id
  {
    var j :| 0 <= j < |keys[1..]| && keys[1..][j] == k;
    assert keys[j + 1] == k;
  }

  lemma UniqueIdsCons(x: ApiKey, rest: seq<ApiKey>)
    requires UniqueIds(rest)
    requires forall k :: k in rest ==> k.id != x.id
    ensures UniqueIds([x] + rest)
  {
    var r := [x] + rest;
    forall i, j | 0 <= i < j < |r|
      ensures r[i].id != r[j].id
    {
      assert r[j] == rest[j - 1];
      if i > 0 {
        assert r[i] == rest[i - 1];
      }
    }
  }

  // ---------------------------------------------------------------------
  // Selectors

  /** `keys.find(k => k.id === id)`: the first record with the id. */
  function FirstWithId(keys: seq<ApiKey>, id: string): (r: Option<ApiKey>)
    ensures r.None? <==> forall i :: 0 <= i < |keys| ==> keys[i].id != id
    ensures r.Some? ==> exists i :: 0 <= i < |keys| && keys[i] == r.value && r.value.id == id
                          && forall j :: 0 <= j < i ==> keys[j].id != id
  {
    if keys == [] then None
    else if keys[0].id == id then Some(keys[0])
    else
      var r := FirstWithId(keys[1..], id);
      assert r.Some? ==> exists i :: 0 <= i < |keys[1..]| && keys[1..][i] == r.value && r.value.id == id
                          && forall j :: 0 <= j < i ==> keys[1..][j].id != id;
      assert forall i :: 0 <= i < |keys[1..]| ==> keys[1..][i] == keys[i + 1];
      r
  }

  /** `keys.filter(k => k.status === status)`. */
  function WithStatus(keys: seq<ApiKey>, status: KeyStatus): (r: seq<ApiKey>)
    ensures forall k :: k in r ==> k in keys && k.status == status
    ensures forall k: ApiKey {:trigger multiset(r)[k]} :: k.status == status ==> multiset(r)[k] == multiset(keys)[k]
  {
    if keys == [] then []
    else
      var rest := WithStatus(keys[1..], status);
      assert keys == [keys[0]] + keys[1..];
      if keys[0].status == status then [keys[0]] + rest else rest
  }

  /** Filtering keeps the list's order: it works on each stretch of the
      list separately. */
  lemma {:induction false} WithStatusConcat(a: seq<ApiKey>, b: seq<ApiKey>, status: KeyStatus)
    ensures WithStatus(a + b, status) == WithStatus(a, status) + WithStatus(b, status)
  {
    if a == [] {
      assert a + b == b;
    } else {
      assert (a + b)[0] == a[0];
      assert (a + b)[1..] == a[1..] + b;
      WithStatusConcat(a[1..], b, status);
    }
  }

  /** The active and the revoked keys partition the list. */
  lemma {:induction false} ActiveRevokedPartition(keys: seq<ApiKey>)
    ensures |WithStatus(keys, Active)| + |WithStatus(keys, Revoked)| == |keys|
    ensures multiset(WithStatus(keys, Active)) + multiset(WithStatus(keys, Revoked)) == multiset(keys)
  {
    if keys != [] {
      ActiveRevokedPartition(keys[1..]);
      assert keys == [keys[0]] + keys[1..];
    }
  }

  // ---------------------------------------------------------------------
  // The hook's state

  class ApiKeyStore {
    var apiKeys: seq<ApiKey>
    var isLoading: bool
    var isOperating: bool
    /** The `apiKeys` entry of local storage. */
    var stored: Option<StoredKeys>

    /** Once loading is over, the storage entry mirrors the list. */
    ghost predicate Valid()
      reads this
    {
      !isLoading ==> stored == Some(KeyList(apiKeys))
    }

    /** Mounting: an empty list, loading, nothing in progress, and whatever
        the storage entry held before. */
    constructor(initial: Option<StoredKeys>)
      ensures Valid()
      ensures apiKeys == [] && isLoading && !isOperating && stored == initial
    {
      apiKeys, isLoading, isOperating, stored := [], true, false, initial;
    }

    /** The storage effect, run after every change of the list or of the
        loading flag: write the list once loading is over. */
    method Persist()
      modifies this`stored
      ensures stored == if isLoading then old(stored) else Some(KeyList(apiKeys))
    {
      if !isLoading {
        stored := Some(KeyList(apiKeys));
      }
    }

    /** The mount effect: adopt a stored list of keys; anything else (no
        entry, unparseable text, JSON that is not an array) leaves the list
        as it is. Loading ends on every path, and the storage effect then
        writes the list back. */
    method LoadApiKeys()
      requires Valid()
      modifies this
      ensures Valid() && !isLoading
      ensures isOperating == old(isOperating)
      ensures old(stored).Some? && old(stored).value.KeyList? ==> apiKeys == old(stored).value.keys
      ensures !(old(stored).Some? && old(stored).value.KeyList?) ==> apiKeys == old(apiKeys)
      ensures stored == Some(KeyList(apiKeys))
    {
      if stored.Some? && stored.value.KeyList? {
        apiKeys := stored.value.keys;
      }
      isLoading := false;
      Persist();
    }

    /** `createApiKey(name)` at the instant `nowMs` (ISO text `nowIso`),
        with `draw1` and `draw2` the random texts of the new key. A name
        that is blank after trimming is refused before anything changes;
        otherwise one active record with the trimmed name is appended. */
    method CreateApiKey(name: string, nowMs: nat, nowIso: string, draw1: string, draw2: string)
      returns (result: Result<ApiKey, string>)
      requires Valid()
      modifies this
      ensures Valid() && isLoading == old(isLoading)
      ensures Trim(name) == [] ==>
                result == Failure(NameRequired) && apiKeys == old(apiKeys)
                && isOperating == old(isOperating) && stored == old(stored)
      ensures Trim(name) != [] ==>
                result == Success(ApiKey(NatToString(nowMs), Trim(name), GenerateApiKey(draw1, draw2),
                                         IsoDate(nowIso), None, Active))
                && apiKeys == old(apiKeys) + [result.value] && !isOperating
                && stored == if isLoading then old(stored) else Some(KeyList(apiKeys))
    {
      if Trim(name) == [] {
        return Failure(NameRequired);
      }
      isOperating := true;
      var newKey := ApiKey(NatToString(nowMs), Trim(name), GenerateApiKey(draw1, draw2),
                           IsoDate(nowIso), None, Active);
      apiKeys := apiKeys + [newKey];
      Persist();
      isOperating := false;
      result := Success(newKey);
    }

    /** `regenerateKey(id)`: a new key text and creation date for every
        record with the id, whatever its status. */
    method RegenerateKey(id: string, nowIso: string, draw1: string, draw2: string)
      requires Valid()
      modifies this
      ensures Valid() && isLoading == old(isLoading) && !isOperating
      ensures apiKeys == Regenerate(old(apiKeys), id, GenerateApiKey(draw1, draw2), IsoDate(nowIso))
      ensures stored == if isLoading then old(stored) else Some(KeyList(apiKeys))
    {
      isOperating := true;
      apiKeys := Regenerate(apiKeys, id, GenerateApiKey(draw1, draw2), IsoDate(nowIso));
      Persist();
      isOperating := false;
    }

    /** `revokeKey(id)`. */
    method RevokeKey(id: string)
      requires Valid()
      modifies this
      ensures Valid() && isLoading == old(isLoading) && !isOperating
      ensures apiKeys == Revoke(old(apiKeys), id)
      ensures stored == if isLoading then old(stored) else Some(KeyList(apiKeys))
    {
      isOperating := true;
      apiKeys := Revoke(apiKeys, id);
      Persist();
      isOperating := false;
    }

    /** `deleteKey(id)`. */
    method DeleteKey(id: string)
      requires Valid()
      modifies this
      ensures Valid() && isLoading == old(isLoading) && !isOperating
      ensures apiKeys == Without(old(apiKeys), id)
      ensures stored == if isLoading then old(stored) else Some(KeyList(apiKeys))
    {
      isOperating := true;
      apiKeys := Without(apiKeys, id);
      Persist();
      isOperating := false;
    }

    /** `getApiKey(id)`. */
    function GetApiKey(id: string): Option<ApiKey>
      reads this
    {
      FirstWithId(apiKeys, id)
    }

    /** `getActiveApiKeys()`. */
    function GetActiveApiKeys(): seq<ApiKey>
      reads this
    {
      WithStatus(apiKeys, Active)
    }

    /** `getRevokedApiKeys()`. */
    function GetRevokedApiKeys(): seq<ApiKey>
      reads this
    {
      WithStatus(apiKeys, Revoked)
    }
  }
}
