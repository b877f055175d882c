/** /api/api-keys: a profile's third-party service keys. GET lists the
    profile's active keys, masked; POST walks the submitted entries and, for
    each usable one, updates the profile's row for that service or inserts
    one, listing the services it saved. Encryption, decryption and hashing are
    opaque functions supplied by the caller of the model. */
module ApiKeys {
  import opened Common
  import opened Database

  /** `'*'.repeat(n)` */
  function Stars(n: nat): (r: string)
    ensures |r| == n && forall i :: 0 <= i < n ==> r[i] == '*'
  {
    seq(n, _ => '*')
  }

  /** `maskApiKey`: keys of at most 8 characters are shown as they are;
      longer keys keep their first and last 4 characters, every character in
      between becoming '*'. */
  function MaskApiKey(key: string): (r: string)
    ensures |r| == |key|
    ensures |key| <= 8 ==> r == key
    ensures |key| > 8 ==> r[..4] == key[..4] && r[|r| - 4..] == key[|key| - 4..]
    ensures |key| > 8 ==> forall i :: 4 <= i < |key| - 4 ==> r[i] == '*'
  {
    if |key| <= 8 then key
    else key[..4] + Stars(|key| - 8) + key[|key| - 4..]
  }

  /** What a masked key reveals: its length and, beyond 8 characters, its
      first and last 4 characters; two keys agreeing on those mask alike. */
  lemma MaskRevealsOnlyEnds(k1: string, k2: string)
    requires |k1| == |k2| > 8
    requires k1[..4] == k2[..4] && k1[|k1| - 4..] == k2[|k2| - 4..]
    ensures MaskApiKey(k1) == MaskApiKey(k2)
  {
    var m1, m2 := MaskApiKey(k1), MaskApiKey(k2);
    forall i | 0 <= i < |m1| ensures m1[i] == m2[i] {
      if i < 4 {
        assert m1[i] == m1[..4][i] && m2[i] == m2[..4][i];
      } else if i >= |m1| - 4 {
        assert m1[i] == m1[|m1| - 4..][i - (|m1| - 4)] && m2[i] == m2[|m2| - 4..][i - (|m2| - 4)];
      }
    }
  }

  /** Masking a masked key changes nothing. */
  lemma MaskIdempotent(key: string)
    ensures MaskApiKey(MaskApiKey(key)) == MaskApiKey(key)
  {
    var m := MaskApiKey(key);
    if |key| > 8 {
      var mm := MaskApiKey(m);
      forall i | 0 <= i < |m| ensures mm[i] == m[i] {
        if i < 4 {
          assert mm[i] == mm[..4][i] && m[i] == m[..4][i];
        } else if i >= |m| - 4 {
          assert mm[i] == mm[|mm| - 4..][i - (|m| - 4)] && m[i] == m[|m| - 4..][i - (|m| - 4)];
        }
      }
    }
  }

  /** One entry of the list GET returns. */
  datatype MaskedKey = MaskedKey(service: string, key: string, isActive: bool)

  /** The answers of both handlers. */
  datatype Response =
    | BadRequest                         // 400 'Invalid request format'
    | AuthRequired                       // 401 'Authorization required'
    | InvalidToken                       // 401 'Invalid authorization token'
    | ProfileNotFound                    // 404
    | FetchFailed                        // 500 'Failed to fetch API keys'
    | Keys(apiKeys: map<Id, MaskedKey>)  // 200 { api_keys }
    | Saved(savedKeys: seq<string>)      // 200 { saved_keys: [{ service, status: 'saved' }] }
    | InternalError                      // 500, the body was not JSON

  /** The rows GET selects: the profile's rows with is_active = true. */
  function ActiveRows(table: map<Id, ApiKeyRow>, profileId: Id): set<Id>
  {
    set k | k in table && table[k].profileId == profileId && table[k].isActive
  }

  /** The masked list: one entry per selected row, its key decrypted and masked. */
  function MaskedList(table: map<Id, ApiKeyRow>, profileId: Id, decrypt: string -> string): (r: map<Id, MaskedKey>)
    ensures r.Keys == ActiveRows(table, profileId)
    ensures forall k :: k in r ==> r[k].isActive && r[k].service == table[k].service
    ensures forall k :: k in r ==> r[k].key == MaskApiKey(decrypt(table[k].encryptedKey))
    ensures forall k :: k in r ==> |r[k].key| == |decrypt(table[k].encryptedKey)|
  {
    map k | k in ActiveRows(table, profileId) :: MaskedKey(table[k].service, MaskApiKey(decrypt(table[k].encryptedKey)), true)
  }

  /** GET as a function of the tables and the answers of the services: the
      auth provider, whether the profile read fails (its error is ignored, so
      that reads as "no profile"), whether the key fetch fails, and the
      cipher's decryption. */
  function ListKeys(profiles: map<Id, ProfileRow>, table: map<Id, ApiKeyRow>, authHeader: string,
                    verify: string -> Option<string>, profileReadFails: bool, fetchFails: bool,
                    decrypt: string -> string): (r: Response)
    ensures r == AuthRequired <==> authHeader == ""
    ensures r == InvalidToken <==> authHeader != "" && verify(BearerToken(authHeader)).None?
    ensures r == ProfileNotFound <==>
      authHeader != "" && verify(BearerToken(authHeader)).Some? &&
      CallerProfile(profiles, authHeader, verify, profileReadFails).None?
    ensures r == FetchFailed <==> CallerProfile(profiles, authHeader, verify, profileReadFails).Some? && fetchFails
    ensures r.Keys? <==> CallerProfile(profiles, authHeader, verify, profileReadFails).Some? && !fetchFails
    ensures r.Keys? ==> r.apiKeys == MaskedList(table, CallerProfile(profiles, authHeader, verify, profileReadFails).value, decrypt)
  {
    if authHeader == "" then AuthRequired
    else if verify(BearerToken(authHeader)).None? then InvalidToken
    else match CallerProfile(profiles, authHeader, verify, profileReadFails)
      case None => ProfileNotFound
      case Some(pid) => if fetchFails then FetchFailed else Keys(MaskedList(table, pid, decrypt))
  }

  /** One element of the `api_keys` array; "" stands for a falsy field. */
  datatype KeyInput = KeyInput(service: string, key: string)

  /** The request body; `None` for an `api_keys` that is missing or not an array. */
  datatype SaveRequest = SaveRequest(apiKeys: Option<seq<KeyInput>>)

  /** The answers of the services POST calls: the auth provider, the cipher
      and hash, whether the profile read fails, whether the read of entry
      `i`'s existing key fails (both errors are ignored, so a failed read
      reads as "no row"), the id the database gives the row inserted for
      entry `i`, and whether the write (update or insert) for entry `i` fails. */
  datatype Oracle = Oracle(
    verify: string -> Option<string>,
    encrypt: string -> string,
    hash: string -> string,
    profileReadFails: bool,
    keyReadFails: nat -> bool,
    newIdFor: nat -> Id,
    writeFails: nat -> bool)

  predicate Usable(e: KeyInput)
  {
    e.service != "" && e.key != ""
  }

  datatype SaveState = SaveState(table: map<Id, ApiKeyRow>, saved: seq<string>)

  /** The row a successful write leaves for the entry. */
  function StoredRow(profileId: Id, e: KeyInput, o: Oracle): ApiKeyRow
  {
    ApiKeyRow(profileId, e.service, o.encrypt(e.key), o.hash(e.key), true)
  }

  /** The existing row entry `i` sees: the `.single()` lookup, or none when
      that read fails. */
  function ExistingKey(table: map<Id, ApiKeyRow>, profileId: Id, service: string, i: nat, o: Oracle): (r: Option<Id>)
    ensures r.Some? ==> !o.keyReadFails(i) && r == KeyFor(table, profileId, service)
    ensures !o.keyReadFails(i) ==> r == KeyFor(table, profileId, service)
  {
    if o.keyReadFails(i) then None else KeyFor(table, profileId, service)
  }

  /** One iteration: skip an unusable entry; otherwise update the profile's
      row for the service if `.single()` finds one, else insert a row; a
      failed write is skipped, a successful one records the service. */
  function Step(table: map<Id, ApiKeyRow>, profileId: Id, e: KeyInput, i: nat, o: Oracle): SaveState
  {
    if !Usable(e) then SaveState(table, [])
    else match ExistingKey(table, profileId, e.service, i, o)
      case Some(id) =>
        if o.writeFails(i) then SaveState(table, [])
        else SaveState(table[id := StoredRow(profileId, e, o)], [e.service])
      case None =>
        if o.writeFails(i) then SaveState(table, [])
        else SaveState(table[o.newIdFor(i) := StoredRow(profileId, e, o)], [e.service])
  }

  /** The loop from entry `from` on. */
  function Run(table: map<Id, ApiKeyRow>, profileId: Id, entries: seq<KeyInput>, from: nat, o: Oracle): SaveState
    decreases |entries| - from
  {
    if from >= |entries| then SaveState(table, [])
    else
      var s := Step(table, profileId, entries[from], from, o);
      var rest := Run(s.table, profileId, entries, from + 1, o);
      SaveState(rest.table, s.saved + rest.saved)
  }

  lemma RunUnfold(table: map<Id, ApiKeyRow>, profileId: Id, entries: seq<KeyInput>, from: nat, o: Oracle)
    requires from < |entries|
    ensures var s := Step(table, profileId, entries[from], from, o);
      var rest := Run(s.table, profileId, entries, from + 1, o);
      Run(table, profileId, entries, from, o) == SaveState(rest.table, s.saved + rest.saved)
  {
  }

  /** POST as a function of the tables and the answers of the services. */
  function SaveKeys(profiles: map<Id, ProfileRow>, table: map<Id, ApiKeyRow>, body: Option<SaveRequest>,
                authHeader: string, o: Oracle): (Response, map<Id, ApiKeyRow>)
  {
    if body.None? then (InternalError, table)
    else if body.value.apiKeys.None? then (BadRequest, table)
    else if authHeader == "" then (AuthRequired, table)
    else if o.verify(BearerToken(authHeader)).None? then (InvalidToken, table)
    else match CallerProfile(profiles, authHeader, o.verify, o.profileReadFails)
      case None => (ProfileNotFound, table)
      case Some(pid) =>
        var r := Run(table, pid, body.value.apiKeys.value, 0, o);
        (Saved(r.saved), r.table)
  }

  /** The body of the entry loop for entry `i`: the services it records
      (none or the entry's own) and the key table it leaves are `Step`'s. */
  method SaveEntry(db: Db, profileId: Id, keyData: KeyInput, i: nat, o: Oracle) returns (saved: seq<string>)
    modifies db`apiKeys
    ensures Step(old(db.apiKeys), profileId, keyData, i, o) == SaveState(db.apiKeys, saved)
  {
    if keyData.service == "" || keyData.key == "" {
      return [];
    }
    var encryptedKey := o.encrypt(keyData.key);
    var keyHash := o.hash(keyData.key);
    var existingKey: Option<Id> := None;
    if !o.keyReadFails(i) {
      existingKey := KeyFor(db.apiKeys, profileId, keyData.service);
    }
    if o.writeFails(i) {
      return [];
    }
    if existingKey.Some? {
      db.apiKeys := db.apiKeys[existingKey.value := ApiKeyRow(profileId, keyData.service, encryptedKey, keyHash, true)];
    } else {
      db.apiKeys := db.apiKeys[o.newIdFor(i) := ApiKeyRow(profileId, keyData.service, encryptedKey, keyHash, true)];
    }
    saved := [keyData.service];
  }

  /** The entry loop of POST over the database: `savedKeys` grows by one
      service per successful write. */
  method SaveEntries(db: Db, profileId: Id, entries: seq<KeyInput>, o: Oracle) returns (savedKeys: seq<string>)
    modifies db`apiKeys
    ensures Run(old(db.apiKeys), profileId, entries, 0, o) == SaveState(db.apiKeys, savedKeys)
  {
    savedKeys := [];
    for i := 0 to |entries|
      invariant var rest := Run(db.apiKeys, profileId, entries, i, o);
        Run(old(db.apiKeys), profileId, entries, 0, o) == SaveState(rest.table, savedKeys + rest.saved)
    {
      ghost var before := db.apiKeys;
      RunUnfold(before, profileId, entries, i, o);
      var saved := SaveEntry(db, profileId, entries[i], i, o);
      ghost var rest := Run(db.apiKeys, profileId, entries, i + 1, o);
      assert savedKeys + (saved + rest.saved) == (savedKeys + saved) + rest.saved;
      savedKeys := savedKeys + saved;
    }
  }

  /** The POST handler. */
  method Post(db: Db, body: Option<SaveRequest>, authHeader: string, o: Oracle) returns (response: Response)
    modifies db`apiKeys
    ensures (response, db.apiKeys) == SaveKeys(old(db.profiles), old(db.apiKeys), body, authHeader, o)
  {
    if body.None? {
      return InternalError;
    }
    if body.value.apiKeys.None? {
      return BadRequest;
    }
    if authHeader == "" {
      return AuthRequired;
    }
    var token := BearerToken(authHeader);
    var user := o.verify(token);
    if user.None? {
      return InvalidToken;
    }
    var profile := if o.profileReadFails then None else ProfileByAuth(db.profiles, user.value);
    if profile.None? {
      return ProfileNotFound;
    }
    var savedKeys := SaveEntries(db, profile.value, body.value.apiKeys.value, o);
    return Saved(savedKeys);
  }

  /** An `api_keys` that is missing or not an array is a 400 whatever the
      Authorization header, and no key is written. */
  lemma BadRequestBeforeAuth(profiles: map<Id, ProfileRow>, table: map<Id, ApiKeyRow>, authHeader: string, o: Oracle)
    ensures SaveKeys(profiles, table, Some(SaveRequest(None)), authHeader, o) == (BadRequest, table)
  {
  }

  /** Without an Authorization header both handlers answer 401. */
  lemma NoHeaderUnauthorized(profiles: map<Id, ProfileRow>, table: map<Id, ApiKeyRow>, entries: seq<KeyInput>, o: Oracle,
                             fetchFails: bool, decrypt: string -> string)
    ensures SaveKeys(profiles, table, Some(SaveRequest(Some(entries))), "", o) == (AuthRequired, table)
    ensures ListKeys(profiles, table, "", o.verify, o.profileReadFails, fetchFails, decrypt) == AuthRequired
  {
  }

  /** The services a run reports: those of the usable entries whose write
      succeeded, in input order. They do not depend on the table. */
  function SavedOf(entries: seq<KeyInput>, from: nat, o: Oracle): (r: seq<string>)
    ensures |r| <= |entries| - from || from >= |entries|
    ensures forall s :: s in r ==> s != ""
    decreases |entries| - from
  {
    if from >= |entries| then []
    else (if Usable(entries[from]) && !o.writeFails(from) then [entries[from].service] else []) + SavedOf(entries, from + 1, o)
  }

  lemma {:induction false} RunSaved(table: map<Id, ApiKeyRow>, profileId: Id, entries: seq<KeyInput>, from: nat, o: Oracle)
    ensures Run(table, profileId, entries, from, o).saved == SavedOf(entries, from, o)
    decreases |entries| - from
  {
    if from < |entries| {
      var s := Step(table, profileId, entries[from], from, o);
      RunSaved(s.table, profileId, entries, from + 1, o);
    }
  }

  /** `saved_keys` lists a service exactly when some usable entry for it was
      written successfully; unusable entries never appear. */
  lemma {:induction false} SavedOfMeaning(entries: seq<KeyInput>, from: nat, o: Oracle, s: string)
    ensures s in SavedOf(entries, from, o) <==>
      exists i :: from <= i < |entries| && Usable(entries[i]) && !o.writeFails(i) && entries[i].service == s
    decreases |entries| - from
  {
    if from < |entries| {
      SavedOfMeaning(entries, from + 1, o, s);
      if s in SavedOf(entries, from + 1, o) {
        var i :| from + 1 <= i < |entries| && Usable(entries[i]) && !o.writeFails(i) && entries[i].service == s;
        assert from <= i;
      }
    }
  }

  /** POST's saved_keys are the services of the usable entries whose write
      succeeded, in input order, whatever rows the table already held. */
  lemma PostSavedKeys(profiles: map<Id, ProfileRow>, table: map<Id, ApiKeyRow>, entries: seq<KeyInput>,
                      authHeader: string, o: Oracle)
    requires SaveKeys(profiles, table, Some(SaveRequest(Some(entries))), authHeader, o).0.Saved?
    ensures SaveKeys(profiles, table, Some(SaveRequest(Some(entries))), authHeader, o).0.savedKeys == SavedOf(entries, 0, o)
  {
    var pid := CallerProfile(profiles, authHeader, o.verify, o.profileReadFails).value;
    RunSaved(table, pid, entries, 0, o);
  }

  lemma UpdateKeepsKeySets(table: map<Id, ApiKeyRow>, id: Id, row: ApiKeyRow, p: Id, s: string)
    requires id in table && row.profileId == table[id].profileId && row.service == table[id].service
    ensures KeysFor(table[id := row], p, s) == KeysFor(table, p, s)
  {
  }

  lemma InsertKeySets(table: map<Id, ApiKeyRow>, id: Id, row: ApiKeyRow, p: Id, s: string)
    requires id !in table
    ensures KeysFor(table[id := row], p, s) == KeysFor(table, p, s) + (if row.profileId == p && row.service == s then {id} else {})
  {
  }

  /** Ids the database hands out are new and pairwise distinct. */
  ghost predicate FreshIds(table: map<Id, ApiKeyRow>, from: nat, o: Oracle)
  {
    && (forall j: nat :: from <= j ==> o.newIdFor(j) !in table)
    && (forall i: nat, j: nat :: i != j ==> o.newIdFor(i) != o.newIdFor(j))
  }

  /** One iteration keeps every row it does not write and adds at most the
      entry's new id; when its existing-key read does not fail it also keeps
      one row per (profile, service). */
  lemma {:induction false} StepInvariant(table: map<Id, ApiKeyRow>, profileId: Id, e: KeyInput, i: nat, o: Oracle)
    requires o.newIdFor(i) !in table
    ensures var t := Step(table, profileId, e, i, o).table;
      && (UniqueKeyRows(table) && !o.keyReadFails(i) ==> UniqueKeyRows(t))
      && table.Keys <= t.Keys <= table.Keys + {o.newIdFor(i)}
      && (forall id :: id in table && table[id].profileId != profileId ==> t[id] == table[id])
      && (forall id :: id in table && table[id].isActive ==> t[id].isActive)
      && (forall id :: id in table ==> t[id].profileId == table[id].profileId && t[id].service == table[id].service)
  {
    var st := Step(table, profileId, e, i, o);
    if Usable(e) && !o.writeFails(i) && UniqueKeyRows(table) && !o.keyReadFails(i) {
      var row := StoredRow(profileId, e, o);
      match KeyFor(table, profileId, e.service)
      case Some(id) =>
        assert st.table == table[id := row];
        forall p, s ensures |KeysFor(st.table, p, s)| <= 1 {
          UpdateKeepsKeySets(table, id, row, p, s);
        }
      case None =>
        assert st.table == table[o.newIdFor(i) := row];
        SingleOfAtMostOne(KeysFor(table, profileId, e.service));
        forall p, s ensures |KeysFor(st.table, p, s)| <= 1 {
          InsertKeySets(table, o.newIdFor(i), row, p, s);
        }
    }
  }

  /** A successful iteration leaves an active row for the profile and service. */
  lemma StepStoresEntry(table: map<Id, ApiKeyRow>, profileId: Id, e: KeyInput, i: nat, o: Oracle)
    requires Usable(e) && !o.writeFails(i)
    ensures var t := Step(table, profileId, e, i, o).table;
      exists id :: id in t && t[id] == StoredRow(profileId, e, o)
  {
    var t := Step(table, profileId, e, i, o).table;
    match ExistingKey(table, profileId, e.service, i, o)
    case Some(id) => assert t[id] == StoredRow(profileId, e, o);
    case None => assert t[o.newIdFor(i)] == StoredRow(profileId, e, o);
  }

  /** No existing-key read from entry `from` on fails. */
  predicate KeyReadsSucceed(entries: seq<KeyInput>, from: nat, o: Oracle)
  {
    forall j :: from <= j < |entries| ==> !o.keyReadFails(j)
  }

  /** The whole loop deletes no row, leaves other profiles' rows as they were
      and never deactivates a row; when none of its existing-key reads fails
      it also keeps one row per (profile, service). */
  lemma {:induction false} RunInvariant(table: map<Id, ApiKeyRow>, profileId: Id, entries: seq<KeyInput>, from: nat, o: Oracle)
    requires FreshIds(table, from, o)
    ensures var t := Run(table, profileId, entries, from, o).table;
      && (UniqueKeyRows(table) && KeyReadsSucceed(entries, from, o) ==> UniqueKeyRows(t))
      && table.Keys <= t.Keys
      && (forall id :: id in table && table[id].profileId != profileId ==> t[id] == table[id])
      && (forall id :: id in table && table[id].isActive ==> t[id].isActive)
      && (forall id :: id in table ==> t[id].profileId == table[id].profileId && t[id].service == table[id].service)
    decreases |entries| - from
  {
    if from < |entries| {
      var s := Step(table, profileId, entries[from], from, o);
      StepInvariant(table, profileId, entries[from], from, o);
      assert FreshIds(s.table, from + 1, o);
      RunInvariant(s.table, profileId, entries, from + 1, o);
    }
  }

  /** Every service POST reports as saved has an active row for the profile
      afterwards, so a following GET lists it. */
  lemma {:induction false} SavedServicesAreListed(table: map<Id, ApiKeyRow>, profileId: Id, entries: seq<KeyInput>,
                                                  from: nat, o: Oracle, decrypt: string -> string, s: string)
    requires FreshIds(table, from, o)
    requires s in Run(table, profileId, entries, from, o).saved
    ensures var t := Run(table, profileId, entries, from, o).table;
      exists id :: id in MaskedList(t, profileId, decrypt) && MaskedList(t, profileId, decrypt)[id].service == s
    decreases |entries| - from
  {
    var st := Step(table, profileId, entries[from], from, o);
    RunUnfold(table, profileId, entries, from, o);
    var t := Run(table, profileId, entries, from, o).table;
    assert t == Run(st.table, profileId, entries, from + 1, o).table;
    StepInvariant(table, profileId, entries[from], from, o);
    assert FreshIds(st.table, from + 1, o);
    if s in st.saved {
      StepStoresEntry(table, profileId, entries[from], from, o);
      var id :| id in st.table && st.table[id] == StoredRow(profileId, entries[from], o);
      RunInvariant(st.table, profileId, entries, from + 1, o);
      assert s == entries[from].service;
      assert id in ActiveRows(t, profileId);
      assert MaskedList(t, profileId, decrypt)[id].service == s;
    } else {
      SavedServicesAreListed(st.table, profileId, entries, from + 1, o, decrypt, s);
    }
  }

  /** POST deletes no key row and never touches another profile's rows;
      when none of its existing-key reads fails it keeps one key row per
      (profile, service). */
  lemma PostPreservesKeyRows(profiles: map<Id, ProfileRow>, table: map<Id, ApiKeyRow>, entries: seq<KeyInput>,
                             authHeader: string, o: Oracle)
    requires FreshIds(table, 0, o)
    ensures var t := SaveKeys(profiles, table, Some(SaveRequest(Some(entries))), authHeader, o).1;
      && (UniqueKeyRows(table) && KeyReadsSucceed(entries, 0, o) ==> UniqueKeyRows(t))
      && table.Keys <= t.Keys
      && (forall id :: id in table && t[id] != table[id] ==>
            var caller := CallerProfile(profiles, authHeader, o.verify, o.profileReadFails);
            caller.Some? && table[id].profileId == caller.value)
  {
    var caller := CallerProfile(profiles, authHeader, o.verify, o.profileReadFails);
    if authHeader != "" && o.verify(BearerToken(authHeader)).Some? && caller.Some? {
      RunInvariant(table, caller.value, entries, 0, o);
    }
  }

  /** The existing-key read's error is ignored: when it fails for a service
      the profile already has a row for, a successful write inserts a second
      row for the same (profile, service). */
  lemma FailedKeyReadDuplicates(table: map<Id, ApiKeyRow>, profileId: Id, e: KeyInput, i: nat, o: Oracle, id: Id)
    requires Usable(e) && o.keyReadFails(i) && !o.writeFails(i)
    requires id in table && table[id].profileId == profileId && table[id].service == e.service
    requires o.newIdFor(i) !in table
    ensures var t := Step(table, profileId, e, i, o).table;
      && {id, o.newIdFor(i)} <= KeysFor(t, profileId, e.service)
      && !UniqueKeyRows(t)
  {
    var t := Step(table, profileId, e, i, o).table;
    var both := KeysFor(t, profileId, e.service);
    assert {id, o.newIdFor(i)} <= both;
    assert |{id, o.newIdFor(i)}| == 2;
    SubsetCard({id, o.newIdFor(i)}, both);
  }
}
