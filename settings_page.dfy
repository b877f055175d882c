/** The settings page's client logic: the three key fields it shows, the
    format check of one key, the list of keys a save sends to
    /api/api-keys, the filling of the fields from the keys that route lists,
    and the show/hide toggle of each field. */
module SettingsPage {
  import opened Common
  import opened Database
  import ApiKeys

  /** The three fields of the form. */
  datatype KeyField = ElevenLabsApiKey | ElevenLabsAgentId | OpenAiApiKey

  datatype KeyForm = KeyForm(elevenlabsApiKey: string, elevenlabsAgentId: string, openaiApiKey: string)

  /** Whether each field is shown in clear. */
  datatype ShowKeys = ShowKeys(elevenlabsApiKey: bool, elevenlabsAgentId: bool, openaiApiKey: bool)

  function Value(form: KeyForm, f: KeyField): string
  {
    match f
    case ElevenLabsApiKey => form.elevenlabsApiKey
    case ElevenLabsAgentId => form.elevenlabsAgentId
    case OpenAiApiKey => form.openaiApiKey
  }

  function Shown(v: ShowKeys, f: KeyField): bool
  {
    match f
    case ElevenLabsApiKey => v.elevenlabsApiKey
    case ElevenLabsAgentId => v.elevenlabsAgentId
    case OpenAiApiKey => v.openaiApiKey
  }

  /** The service name each field is stored under. */
  function ServiceOf(f: KeyField): (s: string)
    ensures s != ""
  {
    match f
    case ElevenLabsApiKey => "elevenlabs"
    case ElevenLabsAgentId => "elevenlabs_agent"
    case OpenAiApiKey => "openai"
  }

  /** Where each field comes in the save list. */
  function Rank(f: KeyField): nat
  {
    match f
    case ElevenLabsApiKey => 0
    case ElevenLabsAgentId => 1
    case OpenAiApiKey => 2
  }

  /** The field a service name belongs to, if any. */
  function FieldOf(service: string): (r: Option<KeyField>)
    ensures r.Some? ==> ServiceOf(r.value) == service
    ensures r.None? ==> forall f :: ServiceOf(f) != service
  {
    if service == "elevenlabs" then Some(ElevenLabsApiKey)
    else if service == "elevenlabs_agent" then Some(ElevenLabsAgentId)
    else if service == "openai" then Some(OpenAiApiKey)
    else None
  }

  /** `toggleKeyVisibility`: the given field flips, the others stay. */
  function ToggleKeyVisibility(v: ShowKeys, f: KeyField): (r: ShowKeys)
    ensures Shown(r, f) == !Shown(v, f)
    ensures forall g :: g != f ==> Shown(r, g) == Shown(v, g)
  {
    match f
    case ElevenLabsApiKey => v.(elevenlabsApiKey := !v.elevenlabsApiKey)
    case ElevenLabsAgentId => v.(elevenlabsAgentId := !v.elevenlabsAgentId)
    case OpenAiApiKey => v.(openaiApiKey := !v.openaiApiKey)
  }

  /** Toggling the same field twice restores the view. */
  lemma ToggleTwice(v: ShowKeys, f: KeyField)
    ensures ToggleKeyVisibility(ToggleKeyVisibility(v, f), f) == v
  {
    var r := ToggleKeyVisibility(ToggleKeyVisibility(v, f), f);
    assert forall g :: Shown(r, g) == Shown(v, g);
    assert Shown(r, ElevenLabsApiKey) == Shown(v, ElevenLabsApiKey);
    assert Shown(r, ElevenLabsAgentId) == Shown(v, ElevenLabsAgentId);
    assert Shown(r, OpenAiApiKey) == Shown(v, OpenAiApiKey);
  }

  /** `validateApiKey`: a key is accepted when it is not blank and, for
      `elevenlabs`, starts with `sk_` and, for `openai`, with `sk-` (the
      untrimmed key is checked); any other service needs only a non-blank
      key. Acceptance records `validationStatus[service] = true`; a
      rejection leaves the statuses as they were. */
  function ValidateApiKey(status: map<string, bool>, service: string, key: string): (r: (bool, map<string, bool>))
    ensures r.0 <==>
      && !AllSpace(key)
      && (service == "elevenlabs" ==> StartsWith(key, "sk_"))
      && (service == "openai" ==> StartsWith(key, "sk-"))
    ensures r.0 ==> r.1 == status[service := true]
    ensures !r.0 ==> r.1 == status
  {
    TrimEmptyIffAllSpace(key);
    if Trim(key) == "" then (false, status)
    else if service == "elevenlabs" && !StartsWith(key, "sk_") then (false, status)
    else if service == "openai" && !StartsWith(key, "sk-") then (false, status)
    else (true, status[service := true])
  }

  /** The form with every field trimmed. */
  function Trimmed(form: KeyForm): KeyForm
  {
    KeyForm(Trim(form.elevenlabsApiKey), Trim(form.elevenlabsAgentId), Trim(form.openaiApiKey))
  }

  /** The entry a save sends for a field with trimmed value `value`: none
      when it is empty. */
  function EntryFor(f: KeyField, value: string): seq<ApiKeys.KeyInput>
  {
    if value == "" then [] else [ApiKeys.KeyInput(ServiceOf(f), value)]
  }

  /** The entries for a form whose fields are already trimmed, in the order
      elevenlabs, elevenlabs_agent, openai. */
  function FilledEntries(t: KeyForm): seq<ApiKeys.KeyInput>
  {
    EntryFor(ElevenLabsApiKey, t.elevenlabsApiKey) + EntryFor(ElevenLabsAgentId, t.elevenlabsAgentId)
      + EntryFor(OpenAiApiKey, t.openaiApiKey)
  }

  /** The list a save sends. */
  function SaveList(form: KeyForm): seq<ApiKeys.KeyInput>
  {
    FilledEntries(Trimmed(form))
  }

  /** The list building of `handleSave`: one push per non-blank field. */
  method KeysToSave(form: KeyForm) returns (keysToSave: seq<ApiKeys.KeyInput>)
    ensures keysToSave == SaveList(form)
  {
    keysToSave := [];
    keysToSave := PushIfFilled(keysToSave, form, ElevenLabsApiKey);
    assert keysToSave == EntryFor(ElevenLabsApiKey, Trim(form.elevenlabsApiKey));
    keysToSave := PushIfFilled(keysToSave, form, ElevenLabsAgentId);
    keysToSave := PushIfFilled(keysToSave, form, OpenAiApiKey);
  }

  /** One `if (field.trim()) keysToSave.push(...)` of `handleSave`. */
  method PushIfFilled(keysToSave: seq<ApiKeys.KeyInput>, form: KeyForm, f: KeyField) returns (r: seq<ApiKeys.KeyInput>)
    ensures r == keysToSave + EntryFor(f, Trim(Value(form, f)))
  {
    r := keysToSave;
    var value := Value(form, f);
    if Trim(value) != "" {
      r := r + [ApiKeys.KeyInput(ServiceOf(f), Trim(value))];
    }
  }

  /** Where the entry of each field sits in `FilledEntries(t)`. */
  lemma FilledEntriesAt(t: KeyForm, i: int)
    requires 0 <= i < |FilledEntries(t)|
    ensures var f := FieldOf(FilledEntries(t)[i].service);
      && f.Some?
      && FilledEntries(t)[i] == ApiKeys.KeyInput(ServiceOf(f.value), Value(t, f.value))
      && Value(t, f.value) != ""
      && (f.value == ElevenLabsApiKey ==> i == 0)
      && (f.value == ElevenLabsAgentId ==> i == |EntryFor(ElevenLabsApiKey, t.elevenlabsApiKey)|)
      && (f.value == OpenAiApiKey ==> i == |FilledEntries(t)| - 1)
  {
    var a := EntryFor(ElevenLabsApiKey, t.elevenlabsApiKey);
    var b := EntryFor(ElevenLabsAgentId, t.elevenlabsAgentId);
    var c := EntryFor(OpenAiApiKey, t.openaiApiKey);
    var r := FilledEntries(t);
    if i < |a| {
      assert r[i] == a[0];
    } else if i < |a| + |b| {
      assert r[i] == b[0];
    } else {
      assert r[i] == c[0];
    }
  }

  /** A field with a non-empty trimmed value has its entry in `FilledEntries(t)`. */
  lemma FilledEntriesHas(t: KeyForm, f: KeyField)
    requires Value(t, f) != ""
    ensures exists i :: 0 <= i < |FilledEntries(t)| && FilledEntries(t)[i].service == ServiceOf(f)
  {
    var a := EntryFor(ElevenLabsApiKey, t.elevenlabsApiKey);
    var b := EntryFor(ElevenLabsAgentId, t.elevenlabsAgentId);
    var r := FilledEntries(t);
    var i := if f == ElevenLabsApiKey then 0 else if f == ElevenLabsAgentId then |a| else |a| + |b|;
    assert r[i].service == ServiceOf(f);
  }

  /** Each entry of the save list carries the trimmed value of the field
      its service names, so the API route accepts it as usable. */
  lemma SaveListEntry(form: KeyForm, i: int)
    requires 0 <= i < |SaveList(form)|
    ensures var e := SaveList(form)[i];
      && FieldOf(e.service).Some?
      && e.key == Trim(Value(form, FieldOf(e.service).value))
      && ApiKeys.Usable(e)
  {
    FilledEntriesAt(Trimmed(form), i);
    var f := FieldOf(SaveList(form)[i].service).value;
    assert Value(Trimmed(form), f) == Trim(Value(form, f));
  }

  /** A field is in the save list exactly when it is not blank. */
  lemma SaveListField(form: KeyForm, f: KeyField)
    ensures (exists i :: 0 <= i < |SaveList(form)| && SaveList(form)[i].service == ServiceOf(f)) <==> !AllSpace(Value(form, f))
  {
    var t, r := Trimmed(form), SaveList(form);
    TrimEmptyIffAllSpace(Value(form, f));
    assert Value(t, f) == Trim(Value(form, f));
    if Value(t, f) != "" {
      FilledEntriesHas(t, f);
    } else {
      forall i | 0 <= i < |r| ensures r[i].service != ServiceOf(f) {
        FilledEntriesAt(t, i);
      }
    }
  }

  /** The save list follows the field order elevenlabs, elevenlabs_agent,
      openai, so it lists no service twice. */
  lemma SaveListOrder(form: KeyForm, i: int, j: int)
    requires 0 <= i < j < |SaveList(form)|
    ensures var r := SaveList(form);
      FieldOf(r[i].service).Some? && FieldOf(r[j].service).Some? &&
      Rank(FieldOf(r[i].service).value) < Rank(FieldOf(r[j].service).value)
  {
    FilledEntriesAt(Trimmed(form), i);
    FilledEntriesAt(Trimmed(form), j);
  }

  /** What the save request answered: 2xx, a failure status with the
      body's `error` ("" when absent), or a throw. */
  datatype SaveReply = SaveOk | SaveRejected(error: string) | SaveThrew

  datatype Notice = Success(text: string) | Failure(text: string)

  /** The save request made, if any, and the toast shown. */
  datatype SaveOutcome = SaveOutcome(request: Option<seq<ApiKeys.KeyInput>>, notice: Notice)

  /** `handleSave`: without a session nothing is sent; an empty list is
      refused without a request; otherwise the list is sent and the reply
      decides the toast. */
  method HandleSave(signedIn: bool, form: KeyForm, reply: SaveReply) returns (outcome: SaveOutcome)
    ensures !signedIn ==> outcome == SaveOutcome(None, Failure("Please login to save settings"))
    ensures signedIn && SaveList(form) == [] ==> outcome == SaveOutcome(None, Failure("Please provide at least one API key"))
    ensures outcome.request.Some? <==> signedIn && SaveList(form) != []
    ensures outcome.request.Some? ==> outcome.request.value == SaveList(form)
    ensures outcome.request.Some? ==> (outcome.notice.Success? <==> reply == SaveOk)
    ensures outcome.request.Some? && reply.SaveRejected? ==>
      outcome.notice == Failure(OrElse(reply.error, "Failed to save API keys"))
    ensures outcome.request.Some? && reply.SaveThrew? ==> outcome.notice == Failure("Failed to save settings")
  {
    if !signedIn {
      return SaveOutcome(None, Failure("Please login to save settings"));
    }
    var keysToSave := KeysToSave(form);
    if |keysToSave| == 0 {
      return SaveOutcome(None, Failure("Please provide at least one API key"));
    }
    match reply {
      case SaveOk =>
        outcome := SaveOutcome(Some(keysToSave), Success("API keys saved successfully!"));
      case SaveRejected(error) =>
        outcome := SaveOutcome(Some(keysToSave), Failure(OrElse(error, "Failed to save API keys")));
      case SaveThrew =>
        outcome := SaveOutcome(Some(keysToSave), Failure("Failed to save settings"));
    }
  }

  /** `keys.find(k => k.service === service)`: the position of the first
      entry for the service. */
  function FindService(keys: seq<ApiKeys.MaskedKey>, service: string): (r: Option<nat>)
    ensures r.Some? ==> r.value < |keys| && keys[r.value].service == service
    ensures r.Some? ==> forall j :: 0 <= j < r.value ==> keys[j].service != service
    ensures r.None? ==> forall j :: 0 <= j < |keys| ==> keys[j].service != service
  {
    if keys == [] then None
    else if keys[0].service == service then Some(0)
    else match FindService(keys[1..], service)
      case None => None
      case Some(k) => Some(k + 1)
  }

  /** `found?.key || ''` */
  function LoadedKey(keys: seq<ApiKeys.MaskedKey>, service: string): (k: string)
    ensures FindService(keys, service).None? ==> k == ""
    ensures FindService(keys, service).Some? ==> k == keys[FindService(keys, service).value].key
  {
    match FindService(keys, service)
    case None => ""
    case Some(i) => keys[i].key
  }

  /** The form filled from the listed keys: each field takes the key of the
      first entry for its service, or "" when there is none. */
  function LoadForm(keys: seq<ApiKeys.MaskedKey>): (form: KeyForm)
    ensures forall f :: Value(form, f) == LoadedKey(keys, ServiceOf(f))
  {
    KeyForm(LoadedKey(keys, "elevenlabs"), LoadedKey(keys, "elevenlabs_agent"), LoadedKey(keys, "openai"))
  }

  /** What loading the keys got back: no session, a non-2xx answer, a 2xx
      answer whose `api_keys` may be missing, or a throw. */
  datatype LoadReply = NoSession | LoadFailed | Loaded(apiKeys: Option<seq<ApiKeys.MaskedKey>>) | LoadThrew

  /** `loadApiKeys`: only a 2xx answer replaces the form, a missing list
      counting as empty. */
  function LoadApiKeys(form: KeyForm, reply: LoadReply): (r: KeyForm)
    ensures !reply.Loaded? ==> r == form
    ensures reply.Loaded? && reply.apiKeys.None? ==> r == KeyForm("", "", "")
    ensures reply.Loaded? && reply.apiKeys.Some? ==> r == LoadForm(reply.apiKeys.value)
  {
    match reply
    case Loaded(apiKeys) => LoadForm(if apiKeys.Some? then apiKeys.value else [])
    case _ => form
  }

  /** Every field the page fills from a GET answer holds a masked key: the
      masked, decrypted key of one of the profile's active rows for the
      field's service, whatever order the rows come in. */
  lemma LoadedFieldsAreMasked(table: map<Id, ApiKeyRow>, profileId: Id, decrypt: string -> string,
                              keys: seq<ApiKeys.MaskedKey>, f: KeyField)
    requires forall i :: 0 <= i < |keys| ==> keys[i] in ApiKeys.MaskedList(table, profileId, decrypt).Values
    requires LoadedKey(keys, ServiceOf(f)) != ""
    ensures exists id :: (id in ApiKeys.ActiveRows(table, profileId) && table[id].service == ServiceOf(f) &&
                          LoadedKey(keys, ServiceOf(f)) == ApiKeys.MaskApiKey(decrypt(table[id].encryptedKey)))
  {
    var i := FindService(keys, ServiceOf(f)).value;
    var m := ApiKeys.MaskedList(table, profileId, decrypt);
    var id :| id in m && m[id] == keys[i];
    assert id in ApiKeys.ActiveRows(table, profileId);
  }

  /** A mask of a key longer than 8 characters starts and ends like the
      key and has '*' at position 4. */
  lemma MaskEnds(k: string)
    requires |k| > 8
    ensures var m := ApiKeys.MaskApiKey(k);
      m[0] == k[0] && m[|m| - 1] == k[|k| - 1] && m[4] == '*'
  {
    var m := ApiKeys.MaskApiKey(k);
    assert m[0] == m[..4][0] == k[..4][0];
    assert m[|m| - 1] == m[|m| - 4..][3] == k[|k| - 4..][3];
  }

  /** A non-empty trimmed ElevenLabs key comes first in the list. */
  lemma FilledEntriesFirst(t: KeyForm)
    requires t.elevenlabsApiKey != ""
    ensures FilledEntries(t) != [] && FilledEntries(t)[0] == ApiKeys.KeyInput("elevenlabs", t.elevenlabsApiKey)
  {
  }

  /** Saving straight after loading sends the masked key back: a stored
      ElevenLabs key `k` of more than 8 characters is listed masked, the
      page fills the field with the mask, and the save list carries the
      mask, which differs from `k`, as the new ElevenLabs key. */
  lemma SaveAfterLoadResendsMask(keys: seq<ApiKeys.MaskedKey>, k: string)
    requires |k| > 8 && !IsSpace(k[0]) && !IsSpace(k[|k| - 1]) && k[4] != '*'
    requires keys != [] && keys[0] == ApiKeys.MaskedKey("elevenlabs", ApiKeys.MaskApiKey(k), true)
    ensures SaveList(LoadForm(keys)) != []
    ensures SaveList(LoadForm(keys))[0] == ApiKeys.KeyInput("elevenlabs", ApiKeys.MaskApiKey(k))
    ensures ApiKeys.MaskApiKey(k) != k
  {
    var m := ApiKeys.MaskApiKey(k);
    MaskEnds(k);
    TrimUnpadded(m);
    assert LoadForm(keys).elevenlabsApiKey == m;
    var t := Trimmed(LoadForm(keys));
    assert t.elevenlabsApiKey == m;
    FilledEntriesFirst(t);
    assert m[4] != k[4];
  }

  /** The value a field contributes when only edited fields are saved: ""
      for a field still holding what was loaded, else its trimmed value. */
  function EditedValue(value: string, loaded: string): string
  {
    if value == loaded then "" else Trim(value)
  }

  function Edited(form: KeyForm, loaded: KeyForm): KeyForm
  {
    KeyForm(EditedValue(form.elevenlabsApiKey, loaded.elevenlabsApiKey),
            EditedValue(form.elevenlabsAgentId, loaded.elevenlabsAgentId),
            EditedValue(form.openaiApiKey, loaded.openaiApiKey))
  }

  /** The save list as evidently intended: only the fields the user changed
      since loading, so a masked key shown in a field is never sent back. */
  function IntendedSaveList(form: KeyForm, loaded: KeyForm): seq<ApiKeys.KeyInput>
  {
    FilledEntries(Edited(form, loaded))
  }

  /** Saving the form as loaded sends nothing. */
  lemma IntendedSaveAfterLoad(loaded: KeyForm)
    ensures IntendedSaveList(loaded, loaded) == []
  {
    assert Edited(loaded, loaded) == KeyForm("", "", "");
  }

  /** Every entry of the intended list is the trimmed value of a field
      whose content differs from what was loaded, so it is never a masked
      key the page was given. */
  lemma IntendedSaveEntry(form: KeyForm, loaded: KeyForm, i: int)
    requires 0 <= i < |IntendedSaveList(form, loaded)|
    ensures var e := IntendedSaveList(form, loaded)[i];
      && FieldOf(e.service).Some?
      && Value(form, FieldOf(e.service).value) != Value(loaded, FieldOf(e.service).value)
      && e.key == Trim(Value(form, FieldOf(e.service).value))
      && ApiKeys.Usable(e)
  {
    FilledEntriesAt(Edited(form, loaded), i);
  }

  /** A field the user changed is saved exactly when it is not blank. */
  lemma IntendedSaveField(form: KeyForm, loaded: KeyForm, f: KeyField)
    requires Value(form, f) != Value(loaded, f)
    ensures (exists i :: 0 <= i < |IntendedSaveList(form, loaded)| && IntendedSaveList(form, loaded)[i].service == ServiceOf(f))
            <==> !AllSpace(Value(form, f))
  {
    var t, r := Edited(form, loaded), IntendedSaveList(form, loaded);
    TrimEmptyIffAllSpace(Value(form, f));
    assert Value(t, f) == Trim(Value(form, f));
    if Value(t, f) != "" {
      FilledEntriesHas(t, f);
    } else {
      forall i | 0 <= i < |r| ensures r[i].service != ServiceOf(f) {
        FilledEntriesAt(t, i);
      }
    }
  }
}
