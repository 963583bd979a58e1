/**
 The user's model providers: `llm-provider-service.ts` over `postgres-llm-provider-repository.ts`, and the model name
 a session keeps of its provider (`managed-session-service.ts`). Secrets are modelled in the clear; encrypting them is
 a codec around the column.
 */
module ProviderRegistry {
  import opened Contracts
  import opened Text
  import opened ProviderCatalog
  import Store = SessionStore

  datatype OAuthCredential = OAuthCredential(access: string, refresh: string, expires: int)

  datatype Secret = Secret(apiKey: Option<string>, oauthCredential: Option<OAuthCredential>)

  datatype ProviderConfigInput = ProviderConfigInput(
    providerType: string, displayName: Option<string>, baseUrl: Option<string>, headers: Option<map<string, string>>,
    availableModels: Option<seq<string>>, defaultModelId: Option<string>, defaultThinkingLevel: Option<string>,
    enabled: Option<bool>, apiKey: Option<string>, oauthCredential: Option<OAuthCredential>)

  datatype ProviderRecord = ProviderRecord(
    providerConfigId: string, userId: string, providerType: string, displayName: string, authMode: AuthMode,
    secret: Option<Secret>, baseUrl: Option<string>, apiType: Option<string>, headers: map<string, string>,
    availableModels: seq<Model>, defaultModelId: string, defaultThinkingLevel: string, enabled: bool)

  datatype ServiceError =
    | NotFound
    | DuplicateKey
    | MissingProviderType
    | UnsupportedProviderType
    | NoDefaultModel
    | ModelNotListed
    | ThinkingLevelNotSupported
    | BaseUrlRequired
    | ApiKeyRequired
    | OAuthCredentialRequired
    | NotAnOAuthProvider

  // ----- normalizing input -----

  /** Trimmed text, or nothing when none is left. */
  function TrimOptional(o: Option<string>): (r: Option<string>)
    ensures r.Some? ==> r.value != "" && IsTrimmed(r.value)
  {
    if o.None? then None
    else
      TrimTrims(o.value);
      if Trim(o.value) == "" then None else Some(Trim(o.value))
  }

  function OrElse<T>(o: Option<T>, alternative: Option<T>): Option<T> {
    if o.Some? then o else alternative
  }

  /** Trimmed ids, without those that are empty. */
  function TrimmedIds(ids: seq<string>): seq<string> {
    FlatMap((id: string) => if Trim(id) == "" then [] else [Trim(id)], ids)
  }

  function LevelsOf(model: Model): seq<string> {
    GetOr(model.supportedThinkingLevels, [])
  }

  /** The distinct elements in the order of their first occurrence. */
  function Distinct(s: seq<string>): seq<string> {
    if s == [] then []
    else
      var front := Distinct(s[..|s| - 1]);
      if s[|s| - 1] in front then front else front + [s[|s| - 1]]
  }

  function RequestedModel(modelId: string, defaults: seq<Model>): Model {
    var levels := Distinct(FlatMap(LevelsOf, defaults));
    Model(modelId, modelId, exists i :: 0 <= i < |defaults| && defaults[i].supportsReasoning,
          if levels != [] then Some(levels) else None)
  }

  function NormalizeAvailableModels(requested: Option<seq<string>>, defaults: seq<Model>): seq<Model> {
    var ids := TrimmedIds(GetOr(requested, []));
    if ids != [] then seq(|ids|, i requires 0 <= i < |ids| => RequestedModel(ids[i], defaults)) else defaults
  }

  function FindModel(models: seq<Model>, modelId: string): (found: Option<Model>)
    ensures found.Some? ==> found.value in models && found.value.modelId == modelId
    ensures found.None? ==> forall m :: m in models ==> m.modelId != modelId
  {
    if models == [] then None
    else if models[0].modelId == modelId then Some(models[0])
    else FindModel(models[1..], modelId)
  }

  predicate HasText(o: Option<string>) {
    o.Some? && o.value != ""
  }

  function MaterialOf(record: Option<ProviderRecord>): Secret {
    if record.None? then Secret(None, None) else GetOr(record.value.secret, Secret(None, None))
  }

  /** What is stored of a secret: nothing when it holds neither a key nor a credential. */
  function Stored(secret: Secret): Option<Secret> {
    if HasText(secret.apiKey) || secret.oauthCredential.Some? then Some(secret) else None
  }

  /** `validateAndNormalizeRecordInput`: input over the existing record over the catalog's defaults. */
  function NormalizeRecord(catalog: seq<CatalogItem>, userId: string, providerConfigId: string,
                           existing: Option<ProviderRecord>, input: ProviderConfigInput)
    : Result<ProviderRecord, ServiceError>
  {
    var providerType :=
      OrElse(TrimOptional(Some(input.providerType)),
             if existing.Some? then Some(existing.value.providerType) else None);
    if !HasText(providerType) then Failure(MissingProviderType)
    else
      var found := FindItem(catalog, providerType.value);
      if found.None? then Failure(UnsupportedProviderType)
      else
        var item := found.value;
        var displayName := GetOr(TrimOptional(input.displayName),
                                 if existing.Some? then existing.value.displayName else item.displayName);
        var baseUrl := OrElse(TrimOptional(input.baseUrl), if existing.Some? then existing.value.baseUrl else None);
        var level := GetOr(TrimOptional(input.defaultThinkingLevel),
                           if existing.Some? then existing.value.defaultThinkingLevel else item.defaultThinkingLevel);
        var models := NormalizeAvailableModels(input.availableModels,
                                               if existing.Some? then existing.value.availableModels
                                               else item.defaultModels);
        var modelId := OrElse(TrimOptional(input.defaultModelId),
                              if existing.Some? then Some(existing.value.defaultModelId)
                              else if item.defaultModels != [] then Some(item.defaultModels[0].modelId) else None);
        if !HasText(modelId) then Failure(NoDefaultModel)
        else
          var model := FindModel(models, modelId.value);
          if model.None? then Failure(ModelNotListed)
          else if LevelsOf(model.value) != [] && level !in LevelsOf(model.value) then Failure(ThinkingLevelNotSupported)
          else if item.baseUrlRequired && !HasText(baseUrl) then Failure(BaseUrlRequired)
          else
            var material := MaterialOf(existing);
            var secret := Secret(OrElse(TrimOptional(input.apiKey), material.apiKey),
                                 OrElse(input.oauthCredential, material.oauthCredential));
            if item.authMode.ApiKey? && !HasText(secret.apiKey) && existing.None? then Failure(ApiKeyRequired)
            else
              Success(ProviderRecord(
                providerConfigId, userId, providerType.value, displayName, item.authMode,
                OrElse(Stored(secret), if existing.Some? then existing.value.secret else None),
                baseUrl, item.apiType,
                GetOr(input.headers, if existing.Some? then existing.value.headers else map[]),
                models, modelId.value, level,
                GetOr(input.enabled, if existing.Some? then existing.value.enabled else true)))
  }

  // ----- the calls -----

  datatype Call =
    | CreateConfig(userId: string, id: string, input: ProviderConfigInput)
    | UpdateConfig(userId: string, id: string, input: ProviderConfigInput)
    | StoreOAuth(userId: string, id: string, credential: OAuthCredential)
    | ClearOAuth(userId: string, id: string)
    | DeleteConfig(userId: string, id: string)

  type Rows = map<string, ProviderRecord>

  predicate Owns(rows: Rows, userId: string, id: string) {
    id in rows && rows[id].userId == userId
  }

  /** The row after an update: a column that the patch leaves undefined keeps its value. */
  function Patched(row: ProviderRecord, patch: ProviderRecord): ProviderRecord {
    patch.(secret := OrElse(patch.secret, row.secret), baseUrl := OrElse(patch.baseUrl, row.baseUrl),
           apiType := OrElse(patch.apiType, row.apiType))
  }

  function WithCredential(row: ProviderRecord, credential: Option<OAuthCredential>): ProviderRecord {
    row.(secret := Stored(MaterialOf(Some(row)).(oauthCredential := credential)))
  }

  /** The rows after a call, or the error that leaves them alone. */
  function Perform(catalog: seq<CatalogItem>, rows: Rows, call: Call): Result<Rows, ServiceError> {
    match call
    case CreateConfig(userId, id, input) =>
      var record := NormalizeRecord(catalog, userId, id, None, input);
      if record.Failure? then Failure(record.error)
      else if id in rows then Failure(DuplicateKey)
      else Success(rows[id := record.value])
    case UpdateConfig(userId, id, input) =>
      if !Owns(rows, userId, id) then Failure(NotFound)
      else
        var record := NormalizeRecord(catalog, userId, id, Some(rows[id]), input);
        if record.Failure? then Failure(record.error) else Success(rows[id := Patched(rows[id], record.value)])
    case StoreOAuth(userId, id, credential) =>
      if !Owns(rows, userId, id) then Failure(NotFound)
      else if !rows[id].authMode.OAuth? then Failure(NotAnOAuthProvider)
      else Success(rows[id := WithCredential(rows[id], Some(credential))])
    case ClearOAuth(userId, id) =>
      if !Owns(rows, userId, id) then Failure(NotFound)
      else if !rows[id].authMode.OAuth? then Failure(NotAnOAuthProvider)
      else Success(rows[id := WithCredential(rows[id], None)])
    case DeleteConfig(userId, id) =>
      if !Owns(rows, userId, id) then Failure(NotFound) else Success(rows - {id})
  }

  function Performed(catalog: seq<CatalogItem>, rows: Rows, call: Call): Rows {
    var outcome := Perform(catalog, rows, call);
    if outcome.Success? then outcome.value else rows
  }

  function AfterCalls(catalog: seq<CatalogItem>, calls: seq<Call>): Rows {
    if calls == [] then map[]
    else Performed(catalog, AfterCalls(catalog, calls[..|calls| - 1]), calls[|calls| - 1])
  }

  function AddIf(fault: bool, errors: seq<ServiceError>, error: ServiceError): seq<ServiceError> {
    if fault then errors + [error] else errors
  }

  /** What `validateProviderConfig` finds wrong with a record. */
  function Faults(catalog: seq<CatalogItem>, record: ProviderRecord): seq<ServiceError> {
    var item := FindItem(catalog, record.providerType);
    var secret := MaterialOf(Some(record));
    var typeFaults := AddIf(item.None?, [], UnsupportedProviderType);
    var modelFaults := AddIf(record.availableModels == [], typeFaults, ModelNotListed);
    var urlFaults :=
      AddIf(item.Some? && item.value.baseUrlRequired && !HasText(record.baseUrl), modelFaults, BaseUrlRequired);
    var keyFaults := AddIf(record.authMode.ApiKey? && !HasText(secret.apiKey), urlFaults, ApiKeyRequired);
    AddIf(record.authMode.OAuth? && secret.oauthCredential.None?, keyFaults, OAuthCredentialRequired)
  }

  datatype ModelSelection = ModelSelection(modelId: string, thinkingLevel: string)

  function PickModel(record: ProviderRecord, modelId: Option<string>, thinkingLevel: Option<string>, validate: bool)
    : Result<ModelSelection, ServiceError>
  {
    var selected := GetOr(modelId, record.defaultModelId);
    var model := FindModel(record.availableModels, selected);
    var level := GetOr(TrimOptional(thinkingLevel), record.defaultThinkingLevel);
    if model.None? then Failure(ModelNotListed)
    else if validate && TrimOptional(thinkingLevel).Some? && LevelsOf(model.value) == [] then
      Failure(ThinkingLevelNotSupported)
    else if validate && LevelsOf(model.value) != [] && level !in LevelsOf(model.value) then
      Failure(ThinkingLevelNotSupported)
    else Success(ModelSelection(selected, level))
  }

  /** The parts of a resolved provider that a session keeps. */
  datatype ProviderSelection = ProviderSelection(runtimeProviderId: string, selection: ModelSelection)

  function RuntimeProviderId(item: CatalogItem, providerConfigId: string): string {
    if item.usesBuiltInProvider then item.runtimeProviderId else item.runtimeProviderId + "-" + providerConfigId
  }

  function Resolve(catalog: seq<CatalogItem>, rows: Rows, userId: string, id: string, modelId: Option<string>,
                   thinkingLevel: Option<string>, validate: bool): Result<ProviderSelection, ServiceError>
  {
    if !Owns(rows, userId, id) || !rows[id].enabled then Failure(NotFound)
    else
      var record := rows[id];
      var item := FindItem(catalog, record.providerType);
      if item.None? then Failure(UnsupportedProviderType)
      else
        var picked := PickModel(record, TrimOptional(modelId), TrimOptional(thinkingLevel), validate);
        var secret := MaterialOf(Some(record));
        if picked.Failure? then Failure(picked.error)
        else if record.authMode.ApiKey? && !HasText(secret.apiKey) then Failure(ApiKeyRequired)
        else if record.authMode.OAuth? && secret.oauthCredential.None? then Failure(OAuthCredentialRequired)
        else Success(ProviderSelection(RuntimeProviderId(item.value, record.providerConfigId), picked.value))
  }

  class LlmProviderService {
    const catalog: seq<CatalogItem>
    var rows: Rows

    constructor (catalog: seq<CatalogItem>)
      ensures this.catalog == catalog && rows == AfterCalls(catalog, [])
    {
      this.catalog := catalog;
      rows := map[];
    }

    method CreateProviderConfig(userId: string, id: string, input: ProviderConfigInput)
      returns (r: Result<ProviderRecord, ServiceError>)
      modifies this
      ensures rows == Performed(catalog, old(rows), CreateConfig(userId, id, input))
      ensures r == AnswerOf(Perform(catalog, old(rows), CreateConfig(userId, id, input)), id)
      ensures if r.Success? then id in rows && r.value == rows[id] else rows == old(rows)
    {
      var record := NormalizeRecord(catalog, userId, id, None, input);
      if record.Failure? {
        return record;
      }
      if id in rows {
        return Failure(DuplicateKey);
      }
      rows := rows[id := record.value];
      r := Success(rows[id]);
    }

    method UpdateProviderConfig(userId: string, id: string, input: ProviderConfigInput)
      returns (r: Result<ProviderRecord, ServiceError>)
      modifies this
      ensures rows == Performed(catalog, old(rows), UpdateConfig(userId, id, input))
      ensures r == AnswerOf(Perform(catalog, old(rows), UpdateConfig(userId, id, input)), id)
      ensures if r.Success? then id in rows && r.value == rows[id] else rows == old(rows)
    {
      if id !in rows || rows[id].userId != userId {
        return Failure(NotFound);
      }
      var row := rows[id];
      var record := NormalizeRecord(catalog, userId, id, Some(row), input);
      if record.Failure? {
        return record;
      }
      var patch := record.value;
      var updated := patch.(secret := row.secret, baseUrl := row.baseUrl, apiType := row.apiType);
      if patch.secret.Some? {
        updated := updated.(secret := patch.secret);
      }
      if patch.baseUrl.Some? {
        updated := updated.(baseUrl := patch.baseUrl);
      }
      if patch.apiType.Some? {
        updated := updated.(apiType := patch.apiType);
      }
      rows := rows[id := updated];
      r := Success(rows[id]);
    }

    method StoreOAuthCredential(userId: string, id: string, credential: OAuthCredential)
      returns (r: Result<ProviderRecord, ServiceError>)
      modifies this
      ensures rows == Performed(catalog, old(rows), StoreOAuth(userId, id, credential))
      ensures r == AnswerOf(Perform(catalog, old(rows), StoreOAuth(userId, id, credential)), id)
      ensures if r.Success? then id in rows && r.value == rows[id] else rows == old(rows)
    {
      if id !in rows || rows[id].userId != userId {
        return Failure(NotFound);
      }
      if rows[id].authMode != OAuth {
        return Failure(NotAnOAuthProvider);
      }
      var material := MaterialOf(Some(rows[id]));
      rows := rows[id := rows[id].(secret := Stored(material.(oauthCredential := Some(credential))))];
      r := Success(rows[id]);
    }

    method ClearOAuthCredential(userId: string, id: string) returns (r: Result<ProviderRecord, ServiceError>)
      modifies this
      ensures rows == Performed(catalog, old(rows), ClearOAuth(userId, id))
      ensures r == AnswerOf(Perform(catalog, old(rows), ClearOAuth(userId, id)), id)
      ensures if r.Success? then id in rows && r.value == rows[id] else rows == old(rows)
    {
      if id !in rows || rows[id].userId != userId {
        return Failure(NotFound);
      }
      if rows[id].authMode != OAuth {
        return Failure(NotAnOAuthProvider);
      }
      var material := MaterialOf(Some(rows[id]));
      rows := rows[id := rows[id].(secret := Stored(material.(oauthCredential := None)))];
      r := Success(rows[id]);
    }

    method DeleteProviderConfig(userId: string, id: string) returns (r: Result<(), ServiceError>)
      modifies this
      ensures rows == Performed(catalog, old(rows), DeleteConfig(userId, id))
      ensures r == if Owns(old(rows), userId, id) then Success(()) else Failure(NotFound)
    {
      if id !in rows || rows[id].userId != userId {
        return Failure(NotFound);
      }
      rows := rows - {id};
      r := Success(());
    }

    /** Collects everything that is wrong with a record. */
    method ValidateProviderConfig(userId: string, id: string) returns (r: Result<seq<ServiceError>, ServiceError>)
      ensures r == if Owns(rows, userId, id) then Success(Faults(catalog, rows[id])) else Failure(NotFound)
    {
      if id !in rows || rows[id].userId != userId {
        return Failure(NotFound);
      }
      var record := rows[id];
      var secret := MaterialOf(Some(record));
      var errors: seq<ServiceError> := [];
      var item := FindItem(catalog, record.providerType);
      if item.None? {
        errors := errors + [UnsupportedProviderType];
      }
      if |record.availableModels| == 0 {
        errors := errors + [ModelNotListed];
      }
      if item.Some? && item.value.baseUrlRequired && !HasText(record.baseUrl) {
        errors := errors + [BaseUrlRequired];
      }
      if record.authMode == ApiKey && !HasText(secret.apiKey) {
        errors := errors + [ApiKeyRequired];
      }
      if record.authMode == OAuth && secret.oauthCredential.None? {
        errors := errors + [OAuthCredentialRequired];
      }
      r := Success(errors);
    }
  }

  /** The record a caller is handed back. */
  function AnswerOf(outcome: Result<Rows, ServiceError>, id: string): Result<ProviderRecord, ServiceError>
    requires outcome.Success? ==> id in outcome.value
  {
    if outcome.Failure? then Failure(outcome.error) else Success(outcome.value[id])
  }

  // ----- what every call keeps -----

  /** The record's names resolve against the catalog and its own models. */
  ghost predicate IsResolvable(catalog: seq<CatalogItem>, record: ProviderRecord) {
    var item := FindItem(catalog, record.providerType);
    var model := FindModel(record.availableModels, record.defaultModelId);
    && record.providerType != "" && item.Some? && record.authMode == item.value.authMode
    && (item.value.apiType.Some? ==> record.apiType == item.value.apiType)
    && model.Some? && (LevelsOf(model.value) == [] || record.defaultThinkingLevel in LevelsOf(model.value))
    && (item.value.baseUrlRequired ==> HasText(record.baseUrl))
    && IsName(record.defaultThinkingLevel)
    && forall m :: m in record.availableModels ==> IsName(m.modelId)
  }

  ghost predicate Inv(catalog: seq<CatalogItem>, rows: Rows) {
    forall id :: id in rows ==> rows[id].providerConfigId == id && IsResolvable(catalog, rows[id])
  }

  lemma {:induction false} TrimmedIdsAreNames(ids: seq<string>)
    ensures forall id :: id in TrimmedIds(ids) ==> IsName(id)
  {
    if ids != [] {
      TrimmedIdsAreNames(ids[..|ids| - 1]);
      TrimTrims(ids[|ids| - 1]);
    }
  }

  lemma {:induction false} NormalizedModelsAreNamed(requested: Option<seq<string>>, defaults: seq<Model>)
    requires forall m :: m in defaults ==> IsName(m.modelId)
    ensures forall m :: m in NormalizeAvailableModels(requested, defaults) ==> IsName(m.modelId)
  {
    TrimmedIdsAreNames(GetOr(requested, []));
  }

  lemma {:induction false} NormalizedIsResolvable(catalog: seq<CatalogItem>, userId: string, id: string,
                                                  existing: Option<ProviderRecord>, input: ProviderConfigInput)
    requires existing.Some? ==> IsResolvable(catalog, existing.value)
    requires NormalizeRecord(catalog, userId, id, existing, input).Success?
    ensures var record := NormalizeRecord(catalog, userId, id, existing, input).value;
            IsResolvable(catalog, record) && record.providerConfigId == id && record.userId == userId
  {
    hide FindItem, FindModel, NormalizeAvailableModels, Trim, IsTrimmed, Stored;
    var record := NormalizeRecord(catalog, userId, id, existing, input).value;
    var item := FindItem(catalog, record.providerType).value;
    assert IsSound(item);
    NormalizedModelsAreNamed(input.availableModels,
                             if existing.Some? then existing.value.availableModels else item.defaultModels);
  }

  lemma {:induction false} PatchedIsResolvable(catalog: seq<CatalogItem>, row: ProviderRecord, patch: ProviderRecord)
    requires IsResolvable(catalog, patch)
    ensures IsResolvable(catalog, Patched(row, patch)) && Patched(row, patch).providerConfigId == patch.providerConfigId
  {
  }

  lemma {:induction false} RowKeepsInv(catalog: seq<CatalogItem>, rows: Rows, id: string, record: ProviderRecord)
    requires Inv(catalog, rows) && record.providerConfigId == id && IsResolvable(catalog, record)
    ensures Inv(catalog, rows[id := record])
  {
  }

  lemma {:induction false} CreateKeepsInv(catalog: seq<CatalogItem>, rows: Rows, userId: string, id: string,
                                          input: ProviderConfigInput)
    requires Inv(catalog, rows)
    ensures Inv(catalog, Performed(catalog, rows, CreateConfig(userId, id, input)))
  {
    var record := NormalizeRecord(catalog, userId, id, None, input);
    if record.Success? {
      NormalizedIsResolvable(catalog, userId, id, None, input);
      RowKeepsInv(catalog, rows, id, record.value);
    }
  }

  lemma {:induction false} UpdateKeepsInv(catalog: seq<CatalogItem>, rows: Rows, userId: string, id: string,
                                          input: ProviderConfigInput)
    requires Inv(catalog, rows)
    ensures Inv(catalog, Performed(catalog, rows, UpdateConfig(userId, id, input)))
  {
    if Owns(rows, userId, id) {
      var record := NormalizeRecord(catalog, userId, id, Some(rows[id]), input);
      if record.Success? {
        NormalizedIsResolvable(catalog, userId, id, Some(rows[id]), input);
        PatchedIsResolvable(catalog, rows[id], record.value);
        RowKeepsInv(catalog, rows, id, Patched(rows[id], record.value));
      }
    }
  }

  lemma {:induction false} CredentialKeepsInv(catalog: seq<CatalogItem>, rows: Rows, id: string,
                                              credential: Option<OAuthCredential>)
    requires Inv(catalog, rows) && id in rows
    ensures IsResolvable(catalog, WithCredential(rows[id], credential))
    ensures Inv(catalog, rows[id := WithCredential(rows[id], credential)])
  {
    assert IsResolvable(catalog, rows[id]);
    RowKeepsInv(catalog, rows, id, WithCredential(rows[id], credential));
  }

  lemma {:induction false} CallKeepsInv(catalog: seq<CatalogItem>, rows: Rows, call: Call)
    requires Inv(catalog, rows)
    ensures Inv(catalog, Performed(catalog, rows, call))
  {
    match call
    case CreateConfig(userId, id, input) => CreateKeepsInv(catalog, rows, userId, id, input);
    case UpdateConfig(userId, id, input) => UpdateKeepsInv(catalog, rows, userId, id, input);
    case StoreOAuth(_, id, credential) =>
      if id in rows {
        CredentialKeepsInv(catalog, rows, id, Some(credential));
      }
    case ClearOAuth(_, id) =>
      if id in rows {
        CredentialKeepsInv(catalog, rows, id, None);
      }
    case DeleteConfig(_, _) =>
  }

  /** After any calls, every record's default model, thinking level and base URL are in order. */
  lemma {:induction false} InvAlways(catalog: seq<CatalogItem>, calls: seq<Call>)
    ensures Inv(catalog, AfterCalls(catalog, calls))
  {
    if calls != [] {
      InvAlways(catalog, calls[..|calls| - 1]);
      CallKeepsInv(catalog, AfterCalls(catalog, calls[..|calls| - 1]), calls[|calls| - 1]);
    }
  }

  /**
   For an enabled record of the user, in any reachable state, validation finds no fault exactly when a session that
   asks for the defaults can be resolved.
   */
  lemma {:induction false} ValidExactlyWhenResolved(catalog: seq<CatalogItem>, calls: seq<Call>, userId: string,
                                                    id: string)
    requires var rows := AfterCalls(catalog, calls); Owns(rows, userId, id) && rows[id].enabled
    ensures var rows := AfterCalls(catalog, calls);
            Faults(catalog, rows[id]) == [] <==> Resolve(catalog, rows, userId, id, None, None, true).Success?
  {
    InvAlways(catalog, calls);
    assert IsResolvable(catalog, AfterCalls(catalog, calls)[id]);
  }

  /**
   The API type follows the provider type through an update exactly when the new type has one or the row had none:
   otherwise the undefined column keeps the type of the old provider.
   */
  lemma {:induction false} ApiTypeAfterUpdate(catalog: seq<CatalogItem>, rows: Rows, userId: string, id: string,
                                              input: ProviderConfigInput)
    requires Perform(catalog, rows, UpdateConfig(userId, id, input)).Success?
    ensures var record := Performed(catalog, rows, UpdateConfig(userId, id, input))[id];
            var item := FindItem(catalog, record.providerType);
            item.Some? && (record.apiType == item.value.apiType <==> item.value.apiType.Some? || rows[id].apiType.None?)
  {
    var record := NormalizeRecord(catalog, userId, id, Some(rows[id]), input).value;
    assert Performed(catalog, rows, UpdateConfig(userId, id, input))[id] == Patched(rows[id], record);
  }

  function OnlyType(providerType: string): ProviderConfigInput {
    ProviderConfigInput(providerType, None, None, None, None, None, None, None, None, None)
  }

  lemma {:induction false} TypesAreFound()
    ensures FindItem(CATALOG, TOGETHER_AI.providerType) == Some(TOGETHER_AI)
    ensures FindItem(CATALOG, OPENAI.providerType) == Some(OPENAI)
  {
    hide HasDistinctTypes, FindItem, BuiltIn, Compatible;
    CatalogHasDistinctTypes();
    ItemsAreFound(CATALOG, 16);
    ItemsAreFound(CATALOG, 0);
    assert CATALOG[16] == TOGETHER_AI && CATALOG[0] == OPENAI;
  }

  lemma {:induction false} TogetherAndOpenAi()
    ensures TOGETHER_AI.providerType == "together-ai" && TOGETHER_AI.apiType == Some("openai-completions")
    ensures TOGETHER_AI.defaultModels != [] && LevelsOf(TOGETHER_AI.defaultModels[0]) == []
    ensures OPENAI.providerType == "openai" && OPENAI.apiType.None? && !OPENAI.baseUrlRequired
    ensures IsName("together-ai") && IsName("openai")
  {
  }

  /** A new record of a type that needs a base URL and a key and leaves the thinking level open. */
  lemma {:induction false} NewRecordOfType(catalog: seq<CatalogItem>, item: CatalogItem, userId: string, id: string,
                                           baseUrl: string, apiKey: string)
    requires FindItem(catalog, item.providerType) == Some(item) && IsName(item.providerType)
    requires IsName(baseUrl) && IsName(apiKey)
    requires item.defaultModels != [] && LevelsOf(item.defaultModels[0]) == []
    ensures var input := OnlyType(item.providerType).(baseUrl := Some(baseUrl), apiKey := Some(apiKey));
            var record := NormalizeRecord(catalog, userId, id, None, input);
            && record.Success? && record.value.apiType == item.apiType
            && record.value.userId == userId && IsResolvable(catalog, record.value)
  {
    NamesStayTrimmed(item.providerType);
    NamesStayTrimmed(baseUrl);
    NamesStayTrimmed(apiKey);
    assert IsSound(item) && IsName(item.defaultModels[0].modelId);
    hide FindItem, Trim, IsTrimmed, RequestedModel;
    var input := OnlyType(item.providerType).(baseUrl := Some(baseUrl), apiKey := Some(apiKey));
    assert NormalizeAvailableModels(None, item.defaultModels) == item.defaultModels;
    NormalizedIsResolvable(catalog, userId, id, None, input);
  }

  /** A record may change to any known type whose need of a base URL it meets. */
  lemma {:induction false} TypeMayChange(catalog: seq<CatalogItem>, record: ProviderRecord, item: CatalogItem)
    requires IsResolvable(catalog, record)
    requires FindItem(catalog, item.providerType) == Some(item) && IsName(item.providerType)
    requires item.baseUrlRequired ==> HasText(record.baseUrl)
    ensures var normalized := NormalizeRecord(catalog, record.userId, record.providerConfigId, Some(record),
                                              OnlyType(item.providerType));
            && normalized.Success? && normalized.value.providerType == item.providerType
            && Patched(record, normalized.value).apiType == OrElse(item.apiType, record.apiType)
  {
    NamesStayTrimmed(item.providerType);
    assert IsName(record.defaultModelId);
    hide FindItem, Trim, IsTrimmed, RequestedModel;
    assert NormalizeAvailableModels(None, record.availableModels) == record.availableModels;
  }

  lemma {:induction false} TwoCalls(catalog: seq<CatalogItem>, first: Call, second: Call)
    ensures AfterCalls(catalog, [first, second]) == Performed(catalog, Performed(catalog, map[], first), second)
  {
    hide Performed;
    assert [first, second][..1] == [first] && [first][..0] == [];
    assert AfterCalls(catalog, []) == map[];
    assert AfterCalls(catalog, [first]) == Performed(catalog, map[], first);
  }

  function NewConfig(userId: string, id: string, providerType: string): Call {
    CreateConfig(userId, id, OnlyType(providerType).(baseUrl := Some("u"), apiKey := Some("k")))
  }

  /** The rows after a record of one type is created and changed to another type. */
  lemma {:induction false} CreateThenChange(catalog: seq<CatalogItem>, former: CatalogItem, next: CatalogItem,
                                            userId: string, id: string)
    requires FindItem(catalog, former.providerType) == Some(former) && IsName(former.providerType)
    requires FindItem(catalog, next.providerType) == Some(next) && IsName(next.providerType)
    requires former.defaultModels != [] && LevelsOf(former.defaultModels[0]) == [] && !next.baseUrlRequired
    ensures var rows := AfterCalls(catalog, [NewConfig(userId, id, former.providerType),
                                             UpdateConfig(userId, id, OnlyType(next.providerType))]);
            && id in rows && rows[id].providerType == next.providerType
            && rows[id].apiType == OrElse(next.apiType, former.apiType)
  {
    hide FindItem, NormalizeRecord, Patched, IsResolvable;
    var create := NewConfig(userId, id, former.providerType);
    var update := UpdateConfig(userId, id, OnlyType(next.providerType));
    TwoCalls(catalog, create, update);
    NewRecordOfType(catalog, former, userId, id, "u", "k");
    var record := NormalizeRecord(catalog, userId, id, None, create.input).value;
    NormalizedIsResolvable(catalog, userId, id, None, create.input);
    TypeMayChange(catalog, record, next);
    PatchedIsOfType(record, NormalizeRecord(catalog, userId, id, Some(record), update.input).value);
  }

  /** So it happens: a Together AI record that is changed to OpenAI, which has no API type, keeps the old one. */
  lemma {:induction false} StaleApiType(userId: string, id: string)
    ensures var rows := AfterCalls(CATALOG, [NewConfig(userId, id, "together-ai"),
                                             UpdateConfig(userId, id, OnlyType("openai"))]);
            && id in rows && FindItem(CATALOG, rows[id].providerType) == Some(OPENAI) && OPENAI.apiType.None?
            && rows[id].apiType == Some("openai-completions")
  {
    hide FindItem, AfterCalls, BuiltIn, Compatible, NewConfig, OnlyType;
    TogetherAndOpenAi();
    TypesAreFound();
    CreateThenChange(CATALOG, TOGETHER_AI, OPENAI, userId, id);
  }

  lemma {:induction false} PatchedIsOfType(row: ProviderRecord, patch: ProviderRecord)
    ensures Patched(row, patch).providerType == patch.providerType
  {
  }

  lemma {:induction false} FaultsWithCredential(catalog: seq<CatalogItem>, record: ProviderRecord,
                                                credential: Option<OAuthCredential>)
    requires IsResolvable(catalog, record) && record.authMode.OAuth?
    ensures Faults(catalog, WithCredential(record, credential)) ==
            if credential.Some? then [] else [OAuthCredentialRequired]
    ensures HasText(MaterialOf(Some(record)).apiKey) ==>
              MaterialOf(Some(WithCredential(record, credential))).apiKey == MaterialOf(Some(record)).apiKey
  {
  }

  /** Every setting that is given is taken, every other is kept, and so are the record's id and owner. */
  ghost predicate IsMerge(before: ProviderRecord, input: ProviderConfigInput, after: ProviderRecord) {
    var oldSecret, newSecret := MaterialOf(Some(before)), MaterialOf(Some(after));
    && after.providerConfigId == before.providerConfigId && after.userId == before.userId
    && after.providerType == GetOr(TrimOptional(Some(input.providerType)), before.providerType)
    && after.displayName == GetOr(TrimOptional(input.displayName), before.displayName)
    && after.baseUrl == OrElse(TrimOptional(input.baseUrl), before.baseUrl)
    && after.headers == GetOr(input.headers, before.headers)
    && after.defaultModelId == GetOr(TrimOptional(input.defaultModelId), before.defaultModelId)
    && after.defaultThinkingLevel == GetOr(TrimOptional(input.defaultThinkingLevel), before.defaultThinkingLevel)
    && after.enabled == GetOr(input.enabled, before.enabled)
    && newSecret.apiKey == OrElse(TrimOptional(input.apiKey), oldSecret.apiKey)
    && newSecret.oauthCredential == OrElse(input.oauthCredential, oldSecret.oauthCredential)
  }

  lemma {:induction false} RecordMerges(catalog: seq<CatalogItem>, row: ProviderRecord, input: ProviderConfigInput)
    requires NormalizeRecord(catalog, row.userId, row.providerConfigId, Some(row), input).Success?
    ensures var record := NormalizeRecord(catalog, row.userId, row.providerConfigId, Some(row), input).value;
            IsMerge(row, input, Patched(row, record))
  {
    hide FindItem, FindModel, NormalizeAvailableModels;
  }

  /** An accepted update merges the input into the user's record and keeps all other records. */
  lemma {:induction false} UpdateMerges(catalog: seq<CatalogItem>, rows: Rows, userId: string, id: string,
                                        input: ProviderConfigInput)
    requires Inv(catalog, rows) && Perform(catalog, rows, UpdateConfig(userId, id, input)).Success?
    ensures var after := Performed(catalog, rows, UpdateConfig(userId, id, input));
            id in after && after == rows[id := after[id]] && IsMerge(rows[id], input, after[id])
  {
    hide NormalizeRecord, IsMerge, Patched, IsResolvable;
    RecordMerges(catalog, rows[id], input);
  }

  /** An input that gives nothing, or nothing but white space. */
  predicate IsBlank(input: ProviderConfigInput) {
    && Trim(input.providerType) == "" && TrimOptional(input.displayName).None? && TrimOptional(input.baseUrl).None?
    && input.headers.None? && TrimmedIds(GetOr(input.availableModels, [])) == []
    && TrimOptional(input.defaultModelId).None? && TrimOptional(input.defaultThinkingLevel).None?
    && input.enabled.None? && TrimOptional(input.apiKey).None? && input.oauthCredential.None?
  }

  /** In every reachable state an update that gives nothing is accepted and changes nothing. */
  lemma {:induction false} BlankUpdateChangesNothing(catalog: seq<CatalogItem>, calls: seq<Call>, userId: string,
                                                     id: string, input: ProviderConfigInput)
    requires Owns(AfterCalls(catalog, calls), userId, id) && IsBlank(input)
    ensures Perform(catalog, AfterCalls(catalog, calls), UpdateConfig(userId, id, input))
         == Success(AfterCalls(catalog, calls))
  {
    InvAlways(catalog, calls);
    var rows := AfterCalls(catalog, calls);
    BlankRecord(catalog, rows[id], input);
    assert rows[id := rows[id]] == rows;
  }

  lemma {:induction false} BlankRecord(catalog: seq<CatalogItem>, record: ProviderRecord, input: ProviderConfigInput)
    requires IsResolvable(catalog, record) && IsBlank(input)
    ensures var normalized := NormalizeRecord(catalog, record.userId, record.providerConfigId, Some(record), input);
            normalized.Success? && Patched(record, normalized.value) == record
  {
    assert IsName(record.defaultModelId);
  }

  /** Storing a credential makes an OAuth record valid and keeps its API key. */
  lemma {:induction false} StoreMakesValid(catalog: seq<CatalogItem>, rows: Rows, userId: string, id: string,
                                           credential: OAuthCredential)
    requires Inv(catalog, rows) && Owns(rows, userId, id) && rows[id].authMode.OAuth?
    ensures var after := Performed(catalog, rows, StoreOAuth(userId, id, credential));
            && id in after && after == rows[id := after[id]] && Faults(catalog, after[id]) == []
            && (HasText(MaterialOf(Some(rows[id])).apiKey) ==>
                  MaterialOf(Some(after[id])).apiKey == MaterialOf(Some(rows[id])).apiKey)
  {
    hide FindItem, FindModel, IsResolvable, Faults, MaterialOf, WithCredential, NormalizeRecord;
    assert IsResolvable(catalog, rows[id]);
    FaultsWithCredential(catalog, rows[id], Some(credential));
    var after := Performed(catalog, rows, StoreOAuth(userId, id, credential));
    assert after == rows[id := WithCredential(rows[id], Some(credential))];
  }

  /** Clearing the credential makes an OAuth record invalid, for that reason alone, and keeps its API key. */
  lemma {:induction false} ClearMakesInvalid(catalog: seq<CatalogItem>, rows: Rows, userId: string, id: string)
    requires Inv(catalog, rows) && Owns(rows, userId, id) && rows[id].authMode.OAuth?
    ensures var after := Performed(catalog, rows, ClearOAuth(userId, id));
            && id in after && after == rows[id := after[id]] && Faults(catalog, after[id]) == [OAuthCredentialRequired]
            && (HasText(MaterialOf(Some(rows[id])).apiKey) ==>
                  MaterialOf(Some(after[id])).apiKey == MaterialOf(Some(rows[id])).apiKey)
  {
    hide FindItem, FindModel, IsResolvable, Faults, MaterialOf, WithCredential, NormalizeRecord;
    assert IsResolvable(catalog, rows[id]);
    FaultsWithCredential(catalog, rows[id], None);
    var after := Performed(catalog, rows, ClearOAuth(userId, id));
    assert after == rows[id := WithCredential(rows[id], None)];
  }

  // ----- the thinking levels of requested models -----

  lemma {:induction false} DistinctMembers(s: seq<string>, x: string)
    ensures x in Distinct(s) <==> x in s
  {
    if s != [] {
      DistinctMembers(s[..|s| - 1], x);
      assert s == s[..|s| - 1] + [s[|s| - 1]];
    }
  }

  lemma {:induction false} LevelsMembers(models: seq<Model>, level: string)
    ensures level in FlatMap(LevelsOf, models) <==> exists m :: m in models && level in LevelsOf(m)
  {
    if models != [] {
      LevelsMembers(models[..|models| - 1], level);
      assert models == models[..|models| - 1] + [models[|models| - 1]];
    }
  }

  /** A model the user lists supports exactly the thinking levels that some default model supports. */
  lemma {:induction false} RequestedModelLevels(modelId: string, defaults: seq<Model>, level: string)
    ensures level in LevelsOf(RequestedModel(modelId, defaults)) <==> exists m :: m in defaults && level in LevelsOf(m)
  {
    DistinctMembers(FlatMap(LevelsOf, defaults), level);
    LevelsMembers(defaults, level);
  }

  // ----- the model name of a session -----

  /** `s.split("/")`. */
  function Segments(s: string): (segments: seq<string>)
    ensures |segments| > 0 && (|segments| == 1 <==> '/' !in s) && '/' !in segments[0]
  {
    if s == "" then [""]
    else if s[0] == '/' then [""] + Segments(s[1..])
    else
      var rest := Segments(s[1..]);
      [[s[0]] + rest[0]] + rest[1..]
  }

  function Join(segments: seq<string>): string
    requires |segments| > 0
  {
    if |segments| == 1 then segments[0] else segments[0] + "/" + Join(segments[1..])
  }

  lemma {:induction false} JoinSegments(s: string)
    ensures Join(Segments(s)) == s
  {
    if s != "" {
      JoinSegments(s[1..]);
      var rest := Segments(s[1..]);
      if s[0] == '/' {
        assert ([""] + rest)[1..] == rest;
      } else {
        assert ([[s[0]] + rest[0]] + rest[1..])[1..] == rest[1..];
      }
    }
  }

  /** What a session stores as its model when it is created. */
  function SessionModel(selection: ProviderSelection): string {
    selection.runtimeProviderId + "/" + selection.selection.modelId
  }

  /** The model id that a continued session recovers: everything after the first slash. */
  function RecoverModelId(model: string): string {
    if '/' in model then Join(Segments(model)[1..]) else model
  }

  lemma {:induction false} FirstSlash(a: string, b: string, c: string, d: string)
    requires a + "/" + b == c + "/" + d && '/' !in a && '/' !in c
    ensures a == c && b == d
  {
    var s := a + "/" + b;
    assert s[|a|] == '/' && forall i :: 0 <= i < |a| ==> s[i] == a[i];
    assert s[|c|] == '/' && forall i :: 0 <= i < |c| ==> s[i] == c[i];
    assert a == s[..|a|] && c == s[..|c|];
    assert b == s[|a| + 1..] && d == s[|c| + 1..];
  }

  /** The model id, slashes and all, is recovered exactly when the runtime provider id has no slash. */
  lemma {:induction false} ModelIdIsRecovered(runtimeProviderId: string, modelId: string)
    ensures RecoverModelId(runtimeProviderId + "/" + modelId) == modelId <==> '/' !in runtimeProviderId
  {
    var model := runtimeProviderId + "/" + modelId;
    assert model[|runtimeProviderId|] == '/';
    var first, rest := Segments(model)[0], RecoverModelId(model);
    JoinSegments(model);
    assert model == first + "/" + rest;
    if '/' !in runtimeProviderId {
      FirstSlash(runtimeProviderId, modelId, first, rest);
    } else {
      assert first == model[..|first|] && runtimeProviderId == model[..|runtimeProviderId|];
    }
  }

  lemma {:induction false} RuntimeProviderIdHasNoSlash(catalog: seq<CatalogItem>, rows: Rows, userId: string,
                                                       id: string, modelId: Option<string>,
                                                       thinkingLevel: Option<string>, validate: bool)
    requires Inv(catalog, rows) && '/' !in id
    requires Resolve(catalog, rows, userId, id, modelId, thinkingLevel, validate).Success?
    ensures '/' !in Resolve(catalog, rows, userId, id, modelId, thinkingLevel, validate).value.runtimeProviderId
  {
    var item: CatalogItem := FindItem(catalog, rows[id].providerType).value;
    assert IsSound(item);
  }

  lemma {:induction false} NamesStayTrimmed(name: string)
    requires IsName(name)
    ensures TrimOptional(Some(name)) == Some(name)
  {
    TrimTrims(name);
  }

  /** Asking again for what was selected selects it again. */
  lemma {:induction false} SelectionIsStable(catalog: seq<CatalogItem>, rows: Rows, userId: string, id: string,
                                             modelId: Option<string>, thinkingLevel: Option<string>, validate: bool)
    requires Inv(catalog, rows) && Resolve(catalog, rows, userId, id, modelId, thinkingLevel, validate).Success?
    ensures var created := Resolve(catalog, rows, userId, id, modelId, thinkingLevel, validate);
            var selection := created.value.selection;
            Resolve(catalog, rows, userId, id, Some(selection.modelId), Some(selection.thinkingLevel), false) == created
  {
    hide FindItem, FindModel, Trim, IsTrimmed, RuntimeProviderId;
    var selection := Resolve(catalog, rows, userId, id, modelId, thinkingLevel, validate).value.selection;
    assert IsResolvable(catalog, rows[id]);
    NamesStayTrimmed(selection.modelId);
    NamesStayTrimmed(selection.thinkingLevel);
  }

  /**
   A session created with a provider goes on with the same provider, model and thinking level, as long as the record
   stays as it is, exactly when the user id is its own normal form: the session keeps the normalized user id, the
   provider record the original one.
   */
  lemma {:induction false} ContinuationKeepsSelection(catalog: seq<CatalogItem>, calls: seq<Call>, userId: string,
                                                      id: string, modelId: Option<string>,
                                                      thinkingLevel: Option<string>)
    requires '/' !in id
    requires var rows := AfterCalls(catalog, calls);
             Resolve(catalog, rows, userId, id, modelId, thinkingLevel, thinkingLevel.Some?).Success?
    ensures var rows := AfterCalls(catalog, calls);
            var created := Resolve(catalog, rows, userId, id, modelId, thinkingLevel, thinkingLevel.Some?);
            var continued := Resolve(catalog, rows, Store.NormalizeUserId(userId), id,
                                     Some(RecoverModelId(SessionModel(created.value))),
                                     Some(created.value.selection.thinkingLevel), false);
            && (continued == created <==> IsTrimmed(userId) && !Store.Quoted(userId))
            && (continued != created ==> continued == Failure(NotFound))
  {
    var rows := AfterCalls(catalog, calls);
    var validate := thinkingLevel.Some?;
    var created := Resolve(catalog, rows, userId, id, modelId, thinkingLevel, validate).value;
    InvAlways(catalog, calls);
    RuntimeProviderIdHasNoSlash(catalog, rows, userId, id, modelId, thinkingLevel, validate);
    ModelIdIsRecovered(created.runtimeProviderId, created.selection.modelId);
    SelectionIsStable(catalog, rows, userId, id, modelId, thinkingLevel, validate);
    Store.NormalizedFixedPoints(userId);
    if Store.NormalizeUserId(userId) != userId {
      assert !Owns(rows, Store.NormalizeUserId(userId), id);
    }
  }

  /** Users of the API, whose ids are issued by the identity service, always go on with what they chose. */
  lemma {:induction false} ApiUsersContinue(catalog: seq<CatalogItem>, calls: seq<Call>, userId: string, id: string,
                                            modelId: Option<string>, thinkingLevel: Option<string>)
    requires '/' !in id && Store.IsIssuedUserId(userId)
    requires var rows := AfterCalls(catalog, calls);
             Resolve(catalog, rows, userId, id, modelId, thinkingLevel, thinkingLevel.Some?).Success?
    ensures var rows := AfterCalls(catalog, calls);
            var created := Resolve(catalog, rows, userId, id, modelId, thinkingLevel, thinkingLevel.Some?);
            Resolve(catalog, rows, Store.NormalizeUserId(userId), id,
                    Some(RecoverModelId(SessionModel(created.value))),
                    Some(created.value.selection.thinkingLevel), false) == created
  {
    hide AfterCalls, Resolve, RecoverModelId, SessionModel;
    ContinuationKeepsSelection(catalog, calls, userId, id, modelId, thinkingLevel);
    Store.IssuedUserIdsAreNormal(userId);
    Store.NormalizedFixedPoints(userId);
  }
}
