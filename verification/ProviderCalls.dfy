/**
 What each call of the provider service leaves behind, setting by setting, what a session resolves to, and which error
 a refused call answers with.
 */
module ProviderCalls {
  import opened Contracts
  import opened Text
  import opened ProviderCatalog
  import opened ProviderRegistry

  // ----- what is asked for -----

  predicate Asks(o: Option<string>) {
    o.Some? && Trim(o.value) != ""
  }

  /** What is asked for, trimmed, or else the default. */
  function Chosen(o: Option<string>, default: string): string {
    if o.Some? && Trim(o.value) != "" then Trim(o.value) else default
  }

  function ChosenOr(o: Option<string>, stored: Option<string>): Option<string> {
    if o.Some? && Trim(o.value) != "" then Some(Trim(o.value)) else stored
  }

  function Levels(model: Model): seq<string> {
    if model.supportedThinkingLevels.Some? then model.supportedThinkingLevels.value else []
  }

  /** The last item of a type, as a map keeps it. */
  ghost predicate IsItem(catalog: seq<CatalogItem>, providerType: string, item: CatalogItem) {
    exists i | 0 <= i < |catalog| ::
      && catalog[i] == item && item.providerType == providerType
      && forall j :: i < j < |catalog| ==> catalog[j].providerType != providerType
  }

  /** The first model of an id, as `find` gives it. */
  ghost predicate IsListed(models: seq<Model>, modelId: string, model: Model) {
    exists i | 0 <= i < |models| ::
      models[i] == model && model.modelId == modelId && forall j :: 0 <= j < i ==> models[j].modelId != modelId
  }

  lemma {:induction false} ItemInFront(catalog: seq<CatalogItem>, providerType: string, item: CatalogItem)
    requires catalog != [] && catalog[|catalog| - 1].providerType != providerType
    ensures IsItem(catalog[..|catalog| - 1], providerType, item) <==> IsItem(catalog, providerType, item)
  {
    var front := catalog[..|catalog| - 1];
    assert forall i :: 0 <= i < |front| ==> front[i] == catalog[i];
  }

  lemma {:induction false} FindItemIs(catalog: seq<CatalogItem>, providerType: string)
    ensures forall item :: FindItem(catalog, providerType) == Some(item) <==> IsItem(catalog, providerType, item)
  {
    if catalog == [] || catalog[|catalog| - 1].providerType == providerType {
      LastItemIs(catalog, providerType);
    } else {
      hide IsItem;
      FindItemIs(catalog[..|catalog| - 1], providerType);
      forall item
        ensures IsItem(catalog[..|catalog| - 1], providerType, item) <==> IsItem(catalog, providerType, item)
      {
        ItemInFront(catalog, providerType, item);
      }
    }
  }

  lemma {:induction false} LastItemIs(catalog: seq<CatalogItem>, providerType: string)
    requires catalog == [] || catalog[|catalog| - 1].providerType == providerType
    ensures forall item :: FindItem(catalog, providerType) == Some(item) <==> IsItem(catalog, providerType, item)
  {
    if catalog != [] {
      assert IsItem(catalog, providerType, catalog[|catalog| - 1]);
    }
  }

  lemma {:induction false} FindModelIs(models: seq<Model>, modelId: string)
    ensures forall model :: FindModel(models, modelId) == Some(model) <==> IsListed(models, modelId, model)
  {
    if models != [] && models[0].modelId != modelId {
      var rest := models[1..];
      FindModelIs(rest, modelId);
      forall model ensures IsListed(rest, modelId, model) <==> IsListed(models, modelId, model) {
        ListedInRest(models, modelId, model);
      }
    }
  }

  lemma {:induction false} ListedInRest(models: seq<Model>, modelId: string, model: Model)
    requires models != [] && models[0].modelId != modelId
    ensures IsListed(models[1..], modelId, model) <==> IsListed(models, modelId, model)
  {
    var rest := models[1..];
    assert forall i :: 0 <= i < |rest| ==> rest[i] == models[i + 1];
    if IsListed(models, modelId, model) {
      var i :| 0 <= i < |models| && models[i] == model && model.modelId == modelId
               && forall j :: 0 <= j < i ==> models[j].modelId != modelId;
      assert rest[i - 1] == model && forall j :: 0 <= j < i - 1 ==> rest[j].modelId != modelId;
    }
    if IsListed(rest, modelId, model) {
      var i :| 0 <= i < |rest| && rest[i] == model && model.modelId == modelId
               && forall j :: 0 <= j < i ==> rest[j].modelId != modelId;
      forall j | 0 <= j < i + 1 ensures models[j].modelId != modelId {
        assert j > 0 ==> models[j] == rest[j - 1];
      }
      assert models[i + 1] == model;
    }
  }

  // ----- resolving the provider of a session -----

  predicate HasKey(record: ProviderRecord) {
    record.secret.Some? && record.secret.value.apiKey.Some? && record.secret.value.apiKey.value != ""
  }

  predicate HasCredential(record: ProviderRecord) {
    record.secret.Some? && record.secret.value.oauthCredential.Some?
  }

  /** A level that is checked must be one of the model's; a model without levels takes none that is asked for. */
  predicate TakesLevel(model: Model, asked: Option<string>, level: string) {
    if Levels(model) == [] then !Asks(asked) else level in Levels(model)
  }

  /** The model and level asked for, or the record's own. */
  ghost predicate PicksAs(record: ProviderRecord, modelId: Option<string>, thinkingLevel: Option<string>,
                          validate: bool, r: Result<ModelSelection, ServiceError>)
  {
    var asked, level := Chosen(modelId, record.defaultModelId), Chosen(thinkingLevel, record.defaultThinkingLevel);
    if !exists model :: IsListed(record.availableModels, asked, model) then r == Failure(ModelNotListed)
    else if validate && !exists model :: IsListed(record.availableModels, asked, model)
                                         && TakesLevel(model, thinkingLevel, level) then
      r == Failure(ThinkingLevelNotSupported)
    else r == Success(ModelSelection(asked, level))
  }

  /** The selection, under the runtime name of the record's type, once the record has what its type needs. */
  ghost predicate ResolvesAs(catalog: seq<CatalogItem>, record: ProviderRecord, modelId: Option<string>,
                             thinkingLevel: Option<string>, validate: bool,
                             r: Result<ProviderSelection, ServiceError>)
  {
    if !exists item :: IsItem(catalog, record.providerType, item) then r == Failure(UnsupportedProviderType)
    else exists picked ::
           && PicksAs(record, modelId, thinkingLevel, validate, picked)
           && if picked.Failure? then r == Failure(picked.error)
              else if record.authMode == ApiKey && !HasKey(record) then r == Failure(ApiKeyRequired)
              else if record.authMode == OAuth && !HasCredential(record) then r == Failure(OAuthCredentialRequired)
              else r.Success? && r.value.selection == picked.value && RunsUnder(catalog, record, r.value)
  }

  /** A type of its own runs under the record's id as well. */
  ghost predicate RunsUnder(catalog: seq<CatalogItem>, record: ProviderRecord, selection: ProviderSelection) {
    exists item ::
      && IsItem(catalog, record.providerType, item)
      && (item.usesBuiltInProvider ==> selection.runtimeProviderId == item.runtimeProviderId)
      && (!item.usesBuiltInProvider ==>
            selection.runtimeProviderId == item.runtimeProviderId + "-" + record.providerConfigId)
  }

  predicate IsEnabled(rows: Rows, userId: string, id: string) {
    id in rows && rows[id].userId == userId && rows[id].enabled
  }

  lemma {:induction false} TrimsAsked(o: Option<string>)
    ensures TrimOptional(o) == (if Asks(o) then Some(Trim(o.value)) else None)
    ensures TrimOptional(TrimOptional(o)) == TrimOptional(o)
  {
    if Asks(o) {
      TrimTrims(o.value);
    }
  }

  lemma {:induction false} PickSays(record: ProviderRecord, modelId: Option<string>, thinkingLevel: Option<string>,
                                    validate: bool)
    ensures PicksAs(record, modelId, thinkingLevel, validate,
                    PickModel(record, TrimOptional(modelId), TrimOptional(thinkingLevel), validate))
  {
    hide FindModel, IsListed, Trim, TrimOptional;
    TrimsAsked(modelId);
    TrimsAsked(thinkingLevel);
    FindModelIs(record.availableModels, Chosen(modelId, record.defaultModelId));
  }

  /** Resolving gives a session what it asked for, or tells why it cannot. */
  lemma {:induction false} ResolveSays(catalog: seq<CatalogItem>, rows: Rows, userId: string, id: string,
                                       modelId: Option<string>, thinkingLevel: Option<string>, validate: bool)
    ensures var r := Resolve(catalog, rows, userId, id, modelId, thinkingLevel, validate);
            if !IsEnabled(rows, userId, id) then r == Failure(NotFound)
            else ResolvesAs(catalog, rows[id], modelId, thinkingLevel, validate, r)
  {
    hide FindItem, IsItem, PickModel, PicksAs, TrimOptional;
    if IsEnabled(rows, userId, id) {
      FindItemIs(catalog, rows[id].providerType);
      PickSays(rows[id], modelId, thinkingLevel, validate);
    }
  }

  // ----- the models of a record -----

  predicate NamesModel(id: string) {
    Trim(id) != ""
  }

  /** A model under the trimmed id that can do what the default models can do. */
  ghost predicate IsRequested(defaults: seq<Model>, id: string, model: Model) {
    && model.modelId == Trim(id) && model.displayName == Trim(id)
    && (model.supportsReasoning <==> exists i :: 0 <= i < |defaults| && defaults[i].supportsReasoning)
    && (forall level :: level in Levels(model) <==> exists m :: m in defaults && level in Levels(m))
    && (forall i, j :: 0 <= i < j < |Levels(model)| ==> Levels(model)[i] != Levels(model)[j])
    && (model.supportedThinkingLevels.Some? ==> Levels(model) != [])
  }

  ghost function Requesting(defaults: seq<Model>): (string, Model) -> bool {
    (id, model) => IsRequested(defaults, id, model)
  }

  /** The models that are named, in order, or else the defaults. */
  ghost predicate AreModels(requested: Option<seq<string>>, defaults: seq<Model>, models: seq<Model>) {
    if requested.None? || forall i :: 0 <= i < |requested.value| ==> !NamesModel(requested.value[i]) then
      models == defaults
    else Corresponds(NamesModel, Requesting(defaults), requested.value, models)
  }

  lemma {:induction false} RequestedIs(defaults: seq<Model>, id: string)
    ensures IsRequested(defaults, id, RequestedModel(Trim(id), defaults))
  {
    var all := FlatMap(LevelsOf, defaults);
    forall level ensures level in Levels(RequestedModel(Trim(id), defaults))
                         <==> exists m :: m in defaults && level in Levels(m) {
      RequestedModelLevels(Trim(id), defaults, level);
    }
    DistinctHasNoRepeats(all);
  }

  lemma {:induction false} DistinctHasNoRepeats(s: seq<string>)
    ensures forall i, j :: 0 <= i < j < |Distinct(s)| ==> Distinct(s)[i] != Distinct(s)[j]
  {
    if s != [] {
      DistinctHasNoRepeats(s[..|s| - 1]);
    }
  }

  /** Levels are listed in the order of their first occurrence. */
  lemma {:induction false} DistinctKeepsOrder(s: seq<string>) returns (first: seq<nat>)
    ensures |first| == |Distinct(s)| && forall i :: 0 <= i < |first| ==> first[i] < |s| && s[first[i]] == Distinct(s)[i]
    ensures forall i :: 0 <= i < |first| ==> Distinct(s)[i] !in s[..first[i]]
    ensures forall i, j :: 0 <= i < j < |first| ==> first[i] < first[j]
  {
    if s == [] {
      first := [];
    } else {
      var front := s[..|s| - 1];
      first := DistinctKeepsOrder(front);
      assert forall i :: 0 <= i < |first| ==> s[..first[i]] == front[..first[i]];
      DistinctMembers(front, s[|s| - 1]);
      if s[|s| - 1] !in Distinct(front) {
        first := first + [|s| - 1];
      }
    }
  }

  lemma {:induction false} TrimmedIdsCorrespond(ids: seq<string>)
    ensures Corresponds(NamesModel, IsTrimOf, ids, TrimmedIds(ids))
  {
    FlatMapCorresponds(NamesModel, IsTrimOf, (id: string) => if Trim(id) == "" then [] else [Trim(id)], ids);
  }

  predicate IsTrimOf(id: string, trimmed: string) {
    trimmed == Trim(id)
  }

  lemma {:induction false} NothingNamed(ids: seq<string>)
    ensures TrimmedIds(ids) == [] <==> forall i :: 0 <= i < |ids| ==> !NamesModel(ids[i])
  {
    hide Trim;
    if ids != [] {
      NothingNamed(ids[..|ids| - 1]);
    }
  }

  lemma {:induction false} ModelsAre(requested: Option<seq<string>>, defaults: seq<Model>)
    ensures AreModels(requested, defaults, NormalizeAvailableModels(requested, defaults))
  {
    hide Trim, TrimmedIds, RequestedModel, IsRequested;
    if requested.Some? {
      var ids, models := requested.value, NormalizeAvailableModels(requested, defaults);
      NothingNamed(ids);
      TrimmedIdsCorrespond(ids);
      if TrimmedIds(ids) != [] {
        forall i | 0 <= i < |ids| && NamesModel(ids[i])
          ensures ShownAt(NamesModel, Requesting(defaults), ids, models, i)
        {
          assert ShownAt(NamesModel, IsTrimOf, ids, TrimmedIds(ids), i);
          RequestedIs(defaults, ids[i]);
        }
      }
    } else {
      NothingNamed([]);
    }
  }

  // ----- creating and updating -----

  function KeyOf(existing: Option<ProviderRecord>): Option<string> {
    if existing.Some? && existing.value.secret.Some? then existing.value.secret.value.apiKey else None
  }

  function CredentialOf(existing: Option<ProviderRecord>): Option<OAuthCredential> {
    if existing.Some? && existing.value.secret.Some? then existing.value.secret.value.oauthCredential else None
  }

  /** The settings of an accepted record: what is given, or what the record had, or what its type comes with. */
  ghost predicate IsNormalized(userId: string, id: string, existing: Option<ProviderRecord>,
                               input: ProviderConfigInput, item: CatalogItem, record: ProviderRecord)
  {
    var was := existing;
    var apiKey := ChosenOr(input.apiKey, KeyOf(existing));
    var credential := if input.oauthCredential.Some? then input.oauthCredential else CredentialOf(existing);
    && record.providerConfigId == id && record.userId == userId
    && record.providerType == Chosen(Some(input.providerType), if was.Some? then was.value.providerType else "")
    && record.displayName == Chosen(input.displayName, if was.Some? then was.value.displayName else item.displayName)
    && record.authMode == item.authMode && record.apiType == item.apiType
    && record.secret == (if (apiKey.Some? && apiKey.value != "") || credential.Some?
                         then Some(Secret(apiKey, credential))
                         else if was.Some? then was.value.secret else None)
    && record.baseUrl == ChosenOr(input.baseUrl, if was.Some? then was.value.baseUrl else None)
    && record.headers == (if input.headers.Some? then input.headers.value
                          else if was.Some? then was.value.headers else map[])
    && AreModels(input.availableModels, if was.Some? then was.value.availableModels else item.defaultModels,
                 record.availableModels)
    && record.defaultModelId == Chosen(input.defaultModelId, DefaultModelOf(was, item))
    && record.defaultThinkingLevel
       == Chosen(input.defaultThinkingLevel,
                 if was.Some? then was.value.defaultThinkingLevel else item.defaultThinkingLevel)
    && record.enabled == (if input.enabled.Some? then input.enabled.value
                          else if was.Some? then was.value.enabled else true)
  }

  function DefaultModelOf(existing: Option<ProviderRecord>, item: CatalogItem): string {
    if existing.Some? then existing.value.defaultModelId
    else if item.defaultModels != [] then item.defaultModels[0].modelId
    else ""
  }

  /** A record is accepted when its default model is listed and takes its level, and nothing it needs is missing. */
  ghost function Refusal(existing: Option<ProviderRecord>, input: ProviderConfigInput, item: CatalogItem,
                         models: seq<Model>): Option<ServiceError>
  {
    var was := existing;
    var modelId := Chosen(input.defaultModelId, DefaultModelOf(existing, item));
    var level := Chosen(input.defaultThinkingLevel,
                        if was.Some? then was.value.defaultThinkingLevel else item.defaultThinkingLevel);
    var baseUrl := ChosenOr(input.baseUrl, if was.Some? then was.value.baseUrl else None);
    var apiKey := ChosenOr(input.apiKey, KeyOf(existing));
    if modelId == "" then Some(NoDefaultModel)
    else if !exists model :: IsListed(models, modelId, model) then Some(ModelNotListed)
    else if !exists model :: IsListed(models, modelId, model) && (Levels(model) == [] || level in Levels(model)) then
      Some(ThinkingLevelNotSupported)
    else if item.baseUrlRequired && (baseUrl.None? || baseUrl.value == "") then Some(BaseUrlRequired)
    else if item.authMode == ApiKey && (apiKey.None? || apiKey.value == "") && was.None? then Some(ApiKeyRequired)
    else None
  }

  ghost predicate NormalizesWith(userId: string, id: string, existing: Option<ProviderRecord>,
                                 input: ProviderConfigInput, item: CatalogItem, models: seq<Model>,
                                 r: Result<ProviderRecord, ServiceError>)
  {
    match Refusal(existing, input, item, models)
    case Some(error) => r == Failure(error)
    case None => r.Success? && IsNormalized(userId, id, existing, input, item, r.value)
  }

  ghost predicate Normalizes(catalog: seq<CatalogItem>, userId: string, id: string, existing: Option<ProviderRecord>,
                             input: ProviderConfigInput, r: Result<ProviderRecord, ServiceError>)
  {
    var providerType :=
      Chosen(Some(input.providerType), if existing.Some? then existing.value.providerType else "");
    if providerType == "" then r == Failure(MissingProviderType)
    else if !exists item :: IsItem(catalog, providerType, item) then r == Failure(UnsupportedProviderType)
    else exists item, models ::
           && IsItem(catalog, providerType, item)
           && AreModels(input.availableModels,
                        if existing.Some? then existing.value.availableModels else item.defaultModels, models)
           && NormalizesWith(userId, id, existing, input, item, models, r)
  }

  lemma {:induction false} ChosenIs(o: Option<string>, default: string, stored: Option<string>)
    ensures GetOr(TrimOptional(o), default) == Chosen(o, default)
    ensures OrElse(TrimOptional(o), stored) == ChosenOr(o, stored)
  {
    hide Trim;
    TrimsAsked(o);
  }

  lemma {:induction false} SecretIs(existing: Option<ProviderRecord>, input: ProviderConfigInput)
    ensures var apiKey := ChosenOr(input.apiKey, KeyOf(existing));
            var credential := if input.oauthCredential.Some? then input.oauthCredential else CredentialOf(existing);
            var secret := Secret(OrElse(TrimOptional(input.apiKey), MaterialOf(existing).apiKey),
                                 OrElse(input.oauthCredential, MaterialOf(existing).oauthCredential));
            && secret == Secret(apiKey, credential)
            && Stored(secret) == if (apiKey.Some? && apiKey.value != "") || credential.Some? then Some(secret) else None
  {
    hide Trim, TrimOptional;
    ChosenIs(input.apiKey, "", MaterialOf(existing).apiKey);
  }

  lemma {:induction false} DefaultModelIs(existing: Option<ProviderRecord>, item: CatalogItem,
                                          input: ProviderConfigInput)
    ensures var modelId := OrElse(TrimOptional(input.defaultModelId),
                                  if existing.Some? then Some(existing.value.defaultModelId)
                                  else if item.defaultModels != [] then Some(item.defaultModels[0].modelId) else None);
            GetOr(modelId, "") == Chosen(input.defaultModelId, DefaultModelOf(existing, item))
  {
    hide Trim;
    TrimsAsked(input.defaultModelId);
  }

  /** The item that a record is normalized with. */
  predicate GoesWith(catalog: seq<CatalogItem>, existing: Option<ProviderRecord>, input: ProviderConfigInput,
                     item: CatalogItem)
  {
    var providerType :=
      Chosen(Some(input.providerType), if existing.Some? then existing.value.providerType else "");
    providerType != "" && FindItem(catalog, providerType) == Some(item)
  }

  function DefaultsOf(existing: Option<ProviderRecord>, item: CatalogItem): seq<Model> {
    if existing.Some? then existing.value.availableModels else item.defaultModels
  }

  lemma {:induction false} NormalizedIs(catalog: seq<CatalogItem>, userId: string, id: string,
                                        existing: Option<ProviderRecord>, input: ProviderConfigInput, item: CatalogItem)
    requires GoesWith(catalog, existing, input, item)
    requires NormalizeRecord(catalog, userId, id, existing, input).Success?
    ensures IsNormalized(userId, id, existing, input, item,
                         NormalizeRecord(catalog, userId, id, existing, input).value)
  {
    hide FindItem, FindModel, IsListed, Trim, TrimOptional, NormalizeAvailableModels, AreModels, Chosen, ChosenOr,
      MaterialOf, Stored, KeyOf, CredentialOf, DefaultModelOf, LevelsOf;
    var was := existing;
    TypeIs(existing, input);
    ChosenIs(input.displayName, if was.Some? then was.value.displayName else item.displayName, None);
    ChosenIs(input.baseUrl, "", if was.Some? then was.value.baseUrl else None);
    ChosenIs(input.defaultThinkingLevel,
             if was.Some? then was.value.defaultThinkingLevel else item.defaultThinkingLevel, None);
    DefaultModelIs(existing, item, input);
    SecretIs(existing, input);
    ModelsAre(input.availableModels, DefaultsOf(existing, item));
  }

  lemma {:induction false} RefusalIs(catalog: seq<CatalogItem>, userId: string, id: string,
                                     existing: Option<ProviderRecord>, input: ProviderConfigInput, item: CatalogItem)
    requires GoesWith(catalog, existing, input, item)
    ensures var models := NormalizeAvailableModels(input.availableModels, DefaultsOf(existing, item));
            var r := NormalizeRecord(catalog, userId, id, existing, input);
            match Refusal(existing, input, item, models)
            case Some(error) => r == Failure(error)
            case None => r.Success?
  {
    hide FindItem, FindModel, IsListed, Trim, TrimOptional, NormalizeAvailableModels, Chosen, ChosenOr,
      MaterialOf, Stored, KeyOf, CredentialOf, DefaultModelOf;
    var was := existing;
    TypeIs(existing, input);
    ChosenIs(input.baseUrl, "", if was.Some? then was.value.baseUrl else None);
    ChosenIs(input.defaultThinkingLevel,
             if was.Some? then was.value.defaultThinkingLevel else item.defaultThinkingLevel, None);
    DefaultModelIs(existing, item, input);
    SecretIs(existing, input);
    FindModelIs(NormalizeAvailableModels(input.availableModels, DefaultsOf(existing, item)),
                Chosen(input.defaultModelId, DefaultModelOf(existing, item)));
  }

  lemma {:induction false} TypeIs(existing: Option<ProviderRecord>, input: ProviderConfigInput)
    ensures var providerType := OrElse(TrimOptional(Some(input.providerType)),
                                       if existing.Some? then Some(existing.value.providerType) else None);
            GetOr(providerType, "")
            == Chosen(Some(input.providerType), if existing.Some? then existing.value.providerType else "")
  {
    hide Trim;
    TrimsAsked(Some(input.providerType));
  }

  lemma {:induction false} NormalizeSays(catalog: seq<CatalogItem>, userId: string, id: string,
                                         existing: Option<ProviderRecord>, input: ProviderConfigInput)
    ensures Normalizes(catalog, userId, id, existing, input, NormalizeRecord(catalog, userId, id, existing, input))
  {
    hide FindItem, IsItem, AreModels, NormalizesWith, NormalizeAvailableModels, TrimOptional, Trim, Chosen;
    var providerType :=
      Chosen(Some(input.providerType), if existing.Some? then existing.value.providerType else "");
    TypeIs(existing, input);
    FindItemIs(catalog, providerType);
    if providerType != "" && FindItem(catalog, providerType).Some? {
      var item := FindItem(catalog, providerType).value;
      NormalizeSaysWith(catalog, userId, id, existing, input, item);
    }
  }

  lemma {:induction false} NormalizeSaysWith(catalog: seq<CatalogItem>, userId: string, id: string,
                                             existing: Option<ProviderRecord>, input: ProviderConfigInput,
                                             item: CatalogItem)
    requires GoesWith(catalog, existing, input, item)
    ensures var models := NormalizeAvailableModels(input.availableModels, DefaultsOf(existing, item));
            && AreModels(input.availableModels, DefaultsOf(existing, item), models)
            && NormalizesWith(userId, id, existing, input, item, models,
                              NormalizeRecord(catalog, userId, id, existing, input))
  {
    hide NormalizeRecord, IsNormalized, Refusal, GoesWith, AreModels;
    ModelsAre(input.availableModels, DefaultsOf(existing, item));
    RefusalIs(catalog, userId, id, existing, input, item);
    if NormalizeRecord(catalog, userId, id, existing, input).Success? {
      NormalizedIs(catalog, userId, id, existing, input, item);
    }
  }

  // ----- the calls -----

  predicate IsOwned(rows: Rows, userId: string, id: string) {
    id in rows && rows[id].userId == userId
  }

  /** The row with the given secret, or with none when it would hold neither a key nor a credential. */
  predicate HoldsSecret(row: ProviderRecord, credential: Option<OAuthCredential>, after: ProviderRecord) {
    var apiKey := if row.secret.Some? then row.secret.value.apiKey else None;
    after == row.(secret := if (apiKey.Some? && apiKey.value != "") || credential.Some?
                            then Some(Secret(apiKey, credential)) else None)
  }

  predicate StoresCredential(rows: Rows, userId: string, id: string, credential: Option<OAuthCredential>,
                             r: Result<Rows, ServiceError>)
  {
    if !IsOwned(rows, userId, id) then r == Failure(NotFound)
    else if rows[id].authMode != OAuth then r == Failure(NotAnOAuthProvider)
    else r.Success? && id in r.value && r.value == rows[id := r.value[id]]
         && HoldsSecret(rows[id], credential, r.value[id])
  }

  /** A new record is stored under its id; an id that is taken is refused. */
  ghost predicate Creates(catalog: seq<CatalogItem>, rows: Rows, userId: string, id: string,
                          input: ProviderConfigInput, r: Result<Rows, ServiceError>)
  {
    exists record ::
      && Normalizes(catalog, userId, id, None, input, record)
      && if record.Failure? then r == Failure(record.error)
         else if id in rows then r == Failure(DuplicateKey)
         else r == Success(rows[id := record.value])
  }

  /** The record is written over the row; a secret, base URL or API type it does not have stays. */
  ghost predicate Updates(catalog: seq<CatalogItem>, rows: Rows, userId: string, id: string,
                          input: ProviderConfigInput, r: Result<Rows, ServiceError>)
  {
    if !IsOwned(rows, userId, id) then r == Failure(NotFound)
    else exists record ::
           && Normalizes(catalog, userId, id, Some(rows[id]), input, record)
           && if record.Failure? then r == Failure(record.error)
              else
                var row := rows[id];
                var next := record.value.(
                  secret := if record.value.secret.Some? then record.value.secret else row.secret,
                  baseUrl := if record.value.baseUrl.Some? then record.value.baseUrl else row.baseUrl,
                  apiType := if record.value.apiType.Some? then record.value.apiType else row.apiType);
                r == Success(rows[id := next])
  }

  /** What a call does to the rows, or the error it answers with. */
  ghost predicate Does(catalog: seq<CatalogItem>, rows: Rows, call: Call, r: Result<Rows, ServiceError>) {
    match call
    case CreateConfig(userId, id, input) => Creates(catalog, rows, userId, id, input, r)
    case UpdateConfig(userId, id, input) => Updates(catalog, rows, userId, id, input, r)
    case StoreOAuth(userId, id, credential) => StoresCredential(rows, userId, id, Some(credential), r)
    case ClearOAuth(userId, id) => StoresCredential(rows, userId, id, None, r)
    case DeleteConfig(userId, id) =>
      if !IsOwned(rows, userId, id) then r == Failure(NotFound)
      else r.Success? && id !in r.value && forall other :: other != id ==> SameRow(rows, r.value, other)
  }

  predicate SameRow(rows: Rows, after: Rows, id: string) {
    (id in after <==> id in rows) && (id in rows ==> after[id] == rows[id])
  }

  lemma {:induction false} CreateDoes(catalog: seq<CatalogItem>, rows: Rows, userId: string, id: string,
                                      input: ProviderConfigInput)
    ensures Creates(catalog, rows, userId, id, input, Perform(catalog, rows, CreateConfig(userId, id, input)))
  {
    hide NormalizeRecord, Normalizes;
    NormalizeSays(catalog, userId, id, None, input);
  }

  lemma {:induction false} UpdateDoes(catalog: seq<CatalogItem>, rows: Rows, userId: string, id: string,
                                      input: ProviderConfigInput)
    ensures Updates(catalog, rows, userId, id, input, Perform(catalog, rows, UpdateConfig(userId, id, input)))
  {
    hide NormalizeRecord, Normalizes;
    if IsOwned(rows, userId, id) {
      NormalizeSays(catalog, userId, id, Some(rows[id]), input);
    }
  }

  /** Every call on any rows does what is said here, and nothing else. */
  lemma {:induction false} EveryCallDoes(catalog: seq<CatalogItem>, rows: Rows, call: Call)
    ensures Does(catalog, rows, call, Perform(catalog, rows, call))
  {
    hide NormalizeRecord, Creates, Updates;
    match call
    case CreateConfig(userId, id, input) => CreateDoes(catalog, rows, userId, id, input);
    case UpdateConfig(userId, id, input) => UpdateDoes(catalog, rows, userId, id, input);
    case _ =>
  }

  /** The faults of a record, each found exactly when there is cause, in the order in which they are looked for. */
  lemma {:induction false} FaultsAre(catalog: seq<CatalogItem>, record: ProviderRecord)
    ensures var known := exists item :: IsItem(catalog, record.providerType, item);
            var needsUrl := exists item :: IsItem(catalog, record.providerType, item) && item.baseUrlRequired;
            Faults(catalog, record)
            == (if !known then [UnsupportedProviderType] else [])
               + (if |record.availableModels| == 0 then [ModelNotListed] else [])
               + (if needsUrl && (record.baseUrl.None? || record.baseUrl.value == "") then [BaseUrlRequired] else [])
               + (if record.authMode == ApiKey && !HasKey(record) then [ApiKeyRequired] else [])
               + (if record.authMode == OAuth && !HasCredential(record) then [OAuthCredentialRequired] else [])
  {
    hide FindItem, IsItem;
    FindItemIs(catalog, record.providerType);
  }
}
