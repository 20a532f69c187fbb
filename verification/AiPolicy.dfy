/**
  AI provider policy: a platform policy, per-tenant overrides, and the decision for one request.
  The service is an object with two stored tables; what it computes from them is a function.
*/
module AiPolicy {
  import opened Options
  import opened JsText

  datatype Feature = PromptGeneration | IvrAiTurn | RecordingAnalysis

  const ALL_FEATURES: seq<Feature> := [PromptGeneration, IvrAiTurn, RecordingAnalysis]

  datatype Provider = OpenAi | ElevenLabs | Whisper | External | Custom

  datatype Hint = Auto | Use(provider: Provider)

  datatype FeaturePolicy = FeaturePolicy(
    enabled: bool, allowedProviders: seq<Provider>, allowedModels: seq<string>, maxInputCharacters: Option<nat>)

  /** A stored policy may predate a feature, so its table of features can be partial. */
  datatype PlatformPolicy = PlatformPolicy(providerBackedEnabled: bool, features: map<Feature, FeaturePolicy>)

  datatype FeatureOverride = FeatureOverride(enabled: bool, preferredProvider: Option<Provider>)

  /** A row of tenant_ai_policy_overrides. */
  datatype TenantOverride = TenantOverride(providerBackedEnabled: bool, features: map<Feature, FeatureOverride>)

  datatype PlatformInput = PlatformInput(
    providerBackedEnabled: bool, deterministicFallback: Option<bool>, features: map<Feature, FeaturePolicy>)

  datatype TenantInput = TenantInput(providerBackedEnabled: bool, overrides: map<Feature, FeatureOverride>)

  // ---- reading the platform policy ----

  function DefaultFeature(f: Feature): FeaturePolicy {
    match f
    case PromptGeneration => FeaturePolicy(false, [OpenAi, ElevenLabs, External, Custom], [], Some(4000))
    case IvrAiTurn => FeaturePolicy(false, [OpenAi, External, Custom], [], Some(2000))
    case RecordingAnalysis => FeaturePolicy(false, [OpenAi, Whisper, External, Custom], [], None)
  }

  function DefaultPlatform(): PlatformPolicy {
    PlatformPolicy(false, map f | f in ALL_FEATURES :: DefaultFeature(f))
  }

  /** normalizePlatformPolicy: a missing feature is taken from the default policy. */
  function FeatureOf(p: PlatformPolicy, f: Feature): FeaturePolicy {
    if f in p.features then p.features[f] else DefaultFeature(f)
  }

  function CurrentPlatform(stored: Option<PlatformPolicy>): PlatformPolicy {
    if stored.Some? then stored.value else DefaultPlatform()
  }

  // ---- the tenant's effective policy ----

  datatype TenantFeature = TenantFeature(
    enabled: bool, allowedProviders: seq<Provider>, allowedModels: seq<string>,
    preferredProvider: Option<Provider>, maxInputCharacters: Option<nat>)

  datatype TenantPolicy = TenantPolicy(providerBackedEnabled: bool, features: map<Feature, TenantFeature>)

  function ResolvePreferredProvider(allowed: seq<Provider>, preferred: Option<Provider>): Option<Provider> {
    if preferred.None? then None
    else if preferred.value in allowed then preferred else None
  }

  function OverrideOf(row: Option<TenantOverride>, f: Feature): FeatureOverride {
    if row.Some? && f in row.value.features then row.value.features[f] else FeatureOverride(false, None)
  }

  function TenantBacked(platform: PlatformPolicy, row: Option<TenantOverride>): bool {
    platform.providerBackedEnabled && row.Some? && row.value.providerBackedEnabled
  }

  function EffectiveFeature(platform: PlatformPolicy, row: Option<TenantOverride>, f: Feature): TenantFeature {
    var p := FeatureOf(platform, f);
    var o := OverrideOf(row, f);
    TenantFeature(
      TenantBacked(platform, row) && p.enabled && o.enabled,
      p.allowedProviders,
      p.allowedModels,
      ResolvePreferredProvider(p.allowedProviders, o.preferredProvider),
      p.maxInputCharacters)
  }

  function BuildTenantPolicy(platform: PlatformPolicy, row: Option<TenantOverride>): TenantPolicy {
    TenantPolicy(TenantBacked(platform, row), map f | f in ALL_FEATURES :: EffectiveFeature(platform, row, f))
  }

  // ---- the decision ----

  datatype Reason = RequestedAuto | TenantDisabled | FeatureDisabled | ProviderNotAllowed | InputTooLarge

  datatype Decision = Decision(requested: Hint, effective: Hint, backedRequested: bool, backedAllowed: bool, reason: Option<Reason>)

  function Fallback(hint: Hint, reason: Reason): Decision {
    Decision(hint, Auto, hint != Auto, false, Some(reason))
  }

  function InputLength(text: Option<string>): nat {
    if text.Some? then |text.value| else 0
  }

  function Resolve(policy: TenantPolicy, f: Feature, hint: Option<Hint>, text: Option<string>): Decision
    requires f in policy.features
  {
    var requested := if hint.Some? then hint.value else Auto;
    var feature := policy.features[f];
    if requested == Auto then Decision(Auto, Auto, false, false, Some(RequestedAuto))
    else if !policy.providerBackedEnabled then Fallback(requested, TenantDisabled)
    else if !feature.enabled then Fallback(requested, FeatureDisabled)
    else if feature.maxInputCharacters.Some? && InputLength(text) > feature.maxInputCharacters.value then Fallback(requested, InputTooLarge)
    else if requested.provider !in feature.allowedProviders then Fallback(requested, ProviderNotAllowed)
    else Decision(requested, requested, true, true, None)
  }

  function Decide(platform: PlatformPolicy, row: Option<TenantOverride>, f: Feature, hint: Option<Hint>, text: Option<string>): Decision {
    AllFeaturesListed(f);
    Resolve(BuildTenantPolicy(platform, row), f, hint, text)
  }

  lemma AllFeaturesListed(f: Feature)
    ensures f in ALL_FEATURES
  {
    match f
    case PromptGeneration => assert ALL_FEATURES[0] == f;
    case IvrAiTurn => assert ALL_FEATURES[1] == f;
    case RecordingAnalysis => assert ALL_FEATURES[2] == f;
  }

  // ---- updates ----

  datatype UpdateError = FallbackMustStay | BlankModel(feature: Feature) | PreferredNotAllowed(feature: Feature)

  predicate ModelsOk(p: FeaturePolicy) {
    forall i :: 0 <= i < |p.allowedModels| ==> !IsBlank(p.allowedModels[i])
  }

  predicate PlatformInputOk(input: PlatformInput) {
    && (input.deterministicFallback.Some? ==> input.deterministicFallback.value)
    && forall f :: f in input.features ==> ModelsOk(input.features[f])
  }

  /** A platform policy is refused for two reasons only: no deterministic fallback, or a model name without a visible character. */
  lemma PlatformInputInColumns(input: PlatformInput)
    ensures PlatformInputOk(input) <==>
      && input.deterministicFallback != Some(false)
      && forall f, m :: f in input.features && m in input.features[f].allowedModels ==> exists k :: 0 <= k < |m| && !IsJsSpace(m[k])
  {
    if PlatformInputOk(input) {
      forall f, m | f in input.features && m in input.features[f].allowedModels
        ensures exists k :: 0 <= k < |m| && !IsJsSpace(m[k])
      {
        assert ModelsOk(input.features[f]) && !IsBlank(m);
      }
    } else if input.deterministicFallback != Some(false) {
      var f :| f in input.features && !ModelsOk(input.features[f]);
      var i :| 0 <= i < |input.features[f].allowedModels| && IsBlank(input.features[f].allowedModels[i]);
      var m := input.features[f].allowedModels[i];
      assert m in input.features[f].allowedModels;
      assert !exists k :: 0 <= k < |m| && !IsJsSpace(m[k]);
    }
  }

  predicate PreferredOk(platform: PlatformPolicy, f: Feature, o: FeatureOverride) {
    o.preferredProvider.Some? ==> o.preferredProvider.value in FeatureOf(platform, f).allowedProviders
  }

  predicate TenantInputOk(platform: PlatformPolicy, input: TenantInput) {
    forall f :: f in input.overrides ==> PreferredOk(platform, f, input.overrides[f])
  }

  /** upsertTenantOverride writes every column: a feature without an override becomes disabled without preference. */
  function RowFor(input: TenantInput): TenantOverride {
    TenantOverride(input.providerBackedEnabled,
      map f | f in ALL_FEATURES :: if f in input.overrides then input.overrides[f] else FeatureOverride(false, None))
  }

  class AiPolicyService {
    var platform: Option<PlatformPolicy>
    var overrides: map<string, TenantOverride>

    constructor ()
      ensures platform == None && overrides == map[]
    {
      platform, overrides := None, map[];
    }

    method ValidatePlatformPolicy(input: PlatformInput) returns (error: Option<UpdateError>)
      ensures error.None? <==> PlatformInputOk(input)
      ensures error == Some(FallbackMustStay) <==> input.deterministicFallback == Some(false)
      ensures error.Some? && error.value.BlankModel? ==>
        error.value.feature in input.features && !ModelsOk(input.features[error.value.feature])
      ensures error.Some? ==> !error.value.PreferredNotAllowed?
    {
      if input.deterministicFallback.Some? && !input.deterministicFallback.value {
        return Some(FallbackMustStay);
      }
      var i := 0;
      while i < |ALL_FEATURES|
        invariant i <= |ALL_FEATURES|
        invariant forall k :: 0 <= k < i && ALL_FEATURES[k] in input.features ==> ModelsOk(input.features[ALL_FEATURES[k]])
      {
        var f := ALL_FEATURES[i];
        if f in input.features && exists k :: 0 <= k < |input.features[f].allowedModels| && IsBlank(input.features[f].allowedModels[k]) {
          return Some(BlankModel(f));
        }
        i := i + 1;
      }
      forall f | f in input.features
        ensures ModelsOk(input.features[f])
      {
        AllFeaturesListed(f);
      }
      return None;
    }

    method UpdatePlatformPolicy(input: PlatformInput) returns (error: Option<UpdateError>)
      modifies this`platform
      ensures error.None? <==> PlatformInputOk(input)
      ensures platform == if error.None? then Some(PlatformPolicy(input.providerBackedEnabled, input.features)) else old(platform)
    {
      error := ValidatePlatformPolicy(input);
      if error.None? {
        platform := Some(PlatformPolicy(input.providerBackedEnabled, input.features));
      }
    }

    method ValidateTenantOverride(input: TenantInput, current: PlatformPolicy) returns (error: Option<UpdateError>)
      ensures error.None? <==> TenantInputOk(current, input)
      ensures error.None? <==> forall f :: f in input.overrides && input.overrides[f].preferredProvider.Some? ==>
        input.overrides[f].preferredProvider.value in FeatureOf(current, f).allowedProviders
      ensures error.Some? ==> error.value.PreferredNotAllowed? && error.value.feature in input.overrides
      ensures error.Some? ==> !PreferredOk(current, error.value.feature, input.overrides[error.value.feature])
    {
      var i := 0;
      while i < |ALL_FEATURES|
        invariant i <= |ALL_FEATURES|
        invariant forall k :: 0 <= k < i && ALL_FEATURES[k] in input.overrides ==>
          PreferredOk(current, ALL_FEATURES[k], input.overrides[ALL_FEATURES[k]])
      {
        var f := ALL_FEATURES[i];
        if f in input.overrides {
          var o := input.overrides[f];
          if o.preferredProvider.Some? && o.preferredProvider.value !in FeatureOf(current, f).allowedProviders {
            return Some(PreferredNotAllowed(f));
          }
        }
        i := i + 1;
      }
      forall f | f in input.overrides
        ensures PreferredOk(current, f, input.overrides[f])
      {
        AllFeaturesListed(f);
      }
      return None;
    }

    method UpdateTenantPolicy(tenantId: string, input: TenantInput) returns (policy: Option<TenantPolicy>)
      modifies this`overrides
      ensures policy.Some? <==> TenantInputOk(CurrentPlatform(platform), input)
      ensures policy.None? ==> overrides == old(overrides)
      ensures policy.Some? ==> overrides == old(overrides)[tenantId := RowFor(input)]
      ensures policy.Some? ==> overrides[tenantId].providerBackedEnabled == input.providerBackedEnabled
      ensures policy.Some? ==> forall f: Feature ::
        && f in overrides[tenantId].features
        && (f in input.overrides ==> overrides[tenantId].features[f] == input.overrides[f])
        && (f !in input.overrides ==> overrides[tenantId].features[f] == FeatureOverride(false, None))
      ensures policy.Some? ==> policy.value == BuildTenantPolicy(CurrentPlatform(platform), Some(RowFor(input)))
    {
      var current := CurrentPlatform(platform);
      var error := ValidateTenantOverride(input, current);
      if error.Some? {
        return None;
      }
      overrides := overrides[tenantId := RowFor(input)];
      forall f: Feature
        ensures f in RowFor(input).features
      {
        AllFeaturesListed(f);
      }
      return Some(BuildTenantPolicy(current, Some(overrides[tenantId])));
    }

    /** None is AiProviderRequestDeniedError. */
    method RequireProviderBackedAccess(tenantId: string, f: Feature, hint: Option<Hint>, text: Option<string>) returns (d: Option<Decision>)
      ensures var row := if tenantId in overrides then Some(overrides[tenantId]) else None;
        var decision := Decide(CurrentPlatform(platform), row, f, hint, text);
        d == if decision.backedRequested && !decision.backedAllowed then None else Some(decision)
      ensures d.Some? ==> d.value.backedAllowed || d.value.requested == Auto
    {
      var row := if tenantId in overrides then Some(overrides[tenantId]) else None;
      var decision := Decide(CurrentPlatform(platform), row, f, hint, text);
      if decision.backedRequested && !decision.backedAllowed {
        return None;
      }
      return Some(decision);
    }
  }
}
