/**
  Containment of tenants by the platform policy: for every stored state, and over every history of updates
  in which validation and write of a tenant update are separate steps.
*/
module AiPolicyHistory {
  import opened Options
  import opened AiPolicy

  // ---- any two stored policies ----

  /** A feature policy never exceeds the platform's. */
  predicate Within(platform: PlatformPolicy, f: Feature, t: TenantFeature) {
    var p := FeatureOf(platform, f);
    && (t.enabled ==> platform.providerBackedEnabled && p.enabled)
    && (forall q :: q in t.allowedProviders ==> q in p.allowedProviders)
    && (forall m :: m in t.allowedModels ==> m in p.allowedModels)
    && (t.preferredProvider.Some? ==> t.preferredProvider.value in p.allowedProviders)
    && (p.maxInputCharacters.Some? ==>
          t.maxInputCharacters.Some? && t.maxInputCharacters.value <= p.maxInputCharacters.value)
  }

  lemma TenantIsContained(platform: PlatformPolicy, row: Option<TenantOverride>, f: Feature)
    ensures f in BuildTenantPolicy(platform, row).features
    ensures Within(platform, f, BuildTenantPolicy(platform, row).features[f])
    ensures BuildTenantPolicy(platform, row).providerBackedEnabled <==>
      platform.providerBackedEnabled && row.Some? && row.value.providerBackedEnabled
    ensures var t, p := BuildTenantPolicy(platform, row).features[f], FeatureOf(platform, f);
      && (t.enabled <==>
            && platform.providerBackedEnabled && p.enabled
            && row.Some? && row.value.providerBackedEnabled && f in row.value.features && row.value.features[f].enabled)
      && t.allowedProviders == p.allowedProviders && t.allowedModels == p.allowedModels && t.maxInputCharacters == p.maxInputCharacters
  {
    AllFeaturesListed(f);
  }

  /** A stored preference surfaces exactly while the platform allows it, however it changed in between. */
  lemma PreferenceSurfacesIff(platform: PlatformPolicy, row: Option<TenantOverride>, f: Feature, q: Provider)
    ensures f in BuildTenantPolicy(platform, row).features
    ensures BuildTenantPolicy(platform, row).features[f].preferredProvider == Some(q) <==>
      && row.Some? && f in row.value.features && row.value.features[f].preferredProvider == Some(q)
      && q in FeatureOf(platform, f).allowedProviders
  {
    AllFeaturesListed(f);
  }

  /** Without a stored policy, or for a feature it does not list, the built-in policy stands: everything off, with these lists and limits. */
  lemma BuiltInPolicy(stored: Option<PlatformPolicy>, f: Feature)
    ensures CurrentPlatform(stored).providerBackedEnabled <==> stored.Some? && stored.value.providerBackedEnabled
    ensures stored.Some? && f in stored.value.features ==> FeatureOf(CurrentPlatform(stored), f) == stored.value.features[f]
    ensures stored.None? || f !in stored.value.features ==>
      var p := FeatureOf(CurrentPlatform(stored), f);
      && !p.enabled && p.allowedModels == []
      && p.allowedProviders == (match f
         case PromptGeneration => [OpenAi, ElevenLabs, External, Custom]
         case IvrAiTurn => [OpenAi, External, Custom]
         case RecordingAnalysis => [OpenAi, Whisper, External, Custom])
      && p.maxInputCharacters == (match f
         case PromptGeneration => Some(4000)
         case IvrAiTurn => Some(2000)
         case RecordingAnalysis => None)
  {
  }

  predicate FitsLimit(limit: Option<nat>, length: nat) {
    limit.Some? ==> length <= limit.value
  }

  /** A request for a provider is allowed exactly when platform and tenant both opted in, for the service and the feature. */
  lemma AllowedIff(platform: PlatformPolicy, row: Option<TenantOverride>, f: Feature, hint: Option<Hint>, text: Option<string>)
    ensures var d := Decide(platform, row, f, hint, text);
      var p := FeatureOf(platform, f);
      && (d.backedAllowed <==>
            && hint.Some? && hint.value.Use?
            && platform.providerBackedEnabled && p.enabled
            && row.Some? && row.value.providerBackedEnabled && f in row.value.features && row.value.features[f].enabled
            && (text.Some? ==> FitsLimit(p.maxInputCharacters, |text.value|))
            && hint.value.provider in p.allowedProviders)
      && d.effective == (if d.backedAllowed then hint.value else Auto)
      && d.requested == (if hint.Some? then hint.value else Auto)
      && (d.backedRequested <==> hint.Some? && hint.value != Auto)
    ensures var p := FeatureOf(platform, f);
      Decide(platform, row, f, hint, text).reason ==
        if hint.None? || hint.value == Auto then Some(RequestedAuto)
        else if !platform.providerBackedEnabled || row.None? || !row.value.providerBackedEnabled then Some(TenantDisabled)
        else if !p.enabled || f !in row.value.features || !row.value.features[f].enabled then Some(FeatureDisabled)
        else if text.Some? && p.maxInputCharacters.Some? && |text.value| > p.maxInputCharacters.value then Some(InputTooLarge)
        else if hint.value.provider !in p.allowedProviders then Some(ProviderNotAllowed)
        else None
  {
    AllFeaturesListed(f);
  }

  // ---- tightening ----

  predicate TighterFeature(p: FeaturePolicy, q: FeaturePolicy) {
    && (p.enabled ==> q.enabled)
    && (forall x :: x in p.allowedProviders ==> x in q.allowedProviders)
    && (q.maxInputCharacters.Some? ==> p.maxInputCharacters.Some? && p.maxInputCharacters.value <= q.maxInputCharacters.value)
  }

  ghost predicate Tighter(p: PlatformPolicy, q: PlatformPolicy) {
    && (p.providerBackedEnabled ==> q.providerBackedEnabled)
    && forall f :: TighterFeature(FeatureOf(p, f), FeatureOf(q, f))
  }

  /** Tightening the platform policy never allows a request that was denied. */
  lemma TighteningIsMonotone(p: PlatformPolicy, q: PlatformPolicy, row: Option<TenantOverride>, f: Feature, hint: Option<Hint>, text: Option<string>)
    requires Tighter(p, q)
    ensures Decide(p, row, f, hint, text).backedAllowed ==> Decide(q, row, f, hint, text).backedAllowed
  {
    AllowedIff(p, row, f, hint, text);
    AllowedIff(q, row, f, hint, text);
    assert TighterFeature(FeatureOf(p, f), FeatureOf(q, f));
  }

  /** And only tightening is safe: a policy that never allows more is tighter wherever a tenant could ever be served. */
  lemma OnlyTighteningIsSafe(p: PlatformPolicy, q: PlatformPolicy, f: Feature, x: Provider, length: nat)
    requires forall row: Option<TenantOverride>, hint: Option<Hint>, text: Option<string> ::
      Decide(p, row, f, hint, text).backedAllowed ==> Decide(q, row, f, hint, text).backedAllowed
    requires p.providerBackedEnabled && FeatureOf(p, f).enabled && x in FeatureOf(p, f).allowedProviders
    requires FitsLimit(FeatureOf(p, f).maxInputCharacters, length)
    ensures q.providerBackedEnabled && FeatureOf(q, f).enabled && x in FeatureOf(q, f).allowedProviders
    ensures FitsLimit(FeatureOf(q, f).maxInputCharacters, length)
  {
    var row := Some(TenantOverride(true, map[f := FeatureOverride(true, None)]));
    var text := Some(seq(length, i => 'a'));
    AllowedIff(p, row, f, Some(Use(x)), text);
    AllowedIff(q, row, f, Some(Use(x)), text);
    assert Decide(p, row, f, Some(Use(x)), text).backedAllowed;
  }

  // ---- histories ----

  datatype Store = Store(platform: Option<PlatformPolicy>, overrides: map<string, TenantOverride>)

  /** `validated` holds the tenant updates that passed validation and are about to be written. */
  datatype World = World(store: Store, validated: map<nat, (string, TenantInput)>)

  datatype Step =
    | SavePlatform(input: PlatformInput)
    | Validate(call: nat, tenantId: string, update: TenantInput)
    | Upsert(call: nat)
    | Abandon(call: nat)

  predicate Enabled(w: World, step: Step) {
    match step
    case SavePlatform(input) => PlatformInputOk(input)
    case Validate(call, _, update) => call !in w.validated && TenantInputOk(CurrentPlatform(w.store.platform), update)
    case Upsert(call) => call in w.validated
    case Abandon(call) => call in w.validated
  }

  function Apply(w: World, step: Step): World
    requires Enabled(w, step)
  {
    match step
    case SavePlatform(input) => w.(store := w.store.(platform := Some(PlatformPolicy(input.providerBackedEnabled, input.features))))
    case Validate(call, tenantId, update) => w.(validated := w.validated[call := (tenantId, update)])
    case Upsert(call) =>
      var (tenantId, update) := w.validated[call];
      World(w.store.(overrides := w.store.overrides[tenantId := RowFor(update)]), w.validated - {call})
    case Abandon(call) => w.(validated := w.validated - {call})
  }

  /** Any valid platform policy may be saved at any time, and replaces the stored one as it is. */
  lemma PlatformIsReplaced(w: World, input: PlatformInput)
    requires PlatformInputOk(input)
    ensures Enabled(w, SavePlatform(input))
    ensures Apply(w, SavePlatform(input)).store.platform == Some(PlatformPolicy(input.providerBackedEnabled, input.features))
    ensures Apply(w, SavePlatform(input)).store.overrides == w.store.overrides && Apply(w, SavePlatform(input)).validated == w.validated
  {
  }

  /** A write may follow its validation at once and stores exactly that update for that tenant, or it may never come. */
  lemma WriteFollowsValidation(w: World, call: nat, tenantId: string, update: TenantInput)
    requires Enabled(w, Validate(call, tenantId, update))
    ensures Apply(w, Validate(call, tenantId, update)).store == w.store
    ensures Enabled(Apply(w, Validate(call, tenantId, update)), Upsert(call))
    ensures Apply(Apply(w, Validate(call, tenantId, update)), Upsert(call)) ==
      w.(store := w.store.(overrides := w.store.overrides[tenantId := RowFor(update)]))
    ensures Enabled(Apply(w, Validate(call, tenantId, update)), Abandon(call))
    ensures Apply(Apply(w, Validate(call, tenantId, update)), Abandon(call)) == w
  {
    assert w.validated[call := (tenantId, update)] - {call} == w.validated;
  }

  predicate Execution(states: seq<World>, steps: seq<Step>) {
    && |states| == |steps| + 1
    && states[0] == World(Store(None, map[]), map[])
    && forall k :: 0 <= k < |steps| ==> Enabled(states[k], steps[k]) && states[k + 1] == Apply(states[k], steps[k])
  }

  function PlatformAt(states: seq<World>, k: nat): PlatformPolicy
    requires k < |states|
  {
    CurrentPlatform(states[k].store.platform)
  }

  function RowAt(states: seq<World>, k: nat, tenantId: string): Option<TenantOverride>
    requires k < |states|
  {
    if tenantId in states[k].store.overrides then Some(states[k].store.overrides[tenantId]) else None
  }

  /** At some moment up to k the platform allowed this provider for this feature. */
  ghost predicate WasAllowed(states: seq<World>, k: nat, f: Feature, q: Provider) {
    exists i :: 0 <= i <= k < |states| && q in FeatureOf(PlatformAt(states, i), f).allowedProviders
  }

  ghost predicate PreferencesWereAllowed(states: seq<World>, k: nat, o: FeatureOverride, f: Feature) {
    o.preferredProvider.Some? ==> WasAllowed(states, k, f, o.preferredProvider.value)
  }

  ghost predicate HistoryOk(states: seq<World>, k: nat)
    requires k < |states|
  {
    && (forall call, f :: call in states[k].validated && f in states[k].validated[call].1.overrides ==>
          PreferencesWereAllowed(states, k, states[k].validated[call].1.overrides[f], f))
    && (forall t, f :: t in states[k].store.overrides && f in states[k].store.overrides[t].features ==>
          PreferencesWereAllowed(states, k, states[k].store.overrides[t].features[f], f))
  }

  lemma WasAllowedLater(states: seq<World>, k: nat)
    requires k + 1 < |states|
    ensures forall f, q :: WasAllowed(states, k, f, q) ==> WasAllowed(states, k + 1, f, q)
    ensures forall f, q :: q in FeatureOf(PlatformAt(states, k), f).allowedProviders ==> WasAllowed(states, k + 1, f, q)
  {
  }

  /** Every stored preference was allowed by the platform policy of some earlier moment: the one it was validated against. */
  lemma {:induction false} PreferencesAreVetted(states: seq<World>, steps: seq<Step>, k: nat)
    requires Execution(states, steps) && k <= |steps|
    ensures HistoryOk(states, k)
  {
    if k > 0 {
      PreferencesAreVetted(states, steps, k - 1);
      WasAllowedLater(states, k - 1);
      HistoryStep(states, steps, k - 1);
    }
  }

  lemma HistoryStep(states: seq<World>, steps: seq<Step>, k: nat)
    requires Execution(states, steps) && k < |steps| && HistoryOk(states, k)
    ensures HistoryOk(states, k + 1)
  {
    WasAllowedLater(states, k);
    var w, w' := states[k], states[k + 1];
    hide WasAllowed;
    match steps[k]
    case SavePlatform(_) =>
    case Abandon(_) =>
    case Validate(call, tenantId, update) =>
      forall f | f in update.overrides
        ensures PreferencesWereAllowed(states, k + 1, update.overrides[f], f)
      {
        assert PreferredOk(PlatformAt(states, k), f, update.overrides[f]);
      }
    case Upsert(call) =>
      var update := w.validated[call].1;
      forall f | f in RowFor(update).features
        ensures PreferencesWereAllowed(states, k + 1, RowFor(update).features[f], f)
      {
        if f in update.overrides {
          assert PreferencesWereAllowed(states, k, update.overrides[f], f);
        }
      }
  }

  /**
    A request reads the platform policy at one moment (i) and the tenant's row at another (j). Whatever was updated
    before, between and after, an allowed decision names a provider that the platform allowed at moment i, within its
    limit, and a surfaced preference was allowed both then and when the tenant chose it.
  */
  lemma DecisionsAreContained(states: seq<World>, steps: seq<Step>, i: nat, j: nat, tenantId: string, f: Feature, hint: Option<Hint>, text: Option<string>)
    requires Execution(states, steps) && i <= |steps| && j <= |steps|
    ensures var p := PlatformAt(states, i);
      var d := Decide(p, RowAt(states, j, tenantId), f, hint, text);
      d.backedAllowed ==>
        && d.effective.Use? && d.effective.provider in FeatureOf(p, f).allowedProviders
        && FitsLimit(FeatureOf(p, f).maxInputCharacters, InputLength(text))
        && p.providerBackedEnabled && FeatureOf(p, f).enabled
    ensures var p := PlatformAt(states, i);
      var t := EffectiveFeature(p, RowAt(states, j, tenantId), f);
      && Within(p, f, t)
      && (t.preferredProvider.Some? ==> WasAllowed(states, j, f, t.preferredProvider.value))
  {
    var p, row := PlatformAt(states, i), RowAt(states, j, tenantId);
    AllowedIff(p, row, f, hint, text);
    PreferencesAreVetted(states, steps, j);
    AllFeaturesListed(f);
  }
}
