/** The onboarding provider of src/state/onboarding.tsx: whether the user still
    has to go through onboarding, loaded from and written to the key-value store. */
module Onboarding {
  import opened Wrappers
  import opened Storage

  const OnboardingKey := "needs_onboarding"

  class OnboardingProvider {
    var needsOnboarding: bool
    var loading: bool
    const storage: KeyValueStore

    /** Before the stored value is read, onboarding is needed and the provider is loading. */
    constructor (storage: KeyValueStore)
      ensures needsOnboarding && loading
      ensures this.storage == storage
    {
      needsOnboarding := true;
      loading := true;
      this.storage := storage;
    }

    /** The mount effect. `readFails` is whether `getItem` rejects; then the flag
        keeps its value. Either way `loading` ends false. */
    method Load(readFails: bool)
      modifies this
      ensures needsOnboarding == if readFails then old(needsOnboarding) else DecodeFlag(Lookup(storage.items, OnboardingKey))
      ensures !loading
    {
      if !readFails {
        var value := storage.GetItem(OnboardingKey);
        if value == None {
          needsOnboarding := true;
        } else {
          needsOnboarding := value.value == "true";
        }
      }
      loading := false;
    }

    /** Clears the flag and stores "false". */
    method CompleteOnboarding()
      modifies this, storage
      ensures !needsOnboarding
      ensures loading == old(loading)
      ensures storage.items == old(storage.items)[OnboardingKey := "false"]
    {
      needsOnboarding := false;
      storage.SetItem(OnboardingKey, "false");
    }
  }

  /** Completing onboarding twice leaves the provider and the store as completing once does. */
  method CompleteTwice(onboarding: OnboardingProvider)
    modifies onboarding, onboarding.storage
    ensures !onboarding.needsOnboarding
    ensures onboarding.loading == old(onboarding.loading)
    ensures onboarding.storage.items == old(onboarding.storage.items)[OnboardingKey := "false"]
  {
    onboarding.CompleteOnboarding();
    onboarding.CompleteOnboarding();
  }

  /** After completing onboarding, a reload reads `false` back. */
  lemma CompletedSurvivesReload(items: map<string, string>)
    ensures !DecodeFlag(Lookup(items[OnboardingKey := "false"], OnboardingKey))
  {
    FlagRoundTrip(items, OnboardingKey, false);
  }
}
