/** The settings provider of src/state/settings.tsx: whether the AI services run
    in mock mode, loaded from and written to the key-value store. */
module Settings {
  import opened Wrappers
  import opened Storage

  const MockAiKey := "mock_ai_enabled"

  class SettingsProvider {
    var mockAiEnabled: bool
    var loading: bool
    const storage: KeyValueStore

    /** Before the stored value is read, mock mode is on and the provider is loading. */
    constructor (storage: KeyValueStore)
      ensures mockAiEnabled && loading
      ensures this.storage == storage
    {
      mockAiEnabled := true;
      loading := true;
      this.storage := storage;
    }

    /** The mount effect. `readFails` is whether `getItem` rejects; then the flag
        keeps its value. Either way `loading` ends false. */
    method Load(readFails: bool)
      modifies this
      ensures mockAiEnabled == if readFails then old(mockAiEnabled) else DecodeFlag(Lookup(storage.items, MockAiKey))
      ensures !loading
    {
      if !readFails {
        var value := storage.GetItem(MockAiKey);
        if value == None {
          mockAiEnabled := true;
        } else {
          mockAiEnabled := value.value == "true";
        }
      }
      loading := false;
    }

    /** Negates the flag and stores `String(next)`. */
    method ToggleMockAi()
      modifies this, storage
      ensures mockAiEnabled == !old(mockAiEnabled)
      ensures loading == old(loading)
      ensures storage.items == old(storage.items)[MockAiKey := EncodeFlag(mockAiEnabled)]
    {
      var next := !mockAiEnabled;
      mockAiEnabled := next;
      storage.SetItem(MockAiKey, EncodeFlag(next));
    }
  }

  /** After a toggle, reloading (a fresh provider over the same store) reads the
      toggled flag back. */
  method ReloadAfterToggle(settings: SettingsProvider) returns (reloaded: SettingsProvider)
    modifies settings, settings.storage
    ensures reloaded.mockAiEnabled == !old(settings.mockAiEnabled)
    ensures !reloaded.loading
  {
    settings.ToggleMockAi();
    reloaded := new SettingsProvider(settings.storage);
    reloaded.Load(false);
  }
}
