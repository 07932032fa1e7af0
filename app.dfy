/**
 * The application shell: the dark-mode flag and its persistence, and the
 * state that opens the API tester dialog for an endpoint and receives the
 * credentials the dialog saves.
 */
module App {
  import opened Wrappers
  import opened Catalogue
  import opened Storage

  /** The URL every request of the page is sent to, before the endpoint's path. */
  const BaseApiUrl := "https://minexxapi-db-p7n5ing2cq-uc.a.run.app"

  /** What the API tester dialog is opened with. */
  datatype TesterConfig = TesterConfig(
    endpoint: Option<EndpointSpec>,
    httpMethod: string,
    path: string,
    token: string,
    platform: string)

  /** The configuration before any endpoint was chosen. */
  const InitialTesterConfig := TesterConfig(None, "", "", "", DefaultPlatform)

  /** The configuration `handleApiTest` builds from the store. */
  function ConfigFor(items: map<string, string>, endpoint: EndpointSpec, httpMethod: string, path: string): (c: TesterConfig)
    ensures c.endpoint == Some(endpoint) && c.httpMethod == httpMethod && c.path == path
    ensures c.token == StoredToken(items) && c.platform == StoredPlatform(items)
  {
    TesterConfig(Some(endpoint), httpMethod, path, StoredToken(items), StoredPlatform(items))
  }

  /**
   * The dialog opens with the credentials that were last saved: after
   * saving `token` and `platform`, the next configuration carries them, an
   * empty platform coming back as `3ts`.
   */
  lemma ConfigAfterSave(items: map<string, string>, token: string, platform: string, e: EndpointSpec)
    ensures ConfigFor(WithTesterData(items, token, platform), e, e.httpMethod, e.path).token == token
    ensures ConfigFor(WithTesterData(items, token, platform), e, e.httpMethod, e.path).platform ==
      (if platform == [] then DefaultPlatform else platform)
  {
    SavedCredentialsReadBack(items, token, platform);
  }

  class AppState {
    const storage: LocalStorage
    var darkMode: bool
    var showApiTesterModal: bool
    var apiTesterConfig: TesterConfig

    /**
     * The first render: dark mode when the store says `true` or the system
     * prefers dark, and the effect that then writes the flag back.
     */
    constructor(storage: LocalStorage, prefersDark: bool)
      modifies storage
      ensures this.storage == storage
      ensures darkMode == InitialDarkMode(old(storage.items), prefersDark)
      ensures storage.items == old(storage.items)[DarkModeKey := BoolText(darkMode)]
      ensures !showApiTesterModal && apiTesterConfig == InitialTesterConfig
    {
      this.storage := storage;
      darkMode := InitialDarkMode(storage.items, prefersDark);
      showApiTesterModal := false;
      apiTesterConfig := InitialTesterConfig;
      new;
      storage.SetItem(DarkModeKey, BoolText(darkMode));
    }

    /** `setDarkMode(v)` followed by the effect that persists it. */
    method SetDarkMode(v: bool)
      modifies this, storage
      ensures darkMode == v
      ensures storage.items == old(storage.items)[DarkModeKey := BoolText(v)]
      ensures showApiTesterModal == old(showApiTesterModal) && apiTesterConfig == old(apiTesterConfig)
    {
      darkMode := v;
      storage.SetItem(DarkModeKey, BoolText(v));
    }

    /** `handleApiTest(endpoint, method, path)`: configure the dialog from the store and show it. */
    method HandleApiTest(endpoint: EndpointSpec, httpMethod: string, path: string)
      modifies this
      ensures apiTesterConfig == ConfigFor(storage.items, endpoint, httpMethod, path)
      ensures showApiTesterModal
      ensures darkMode == old(darkMode)
    {
      apiTesterConfig := ConfigFor(storage.items, endpoint, httpMethod, path);
      showApiTesterModal := true;
    }

    /** `closeApiTesterModal()`: only hides the dialog. */
    method CloseApiTesterModal()
      modifies this
      ensures !showApiTesterModal
      ensures darkMode == old(darkMode) && apiTesterConfig == old(apiTesterConfig)
    {
      showApiTesterModal := false;
    }

    /** `saveTesterData(token, platform)`: writes exactly the two credential items. */
    method SaveTesterData(token: string, platform: string)
      modifies storage
      ensures storage.items == WithTesterData(old(storage.items), token, platform)
    {
      storage.SetItem(TokenKey, token);
      storage.SetItem(PlatformKey, platform);
    }
  }
}
