/**
 * The browser's `localStorage` as the application uses it: a string-keyed
 * store of strings under three keys, the saved bearer token, the saved
 * platform and the dark-mode flag.
 */
module Storage {
  const TokenKey := "apiToken"
  const PlatformKey := "apiPlatform"
  const DarkModeKey := "darkMode"

  /** The platform every form falls back to. */
  const DefaultPlatform := "3ts"

  /** `localStorage.getItem(key) || fallback`: a missing or empty item reads as `fallback`. */
  function StoredOr(items: map<string, string>, key: string, fallback: string): string
  {
    if key in items && items[key] != [] then items[key] else fallback
  }

  /** The saved token, or "" when none is saved. */
  function StoredToken(items: map<string, string>): string
  {
    StoredOr(items, TokenKey, "")
  }

  /** The saved platform, or `3ts` when none (or an empty one) is saved. */
  function StoredPlatform(items: map<string, string>): string
  {
    StoredOr(items, PlatformKey, DefaultPlatform)
  }

  /** The store after writing the token and then the platform. */
  function WithTesterData(items: map<string, string>, token: string, platform: string): map<string, string>
  {
    items[TokenKey := token][PlatformKey := platform]
  }

  /**
   * Saving a token and a platform and reading them back gives the token and
   * the platform, except that an empty platform reads back as `3ts`; every
   * other key, the dark-mode flag included, keeps its item.
   */
  lemma SavedCredentialsReadBack(items: map<string, string>, token: string, platform: string)
    ensures StoredToken(WithTesterData(items, token, platform)) == token
    ensures StoredPlatform(WithTesterData(items, token, platform)) == (if platform == [] then DefaultPlatform else platform)
    ensures forall k :: k != TokenKey && k != PlatformKey ==>
      (k in WithTesterData(items, token, platform) <==> k in items) &&
      (k in items ==> WithTesterData(items, token, platform)[k] == items[k])
  {
    assert TokenKey != PlatformKey;
  }

  /** A boolean written to storage becomes the text `true` or `false`. */
  function BoolText(b: bool): (r: string)
    ensures r == "true" || r == "false"
    ensures (r == "true") == b
  {
    if b then "true" else "false"
  }

  /**
   * The initial dark mode: the stored flag reads `true`, or the system
   * prefers a dark colour scheme.
   */
  function InitialDarkMode(items: map<string, string>, prefersDark: bool): bool
  {
    (DarkModeKey in items && items[DarkModeKey] == "true") || prefersDark
  }

  /**
   * After the flag `v` is persisted, the next start shows dark mode exactly
   * when `v` holds or the system prefers dark: a stored light mode does not
   * survive a dark system preference.
   */
  lemma DarkModeAfterReload(items: map<string, string>, v: bool, prefersDark: bool)
    ensures InitialDarkMode(items[DarkModeKey := BoolText(v)], prefersDark) == (v || prefersDark)
  {
  }

  /** The store shared by the page's components. */
  class LocalStorage {
    var items: map<string, string>

    constructor(initial: map<string, string>)
      ensures items == initial
    {
      items := initial;
    }

    /** `localStorage.setItem(key, value)`. */
    method SetItem(key: string, value: string)
      modifies this
      ensures items == old(items)[key := value]
    {
      items := items[key := value];
    }
  }
}
