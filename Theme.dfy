/** The theme service (src/app/services/theme.service.ts): light or dark,
    remembered in local storage and shown as the class "dark" on the page
    body.

    The stored value is taken as it is, without checking it names a theme,
    so the theme is a string here. */
module Theme {
  import opened JsStrings
  import opened BrowserStorage

  const ThemeKey: string := "app-theme"
  const Light: string := "light"
  const Dark: string := "dark"
  const DarkClass: string := "dark"

  /** The theme a service starts with: a stored non-empty value, else the
      system preference. */
  function InitialTheme(stored: Option<string>, systemPrefersDark: bool): (t: string)
    ensures stored.Some? && stored.value != "" ==> t == stored.value
    ensures (stored.None? || stored.value == "") ==> (t == Dark <==> systemPrefersDark)
    ensures (stored.None? || stored.value == "") ==> (t == Dark || t == Light)
  {
    if stored.Some? && stored.value != "" then stored.value
    else if systemPrefersDark then Dark else Light
  }

  /** The theme, the stored entries and the body's classes. */
  datatype ThemeView = ThemeView(theme: string, stored: map<string, string>, body: set<string>)

  /** The storage and the body agree with the theme. */
  predicate Consistent(v: ThemeView) {
    ThemeKey in v.stored && v.stored[ThemeKey] == v.theme && (DarkClass in v.body <==> v.theme == Dark)
  }

  function AfterSetTheme(v: ThemeView, t: string): ThemeView {
    ThemeView(t, v.stored[ThemeKey := t], if t == Dark then v.body + {DarkClass} else v.body - {DarkClass})
  }

  function Toggled(t: string): string {
    if t == Light then Dark else Light
  }

  function AfterToggle(v: ThemeView): ThemeView {
    AfterSetTheme(v, Toggled(v.theme))
  }

  /** After `setTheme(t)` the theme is `t`, storage holds `t`, the body has
      "dark" exactly for the dark theme, and nothing else changed. */
  lemma SetThemeConsistent(v: ThemeView, t: string)
    ensures var r := AfterSetTheme(v, t);
      Consistent(r) && r.theme == t
      && (forall k :: k in v.stored && k != ThemeKey ==> k in r.stored && r.stored[k] == v.stored[k])
      && r.stored.Keys == v.stored.Keys + {ThemeKey}
      && r.body - {DarkClass} == v.body - {DarkClass}
  {
  }

  lemma SetThemeIdempotent(v: ThemeView, t: string)
    ensures AfterSetTheme(AfterSetTheme(v, t), t) == AfterSetTheme(v, t)
  {
  }

  /** Toggling twice from light or dark restores everything. */
  lemma ToggleTwice(v: ThemeView)
    requires Consistent(v) && (v.theme == Light || v.theme == Dark)
    ensures AfterToggle(v).theme != v.theme
    ensures AfterToggle(AfterToggle(v)) == v
  {
    var once := AfterToggle(v);
    var twice := AfterToggle(once);
    assert twice.stored == v.stored;
    assert twice.body == v.body;
  }

  /** A stored value that is neither theme toggles to light, then dark:
      toggling twice does not restore it. */
  lemma ToggleFromUnknown(v: ThemeView)
    requires v.theme != Light && v.theme != Dark
    ensures AfterToggle(v).theme == Light
    ensures AfterToggle(AfterToggle(v)).theme == Dark
  {
  }

  class ThemeService {
    const storage: LocalStorage
    var theme: string
    var bodyClasses: set<string>   // `document.body.classList`

    function View(): ThemeView
      reads this, storage
    {
      ThemeView(theme, storage.entries, bodyClasses)
    }

    constructor (storage: LocalStorage, body: set<string>, systemPrefersDark: bool)
      modifies storage
      ensures this.storage == storage
      ensures View() == AfterSetTheme(ThemeView(Light, old(storage.entries), body),
                                      InitialTheme(old(storage.GetItem(ThemeKey)), systemPrefersDark))
    {
      this.storage := storage;
      theme := Light;
      bodyClasses := body;
      new;
      InitializeTheme(systemPrefersDark);
    }

    method InitializeTheme(systemPrefersDark: bool)
      modifies this, storage
      ensures View() == AfterSetTheme(old(View()), InitialTheme(old(storage.GetItem(ThemeKey)), systemPrefersDark))
    {
      var storedTheme := storage.GetItem(ThemeKey);
      var initialTheme := if storedTheme.Some? && storedTheme.value != "" then storedTheme.value
                          else if systemPrefersDark then Dark else Light;
      SetTheme(initialTheme);
    }

    method SetTheme(t: string)
      modifies this, storage
      ensures View() == AfterSetTheme(old(View()), t)
    {
      theme := t;
      storage.SetItem(ThemeKey, t);
      if t == Dark {
        bodyClasses := bodyClasses + {DarkClass};
      } else {
        bodyClasses := bodyClasses - {DarkClass};
      }
    }

    method ToggleTheme()
      modifies this, storage
      ensures View() == AfterToggle(old(View()))
    {
      SetTheme(if theme == Light then Dark else Light);
    }
  }

  /** A fresh service on empty storage follows the system preference and
      writes it back. */
  method FreshStart(systemPrefersDark: bool) returns (s: ThemeService)
    ensures s.theme == (if systemPrefersDark then Dark else Light)
    ensures s.storage.GetItem(ThemeKey) == Some(s.theme)
    ensures DarkClass in s.bodyClasses <==> systemPrefersDark
  {
    var storage := new LocalStorage(map[]);
    s := new ThemeService(storage, {}, systemPrefersDark);
  }
}
