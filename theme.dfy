/**
 * `ThemeProvider` of `app/contexts/ThemeContext.tsx`: the light or dark
 * theme, chosen on mount from storage or the system preference, toggled,
 * synchronised across tabs by storage events, and applied as a class of the
 * document's root element. What reading storage or the media query yields
 * (or that it threw) is a parameter.
 */
module ThemeContext {
  import opened Js

  datatype Theme = Light | Dark

  const DefaultTheme := Dark
  const DefaultStorageKey := "mutumwa-theme"

  /** The theme's class name and stored value. */
  function Name(t: Theme): (s: string)
    ensures s == "light" <==> t == Light
    ensures s == "dark" <==> t == Dark
  {
    match t
    case Light => "light"
    case Dark => "dark"
  }

  /** `stored === "light" || stored === "dark"`, as the theme it names. */
  function Parse(s: Option<string>): (r: Option<Theme>)
    ensures r.Some? <==> s == Some("light") || s == Some("dark")
    ensures r.Some? ==> Name(r.value) == s.value
  {
    if s == Some("light") then Some(Light)
    else if s == Some("dark") then Some(Dark)
    else None
  }

  lemma ParseName(t: Theme)
    ensures Parse(Some(Name(t))) == Some(t)
  {
  }

  /**
   * `getInitialTheme`: `stored` is `None` when nothing is stored or reading
   * threw; `prefersDark` is `None` when there is no window or the media
   * query threw.
   */
  function InitialTheme(stored: Option<string>, prefersDark: Option<bool>, defaultTheme: Theme): (t: Theme)
    ensures Parse(stored).Some? ==> t == Parse(stored).value
    ensures Parse(stored).None? && prefersDark.Some? ==> (t == Dark <==> prefersDark.value)
    ensures Parse(stored).None? && prefersDark.None? ==> t == defaultTheme
  {
    var fromStorage := Parse(stored);
    if fromStorage.Some? then fromStorage.value
    else if prefersDark.Some? then (if prefersDark.value then Dark else Light)
    else defaultTheme
  }

  /** `prev === "dark" ? "light" : "dark"` */
  function Toggle(t: Theme): (r: Theme)
    ensures r != t
  {
    if t == Dark then Light else Dark
  }

  lemma ToggleTwice(t: Theme)
    ensures Toggle(Toggle(t)) == t
  {
  }

  /** The theme after a storage event from another tab. */
  function OnStorageEvent(current: Theme, storageKey: string, key: Option<string>, newValue: Option<string>): (r: Theme)
    ensures key == Some(storageKey) && Parse(newValue).Some? ==> r == Parse(newValue).value
    ensures !(key == Some(storageKey) && Parse(newValue).Some?) ==> r == current
  {
    if key == Some(storageKey) && Parse(newValue).Some? then Parse(newValue).value else current
  }

  /** `classList.remove("light", "dark")` */
  function RemoveThemeClasses(classes: seq<string>): (r: seq<string>)
    ensures forall c :: c in r <==> c in classes && c != "light" && c != "dark"
    ensures |r| <= |classes|
  {
    if classes == [] then []
    else
      (if classes[0] == "light" || classes[0] == "dark" then [] else [classes[0]])
      + RemoveThemeClasses(classes[1..])
  }

  /** The root's classes after `remove("light", "dark")` and `add(theme)`. */
  function ApplyClass(classes: seq<string>, t: Theme): seq<string>
  {
    RemoveThemeClasses(classes) + [Name(t)]
  }

  /**
   * After the theme is applied the root holds exactly one theme class, the
   * current theme's, once, and every other class it held.
   */
  lemma AppliedClassIsUnique(classes: seq<string>, t: Theme)
    ensures var r := ApplyClass(classes, t);
      && Name(t) in r && Name(Toggle(t)) !in r
      && (forall i :: 0 <= i < |r| && (r[i] == "light" || r[i] == "dark") ==> i == |r| - 1)
      && (forall c :: c in classes && c != "light" && c != "dark" ==> c in r)
  {
    var r := ApplyClass(classes, t);
    var kept := RemoveThemeClasses(classes);
    assert forall i :: 0 <= i < |kept| ==> kept[i] in kept;
    assert forall i :: 0 <= i < |kept| ==> r[i] == kept[i];
    assert Name(Toggle(t)) !in kept;
  }

  /** `localStorage.getItem(key)` over a storage map. */
  function Lookup(storage: map<string, string>, key: string): (r: Option<string>)
    ensures r.Some? <==> key in storage
    ensures r.Some? ==> r.value == storage[key]
  {
    if key in storage then Some(storage[key]) else None
  }

  /** A saved theme is the theme of the next mount, whatever the system prefers. */
  lemma SavedThemeRestores(storage: map<string, string>, storageKey: string, t: Theme, prefersDark: Option<bool>, defaultTheme: Theme)
    ensures InitialTheme(Lookup(storage[storageKey := Name(t)], storageKey), prefersDark, defaultTheme) == t
  {
    ParseName(t);
  }

  class ThemeProvider {
    const storageKey: string
    const defaultTheme: Theme
    var theme: Theme
    var mounted: bool
    /** The classes of `document.documentElement`. */
    var rootClasses: seq<string>
    /** The part of `localStorage` the provider uses. */
    var storage: map<string, string>

    constructor (storageKey: string, defaultTheme: Theme, rootClasses: seq<string>, storage: map<string, string>)
      ensures this.storageKey == storageKey && this.defaultTheme == defaultTheme
      ensures theme == defaultTheme && !mounted
      ensures this.rootClasses == rootClasses && this.storage == storage
    {
      this.storageKey := storageKey;
      this.defaultTheme := defaultTheme;
      theme := defaultTheme;
      mounted := false;
      this.rootClasses := rootClasses;
      this.storage := storage;
    }

    /** The mount effect; `prefersDark` is what the media query gives, if anything. */
    method Mount(prefersDark: Option<bool>)
      modifies this`theme, this`rootClasses, this`mounted
      ensures theme == InitialTheme(Lookup(storage, storageKey), prefersDark, defaultTheme)
      ensures rootClasses == ApplyClass(old(rootClasses), theme)
      ensures mounted
    {
      theme := InitialTheme(Lookup(storage, storageKey), prefersDark, defaultTheme);
      rootClasses := ApplyClass(rootClasses, theme);
      mounted := true;
    }

    /** The effect that applies and saves the theme, once mounted. */
    method ApplyTheme()
      modifies this`rootClasses, this`storage
      ensures !mounted ==> rootClasses == old(rootClasses) && storage == old(storage)
      ensures mounted ==>
        rootClasses == ApplyClass(old(rootClasses), theme)
        && storage == old(storage)[storageKey := Name(theme)]
    {
      if !mounted {
        return;
      }
      rootClasses := ApplyClass(rootClasses, theme);
      storage := storage[storageKey := Name(theme)];
    }

    /** `toggleTheme` */
    method ToggleTheme()
      modifies this`theme
      ensures theme == Toggle(old(theme))
    {
      theme := Toggle(theme);
    }

    /** `setTheme` */
    method SetTheme(t: Theme)
      modifies this`theme
      ensures theme == t
    {
      theme := t;
    }

    /** `handleStorageChange` */
    method StorageChanged(key: Option<string>, newValue: Option<string>)
      modifies this`theme
      ensures theme == OnStorageEvent(old(theme), storageKey, key, newValue)
    {
      if key == Some(storageKey) && (newValue == Some("light") || newValue == Some("dark")) {
        theme := Parse(newValue).value;
      }
    }
  }
}
