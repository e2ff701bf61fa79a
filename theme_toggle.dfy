/**
 * Theme switching: resolve the theme from the stored preference and the
 * system colour scheme, apply it as a class on the root element, persist it
 * in local storage and announce it with a `theme-change` event.
 *
 * The browser is a `Browser` object: the root element's class list is a set,
 * local storage a string map whose writes may fail (`storageWritable`), the
 * `(prefers-color-scheme: dark)` query a boolean, and dispatched events a log.
 */
module ThemeToggle {
  import opened Wrappers

  datatype Theme = Light | Dark

  /** The class name and stored value of a theme. */
  function Name(t: Theme): (s: string)
    ensures s == "light" || s == "dark"
  {
    match t
    case Light => "light"
    case Dark => "dark"
  }

  function Other(t: Theme): (u: Theme)
    ensures u != t
  {
    match t
    case Light => Dark
    case Dark => Light
  }

  const ThemeKey := "theme"

  /** The theme that follows the system colour scheme. */
  function SystemTheme(prefersDark: bool): Theme
  {
    if prefersDark then Dark else Light
  }

  /**
   * `getTheme`. `stored` is what `localStorage.getItem('theme')` returns
   * (`None` for null, and also when there is no local storage);
   * `prefersDark` is whether the dark media query matches (false when there
   * is no window).
   */
  function GetTheme(stored: Option<string>, prefersDark: bool): (t: Theme)
    ensures stored == Some("light") || stored == Some("dark") ==> stored == Some(Name(t))
    ensures stored != Some("light") && stored != Some("dark") ==> (t == Dark <==> prefersDark)
  {
    if stored == Some("light") then Light
    else if stored == Some("dark") then Dark
    else SystemTheme(prefersDark)
  }

  /** `localStorage.getItem(key)`. */
  function GetItem(storage: map<string, string>, key: string): Option<string>
  {
    if key in storage then Some(storage[key]) else None
  }

  /** `localStorage.getItem('theme')` is truthy: present and not the empty string. */
  predicate HasStoredPreference(storage: map<string, string>): (b: bool)
    ensures b <==> ThemeKey in storage && storage[ThemeKey] != ""
  {
    match GetItem(storage, ThemeKey)
    case None => false
    case Some(v) => v != ""
  }

  /** The class list after `remove('light', 'dark')` and `add(name)`. */
  function WithTheme(classes: set<string>, t: Theme): (r: set<string>)
    ensures Name(t) in r && Name(Other(t)) !in r
    ensures forall c :: c != "light" && c != "dark" ==> (c in r <==> c in classes)
  {
    classes - {"light", "dark"} + {Name(t)}
  }

  /** Storage after `setItem('theme', name)`, which changes nothing when the write fails. */
  function Persist(storage: map<string, string>, t: Theme, writable: bool): (r: map<string, string>)
    ensures writable ==> GetItem(r, ThemeKey) == Some(Name(t))
    ensures !writable ==> r == storage
    ensures forall k :: k != ThemeKey ==> GetItem(r, k) == GetItem(storage, k)
  {
    if writable then storage[ThemeKey := Name(t)] else storage
  }

  /** `n` copies of the same event. */
  function Repeat(t: Theme, n: nat): (r: seq<Theme>)
    ensures |r| == n && forall i :: 0 <= i < n ==> r[i] == t
  {
    seq(n, _ => t)
  }

  class Browser {
    /** `document.documentElement.classList` */
    var classList: set<string>
    /** `localStorage` */
    var storage: map<string, string>
    /** Whether `localStorage.setItem` succeeds. */
    var storageWritable: bool
    /** Whether `(prefers-color-scheme: dark)` matches. */
    var prefersDark: bool
    /** The `detail` of every `theme-change` event dispatched on `window`. */
    var events: seq<Theme>
    /** The number of `change` listeners `initializeTheme` has registered on the media query. */
    var listeners: nat

    constructor (classList: set<string>, storage: map<string, string>, storageWritable: bool, prefersDark: bool)
      ensures this.classList == classList && this.storage == storage
      ensures this.storageWritable == storageWritable && this.prefersDark == prefersDark
      ensures events == [] && listeners == 0
    {
      this.classList := classList;
      this.storage := storage;
      this.storageWritable := storageWritable;
      this.prefersDark := prefersDark;
      events := [];
      listeners := 0;
    }

    /** What `getTheme()` returns in this browser. */
    function CurrentTheme(): Theme
      reads this
    {
      GetTheme(GetItem(storage, ThemeKey), prefersDark)
    }

    /** `setTheme(t)`: a failed write is swallowed; the class update and the event happen regardless. */
    method SetTheme(t: Theme)
      modifies this
      ensures classList == WithTheme(old(classList), t)
      ensures storage == Persist(old(storage), t, storageWritable)
      ensures events == old(events) + [t]
      ensures storageWritable == old(storageWritable) && prefersDark == old(prefersDark) && listeners == old(listeners)
      ensures storageWritable ==> CurrentTheme() == t && HasStoredPreference(storage)
      ensures HasStoredPreference(old(storage)) ==> HasStoredPreference(storage)
    {
      classList := WithTheme(classList, t);
      if storageWritable {
        storage := storage[ThemeKey := Name(t)];
      }
      events := events + [t];
    }

    /**
     * `initializeTheme()`: apply (and so persist) the resolved theme, then
     * register a listener for system colour-scheme changes.
     */
    method InitializeTheme()
      modifies this
      ensures classList == WithTheme(old(classList), old(CurrentTheme()))
      ensures storage == Persist(old(storage), old(CurrentTheme()), storageWritable)
      ensures events == old(events) + [old(CurrentTheme())]
      ensures listeners == old(listeners) + 1
      ensures storageWritable == old(storageWritable) && prefersDark == old(prefersDark)
      ensures CurrentTheme() == old(CurrentTheme())
      ensures storageWritable ==> HasStoredPreference(storage)
    {
      var theme := GetTheme(GetItem(storage, ThemeKey), prefersDark);
      SetTheme(theme);
      listeners := listeners + 1;
    }

    /** One run of `handleChange`: follow the system only when no preference is stored. */
    method HandleChange(matches: bool)
      modifies this
      ensures HasStoredPreference(old(storage)) ==>
                classList == old(classList) && storage == old(storage) && events == old(events)
      ensures !HasStoredPreference(old(storage)) ==>
                classList == WithTheme(old(classList), SystemTheme(matches))
                && storage == Persist(old(storage), SystemTheme(matches), storageWritable)
                && events == old(events) + [SystemTheme(matches)]
      ensures storageWritable == old(storageWritable) && prefersDark == old(prefersDark) && listeners == old(listeners)
    {
      if !HasStoredPreference(storage) {
        SetTheme(if matches then Dark else Light);
      }
    }

    /**
     * The system colour scheme changes to `matches`: the media query calls
     * each registered listener in turn. Once one of them has stored a
     * theme, the later ones do nothing.
     */
    method SystemPreferenceChanged(matches: bool)
      modifies this
      ensures prefersDark == matches
      ensures storageWritable == old(storageWritable) && listeners == old(listeners)
      ensures HasStoredPreference(old(storage)) || listeners == 0 ==>
                classList == old(classList) && storage == old(storage) && events == old(events)
      ensures !HasStoredPreference(old(storage)) && listeners > 0 ==>
                classList == WithTheme(old(classList), SystemTheme(matches))
                && storage == Persist(old(storage), SystemTheme(matches), storageWritable)
                && events == old(events) + Repeat(SystemTheme(matches), if storageWritable then 1 else listeners)
    {
      prefersDark := matches;
      var t := SystemTheme(matches);
      ghost var classes0, storage0, events0 := classList, storage, events;
      for i := 0 to listeners
        invariant prefersDark == matches
        invariant storageWritable == old(storageWritable) && listeners == old(listeners)
        invariant HasStoredPreference(storage0) || i == 0 ==>
                    classList == classes0 && storage == storage0 && events == events0
        invariant !HasStoredPreference(storage0) && i > 0 ==>
                    classList == WithTheme(classes0, t)
                    && storage == Persist(storage0, t, storageWritable)
                    && events == events0 + Repeat(t, if storageWritable then 1 else i)
      {
        if !HasStoredPreference(storage0) && i > 0 {
          WithThemeIdempotent(classes0, t);
        }
        HandleChange(matches);
        if !HasStoredPreference(storage0) && !storageWritable {
          assert events == events0 + Repeat(t, i) + [t];
          assert Repeat(t, i) + [t] == Repeat(t, i + 1);
        }
      }
    }
  }

  /** A stored "light" or "dark" decides the theme whatever the system prefers. */
  lemma StoredThemeWins(t: Theme, prefersDark: bool)
    ensures GetTheme(Some(Name(t)), prefersDark) == t
  {
  }

  /** With nothing usable stored, the theme is the system's. */
  lemma SystemFallback(stored: Option<string>, prefersDark: bool)
    requires stored != Some("light") && stored != Some("dark")
    ensures GetTheme(stored, prefersDark) == SystemTheme(prefersDark)
  {
  }

  /** After a successful `setTheme(t)`, `getTheme()` returns `t` whatever the system prefers. */
  lemma PersistThenGet(storage: map<string, string>, t: Theme, prefersDark: bool)
    ensures GetTheme(GetItem(Persist(storage, t, true), ThemeKey), prefersDark) == t
  {
  }

  /** Applying a theme twice to the class list is applying it once. */
  lemma WithThemeIdempotent(classes: set<string>, t: Theme)
    ensures WithTheme(WithTheme(classes, t), t) == WithTheme(classes, t)
  {
  }

  /** Writing a theme twice to storage is writing it once. */
  lemma PersistIdempotent(storage: map<string, string>, t: Theme, writable: bool)
    ensures Persist(Persist(storage, t, writable), t, writable) == Persist(storage, t, writable)
  {
  }

  /** The root carries exactly one theme class after a theme is applied. */
  lemma WithThemeExclusive(classes: set<string>, t: Theme)
    ensures WithTheme(classes, t) * {"light", "dark"} == {Name(t)}
  {
  }

  /**
   * A stored value that is neither theme (here "blue") still counts as a
   * preference for the change handler, which then does nothing, while
   * `getTheme()` follows the system.
   */
  lemma UnknownStoredValueBlocksHandler(storage: map<string, string>)
    requires GetItem(storage, ThemeKey) == Some("blue")
    ensures HasStoredPreference(storage)
    ensures GetTheme(GetItem(storage, ThemeKey), true) == Dark
    ensures GetTheme(GetItem(storage, ThemeKey), false) == Light
  {
  }

  /** An empty stored value is no preference for the change handler. */
  lemma EmptyStoredValueIsNoPreference(storage: map<string, string>)
    requires GetItem(storage, ThemeKey) == Some("")
    ensures !HasStoredPreference(storage)
  {
  }
}
