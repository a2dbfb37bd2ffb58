/**
 * The colour theme (`ThemeContext`): the starting theme chosen from
 * storage and the system preference, setting and toggling it (each
 * persisted when storage accepts writes), and following system changes
 * only while nothing is stored.
 */
module Theme {
  import opened Wrappers

  datatype Theme = Light | Dark

  /** The text stored and set on the document for a theme. */
  function ThemeName(t: Theme): (s: string)
    ensures s == "light" || s == "dark"
  {
    match t
    case Light => "light"
    case Dark => "dark"
  }

  /** The theme a stored text names, if it names one. */
  function ParseTheme(s: string): (r: Option<Theme>)
    ensures r.Some? <==> s == "light" || s == "dark"
  {
    if s == "light" then Some(Light) else if s == "dark" then Some(Dark) else None
  }

  lemma ThemeNameRoundTrip(t: Theme)
    ensures ParseTheme(ThemeName(t)) == Some(t)
  {
  }

  /**
   * `getInitialTheme`: a stored "light" or "dark" wins; otherwise light
   * when the system prefers it, else dark. `stored` is `None` when
   * nothing is stored or reading storage throws.
   */
  function InitialTheme(stored: Option<string>, prefersLight: bool): (t: Theme)
    ensures stored.Some? && ParseTheme(stored.value).Some? ==> t == ParseTheme(stored.value).value
    ensures (stored.None? || ParseTheme(stored.value).None?) ==> (t == Light <==> prefersLight)
  {
    if stored.Some? && ParseTheme(stored.value).Some? then ParseTheme(stored.value).value
    else if prefersLight then Light
    else Dark
  }

  /** `theme === 'dark' ? 'light' : 'dark'`. */
  function Toggled(t: Theme): (u: Theme)
    ensures u != t
  {
    if t == Dark then Light else Dark
  }

  lemma ToggleTwice(t: Theme)
    ensures Toggled(Toggled(t)) == t
  {
  }

  /** A stored theme is read back as itself whatever the system prefers. */
  lemma StoredThemeWins(t: Theme, prefersLight: bool)
    ensures InitialTheme(Some(ThemeName(t)), prefersLight) == t
  {
    ThemeNameRoundTrip(t);
  }

  /** The provider's state: the theme cell, the document attribute and the storage key. */
  class ThemeState {
    var theme: Theme
    var documentTheme: Option<Theme>
    var storage: Option<string>
    /** Whether writes to storage succeed; a failing write is ignored. */
    const writable: bool

    constructor (stored: Option<string>, prefersLight: bool, writable: bool)
      ensures theme == InitialTheme(stored, prefersLight)
      ensures documentTheme == None && storage == stored && this.writable == writable
    {
      theme := InitialTheme(stored, prefersLight);
      documentTheme := None;
      storage := stored;
      this.writable := writable;
    }

    /** `applyTheme`: the document attribute, and the storage key when writes succeed. */
    method Apply(t: Theme)
      modifies this`documentTheme, this`storage
      ensures documentTheme == Some(t)
      ensures storage == (if writable then Some(ThemeName(t)) else old(storage))
    {
      documentTheme := Some(t);
      if writable {
        storage := Some(ThemeName(t));
      }
    }

    /** The mount effect applies, and so persists, the initial theme. */
    method Mount()
      modifies this`documentTheme, this`storage
      ensures documentTheme == Some(theme)
      ensures writable ==> storage == Some(ThemeName(theme))
      ensures !writable ==> storage == old(storage)
    {
      Apply(theme);
    }

    method SetTheme(t: Theme)
      modifies this
      ensures theme == t && documentTheme == Some(t)
      ensures storage == (if writable then Some(ThemeName(t)) else old(storage))
    {
      theme := t;
      Apply(t);
    }

    /** `toggleTheme`: the other theme, persisted; toggling twice restores the first. */
    method ToggleTheme()
      modifies this
      ensures theme == Toggled(old(theme)) && documentTheme == Some(theme)
      ensures storage == (if writable then Some(ThemeName(theme)) else old(storage))
      ensures writable ==> InitialTheme(storage, false) == theme && InitialTheme(storage, true) == theme
    {
      SetTheme(Toggled(theme));
      if writable {
        StoredThemeWins(theme, false);
        StoredThemeWins(theme, true);
      }
    }

    /** A system colour-scheme change is followed only when nothing (or the empty text) is stored. */
    method SystemChange(prefersDark: bool)
      modifies this
      ensures old(storage).None? || old(storage).value == "" ==>
        && theme == (if prefersDark then Dark else Light)
        && documentTheme == Some(theme)
        && storage == (if writable then Some(ThemeName(theme)) else old(storage))
      ensures old(storage).Some? && old(storage).value != "" ==>
        theme == old(theme) && storage == old(storage) && documentTheme == old(documentTheme)
    {
      if storage.None? || storage.value == "" {
        SetTheme(if prefersDark then Dark else Light);
      }
    }
  }

  /**
   * Once mounted with working storage the theme is stored, so system
   * changes are ignored from then on.
   */
  method MountThenSystemChange(s: ThemeState, prefersDark: bool)
    requires s.writable
    modifies s
    ensures s.theme == old(s.theme)
    ensures s.storage == Some(ThemeName(s.theme))
  {
    s.Mount();
    s.SystemChange(prefersDark);
  }
}
