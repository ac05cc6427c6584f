/**
 * The persisted colour-theme store. The operating system's dark-mode
 * preference is an input; the document class list it also updates is not
 * modelled.
 */
module Theming {

  datatype Theme = Light | Dark | System

  /** What `toggleTheme` switches to: dark becomes light, anything else becomes dark. */
  function Toggled(t: Theme): (r: Theme)
    ensures r != System
    ensures r == Light <==> t == Dark
  {
    if t == Dark then Light else Dark
  }

  /** The `isDark` flag `updateDocumentTheme` derives: the system preference for `System`, else whether the theme is dark. */
  function IsDarkFor(t: Theme, systemPrefersDark: bool): (d: bool)
    ensures t != System ==> (d <==> t == Dark)
    ensures t == System ==> (d <==> systemPrefersDark)
  {
    match t
    case Light => false
    case Dark => true
    case System => systemPrefersDark
  }

  /** Toggling twice restores light or dark; from system the first toggle gives dark and the second light. */
  lemma ToggleTwice(t: Theme)
    ensures t != System ==> Toggled(Toggled(t)) == t
    ensures t == System ==> Toggled(t) == Dark && Toggled(Toggled(t)) == Light
  {
  }

  class ThemeStore {
    var theme: Theme
    var isDark: bool

    constructor ()
      ensures theme == System && !isDark
    {
      theme, isDark := System, false;
    }

    /** `setTheme`: store the theme, then derive `isDark` from it. */
    method SetTheme(t: Theme, systemPrefersDark: bool)
      modifies this
      ensures theme == t
      ensures isDark == IsDarkFor(t, systemPrefersDark)
    {
      theme := t;
      UpdateDocumentTheme(t, systemPrefersDark);
    }

    /** `updateDocumentTheme`: only `isDark` changes. */
    method UpdateDocumentTheme(t: Theme, systemPrefersDark: bool)
      modifies this`isDark
      ensures isDark == IsDarkFor(t, systemPrefersDark)
    {
      if t == System {
        isDark := systemPrefersDark;
      } else {
        isDark := t == Dark;
      }
    }

    /** `toggleTheme`: never lands on `System`, and the result is explicit, so the preference does not matter. */
    method ToggleTheme(systemPrefersDark: bool)
      modifies this
      ensures theme == Toggled(old(theme))
      ensures isDark <==> theme == Dark
    {
      var next := Toggled(theme);
      SetTheme(next, systemPrefersDark);
    }

    /** The system-preference listener: re-derives `isDark` only while the stored theme is `System`. */
    method OnSystemChange(systemPrefersDark: bool)
      modifies this
      ensures theme == old(theme)
      ensures old(theme) == System ==> isDark == systemPrefersDark
      ensures old(theme) != System ==> isDark == old(isDark)
    {
      if theme == System {
        UpdateDocumentTheme(System, systemPrefersDark);
      }
    }

    /** On load: apply the persisted theme, or `System` when nothing is stored. */
    method ApplyStartupTheme(stored: bool, storedTheme: Theme, systemPrefersDark: bool)
      modifies this
      ensures theme == old(theme)
      ensures stored ==> isDark == IsDarkFor(storedTheme, systemPrefersDark)
      ensures !stored ==> isDark == systemPrefersDark
    {
      if stored {
        UpdateDocumentTheme(storedTheme, systemPrefersDark);
      } else {
        UpdateDocumentTheme(System, systemPrefersDark);
      }
    }
  }
}
