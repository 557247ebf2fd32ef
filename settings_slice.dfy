/** The settings slice: display language and theme preference. */
module Settings {
  import opened Common

  /** The two languages the app offers; no other value can be stored. */
  datatype Language = Ja | En

  datatype SettingsState = SettingsState(language: Language, isDarkMode: bool, useSystemTheme: bool)

  /** The actions the slice exports, one per reducer. */
  datatype SettingsAction =
    | SetLanguage(language: Language)
    | SetDarkMode(enabled: bool)
    | SetUseSystemTheme(enabled: bool)

  /** Japanese, light mode, following the system theme. */
  const InitialState := SettingsState(Ja, false, true)

  /** The slice's reducer. */
  function Reduce(s: SettingsState, a: SettingsAction): (r: SettingsState)
    // Language changes only through SetLanguage, and the theme flags never through it.
    ensures r.language == (if a.SetLanguage? then a.language else s.language)
    ensures a.SetLanguage? ==> r.isDarkMode == s.isDarkMode && r.useSystemTheme == s.useSystemTheme
    // Choosing dark mode explicitly, on or off, always stops following the system theme.
    ensures a.SetDarkMode? ==> r.isDarkMode == a.enabled && !r.useSystemTheme
    // Following the system theme is set alone; the stored dark-mode flag is kept.
    ensures a.SetUseSystemTheme? ==> r.useSystemTheme == a.enabled && r.isDarkMode == s.isDarkMode
  {
    match a
    case SetLanguage(l) => s.(language := l)
    case SetDarkMode(b) => s.(isDarkMode := b, useSystemTheme := false)
    case SetUseSystemTheme(b) => s.(useSystemTheme := b)
  }

  /** Setting dark mode twice to the same value is setting it once. */
  lemma SetDarkModeIdempotent(s: SettingsState, b: bool)
    ensures Reduce(Reduce(s, SetDarkMode(b)), SetDarkMode(b)) == Reduce(s, SetDarkMode(b))
  {
  }

  /** The language is independent of the theme: SetLanguage commutes with every theme action. */
  lemma SetLanguageCommutes(s: SettingsState, l: Language, a: SettingsAction)
    requires !a.SetLanguage?
    ensures Reduce(Reduce(s, SetLanguage(l)), a) == Reduce(Reduce(s, a), SetLanguage(l))
  {
  }

  /** The language last chosen in a trace, or `current` when the trace chooses none. */
  function LastLanguage(current: Language, trace: seq<SettingsAction>): Language
    decreases |trace|
  {
    if |trace| == 0 then current
    else LastLanguage(if trace[0].SetLanguage? then trace[0].language else current, trace[1..])
  }

  /** After any trace, the language is the one last chosen; theme actions never move it. */
  lemma {:induction false} LanguageIsLastChosen(s: SettingsState, trace: seq<SettingsAction>)
    ensures Run(Reduce, s, trace).language == LastLanguage(s.language, trace)
    decreases |trace|
  {
    if |trace| > 0 {
      LanguageIsLastChosen(Reduce(s, trace[0]), trace[1..]);
    }
  }

  /** Whatever came before, a final SetDarkMode(b) leaves dark mode at b and the system theme off. */
  lemma DarkModeLastWins(s: SettingsState, trace: seq<SettingsAction>, b: bool)
    ensures Run(Reduce, s, trace + [SetDarkMode(b)]).isDarkMode == b
    ensures !Run(Reduce, s, trace + [SetDarkMode(b)]).useSystemTheme
  {
    RunSnoc(Reduce, s, trace, SetDarkMode(b));
  }

  /** The settings slice as the store holds it. */
  class SettingsSlice {
    var language: Language
    var isDarkMode: bool
    var useSystemTheme: bool

    function State(): SettingsState
      reads this
    {
      SettingsState(language, isDarkMode, useSystemTheme)
    }

    constructor ()
      ensures State() == InitialState
    {
      language, isDarkMode, useSystemTheme := Ja, false, true;
    }

    method SetLanguage(l: Language)
      modifies this
      ensures State() == Reduce(old(State()), SettingsAction.SetLanguage(l))
    {
      language := l;
    }

    /** Writes two fields: the dark-mode flag, then clears the system-theme flag. */
    method SetDarkMode(enabled: bool)
      modifies this
      ensures State() == Reduce(old(State()), SettingsAction.SetDarkMode(enabled))
    {
      isDarkMode := enabled;
      useSystemTheme := false;
    }

    method SetUseSystemTheme(enabled: bool)
      modifies this
      ensures State() == Reduce(old(State()), SettingsAction.SetUseSystemTheme(enabled))
    {
      useSystemTheme := enabled;
    }
  }
}
