/**
 * The page root: the theme store (initial resolution from the stored
 * preference or the system preference, the toggle that flips, persists
 * and applies it) and the one-way loading gate in front of the content.
 */
module Index {
  import opened Wrappers
  import Sidebar

  datatype Theme = Light | Dark

  /** The storage key the preference is kept under. */
  const ThemeKey: string := "theme"

  /** The stored preference, if the storage holds one. */
  function Saved(storage: map<string, Theme>): (t: Option<Theme>)
    ensures t.Some? <==> ThemeKey in storage
    ensures t.Some? ==> t.value == storage[ThemeKey]
  {
    if ThemeKey in storage then Some(storage[ThemeKey]) else None
  }

  /** The initial theme: the stored preference if there is one, otherwise the system's. */
  function ResolveTheme(saved: Option<Theme>, prefersDark: bool): (t: Theme)
    ensures saved.Some? ==> t == saved.value
    ensures saved.None? ==> (t == Dark <==> prefersDark)
  {
    match saved
    case Some(s) => s
    case None => if prefersDark then Dark else Light
  }

  /** The other theme. */
  function Flip(t: Theme): (u: Theme)
    ensures u != t
  {
    if t == Light then Dark else Light
  }

  /** Flipping twice gives the theme back. */
  lemma FlipTwice(t: Theme)
    ensures Flip(Flip(t)) == t
  {
  }

  /** The ids of the section anchors the content renders, in order (Hero, About, Experience, Skills, Projects, Contact). */
  const RenderedSections: seq<string> := ["home", "about", "experience", "skills", "projects", "contact"]

  /** Every navigation target is rendered and every rendered section is a navigation target, in the same order. */
  lemma RenderedSectionsMatchRegistry()
    ensures RenderedSections == Sidebar.Sections
  {
  }

  /** What the page renders. */
  datatype Screen =
    | LoadingOnly
    | Content(theme: Theme, sections: seq<string>)

  /** The page component's state, with the bits of the browser it touches. */
  class Page {
    var theme: Theme
    var isLoading: bool
    /** The 2500 ms timeout of the mount effect is set and has not fired or been cleared. */
    var timerPending: bool
    /** The browser's local storage, restricted to well-formed theme entries. */
    var storage: map<string, Theme>
    /** Whether the document element carries the `dark` class. */
    var darkClass: bool

    /** First render: dark by default and loading, before the mount effect runs. */
    constructor (storage: map<string, Theme>, darkClass: bool)
      ensures theme == Dark && isLoading && !timerPending
      ensures this.storage == storage && this.darkClass == darkClass
    {
      theme := Dark;
      isLoading := true;
      timerPending := false;
      this.storage := storage;
      this.darkClass := darkClass;
    }

    /** The mount effect: resolve and apply the initial theme, start the loading timer. */
    method Mount(prefersDark: bool)
      modifies this
      ensures theme == ResolveTheme(Saved(storage), prefersDark)
      ensures darkClass == (theme == Dark)
      ensures timerPending
      ensures isLoading == old(isLoading) && storage == old(storage)
    {
      var initialTheme := ResolveTheme(Saved(storage), prefersDark);
      theme := initialTheme;
      darkClass := initialTheme == Dark;
      timerPending := true;
    }

    /** The loading timeout fires: the content takes over, for good. */
    method FireTimer()
      requires timerPending
      modifies this
      ensures !isLoading && !timerPending
      ensures theme == old(theme) && storage == old(storage) && darkClass == old(darkClass)
    {
      isLoading := false;
      timerPending := false;
    }

    /** The effect's cleanup: the pending timeout is cleared. */
    method Unmount()
      modifies this
      ensures !timerPending
      ensures isLoading == old(isLoading) && theme == old(theme)
      ensures storage == old(storage) && darkClass == old(darkClass)
    {
      timerPending := false;
    }

    /** `toggleTheme`: flip the theme, persist it, apply it to the document. */
    method ToggleTheme()
      modifies this
      ensures theme == Flip(old(theme))
      ensures storage == old(storage)[ThemeKey := theme]
      ensures darkClass == (theme == Dark)
      ensures isLoading == old(isLoading) && timerPending == old(timerPending)
    {
      var newTheme := if theme == Light then Dark else Light;
      theme := newTheme;
      storage := storage[ThemeKey := newTheme];
      darkClass := newTheme == Dark;
    }

    /** The rendered screen: nothing but the loading screen while loading, then the themed content. */
    function Render(): (s: Screen)
      reads this
      ensures isLoading <==> s == LoadingOnly
      ensures !isLoading ==> s.theme == theme && s.sections == Sidebar.Sections
    {
      if isLoading then LoadingOnly else Content(theme, RenderedSections)
    }
  }

  /** Two toggles restore the theme; storage and the document class then agree with it. */
  method ToggleTwice(p: Page)
    modifies p
    ensures p.theme == old(p.theme)
    ensures ThemeKey in p.storage && p.storage[ThemeKey] == p.theme
    ensures p.darkClass == (p.theme == Dark)
  {
    p.ToggleTheme();
    p.ToggleTheme();
    FlipTwice(old(p.theme));
  }
}
