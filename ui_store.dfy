/** The interface preferences store (`useUIStore`): theme, language, text
    direction and the sidebar's collapsed flag. The direction always
    follows the language: right-to-left for Arabic, left-to-right for
    English. */
module UiStore {

  datatype Theme = Light | Dark | System
  datatype Language = Ar | En
  datatype Direction = Rtl | Ltr

  /** `language === 'ar' ? 'rtl' : 'ltr'` */
  function DirectionOf(language: Language): (d: Direction)
    ensures d == Rtl <==> language == Ar
  {
    if language == Ar then Rtl else Ltr
  }

  class UiStore {
    var theme: Theme
    var language: Language
    var direction: Direction
    var isSidebarCollapsed: bool

    /** The direction agrees with the language. */
    predicate Valid()
      reads this
    {
      direction == DirectionOf(language)
    }

    constructor ()
      ensures Valid()
      ensures theme == System && language == Ar && direction == Rtl && !isSidebarCollapsed
    {
      theme := System;
      language := Ar;
      direction := Rtl;
      isSidebarCollapsed := false;
    }

    method SetTheme(t: Theme)
      modifies this`theme
      ensures theme == t
    {
      theme := t;
    }

    method SetLanguage(l: Language)
      modifies this`language, this`direction
      ensures Valid()
      ensures language == l && (direction == Rtl <==> l == Ar)
    {
      language := l;
      direction := DirectionOf(l);
    }

    method ToggleSidebar()
      modifies this`isSidebarCollapsed
      ensures isSidebarCollapsed == !old(isSidebarCollapsed)
    {
      isSidebarCollapsed := !isSidebarCollapsed;
    }

    method SetSidebarCollapsed(collapsed: bool)
      modifies this`isSidebarCollapsed
      ensures isSidebarCollapsed == collapsed
    {
      isSidebarCollapsed := collapsed;
    }
  }

  /** Toggling twice restores the flag and touches nothing else. */
  method ToggleTwice(store: UiStore)
    requires store.Valid()
    modifies store
    ensures store.Valid()
    ensures store.isSidebarCollapsed == old(store.isSidebarCollapsed)
    ensures store.theme == old(store.theme) && store.language == old(store.language)
  {
    store.ToggleSidebar();
    store.ToggleSidebar();
  }

  /** Setting the collapsed flag twice to the same value is setting it once. */
  method SetCollapsedTwice(store: UiStore, collapsed: bool)
    requires store.Valid()
    modifies store
    ensures store.Valid() && store.isSidebarCollapsed == collapsed
    ensures store.theme == old(store.theme) && store.language == old(store.language)
  {
    store.SetSidebarCollapsed(collapsed);
    store.SetSidebarCollapsed(collapsed);
  }
}
