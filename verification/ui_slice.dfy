/** The UI store: sidebar visibility and colour theme, of which only the theme is persisted. */
module UiSlice {

  datatype Theme = Light | Dark | System

  /** What `partialize` hands to the persistence layer. */
  datatype PersistedUi = PersistedUi(theme: Theme)

  class UiStore {
    var sidebarOpen: bool
    var theme: Theme

    /** The initial state: sidebar open, system theme. */
    constructor ()
      ensures sidebarOpen && theme == System
    {
      sidebarOpen := true;
      theme := System;
    }

    /** `toggleSidebar()`; toggling twice therefore restores the state. */
    method ToggleSidebar()
      modifies this
      ensures sidebarOpen == !old(sidebarOpen)
      ensures theme == old(theme)
    {
      sidebarOpen := !sidebarOpen;
    }

    /** `setSidebarOpen(open)`. */
    method SetSidebarOpen(open: bool)
      modifies this
      ensures sidebarOpen == open
      ensures theme == old(theme)
    {
      sidebarOpen := open;
    }

    /** `setTheme(theme)`. */
    method SetTheme(t: Theme)
      modifies this
      ensures theme == t
      ensures sidebarOpen == old(sidebarOpen)
    {
      theme := t;
    }

    /** `partialize`: the persisted projection holds the theme and nothing else. */
    function Partialize(): (p: PersistedUi)
      reads this
      ensures p.theme == theme
    {
      PersistedUi(theme)
    }
  }

  /** The sidebar never reaches storage: two stores with the same theme persist the same thing. */
  lemma PersistedIgnoresSidebar(a: UiStore, b: UiStore)
    requires a.theme == b.theme
    ensures a.Partialize() == b.Partialize()
  {
  }

  /** Toggling twice gives back the original state, whatever it was. */
  method ToggleTwice(store: UiStore)
    modifies store
    ensures store.sidebarOpen == old(store.sidebarOpen) && store.theme == old(store.theme)
  {
    store.ToggleSidebar();
    store.ToggleSidebar();
  }
}
