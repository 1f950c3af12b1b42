/**
 * The page shell (`src/components/Layout.tsx`): the language toggle, the
 * mount-time default language, the active-link test and the mobile
 * sidebar, which closes whenever the path changes.
 */
module Layout {
  import opened Wrappers
  import opened Strings
  import opened I18n

  /** The language `toggleLanguage` switches to: Nepali from English, English from anything else. */
  function ToggledLanguage(lang: string): (r: string)
    ensures r in Supported
    ensures r == "ne" <==> lang == "en"
  {
    if lang == "en" then "ne" else "en"
  }

  /** Toggling twice from a supported language returns to it. */
  lemma ToggleTwiceRestores(lang: string)
    requires lang in Supported
    ensures ToggledLanguage(ToggledLanguage(lang)) == lang
  {
  }

  /** From an unsupported language, one toggle lands on English and a second on Nepali. */
  lemma ToggleFromUnsupported(lang: string)
    requires lang !in Supported
    ensures ToggledLanguage(lang) == "en" && ToggledLanguage(ToggledLanguage(lang)) == "ne"
  {
  }

  class LayoutShell {
    /** `i18n.language`. */
    var language: string
    /** `localStorage['app_language']`. */
    var storedLanguage: Option<string>
    /** The `lang` attribute of the document element. */
    var htmlLang: string
    var isProfileOpen: bool
    var isSidebarOpen: bool
    /** `location.pathname`. */
    var pathname: string

    /** The language is always a supported one and the document says which. */
    predicate Valid()
      reads this
    {
      language in Supported && htmlLang == language
    }

    /** The shell as first rendered, after i18n has initialised from `getUserLanguage`. */
    constructor (stored: Option<string>, browserLanguage: Option<string>, path: string)
      ensures Valid()
      ensures language == GetUserLanguage(stored, browserLanguage) && storedLanguage == stored
      ensures !isProfileOpen && !isSidebarOpen && pathname == path
    {
      language := GetUserLanguage(stored, browserLanguage);
      storedLanguage := stored;
      htmlLang := language;
      isProfileOpen := false;
      isSidebarOpen := false;
      pathname := path;
    }

    /** The mount effect: with nothing saved, English is applied and saved; a saved value is left alone. */
    method ApplyDefaultLanguage()
      requires Valid()
      modifies this
      ensures Valid()
      ensures !Truthy(old(storedLanguage)) ==> language == "en" && storedLanguage == Some("en")
      ensures Truthy(old(storedLanguage)) ==> language == old(language) && storedLanguage == old(storedLanguage)
      ensures isProfileOpen == old(isProfileOpen) && isSidebarOpen == old(isSidebarOpen) && pathname == old(pathname)
    {
      if !Truthy(storedLanguage) {
        language := "en";
        storedLanguage := Some("en");
        htmlLang := language;
      }
    }

    /** `toggleLanguage`: switch, save the new language, close the profile menu. */
    method ToggleLanguage()
      requires Valid()
      modifies this
      ensures Valid()
      ensures language == ToggledLanguage(old(language)) && language != old(language)
      ensures storedLanguage == Some(language)
      ensures !isProfileOpen
      ensures isSidebarOpen == old(isSidebarOpen) && pathname == old(pathname)
    {
      var newLang := ToggledLanguage(language);
      language := newLang;
      storedLanguage := Some(newLang);
      isProfileOpen := false;
      htmlLang := language;
    }

    /** `isActivePath`: exact equality with the current path. */
    predicate IsActivePath(path: string)
      reads this
    {
      pathname == path
    }

    /** A route change; the sidebar effect runs only when the path actually changes. */
    method Navigate(path: string)
      requires Valid()
      modifies this
      ensures Valid()
      ensures pathname == path && IsActivePath(path)
      ensures forall other :: other != path ==> !IsActivePath(other)
      ensures path != old(pathname) ==> !isSidebarOpen
      ensures path == old(pathname) ==> isSidebarOpen == old(isSidebarOpen)
      ensures language == old(language) && storedLanguage == old(storedLanguage) && isProfileOpen == old(isProfileOpen)
    {
      if path != pathname {
        pathname := path;
        isSidebarOpen := false;
      }
    }

    /** The menu and close buttons of the sidebar. */
    method SetSidebarOpen(open: bool)
      requires Valid()
      modifies this
      ensures Valid() && isSidebarOpen == open
      ensures language == old(language) && storedLanguage == old(storedLanguage)
      ensures isProfileOpen == old(isProfileOpen) && pathname == old(pathname)
    {
      isSidebarOpen := open;
    }
  }

  /**
   * Mounting the shell: with nothing saved the page ends in English and
   * saves it, even for a browser set to Nepali; with a supported saved
   * language it keeps that language.
   */
  method MountLayout(stored: Option<string>, browserLanguage: Option<string>, path: string) returns (l: LayoutShell)
    ensures fresh(l) && l.Valid()
    ensures !Truthy(stored) ==> l.language == "en" && l.storedLanguage == Some("en")
    ensures Truthy(stored) && stored.value in Supported ==> l.language == stored.value && l.storedLanguage == stored
  {
    l := new LayoutShell(stored, browserLanguage, path);
    l.ApplyDefaultLanguage();
  }
}
