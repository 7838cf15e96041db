/**
 * The page's mutable state and its event handlers (script.js). The DOM is abstracted into
 * fields: each optional affordance the script looks up by id is an `Option`, present or
 * not, carrying the marker or caption the script writes to it. Measurements taken while a
 * handler runs (rectangles, scroll offset, section offsets) are parameters of that handler.
 */
module Portfolio {
  import opened Wrappers
  import opened Language
  import opened Visibility
  import opened Navigation

  class Page {
    /** The language variable every handler reads. */
    var currentLanguage: string
    /** Browser local storage. */
    var store: map<string, string>
    /** The document element's `lang` attribute. */
    var documentLang: string
    /** The nodes carrying translation attributes, in document order. */
    var elements: seq<Translatable>
    /** The English and Spanish selectors, when present: whether each carries `active`. */
    var langEn: Option<bool>
    var langEs: Option<bool>
    /** The expand/collapse button, when present: its caption. */
    var expandButton: Option<string>
    /** The hidden part of the timeline, when present: whether it carries `expanded`. */
    var timelineExpanded: Option<bool>
    /** The `.fade-in` candidates, in document order. */
    var fades: seq<FadeItem>
    /** The navigation bar, when present: whether it carries `scrolled`. */
    var navbarScrolled: Option<bool>
    /** The mobile navigation menu and the hamburger button, when present: whether each carries `active`. */
    var navMenuOpen: Option<bool>
    var hamburgerOpen: Option<bool>
    /** The `.nav-link` elements, in document order. */
    var navLinks: seq<NavLink>

    /**
     * The UI agrees with the current language and the expansion state: the document
     * language, every translatable element, the selectors and the expand caption.
     */
    ghost predicate Consistent()
      reads this
    {
      && documentLang == currentLanguage
      && AllRendered(elements, currentLanguage)
      && (langEn.Some? && langEs.Some? ==> (langEn.value, langEs.value) == Indicator(currentLanguage))
      && (expandButton.Some? && timelineExpanded.Some? ==>
            expandButton.value == ExpandCaption(timelineExpanded.value, currentLanguage))
    }

    /** The stored preference reads back as the current language on the next load. */
    ghost predicate Persisted()
      reads this
    {
      InitialLanguage(store) == currentLanguage
    }

    /** The page as loaded: the DOM as given, the language read from storage. */
    constructor (store: map<string, string>, documentLang: string, elements: seq<Translatable>,
                 langEn: Option<bool>, langEs: Option<bool>,
                 expandButton: Option<string>, timelineExpanded: Option<bool>,
                 fades: seq<FadeItem>, navbarScrolled: Option<bool>,
                 navMenuOpen: Option<bool>, hamburgerOpen: Option<bool>, navLinks: seq<NavLink>)
      ensures currentLanguage == InitialLanguage(store) && Persisted()
      ensures this.store == store && this.documentLang == documentLang && this.elements == elements
      ensures this.langEn == langEn && this.langEs == langEs
      ensures this.expandButton == expandButton && this.timelineExpanded == timelineExpanded
      ensures this.fades == fades && this.navbarScrolled == navbarScrolled
      ensures this.navMenuOpen == navMenuOpen && this.hamburgerOpen == hamburgerOpen
      ensures this.navLinks == navLinks
    {
      this.currentLanguage := InitialLanguage(store);
      this.store := store;
      this.documentLang := documentLang;
      this.elements := elements;
      this.langEn := langEn;
      this.langEs := langEs;
      this.expandButton := expandButton;
      this.timelineExpanded := timelineExpanded;
      this.fades := fades;
      this.navbarScrolled := navbarScrolled;
      this.navMenuOpen := navMenuOpen;
      this.hamburgerOpen := hamburgerOpen;
      this.navLinks := navLinks;
    }

    /** Renders the current language and sets the selectors, once the document is loaded. */
    method InitLanguage()
      modifies this`elements, this`documentLang, this`expandButton, this`langEn, this`langEs
      ensures elements == RenderAll(old(elements), currentLanguage)
      ensures documentLang == currentLanguage
      ensures expandButton == CaptionUpdate(old(expandButton), timelineExpanded, currentLanguage)
      ensures old(langEn).Some? && old(langEs).Some? ==>
                langEn == Some(currentLanguage == EN) && langEs == Some(currentLanguage != EN)
      ensures old(langEn).None? || old(langEs).None? ==>
                langEn == old(langEn) && langEs == old(langEs)
      ensures Consistent()
    {
      UpdateLanguage(currentLanguage);
      UpdateLanguageIndicator(currentLanguage);
    }

    /**
     * A click on a language selector. Choosing the active language does nothing; any other
     * choice becomes the current language, is persisted, and is rendered everywhere.
     */
    method SwitchLanguage(lang: string)
      modifies this`currentLanguage, this`store, this`elements, this`documentLang,
               this`expandButton, this`langEn, this`langEs
      ensures lang == old(currentLanguage) ==>
                && currentLanguage == old(currentLanguage) && store == old(store)
                && elements == old(elements) && documentLang == old(documentLang)
                && expandButton == old(expandButton)
                && langEn == old(langEn) && langEs == old(langEs)
      ensures lang != old(currentLanguage) ==>
                && currentLanguage == lang
                && store == old(store)[STORAGE_KEY := lang]
                && elements == RenderAll(old(elements), lang)
                && documentLang == lang
                && expandButton == CaptionUpdate(old(expandButton), timelineExpanded, lang)
                && (old(langEn).Some? && old(langEs).Some? ==>
                      langEn == Some(lang == EN) && langEs == Some(lang != EN))
                && (old(langEn).None? || old(langEs).None? ==>
                      langEn == old(langEn) && langEs == old(langEs))
                && Consistent()
      ensures old(Consistent()) ==> Consistent()
      ensures old(Persisted()) && lang != "" ==> Persisted()
    {
      if lang == currentLanguage {
        return;
      }
      currentLanguage := lang;
      store := store[STORAGE_KEY := currentLanguage];
      UpdateLanguage(currentLanguage);
      UpdateLanguageIndicator(currentLanguage);
    }

    /**
     * Marks exactly one selector active, the English one exactly for "en"; a page that lacks
     * either selector is left alone.
     */
    method UpdateLanguageIndicator(lang: string)
      modifies this`langEn, this`langEs
      ensures old(langEn).Some? && old(langEs).Some? ==>
                langEn == Some(lang == EN) && langEs == Some(lang != EN)
      ensures old(langEn).None? || old(langEs).None? ==>
                langEn == old(langEn) && langEs == old(langEs)
      ensures langEn.Some? && langEs.Some? ==> (langEn.value, langEs.value) == Indicator(lang)
    {
      if langEn.Some? && langEs.Some? {
        if lang == EN {
          langEn := Some(true);
          langEs := Some(false);
        } else {
          langEs := Some(true);
          langEn := Some(false);
        }
      }
    }

    /**
     * Writes each translatable element's text for `lang` into its value or its text
     * content, sets the document language, and refreshes the expand caption.
     */
    method UpdateLanguage(lang: string)
      modifies this`elements, this`documentLang, this`expandButton
      ensures elements == RenderAll(old(elements), lang)
      ensures AllRendered(elements, lang)
      ensures documentLang == lang
      ensures expandButton == CaptionUpdate(old(expandButton), timelineExpanded, currentLanguage)
    {
      var i := 0;
      while i < |elements|
        invariant 0 <= i <= |elements| == |old(elements)|
        invariant forall k :: 0 <= k < i ==> elements[k] == Rendered(old(elements)[k], lang)
        invariant forall k :: i <= k < |elements| ==> elements[k] == old(elements)[k]
        invariant expandButton == old(expandButton)
      {
        var e := elements[i];
        if HasBoth(e) {
          var text := if lang == EN then e.dataEn.value else e.dataEs.value;
          if IsInputLike(e.tag) {
            elements := elements[i := e.(value := text)];
          } else {
            elements := elements[i := e.(text := text)];
          }
        }
        i := i + 1;
      }
      documentLang := lang;
      UpdateExpandButtonText();
    }

    /** Shows the caption for the timeline's state in the current language. */
    method UpdateExpandButtonText()
      modifies this`expandButton
      ensures expandButton == CaptionUpdate(old(expandButton), timelineExpanded, currentLanguage)
    {
      if expandButton.Some? && timelineExpanded.Some? {
        var isExpanded := timelineExpanded.value;
        if isExpanded {
          expandButton := Some(if currentLanguage == EN then "Show Less" else "Ver Menos");
        } else {
          expandButton := Some(if currentLanguage == EN then "See More Experience" else "Ver Más Experiencia");
        }
      }
    }

    /**
     * A click on the expand/collapse button (the handler is attached only when both the
     * button and the hidden timeline exist). It flips the expanded flag and refreshes the
     * caption; `rescan` says whether it scheduled the delayed re-scan of the revealed
     * items, which it does exactly when it expanded.
     */
    method ToggleExpand() returns (rescan: bool)
      requires expandButton.Some? && timelineExpanded.Some?
      modifies this`timelineExpanded, this`expandButton
      ensures timelineExpanded == Some(!old(timelineExpanded.value))
      ensures expandButton == Some(ExpandCaption(timelineExpanded.value, currentLanguage))
      ensures rescan == timelineExpanded.value
      ensures old(Consistent()) ==> Consistent()
    {
      var isExpanded := timelineExpanded.value;
      if isExpanded {
        timelineExpanded := Some(false);
        rescan := false;
      } else {
        timelineExpanded := Some(true);
        rescan := true;
      }
      UpdateExpandButtonText();
    }

    /**
     * The scroll check: marks visible every candidate that is partially visible now.
     * `rects[i]` is candidate i's bounding rectangle at the time of the check.
     */
    method CheckAnimations(rects: seq<Rect>, view: Viewport)
      requires |rects| == |fades|
      modifies this`fades
      ensures |fades| == |old(fades)|
      ensures forall i :: 0 <= i < |fades| ==>
                fades[i] == old(fades[i]).(visible := old(fades[i].visible) || IsPartiallyVisible(rects[i], view))
    {
      var i := 0;
      while i < |fades|
        invariant 0 <= i <= |fades| == |old(fades)|
        invariant forall k :: 0 <= k < i ==>
                    fades[k] == old(fades[k]).(visible := old(fades[k].visible) || IsPartiallyVisible(rects[k], view))
        invariant forall k :: i <= k < |fades| ==> fades[k] == old(fades[k])
      {
        if IsPartiallyVisible(rects[i], view) && !fades[i].visible {
          fades := fades[i := fades[i].(visible := true)];
        }
        i := i + 1;
      }
    }

    /**
     * The delayed re-scan after an expansion: marks visible the candidates inside the hidden
     * timeline that are partially visible now, and touches no other candidate.
     */
    method RescanRevealed(rects: seq<Rect>, view: Viewport)
      requires |rects| == |fades|
      modifies this`fades
      ensures |fades| == |old(fades)|
      ensures forall i :: 0 <= i < |fades| ==>
                fades[i] == old(fades[i]).(visible := old(fades[i].visible)
                                                      || (old(fades[i].inHiddenTimeline) && IsPartiallyVisible(rects[i], view)))
    {
      var i := 0;
      while i < |fades|
        invariant 0 <= i <= |fades| == |old(fades)|
        invariant forall k :: 0 <= k < i ==>
                    fades[k] == old(fades[k]).(visible := old(fades[k].visible)
                                                          || (old(fades[k].inHiddenTimeline) && IsPartiallyVisible(rects[k], view)))
        invariant forall k :: i <= k < |fades| ==> fades[k] == old(fades[k])
      {
        if fades[i].inHiddenTimeline && IsPartiallyVisible(rects[i], view) {
          fades := fades[i := fades[i].(visible := true)];
        }
        i := i + 1;
      }
    }

    /** The navigation bar's scroll handler: styled as scrolled exactly past 50 pixels. */
    method UpdateNavbar(scrollY: real)
      modifies this`navbarScrolled
      ensures old(navbarScrolled).Some? ==> navbarScrolled == Some(scrollY > SCROLLED_THRESHOLD)
      ensures old(navbarScrolled).None? ==> navbarScrolled == None
    {
      if navbarScrolled.Some? {
        if scrollY > SCROLLED_THRESHOLD {
          navbarScrolled := Some(true);
        } else {
          navbarScrolled := Some(false);
        }
      }
    }

    /**
     * The scroll handler for link highlighting: finds the current section, then makes
     * exactly the links whose href is "#" followed by its id active. `navbarHeight` is the
     * height of the same navigation bar `navbarScrolled` stands for, so it is present
     * exactly when that bar is.
     */
    method UpdateActiveLink(sections: seq<Section>, scrollY: real, navbarHeight: Option<int>)
      requires navbarHeight.Some? <==> navbarScrolled.Some?
      modifies this`navLinks
      ensures |navLinks| == |old(navLinks)|
      ensures forall i :: 0 <= i < |navLinks| ==>
                navLinks[i] == LinkMarked(old(navLinks[i]), CurrentId(sections, scrollY, NavbarOffset(navbarHeight)))
    {
      var current := CurrentSection(sections, scrollY, navbarHeight);
      var i := 0;
      while i < |navLinks|
        invariant 0 <= i <= |navLinks| == |old(navLinks)|
        invariant forall k :: 0 <= k < i ==> navLinks[k] == LinkMarked(old(navLinks[k]), current)
        invariant forall k :: i <= k < |navLinks| ==> navLinks[k] == old(navLinks[k])
      {
        var link := navLinks[i].(active := false);
        if link.href == Some("#" + current) {
          link := link.(active := true);
        }
        navLinks := navLinks[i := link];
        i := i + 1;
      }
    }

    /** The hamburger click: flips the menu's and the hamburger's markers when both exist. */
    method ToggleMobileMenu()
      modifies this`navMenuOpen, this`hamburgerOpen
      ensures old(navMenuOpen).Some? && old(hamburgerOpen).Some? ==>
                navMenuOpen == Some(!old(navMenuOpen.value)) && hamburgerOpen == Some(!old(hamburgerOpen.value))
      ensures old(navMenuOpen).None? || old(hamburgerOpen).None? ==>
                navMenuOpen == old(navMenuOpen) && hamburgerOpen == old(hamburgerOpen)
    {
      if navMenuOpen.Some? && hamburgerOpen.Some? {
        navMenuOpen := Some(!navMenuOpen.value);
        hamburgerOpen := Some(!hamburgerOpen.value);
      }
    }

    /** Closes the mobile menu: clears both markers when both elements exist. */
    method CloseMobileMenu()
      modifies this`navMenuOpen, this`hamburgerOpen
      ensures old(navMenuOpen).Some? && old(hamburgerOpen).Some? ==>
                navMenuOpen == Some(false) && hamburgerOpen == Some(false)
      ensures old(navMenuOpen).None? || old(hamburgerOpen).None? ==>
                navMenuOpen == old(navMenuOpen) && hamburgerOpen == old(hamburgerOpen)
    {
      if navMenuOpen.Some? && hamburgerOpen.Some? {
        navMenuOpen := Some(false);
        hamburgerOpen := Some(false);
      }
    }
  }
}
