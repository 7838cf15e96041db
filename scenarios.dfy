/**
 * Client code that drives the handlers in sequences a visitor can produce and checks, from
 * the handlers' contracts alone, what the page shows afterwards.
 */
module Scenarios {
  import opened Wrappers
  import opened Language
  import opened Visibility
  import opened Navigation
  import opened Portfolio

  /** A page whose only affordances are the language selectors and the expand control. */
  method FreshPage(store: map<string, string>) returns (p: Page)
    ensures fresh(p)
    ensures p.currentLanguage == InitialLanguage(store) && p.store == store
    ensures p.langEn.Some? && p.langEs.Some?
    ensures p.expandButton.Some? && p.timelineExpanded == Some(false)
  {
    p := new Page(store, "en", [Translatable("H2", Some("Experience"), Some("Experiencia"), "", "")],
                  Some(true), Some(false), Some(""), Some(false), [], None, None, None, []);
  }

  /** English, collapsed; expand; switch to Spanish while expanded; click again. */
  method ExpansionScenario() {
    var p := FreshPage(map[]);
    p.InitLanguage();
    assert p.expandButton == Some("See More Experience");

    var rescan := p.ToggleExpand();
    assert rescan && p.timelineExpanded == Some(true);
    assert p.expandButton == Some("Show Less");

    p.SwitchLanguage(ES);
    assert p.timelineExpanded == Some(true);
    assert p.expandButton == Some("Ver Menos");
    assert p.langEn == Some(false) && p.langEs == Some(true);

    rescan := p.ToggleExpand();
    assert !rescan && p.timelineExpanded == Some(false);
    assert p.expandButton == Some("Ver Más Experiencia");
  }

  /** Choosing Spanish twice does the work once; reloading with the same storage restores it. */
  method PersistenceScenario() {
    var p := FreshPage(map[]);
    assert p.currentLanguage == EN;
    p.InitLanguage();
    p.SwitchLanguage(ES);
    var stored := p.store;
    var shown := p.elements;
    p.SwitchLanguage(ES);
    assert p.store == stored && p.elements == shown;

    var reloaded := FreshPage(p.store);
    assert reloaded.currentLanguage == ES;
  }

  /**
   * Five candidates, none on screen at load; after scrolling, two are partially visible.
   * Exactly those two are marked and the other three stay unmarked.
   */
  method FadeScenario() {
    var item := FadeItem(false, false);
    var p := new Page(map[], "en", [], None, None, None, None, [item, item, item, item, item],
                      None, None, None, []);
    var view := Viewport(1000, 800, 0, 0);
    var below := Rect(1200.0, 0.0, 1500.0, 800.0);
    p.CheckAnimations([below, below, below, below, below], view);
    assert forall i :: 0 <= i < 5 ==> !p.fades[i].visible;

    var onScreen := Rect(500.0, 0.0, 900.0, 800.0);
    p.CheckAnimations([onScreen, onScreen, below, below, below], view);
    assert p.fades[0].visible && p.fades[1].visible;
    assert !p.fades[2].visible && !p.fades[3].visible && !p.fades[4].visible;
  }
}
