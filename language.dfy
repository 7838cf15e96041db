/**
 * The bilingual text layer of the page (script.js, "Language Toggle Functionality"):
 * which language is active after a load, what each translatable element shows for a
 * language, the caption of the expand/collapse button and the two language selectors.
 *
 * A language is the raw string the script holds. The script never checks it: the value
 * "en" selects English and every other value selects Spanish.
 */
module Language {
  import opened Wrappers

  const EN := "en"
  const ES := "es"

  /** The local-storage key under which the preference is kept. */
  const STORAGE_KEY := "language"

  /**
   * The language the script starts with: the stored preference, or "en" when the key is
   * absent or holds the empty string (JavaScript's `||` treats both as missing).
   */
  function InitialLanguage(store: map<string, string>): (lang: string)
    ensures lang != ""
    ensures STORAGE_KEY in store && store[STORAGE_KEY] != "" ==> lang == store[STORAGE_KEY]
    ensures STORAGE_KEY !in store || store[STORAGE_KEY] == "" ==> lang == EN
  {
    if STORAGE_KEY in store && store[STORAGE_KEY] != "" then store[STORAGE_KEY] else EN
  }

  /** Persisting a non-empty language and reloading gives back that language. */
  lemma ReloadRestores(store: map<string, string>, lang: string)
    requires lang != ""
    ensures InitialLanguage(store[STORAGE_KEY := lang]) == lang
  {
  }

  /** Persisting the empty string is read back as English on the next load. */
  lemma ReloadOfEmptyIsEnglish(store: map<string, string>)
    ensures InitialLanguage(store[STORAGE_KEY := ""]) == EN
  {
  }

  /**
   * A node found by the `[data-en][data-es]` selector is one carrying both attributes.
   * `tag` is the element's tag name; `value` is the form value of an input or text area,
   * `text` is the text content of any element.
   */
  datatype Translatable = Translatable(
    tag: string,
    dataEn: Option<string>,
    dataEs: Option<string>,
    value: string,
    text: string)

  predicate HasBoth(e: Translatable) {
    e.dataEn.Some? && e.dataEs.Some?
  }

  /** Inputs and text areas show the string as their value, all other elements as text. */
  predicate IsInputLike(tag: string) {
    tag == "INPUT" || tag == "TEXTAREA"
  }

  /** What the element shows: its value if it is input-like, its text content otherwise. */
  function Displayed(e: Translatable): string {
    if IsInputLike(e.tag) then e.value else e.text
  }

  /** The attribute a language selects for an element carrying both. */
  function Chosen(e: Translatable, lang: string): string
    requires HasBoth(e)
  {
    if lang == EN then e.dataEn.value else e.dataEs.value
  }

  /** One element after it has been rendered in `lang`. */
  function Rendered(e: Translatable, lang: string): (r: Translatable)
    ensures r.tag == e.tag && r.dataEn == e.dataEn && r.dataEs == e.dataEs
    ensures HasBoth(e) && lang == EN ==> Displayed(r) == e.dataEn.value
    ensures HasBoth(e) && lang != EN ==> Displayed(r) == e.dataEs.value
    ensures HasBoth(e) && IsInputLike(e.tag) ==> r.text == e.text
    ensures HasBoth(e) && !IsInputLike(e.tag) ==> r.value == e.value
    ensures !HasBoth(e) ==> r == e
  {
    if !HasBoth(e) then e
    else if IsInputLike(e.tag) then e.(value := Chosen(e, lang))
    else e.(text := Chosen(e, lang))
  }

  /** Every element carrying both attributes shows the one `lang` selects. */
  ghost predicate AllRendered(elements: seq<Translatable>, lang: string) {
    forall i :: 0 <= i < |elements| && HasBoth(elements[i]) ==>
      Displayed(elements[i]) == Chosen(elements[i], lang)
  }

  /** The whole document after rendering in `lang`, element by element. */
  function RenderAll(elements: seq<Translatable>, lang: string): (r: seq<Translatable>)
    ensures |r| == |elements|
    ensures AllRendered(r, lang)
    ensures forall i :: 0 <= i < |r| ==>
              r[i].tag == elements[i].tag && r[i].dataEn == elements[i].dataEn && r[i].dataEs == elements[i].dataEs
    ensures forall i :: 0 <= i < |r| && !HasBoth(elements[i]) ==> r[i] == elements[i]
  {
    seq(|elements|, i requires 0 <= i < |elements| => Rendered(elements[i], lang))
  }

  /** Only the last rendering counts: switching back and forth leaves no trace. */
  lemma RenderLastWins(elements: seq<Translatable>, first: string, second: string)
    ensures RenderAll(RenderAll(elements, first), second) == RenderAll(elements, second)
  {
  }

  /** Every language other than "en" renders exactly as Spanish does. */
  lemma NonEnglishIsSpanish(elements: seq<Translatable>, lang: string)
    requires lang != EN
    ensures RenderAll(elements, lang) == RenderAll(elements, ES)
  {
  }

  /**
   * The caption of the expand/collapse button: the state it offers to reach, in the
   * active language.
   */
  function ExpandCaption(expanded: bool, lang: string): (caption: string)
    ensures expanded <==> caption in {"Show Less", "Ver Menos"}
    ensures lang == EN <==> caption in {"Show Less", "See More Experience"}
    ensures caption in {"Show Less", "Ver Menos", "See More Experience", "Ver Más Experiencia"}
  {
    if expanded then
      (if lang == EN then "Show Less" else "Ver Menos")
    else
      (if lang == EN then "See More Experience" else "Ver Más Experiencia")
  }

  /**
   * The caption update: it writes only when both the button (its caption) and the hidden
   * timeline (its expanded flag) are on the page.
   */
  function CaptionUpdate(button: Option<string>, timeline: Option<bool>, lang: string): (r: Option<string>)
    ensures r.Some? <==> button.Some?
    ensures button.Some? && timeline.Some? ==> r == Some(ExpandCaption(timeline.value, lang))
    ensures timeline.None? ==> r == button
  {
    if button.Some? && timeline.Some? then Some(ExpandCaption(timeline.value, lang)) else button
  }

  /**
   * The "active" markers of the English and Spanish selectors for `lang`.
   * Exactly one is set, and it is the English one exactly when `lang` is "en".
   */
  function Indicator(lang: string): (active: (bool, bool))
    ensures active.0 != active.1
    ensures active.0 <==> lang == EN
  {
    if lang == EN then (true, false) else (false, true)
  }
}
