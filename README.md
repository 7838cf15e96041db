# Portfolio page behaviour, modelled in Dafny

This project models the client-side script of a static, bilingual portfolio page
(`script.js`). The script's state-changing logic is kept. The DOM is reduced to plain
records and fields, and the four behaviours are proved about that state:

- **Language controller.** The script holds the current language and reads it from
  local storage at load (`getItem('language') || 'en'`). It persists each switch. A render
  writes each translatable element's English or Spanish attribute into the element's value
  (inputs and text areas) or its text content, and sets the document language. After a
  render, loading and switching also mark one of the two language selectors active.
  Choosing the active language is a no-op.
- **Expand/collapse control.** A boolean flag on the hidden part of the timeline. The
  button's caption is a fixed table over (expanded, language).
- **Fade-in marking.** A check marks as `visible` every candidate whose rectangle is
  partially visible. That means its top is above 80% of the viewport height and its bottom
  is below the viewport's top. The re-scan after an expansion does the same for the
  revealed items only. Neither ever removes the marker.
- **Navigation.** The active-link scan keeps the last section, in document order, whose
  offset minus the navigation bar's height minus 100 is at most the scroll offset. It then
  marks exactly the links whose href is `#` followed by that section's id. The navigation
  bar is styled as scrolled past 50 pixels. The mobile menu opens, closes and toggles.

Modules: `Wrappers` (Option), `Language` (pure language, render, caption and indicator
definitions), `Visibility` (rectangles and the two visibility predicates), `Navigation`
(the section scan), `Portfolio` (class `Page`, one method per handler) and `Scenarios`
(client code that drives the handlers through a visitor's sequence of clicks and scrolls).

Modelling choices:
- The language is the raw string the script holds. `"en"` selects English and every other
  value selects Spanish, as in the script.
- Local storage is a `map<string, string>`.
- Each DOM affordance the script looks up by id is an `Option` field: absent, or present
  with the marker or caption the script writes to it.
- Measurements are parameters of the handler that takes them:
  - rectangles and the scroll offset are exact `real`s;
  - offsets, heights and window sizes are `int`s.

Facts about the code that the model makes explicit:
- Partial visibility and full containment are incomparable: neither implies the other
  (`Visibility.ContainedYetNotPartiallyVisible`, `Visibility.PartiallyVisibleYetNotContained`).
  An element lying wholly in the lowest fifth of the viewport is contained but not
  partially visible.
- An element with only one of `data-en`/`data-es` is not matched by `[data-en][data-es]`
  (script.js:54) and stays untouched.
- Any stored string is accepted as the language, and a stored empty string reads back as
  `en` (script.js:6, `Language.ReloadOfEmptyIsEnglish`).
- With no section reached, the current id is `""`. A navigation link whose href is a bare
  `#` then becomes the active one (`Navigation.NoSectionMarksBareHash`).

## Model

| member | source | states |
|---|---|---|
| `Language.InitialLanguage` | script.js:6 | the start language is the stored preference when present and non-empty, otherwise "en"; it is never empty |
| `Language.ReloadRestores` | script.js:26 | persisting a non-empty language and reading it back at load (line 6) gives that language |
| `Language.ReloadOfEmptyIsEnglish` | script.js:6 | a stored empty string is read back as "en" |
| `Language.Rendered` | script.js:56-65 | an element with both attributes shows data-en for "en" and data-es for any other language, in its value if input-like and in its text otherwise, leaving the other slot alone; an element lacking either attribute is unchanged |
| `Language.RenderAll` | script.js:54-65 | after a render every element carrying both attributes shows the attribute the language selects; elements lacking one are unchanged; tags and attributes are kept |
| `Language.RenderLastWins` | script.js:54-65 | rendering in one language and then another is the same as rendering in the second only |
| `Language.NonEnglishIsSpanish` | script.js:57 | every language other than "en" renders exactly as "es" does |
| `Language.ExpandCaption` | script.js:289-293 | the caption is one of the four strings; it is a "less" caption exactly when expanded and an English one exactly when the language is "en" |
| `Language.CaptionUpdate` | script.js:281-295 | the caption is rewritten from (expanded, language) only when both the button and the hidden timeline exist; otherwise it is unchanged |
| `Language.Indicator` | script.js:38-46 | exactly one selector is active, and it is the English one exactly when the language is "en" |
| `Visibility.ContainedYetNotPartiallyVisible` | script.js:154-174 | for every non-empty viewport some rectangle is fully inside it yet not partially visible |
| `Visibility.PartiallyVisibleYetNotContained` | script.js:154-174 | for every non-empty viewport some rectangle is partially visible yet not fully inside it |
| `Visibility.ContainedInUpperBandIsPartiallyVisible` | script.js:154-174 | a non-empty element inside the viewport whose bottom is within the upper 80% is partially visible |
| `Visibility.Height` | script.js:169 | the height used is the window's, or the document's client height when the window's reads 0; it is 0 only when both are |
| `Visibility.Width` | script.js:160 | the width used is the window's, or the document's client width when the window's reads 0; it is 0 only when both are |
| `Visibility.IsInViewport` | script.js:154-162 | contained exactly when top and left are at least 0, bottom is at most the height and right at most the width; a rectangle with ordered edges fits only in a viewport of non-negative size |
| `Visibility.IsPartiallyVisible` | script.js:167-174 | partially visible exactly when five times the top is below four times the height and the bottom is below the top edge; such an element overlaps the viewport's vertical span |
| `Navigation.NavbarOffset` | script.js:255 | the navigation bar's height, or 0 when there is no navigation bar |
| `Navigation.Reached` | script.js:257 | a section is reached exactly when its top is at most the navigation bar's height plus 100 pixels below the scroll offset |
| `Navigation.CurrentId` | script.js:250-260 | the current id is "" when no section is reached, and otherwise the id of the reached section after which none is reached |
| `Navigation.LastReached` | script.js:252-260 | the result is -1 or the index of a reached section, and no later section is reached |
| `Navigation.CurrentSection` | script.js:250-260 | the loop's `current` is the id of the last reached section, or "" when none is reached |
| `Navigation.ScrollMonotone` | script.js:257 | scrolling further down never moves the current section to an earlier one |
| `Navigation.LinkMarked` | script.js:262-267 | a link is active exactly when its href is "#" followed by the current id; its href is kept |
| `Navigation.NoSectionMarksBareHash` | script.js:250-267 | when no section is reached, a link whose href is "#" is marked active |
| `Portfolio.Page.constructor` | script.js:6 | the page starts with the language read from storage, so storage and the current language agree |
| `Portfolio.Page.InitLanguage` | script.js:11-17 | after initialisation the document, every translatable element, the selectors and the caption agree with the current language |
| `Portfolio.Page.SwitchLanguage` | script.js:22-29 | choosing the active language changes nothing. Any other choice: becomes current; is stored under "language"; re-renders every element; sets the document language and the selectors; refreshes the caption. Consistency is kept, and storage still reads back as the current language |
| `Portfolio.Page.UpdateLanguageIndicator` | script.js:34-47 | with both selectors present, the English one is active exactly for "en" and the Spanish one otherwise; with either missing nothing changes |
| `Portfolio.Page.UpdateLanguage` | script.js:52-72 | the elements become the render of the old ones in the language; the document language becomes it; the caption is refreshed for the current language |
| `Portfolio.Page.UpdateExpandButtonText` | script.js:281-295 | the caption becomes the table entry for the timeline state and the current language when both exist, and is unchanged otherwise |
| `Portfolio.Page.ToggleExpand` | script.js:308-329 | the expanded flag is negated, so two clicks restore it; the caption matches the new state. A re-scan is scheduled exactly when it expands. Consistency is kept |
| `Portfolio.Page.CheckAnimations` | script.js:183-189 | each candidate's marker becomes its old marker or partial visibility. No marker is removed, every partially visible candidate is marked, and an unmarked one that is not visible stays unmarked |
| `Portfolio.Page.RescanRevealed` | script.js:317-324 | only candidates in the hidden timeline that are partially visible gain the marker; no marker is removed and no other candidate changes |
| `Portfolio.Page.UpdateNavbar` | script.js:228-234 | a present navigation bar is styled as scrolled exactly when the scroll offset exceeds 50 |
| `Portfolio.Page.UpdateActiveLink` | script.js:249-268 | afterwards each link is active exactly when its href is "#" followed by the id of the last reached section; the navigation bar's height is given exactly when the page has the navigation bar |
| `Portfolio.Page.ToggleMobileMenu` | script.js:124-132 | with both the menu and the hamburger present each marker is flipped; otherwise nothing changes |
| `Portfolio.Page.CloseMobileMenu` | script.js:137-145 | with both present both markers are cleared; otherwise nothing changes |

## Left out

- Event-listener wiring, the `DOMContentLoaded` setup and the outside-click and resize handlers (script.js:357-416) are left out. They only call the modelled handlers. `Portfolio.Page.ToggleExpand` requires the button and the hidden timeline because the click listener is attached only when both exist (script.js:304).
- The `IntersectionObserver` path (script.js:198-214) is left out. It is a browser callback with a fractional threshold and a CSS margin, and its only effect is adding `visible`.
- The 100 ms timer (script.js:317) is left out. `Portfolio.Page.RescanRevealed` is the timer's body, run with the measurements taken when the timer fires; the delay itself and its race with rapid clicks are not modelled.
- The `debounce` helper and its empty handler (script.js:425-440) are asynchronous and have no effect on state.
- Smooth scrolling (script.js:81-115) is a foreign browser call. Its target is the section's offset minus the navigation bar's height, after which it closes the mobile menu, which `Portfolio.Page.CloseMobileMenu` models.
- The email-link rewrite (script.js:340-348) is a constant string assignment.
- Floating point is not modelled: measurements are exact reals, and `innerHeight * 0.8` is computed exactly.
- A section's `clientHeight` is read by the scan but never used (script.js:254), so sections carry no height.
- Aliasing between DOM nodes is not modelled. The expand button, the selectors and the translatable elements are separate fields. If the button also carried translation attributes, the caption written last would win in the script too.
- Each handler takes one rectangle per candidate (`rects`), standing for `getBoundingClientRect` on each element at the time of the call.
- Language.InitialLanguage: storage is modelled as an infallible map. In a browser, reading `localStorage` at script.js:6 can throw when storage is blocked; that aborts the whole script, so no handler is ever wired. The model does not capture this.
- Portfolio.Page.SwitchLanguage: storage is modelled as an infallible map. In a browser, `setItem` at script.js:26 can throw, for example when the quota is exceeded. `currentLanguage` has already been reassigned at line 25, so the page would be switched in memory but neither persisted nor re-rendered, and a later click on the same language would be a no-op (line 23). The model does not capture this.
