# Verified model of the portfolio site's localization store and visibility bookkeeping

The site is a single-page portfolio written in React. Its logic, beyond markup, is:

- a **localization store**: a table from language code to a flat key -> text dictionary, a
  current-language cell that starts at `en` and is replaced without validation, a lookup `t(key)`
  that tries the current language, then English, then returns the key itself, and a
  `useTranslation` guard that throws when no provider exists;
- a **project gallery**: a fixed list of project records, a category filter (`all` shows
  everything), and total mappings from a project's status to a colour class and an icon;
- **scroll-visibility bookkeeping**: the hero and project sections keep a set of visible element
  ids that each intersection-observer batch updates entry by entry, and the about section keeps a
  five-flag record of which sub-sections are visible;
- a **social sidebar** that uses the context's `t` when it can and a one-entry fallback
  dictionary when it cannot, and renders the contact tooltip only when asked to.

The Dafny modules follow the source files: `Translation` (`src/contexts/TranslationContext.tsx`),
`Projects` (`src/components/Projects.tsx`), `Hero` (`src/components/Hero.tsx`), `About`
(`src/components/About.tsx`), `SocialSidebar` (`src/components/SocialSidebar.tsx`), and `App` for
the one piece of wiring in `src/App.tsx` that connects the hero's contact button to the sidebar's
tooltip. `Visibility` holds the set-update rule that `Hero.tsx` and `Projects.tsx` each contain a
copy of; `Batches` holds the search for the last entry of a batch that concerns an element, which
every observer callback shares; `Wrappers` holds `Option`, `Result` and JavaScript's truthiness of
an optional string.

Pure expressions (the lookup, the filter, the status switches, the fallback translator) are
functions. State the source updates through `useState` is a class: `TranslationProvider` (the
language cell), `VisibleElements` (a visible-id set), `HeroSection`, `ProjectsSection` (selected
category plus its visible set) and `AboutSection` (the five-flag record). Each observer callback is
a method with a loop over the batch, proved equal to a fold (`Visibility.Apply`, `About.Apply`)
whose meaning is proved separately: after a batch, each id or section is as the last entry for it
says, and untouched ones keep their value.

JavaScript's `a?.[b] || c` is modelled explicitly: `Translation.Entry` is the optional lookup and
`Wrappers.Truthy` treats both a missing entry and the empty string as falsy, so an empty
translation falls through to the next step as it does in the source. The same truthiness decides
`if (elementId)` in the observer callbacks: an element whose `data-animate-id` is missing or empty
is skipped.

The dictionaries hold a representative subset of the real entries (navigation, call-to-action,
tooltip, filter, status labels and the three project titles) in all six languages, copied exactly;
the Korean table lacks `hero.viewProjects`, as in the source. Only one category button exists in
the source (`all`), so through the user interface the gallery always shows every project
(`Projects.CategoryButtonsShowEverything`).

## Model

| member | source | states |
|---|---|---|
| `Translation.Resolve` | src/contexts/TranslationContext.tsx:257-259 | the result is the current language's entry, the English entry or the key, and it is never empty unless the key is |
| `Translation.Entry` | src/contexts/TranslationContext.tsx:258 | `translations[language]?.[key]` is absent exactly when the language or the key is missing, and otherwise is the dictionary's text |
| `Wrappers.Truthy` | src/contexts/TranslationContext.tsx:258 | a missing text and the empty string are falsy, any other string truthy, as `||` and `if (elementId)` (src/components/Hero.tsx:44) test them |
| `Translation.ResolvePrefersCurrent` | src/contexts/TranslationContext.tsx:258 | a non-empty entry in the current language is returned |
| `Translation.ResolveFallsBackToEnglish` | src/contexts/TranslationContext.tsx:258 | a missing or empty current entry yields the non-empty English entry |
| `Translation.ResolveFallsBackToKey` | src/contexts/TranslationContext.tsx:258 | with no non-empty entry in either, the key is returned verbatim |
| `Translation.ResolveIsKeyOnlyAsLastResort` | src/contexts/TranslationContext.tsx:258 | when either step has a non-empty entry the result is non-empty, and it is the current entry when that one is non-empty |
| `Translation.UnknownLanguageIsEnglish` | src/contexts/TranslationContext.tsx:258 | a language code with no dictionary looks up exactly as `en` does, and the lookup never fails |
| `Translation.CatalogMatchesTable` | src/contexts/TranslationContext.tsx:3-10 | every catalog code has a dictionary in the table, and every dictionary's code is in the catalog |
| `Translation.EnglishTooltipEntry` | src/contexts/TranslationContext.tsx:283 | the English dictionary's tooltip entry is the text the sidebar's fallback repeats, and English resolves the key to it |
| `Translation.KoreanViewProjectsIsEnglish` | src/contexts/TranslationContext.tsx:57-100 | Korean lacks `hero.viewProjects`, so it shows `View Projects` |
| `Translation.AbsentKeyHasNoEntry` | src/contexts/TranslationContext.tsx:319-326 | a key none of the six dictionaries holds has no entry under any language code |
| `Translation.ViewMoreIsUntranslated` | src/components/Projects.tsx:229 | `projects.view-more` resolves to itself under every language |
| `Translation.EnglishFallbackScenario` | src/contexts/TranslationContext.tsx:258 | with `en = {a.b: Hello}` and an empty `fr`, both `fr` and an unknown code give `Hello` |
| `Translation.TranslationContext.T` | src/contexts/TranslationContext.tsx:257-259 | the context's `t` returns a dictionary entry for its language, the English entry or the key, never an empty text for a non-empty key |
| `Translation.UseTranslation` | src/contexts/TranslationContext.tsx:338-344 | fails with the provider error exactly when there is no context, and otherwise returns the context unchanged |
| `Translation.TranslationProvider.constructor` | src/contexts/TranslationContext.tsx:256 | the language starts as `en` |
| `Translation.TranslationProvider.SetLanguage` | src/contexts/TranslationContext.tsx:256 | the language becomes the given code, whatever it is |
| `Translation.TranslationProvider.Context` | src/contexts/TranslationContext.tsx:261 | the value handed to consumers carries the current language |
| `Translation.SetLanguageIdempotent` | src/components/Navbar.tsx:36-38 | setting a code twice leaves the same context, and the same `t` on every key, as setting it once |
| `Visibility.Step` | src/components/Hero.tsx:43-54 | after one entry an id is visible iff the entry carries it as a non-empty id and intersects, or the entry does not carry it and it was visible; an entry with a missing or empty id, an add of a present id and a removal of an absent id change nothing |
| `Visibility.EmptyIdIsSkipped` | src/components/Hero.tsx:44 | an entry whose `data-animate-id` is the empty string leaves the set as it was, `""` included |
| `Visibility.Apply` | src/components/Hero.tsx:41-57 | a batch applied first to last adds an id only through an intersecting entry that carries it, and removes one only through a non-intersecting entry that carries it |
| `Batches.LastIndexWhere` | src/components/Hero.tsx:41-57 | finds the last entry of a batch satisfying a test, or reports that none does: no later entry satisfies it, and absence holds exactly when no entry does |
| `Visibility.LastEntryDecides` | src/components/Hero.tsx:41-57 | after a batch, an id is visible iff the last entry carrying it intersects; with no such entry it keeps its membership |
| `Visibility.UntouchedIdsKeepMembership` | src/components/Projects.tsx:101-109 | ids no entry carries keep their membership |
| `Visibility.UnlabelledEntriesAreIgnored` | src/components/Projects.tsx:99-100 | a batch of entries whose `data-animate-id` is missing or empty leaves the set unchanged |
| `Visibility.AnimateClass` | src/components/Hero.tsx:80 | an element renders `animate-in` exactly when visible and `animate-out` otherwise |
| `Visibility.VisibleElements.ClassFor` | src/components/Hero.tsx:80 | an element renders `animate-in` exactly when its id is in the visible set, `animate-out` otherwise |
| `Visibility.VisibleElements.constructor` | src/components/Projects.tsx:38 | the visible set starts empty |
| `Visibility.VisibleElements.ObserverCallback` | src/components/Projects.tsx:97-111 | the new set is the batch applied entry by entry, in order, to the old one |
| `Hero.HeroSection.constructor` | src/components/Hero.tsx:24 | the hero's visible set starts empty |
| `Hero.HeroSection.ObserverCallback` | src/components/Hero.tsx:40-57 | the hero's set becomes the batch applied in order to the old set |
| `Hero.HandleContactClick` | src/components/Hero.tsx:70-74 | the callback's effect happens exactly when a callback was supplied; otherwise the state is unchanged |
| `About.With` | src/components/About.tsx:60-62 | the named section's flag takes the new value and the other four are unchanged |
| `About.Apply` | src/components/About.tsx:55-64 | a batch applied first to last changes a section's flag only through an entry that names the section and carries the new value |
| `About.LastEntryDecides` | src/components/About.tsx:55-64 | after a batch, a section's flag is the last entry's `isIntersecting` for it; without one it keeps its value |
| `About.SectionClass` | src/components/About.tsx:85 | a section renders `animate-in` exactly when its flag is true, `animate-out` otherwise |
| `About.AboutSection.constructor` | src/components/About.tsx:27-33 | all five sections start not visible |
| `About.AboutSection.ObserverCallback` | src/components/About.tsx:54-65 | the record becomes the batch applied in order, one flag per entry |
| `Projects.FilterByCategory` | src/components/Projects.tsx:92 | the result is an order-preserving subsequence of the input, no longer than it, whose members are exactly the input's records of the category |
| `Projects.FilterKeepsMultiplicity` | src/components/Projects.tsx:92 | each matching record occurs in the result as often as in the input, and every other record not at all |
| `Projects.Filtered` | src/components/Projects.tsx:90-92 | `all` gives the full list in order; any other selection gives an order-preserving subsequence whose members are exactly the matching records |
| `Projects.FilterKeepsAllMatching` | src/components/Projects.tsx:92 | a list whose records all match is returned unchanged |
| `Projects.NoMatchYieldsEmpty` | src/components/Projects.tsx:92 | a selection no record matches, an unknown string included, yields the empty list |
| `Projects.FilterIsIdempotent` | src/components/Projects.tsx:90-92 | filtering the filtered list by the same selection returns it unchanged |
| `Projects.ProjectList` | src/components/Projects.tsx:49-84 | three records with distinct ids, all in the `web` category, whose titles are the translations of their `project.*.title` keys |
| `Projects.ShippedProjectsAreWeb` | src/components/Projects.tsx:49-84 | whatever the translation function, the three shipped projects are all shown under `web` and none under `anime` |
| `Projects.CategoryButtonsShowEverything` | src/components/Projects.tsx:86-88 | every category a rendered button can select shows the full list |
| `Projects.StatusColor` | src/components/Projects.tsx:124-131 | the grey class is returned exactly for a status outside the three known ones |
| `Projects.StatusIcon` | src/components/Projects.tsx:133-140 | the question-mark icon is returned exactly for a status outside the three known ones |
| `Projects.StatusPresentation` | src/components/Projects.tsx:124-140 | completed, in-progress and planned map to green/✅, cyan/⚡ and purple/📋, a record's status never reaches the default, and distinct statuses get distinct colours and icons |
| `Projects.ProjectsSection.constructor` | src/components/Projects.tsx:35-38 | the gallery starts with category `all` and an empty visible set |
| `Projects.ProjectsSection.SelectCategory` | src/components/Projects.tsx:168 | the selected category becomes the button's key; the visible set is untouched |
| `Projects.ProjectsSection.ObserverCallback` | src/components/Projects.tsx:97-111 | the visible set becomes the batch applied in order; the selected category is untouched |
| `Projects.ProjectsSection.FilteredProjects` | src/components/Projects.tsx:90-92 | the shown list is a subsequence of the projects, all of them under `all` |
| `SocialSidebar.FallbackT` | src/components/SocialSidebar.tsx:16-21 | the tooltip key resolves to the English dictionary's text; any other key resolves to itself |
| `SocialSidebar.SidebarT` | src/components/SocialSidebar.tsx:10-22 | with a context the sidebar uses the context's `t`; without one it uses the fallback |
| `SocialSidebar.TooltipWithoutProviderIsEnglish` | src/components/SocialSidebar.tsx:16-19 | without a provider the tooltip reads `👈 Contact me here!`, as it does under an English provider |
| `SocialSidebar.OtherKeysWithoutProviderAreVerbatim` | src/components/SocialSidebar.tsx:20 | without a provider every key other than the tooltip's shows as the key itself |
| `SocialSidebar.TooltipText` | src/components/SocialSidebar.tsx:60-71 | tooltip text is rendered exactly when `showTooltip` is true (absent means false), and it is the sidebar's non-empty translation of the tooltip key |
| `App.ShowContactTooltip` | src/App.tsx:87-88 | the callback the root hands to the hero sets `showTooltip` to true, whatever it was |
| `App.ContactClickRevealsTooltip` | src/App.tsx:87-88 | a click on the hero's contact button makes the sidebar show the tooltip in the current language |
| `App.TooltipHiddenWithoutClick` | src/App.tsx:32 | the tooltip is hidden while `showTooltip` is false or absent, and a hero without a callback does not change it |

## Left out

- The intersection observer's geometry (the 0.2 threshold and the root margins): the model starts
  from the batch of entries the browser delivers, each with an optional element id and its
  `isIntersecting` flag. Registration, `disconnect` on unmount and the querying of
  `[data-animate-id]` elements are not modelled.
- React's batching of the queued `setVisibleElements`/`setIsVisible` updates: the model applies
  them in the order the callback queues them, which is the order React applies them in.
- The tooltip's five-second `setTimeout` in `src/App.tsx` (timer behaviour) and `generateDots`
  (random floating-point positions).
- JSX rendering beyond the visible -> `animate-in`/`animate-out` choice and the tooltip text;
  CSS class strings of project cards, the `project-<id>` element ids, images, links and SVG paths.
- The Navbar's hamburger toggle and language selector markup; the selector's handler is modelled
  only as the `SetLanguage` call it makes.
- The full translated texts: each dictionary holds the subset of keys listed above, so lookups of
  other keys in the model fall through to the key where the source would find a text. The project
  descriptions (`project.*.description`) are among the keys left out, so in the model a project
  card's description is its key.
- JavaScript prototype-chain lookups: the model's table and dictionaries are plain maps. In the
  source a key such as `constructor` finds an inherited property of a dictionary object, and a
  language code such as `toString` finds one of the table object: after `setLanguage('toString')`
  the lookup `translations[language]?.[key]` reads a property of a function, so `t('name')` returns
  `toString` instead of the English text.
- Translation.UnknownLanguageIsEnglish: holds for every code without a dictionary in the model; in
  the source it holds only for codes that are not inherited property names, as the line above says.
- About.AboutSection.ObserverCallback: the section name comes from a `data-section` attribute that
  all five observed elements carry, so it is modelled as one of five names; an element without one
  would add an `undefined` field to the record in the source.
- Translation.Resolve: takes the table as a parameter and requires it to hold `en`, because the
  source reads `translations.en[key]` without `?.`; the shipped table always holds it.
- Hero.HandleContactClick: the callback is modelled by its effect on the caller's state; its other
  effects (arming the tooltip timer) are not.
- The test file for the mobile footer: it checks a component that is not part of this model.
