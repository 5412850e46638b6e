/**
 * The localization store: the language catalog, the per-language dictionaries,
 * the provider's current-language cell, the `t` lookup with its three-step
 * fallback, and the `useTranslation` guard.
 */
module Translation {
  import opened Wrappers

  /** A flat key -> text dictionary for one language. */
  type Dictionary = map<string, string>

  /** One entry of the language catalog offered by the language selector. */
  datatype Language = Language(code: string, flag: string, name: string)

  const Languages: seq<Language> := [
    Language("en", "🇺🇸", "English"),
    Language("fr", "🇫🇷", "Français"),
    Language("de", "🇩🇪", "Deutsch"),
    Language("it", "🇮🇹", "Italiano"),
    Language("es", "🇪🇸", "Español"),
    Language("ko", "🇰🇷", "한국어")
  ]

  /** The English tooltip text, which the sidebar's fallback dictionary repeats. */
  const EnglishContactTooltip := "👈 Contact me here!"

  /** English: 11 of the dictionary's entries. */
  const EnTranslations: Dictionary := map[
    "hero.viewProjects" := "View Projects",
    "nav.home" := "Home",
    "hero.cta" := "Contact me!!",
    "contact.tooltip" := EnglishContactTooltip,
    "projects.filter.all" := "All Projects",
    "projects.status.completed" := "completed",
    "projects.status.in-progress" := "in progress",
    "projects.status.planned" := "planned",
    "project.pokemon.title" := "Pokemon Search & Virtual Binder",
    "project.portfolio.title" := "Current Web Page Portfolio!",
    "project.icebot.title" := "Ice Bot"
  ]

  /** French: 11 of the dictionary's entries. */
  const FrTranslations: Dictionary := map[
    "hero.viewProjects" := "Voir les projets",
    "nav.home" := "Accueil",
    "hero.cta" := "Contactez-moi!!",
    "contact.tooltip" := "👈 Contactez-moi ici!",
    "projects.filter.all" := "Tous les projets",
    "projects.status.completed" := "terminé",
    "projects.status.in-progress" := "en cours",
    "projects.status.planned" := "prévu",
    "project.pokemon.title" := "Recherche Pokémon & Classeur Virtuel",
    "project.portfolio.title" := "Portfolio Web Actuel !",
    "project.icebot.title" := "Ice Bot"
  ]

  /** German: 11 of the dictionary's entries. */
  const DeTranslations: Dictionary := map[
    "hero.viewProjects" := "Projekte ansehen",
    "nav.home" := "Startseite",
    "hero.cta" := "Kontaktiere mich!!",
    "contact.tooltip" := "👈 Kontaktiere mich hier!",
    "projects.filter.all" := "Alle Projekte",
    "projects.status.completed" := "abgeschlossen",
    "projects.status.in-progress" := "in Bearbeitung",
    "projects.status.planned" := "geplant",
    "project.pokemon.title" := "Pokémon-Suche & Virtueller Ordner",
    "project.portfolio.title" := "Aktuelles Web-Portfolio!",
    "project.icebot.title" := "Ice Bot"
  ]

  /** Italian: 11 of the dictionary's entries. */
  const ItTranslations: Dictionary := map[
    "hero.viewProjects" := "Guarda i progetti",
    "nav.home" := "Home",
    "hero.cta" := "Contattami!!",
    "contact.tooltip" := "👈 Contattami qui!",
    "projects.filter.all" := "Tutti i Progetti",
    "projects.status.completed" := "completato",
    "projects.status.in-progress" := "in corso",
    "projects.status.planned" := "pianificato",
    "project.pokemon.title" := "Ricerca Pokémon & Raccoglitore Virtuale",
    "project.portfolio.title" := "Portfolio Web Attuale!",
    "project.icebot.title" := "Ice Bot"
  ]

  /** Spanish: 11 of the dictionary's entries. */
  const EsTranslations: Dictionary := map[
    "nav.home" := "Inicio",
    "hero.cta" := "¡Contáctame!",
    "hero.viewProjects" := "Ver proyectos",
    "contact.tooltip" := "👈 ¡Contáctame aquí!",
    "projects.filter.all" := "Todos los proyectos",
    "projects.status.completed" := "completado",
    "projects.status.in-progress" := "en progreso",
    "projects.status.planned" := "planificado",
    "project.pokemon.title" := "Búsqueda de Pokémon & Carpeta Virtual",
    "project.portfolio.title" := "¡Portafolio web actual!",
    "project.icebot.title" := "Ice Bot"
  ]

  /** Korean: 10 of the dictionary's entries; it has no hero.viewProjects. */
  const KoTranslations: Dictionary := map[
    "nav.home" := "홈",
    "hero.cta" := "연락하기!!",
    "contact.tooltip" := "👈 여기로 연락하세요!",
    "projects.filter.all" := "전체 프로젝트",
    "projects.status.completed" := "완료",
    "projects.status.in-progress" := "진행 중",
    "projects.status.planned" := "계획됨",
    "project.pokemon.title" := "포켓몬 검색 & 가상 바인더",
    "project.portfolio.title" := "현재 웹페이지 포트폴리오!",
    "project.icebot.title" := "아이스 봇"
  ]

  /** The table from language code to dictionary. */
  const Translations: map<string, Dictionary> := map[
    "en" := EnTranslations,
    "fr" := FrTranslations,
    "de" := DeTranslations,
    "it" := ItTranslations,
    "es" := EsTranslations,
    "ko" := KoTranslations
  ]

  /** `tables[language]?.[key]`: absent when the language or the key is missing. */
  function Entry(tables: map<string, Dictionary>, language: string, key: string): (r: Option<string>)
    ensures r.None? <==> language !in tables || key !in tables[language]
    ensures r.Some? ==> r.value == tables[language][key]
  {
    if language in tables && key in tables[language] then Some(tables[language][key]) else None
  }

  /**
   * The lookup `t(key)`: the current language's entry, else the English entry,
   * else the key itself.  The English table is read without `?.`, so it must exist.
   */
  function Resolve(tables: map<string, Dictionary>, language: string, key: string): (r: string)
    requires "en" in tables
    ensures Entry(tables, language, key) == Some(r) || Entry(tables, "en", key) == Some(r) || r == key
    ensures r == "" ==> key == ""
  {
    var current := Entry(tables, language, key);
    var english := Entry(tables, "en", key);
    if Truthy(current) then current.value
    else if Truthy(english) then english.value
    else key
  }

  /** A non-empty entry of the current language wins. */
  lemma ResolvePrefersCurrent(tables: map<string, Dictionary>, language: string, key: string)
    requires "en" in tables
    requires language in tables && key in tables[language] && tables[language][key] != ""
    ensures Resolve(tables, language, key) == tables[language][key]
  {
  }

  /** A missing or empty entry of the current language falls back to a non-empty English entry. */
  lemma ResolveFallsBackToEnglish(tables: map<string, Dictionary>, language: string, key: string)
    requires "en" in tables
    requires !Truthy(Entry(tables, language, key))
    requires key in tables["en"] && tables["en"][key] != ""
    ensures Resolve(tables, language, key) == tables["en"][key]
  {
  }

  /** With no non-empty entry in the current language nor in English, the key is returned verbatim. */
  lemma ResolveFallsBackToKey(tables: map<string, Dictionary>, language: string, key: string)
    requires "en" in tables
    requires !Truthy(Entry(tables, language, key)) && !Truthy(Entry(tables, "en", key))
    ensures Resolve(tables, language, key) == key
  {
  }

  /**
   * When either step finds a non-empty text the result is non-empty, and it is
   * the current language's text whenever that one is non-empty.
   */
  lemma ResolveIsKeyOnlyAsLastResort(tables: map<string, Dictionary>, language: string, key: string)
    requires "en" in tables
    requires Truthy(Entry(tables, language, key)) || Truthy(Entry(tables, "en", key))
    ensures Resolve(tables, language, key) != ""
    ensures Truthy(Entry(tables, language, key)) ==> Some(Resolve(tables, language, key)) == Entry(tables, language, key)
  {
  }

  /** A language code without a dictionary looks up exactly as English does. */
  lemma UnknownLanguageIsEnglish(tables: map<string, Dictionary>, language: string, key: string)
    requires "en" in tables && language !in tables
    ensures Resolve(tables, language, key) == Resolve(tables, "en", key)
  {
  }

  /** Every selectable language has a dictionary, and every dictionary is selectable. */
  lemma CatalogMatchesTable()
    ensures forall i :: 0 <= i < |Languages| ==> Languages[i].code in Translations
    ensures forall code :: code in Translations ==> exists i :: 0 <= i < |Languages| && Languages[i].code == code
  {
    forall code | code in Translations
      ensures exists i :: 0 <= i < |Languages| && Languages[i].code == code
    {
      if code == "en" { assert Languages[0].code == code; }
      else if code == "fr" { assert Languages[1].code == code; }
      else if code == "de" { assert Languages[2].code == code; }
      else if code == "it" { assert Languages[3].code == code; }
      else if code == "es" { assert Languages[4].code == code; }
      else { assert Languages[5].code == code; }
    }
  }

  /** Korean has no "hero.viewProjects", so it shows the English text. */
  lemma KoreanViewProjectsIsEnglish()
    ensures Resolve(Translations, "ko", "hero.viewProjects") == "View Projects"
  {
    assert "hero.viewProjects" !in KoTranslations;
  }

  /** The English dictionary's tooltip entry. */
  lemma EnglishTooltipEntry()
    ensures Entry(Translations, "en", "contact.tooltip") == Some(EnglishContactTooltip)
    ensures Resolve(Translations, "en", "contact.tooltip") == EnglishContactTooltip
  {
  }

  /** A key that none of the six dictionaries holds has no entry under any language code. */
  lemma AbsentKeyHasNoEntry(language: string, key: string)
    requires key !in EnTranslations && key !in FrTranslations && key !in DeTranslations
    requires key !in ItTranslations && key !in EsTranslations && key !in KoTranslations
    ensures Entry(Translations, language, key) == None
  {
  }

  /** "projects.view-more" is in no dictionary, so every language shows the key itself. */
  lemma ViewMoreIsUntranslated(language: string)
    ensures Resolve(Translations, language, "projects.view-more") == "projects.view-more"
  {
    var key := "projects.view-more";
    assert key !in EnTranslations && key !in FrTranslations && key !in DeTranslations;
    assert key !in ItTranslations && key !in EsTranslations && key !in KoTranslations;
    AbsentKeyHasNoEntry(language, key);
    AbsentKeyHasNoEntry("en", key);
    ResolveFallsBackToKey(Translations, language, key);
  }

  /** The two-language scenario: French with an empty dictionary and an unknown code both fall back to English. */
  lemma EnglishFallbackScenario()
    ensures Resolve(map["en" := map["a.b" := "Hello"], "fr" := map[]], "fr", "a.b") == "Hello"
    ensures Resolve(map["en" := map["a.b" := "Hello"], "fr" := map[]], "xx", "a.b") == "Hello"
  {
  }

  const OutsideProviderError := "useTranslation must be used within a TranslationProvider"

  /** The value a provider hands to its consumers: the current language and, through it, `t`. */
  datatype TranslationContext = TranslationContext(language: string) {
    /** `t(key)` against the shipped dictionaries. */
    function T(key: string): (r: string)
      ensures Entry(Translations, language, key) == Some(r) || Entry(Translations, "en", key) == Some(r) || r == key
      ensures r == "" ==> key == ""
    {
      Resolve(Translations, language, key)
    }
  }

  /** The guard: outside a provider it fails loudly; inside, it hands back the context unchanged. */
  function UseTranslation(context: Option<TranslationContext>): (r: Result<TranslationContext, string>)
    ensures r.Success? <==> context.Some?
    ensures context.Some? ==> r.value == context.value
    ensures context.None? ==> r.error == OutsideProviderError
  {
    match context
    case None => Failure(OutsideProviderError)
    case Some(c) => Success(c)
  }

  /** The provider's state: the current-language cell. */
  class TranslationProvider {
    var language: string

    constructor ()
      ensures language == "en"
    {
      language := "en";
    }

    /** Replaces the language, with no check that it is in the catalog. */
    method SetLanguage(code: string)
      modifies this
      ensures language == code
    {
      language := code;
    }

    /** The context value its consumers see. */
    function Context(): (c: TranslationContext)
      reads this
      ensures c.language == language
    {
      TranslationContext(language)
    }
  }

  /** Setting the same code twice is observably the same as setting it once. */
  method SetLanguageIdempotent(once: TranslationProvider, twice: TranslationProvider, code: string)
    modifies once, twice
    ensures once.Context() == twice.Context()
    ensures forall key :: once.Context().T(key) == twice.Context().T(key)
  {
    once.SetLanguage(code);
    twice.SetLanguage(code);
    twice.SetLanguage(code);
  }
}
