/**
 * The application root's wiring between the hero's contact button and the
 * sidebar's tooltip.
 */
module App {
  import opened Wrappers
  import Translation
  import Hero
  import SocialSidebar

  /** The contact callback the root hands to the hero: it sets `showTooltip`. */
  function ShowContactTooltip(showTooltip: bool): (shown: bool)
    ensures shown
  {
    true
  }

  /** A contact click reveals the tooltip, in the current language. */
  lemma ContactClickRevealsTooltip(showTooltip: bool, language: string)
    ensures
      var shown := Hero.HandleContactClick(Some(ShowContactTooltip), showTooltip);
      SocialSidebar.TooltipText(SocialSidebar.SidebarProps(Some(shown)), Some(Translation.TranslationContext(language)))
        == Some(Translation.Resolve(Translation.Translations, language, "contact.tooltip"))
  {
  }

  /** Before any click the tooltip is hidden, and a hero without a callback leaves it so. */
  lemma TooltipHiddenWithoutClick(context: Option<Translation.TranslationContext>)
    ensures SocialSidebar.TooltipText(SocialSidebar.SidebarProps(Some(false)), context) == None
    ensures SocialSidebar.TooltipText(SocialSidebar.SidebarProps(None), context) == None
    ensures Hero.HandleContactClick(None, false) == false
  {
  }
}
