/**
 * The social sidebar: it takes `t` from the translation context when there is
 * one and otherwise falls back to a one-entry dictionary; the contact tooltip
 * is rendered only when asked for.
 */
module SocialSidebar {
  import opened Wrappers
  import Translation

  const TooltipKey := "contact.tooltip"

  /** The dictionary used when no provider exists. */
  const Fallbacks: map<string, string> := map[TooltipKey := "👈 Contact me here!"]

  /** `fallbacks[key] || key`. */
  function FallbackT(key: string): (r: string)
    ensures key == TooltipKey ==> r == Translation.EnglishContactTooltip
    ensures key != TooltipKey ==> r == key
  {
    if key in Fallbacks && Fallbacks[key] != "" then Fallbacks[key] else key
  }

  /** The sidebar's `t`: the context's when `useTranslation` succeeds, the fallback when it throws. */
  function SidebarT(context: Option<Translation.TranslationContext>, key: string): (r: string)
    ensures context.Some? ==> r == context.value.T(key)
    ensures context.None? ==> r == FallbackT(key)
  {
    match Translation.UseTranslation(context)
    case Success(c) => c.T(key)
    case Failure(_) => FallbackT(key)
  }

  /** Without a provider the tooltip reads as it does in English with one. */
  lemma TooltipWithoutProviderIsEnglish()
    ensures SidebarT(None, TooltipKey) == SidebarT(Some(Translation.TranslationContext("en")), TooltipKey)
    ensures SidebarT(None, TooltipKey) == "👈 Contact me here!"
  {
    Translation.EnglishTooltipEntry();
  }

  /** Without a provider, any other key shows as itself. */
  lemma OtherKeysWithoutProviderAreVerbatim(key: string)
    requires key != TooltipKey
    ensures SidebarT(None, key) == key
  {
  }

  /** The component's props; `showTooltip` may be left out. */
  datatype SidebarProps = SidebarProps(showTooltip: Option<bool>)

  /** The tooltip text the sidebar renders, if any. */
  function TooltipText(props: SidebarProps, context: Option<Translation.TranslationContext>): (r: Option<string>)
    ensures r.Some? <==> props.showTooltip == Some(true)
    ensures r.Some? ==> r.value == SidebarT(context, TooltipKey) && r.value != ""
  {
    if props.showTooltip.GetOr(false) then Some(SidebarT(context, TooltipKey)) else None
  }
}
