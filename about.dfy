/**
 * The about section's animation state: one visibility flag per sub-section,
 * all false at first; each observer entry overwrites the flag of the section
 * it names and copies the other four.
 */
module About {
  import opened Wrappers
  import Visibility
  import Batches

  /** The sub-sections, as named by their `data-section` attribute. */
  datatype Section = Header | Story | Facts | Skills | Learning

  /** The `isVisible` record. */
  datatype SectionFlags = SectionFlags(header: bool, story: bool, facts: bool, skills: bool, learning: bool)

  const AllHidden := SectionFlags(false, false, false, false, false)

  /** `isVisible[section]`. */
  function IsVisible(flags: SectionFlags, section: Section): bool
  {
    match section
    case Header => flags.header
    case Story => flags.story
    case Facts => flags.facts
    case Skills => flags.skills
    case Learning => flags.learning
  }

  /** `{ ...flags, [section]: value }`: the named flag is replaced, the other four are copied. */
  function With(flags: SectionFlags, section: Section, value: bool): (r: SectionFlags)
    ensures IsVisible(r, section) == value
    ensures forall other :: other != section ==> IsVisible(r, other) == IsVisible(flags, other)
  {
    match section
    case Header => flags.(header := value)
    case Story => flags.(story := value)
    case Facts => flags.(facts := value)
    case Skills => flags.(skills := value)
    case Learning => flags.(learning := value)
  }

  /** One intersection record for a sub-section. */
  datatype SectionEntry = SectionEntry(section: Section, isIntersecting: bool)

  /**
   * The effect of a batch, entries applied first to last: a flag changes only
   * through an entry that names its section and carries the new value.
   */
  function Apply(flags: SectionFlags, entries: seq<SectionEntry>): (r: SectionFlags)
    decreases |entries|
    ensures forall section :: IsVisible(r, section) != IsVisible(flags, section) ==>
      exists j :: 0 <= j < |entries| && entries[j].section == section && entries[j].isIntersecting == IsVisible(r, section)
  {
    if entries == [] then flags
    else
      var prefix := entries[..|entries| - 1];
      var last := entries[|entries| - 1];
      assert forall j :: 0 <= j < |prefix| ==> prefix[j] == entries[j];
      With(Apply(flags, prefix), last.section, last.isIntersecting)
  }

  /** After a batch, a section's flag is what its last entry said; without one it keeps its value. */
  lemma {:induction false} LastEntryDecides(flags: SectionFlags, entries: seq<SectionEntry>, section: Section)
    ensures IsVisible(Apply(flags, entries), section) ==
      match Batches.LastIndexWhere(entries, (e: SectionEntry) => e.section == section)
      case Some(k) => entries[k].isIntersecting
      case None => IsVisible(flags, section)
  {
    if entries != [] {
      LastEntryDecides(flags, entries[..|entries| - 1], section);
    }
  }

  /** The class a sub-section renders with: animate-in exactly when its flag is set. */
  function SectionClass(flags: SectionFlags, section: Section): (r: string)
    ensures r == "animate-in" <==> IsVisible(flags, section)
    ensures r == "animate-out" <==> !IsVisible(flags, section)
  {
    Visibility.AnimateClass(IsVisible(flags, section))
  }

  /** The component's state. */
  class AboutSection {
    var isVisible: SectionFlags

    constructor ()
      ensures forall section :: !IsVisible(isVisible, section)
    {
      isVisible := AllHidden;
    }

    /** The observer callback: every entry of the batch in turn rewrites one flag. */
    method ObserverCallback(entries: seq<SectionEntry>)
      modifies this
      ensures isVisible == Apply(old(isVisible), entries)
    {
      var i := 0;
      while i < |entries|
        invariant 0 <= i <= |entries|
        invariant isVisible == Apply(old(isVisible), entries[..i])
      {
        assert entries[..i + 1][..i] == entries[..i];
        isVisible := With(isVisible, entries[i].section, entries[i].isIntersecting);
        i := i + 1;
      }
      assert entries[..|entries|] == entries;
    }
  }
}
