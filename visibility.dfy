/**
 * The scroll-visibility bookkeeping shared by the hero and project sections:
 * each observer callback walks its batch of entries in order and adds the
 * entry's element id to the visible set when it intersects, removes it when it
 * does not, and skips entries whose element carries no id or an empty one.
 */
module Visibility {
  import opened Wrappers
  import Batches

  /** One intersection record: the element's `data-animate-id`, if any, and whether it intersects. */
  datatype Entry = Entry(animateId: Option<string>, isIntersecting: bool)

  /** The entry's element carries the id `id`, and `id` is truthy (non-empty). */
  predicate Carries(e: Entry, id: string)
  {
    e.animateId == Some(id) && id != ""
  }

  /** The effect of one entry on the visible set; an entry whose id is missing or empty is skipped. */
  function Step(visible: set<string>, e: Entry): (r: set<string>)
    ensures forall id :: id in r <==> (if Carries(e, id) then e.isIntersecting else id in visible)
    ensures !Truthy(e.animateId) ==> r == visible
    ensures Truthy(e.animateId) && (e.animateId.value in visible <==> e.isIntersecting) ==> r == visible
  {
    if Truthy(e.animateId) then
      var id := e.animateId.value;
      if e.isIntersecting then visible + {id} else visible - {id}
    else visible
  }

  /**
   * The effect of a whole batch, entries applied first to last: an id joins the
   * set only through an intersecting entry that carries it, and leaves it only
   * through a non-intersecting one.
   */
  function Apply(visible: set<string>, entries: seq<Entry>): (r: set<string>)
    decreases |entries|
    ensures forall id :: id in r && id !in visible ==>
      exists j :: 0 <= j < |entries| && Carries(entries[j], id) && entries[j].isIntersecting
    ensures forall id :: id !in r && id in visible ==>
      exists j :: 0 <= j < |entries| && Carries(entries[j], id) && !entries[j].isIntersecting
  {
    if entries == [] then visible
    else
      var prefix := entries[..|entries| - 1];
      assert forall j :: 0 <= j < |prefix| ==> prefix[j] == entries[j];
      Step(Apply(visible, prefix), entries[|entries| - 1])
  }

  /**
   * After a batch, an id is visible exactly as the last entry that carries it
   * says; an id that no entry carries keeps its membership.
   */
  lemma {:induction false} LastEntryDecides(visible: set<string>, entries: seq<Entry>, id: string)
    ensures id in Apply(visible, entries) <==>
      match Batches.LastIndexWhere(entries, (e: Entry) => Carries(e, id))
      case Some(k) => entries[k].isIntersecting
      case None => id in visible
  {
    if entries != [] {
      LastEntryDecides(visible, entries[..|entries| - 1], id);
    }
  }

  /** Ids that no entry of the batch carries keep their membership. */
  lemma UntouchedIdsKeepMembership(visible: set<string>, entries: seq<Entry>, id: string)
    requires forall j :: 0 <= j < |entries| ==> !Carries(entries[j], id)
    ensures id in Apply(visible, entries) <==> id in visible
  {
    LastEntryDecides(visible, entries, id);
  }

  /** Entries whose id is missing or empty do not change the set, however many there are. */
  lemma UnlabelledEntriesAreIgnored(visible: set<string>, entries: seq<Entry>)
    requires forall j :: 0 <= j < |entries| ==> !Truthy(entries[j].animateId)
    ensures Apply(visible, entries) == visible
  {
  }

  /** An entry whose `data-animate-id` is the empty string is skipped, like one without the attribute. */
  lemma EmptyIdIsSkipped(visible: set<string>, isIntersecting: bool)
    ensures Step(visible, Entry(Some(""), isIntersecting)) == visible
    ensures "" in Apply(visible, [Entry(Some(""), isIntersecting)]) <==> "" in visible
  {
  }

  /** The class an animated element renders with. */
  function AnimateClass(visible: bool): (r: string)
    ensures r == "animate-in" <==> visible
    ensures r == "animate-out" <==> !visible
  {
    if visible then "animate-in" else "animate-out"
  }

  /** The visible-element set a section keeps in its state; it starts empty. */
  class VisibleElements {
    var elements: set<string>

    constructor ()
      ensures elements == {}
    {
      elements := {};
    }

    /** The class of the element with id `id`: `visibleElements.has(id) ? 'animate-in' : 'animate-out'`. */
    function ClassFor(id: string): (r: string)
      reads this
      ensures r == "animate-in" <==> id in elements
      ensures r == "animate-out" <==> id !in elements
    {
      AnimateClass(id in elements)
    }

    /** The observer callback: every entry of the batch in turn updates the set. */
    method ObserverCallback(entries: seq<Entry>)
      modifies this
      ensures elements == Apply(old(elements), entries)
    {
      var i := 0;
      while i < |entries|
        invariant 0 <= i <= |entries|
        invariant elements == Apply(old(elements), entries[..i])
      {
        assert entries[..i + 1][..i] == entries[..i];
        elements := Step(elements, entries[i]);
        i := i + 1;
      }
      assert entries[..|entries|] == entries;
    }
  }
}
