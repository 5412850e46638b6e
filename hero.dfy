/**
 * The hero section: its visible-element set, driven by the shared observer
 * rule, and its contact button, which forwards to an optional callback.
 */
module Hero {
  import opened Wrappers
  import Visibility

  /** The hero's state: its own visible-element set, empty at first. */
  class HeroSection {
    const visibleElements: Visibility.VisibleElements

    constructor ()
      ensures fresh(visibleElements) && visibleElements.elements == {}
    {
      visibleElements := new Visibility.VisibleElements();
    }

    /** The observer callback. */
    method ObserverCallback(entries: seq<Visibility.Entry>)
      modifies visibleElements
      ensures visibleElements.elements == Visibility.Apply(old(visibleElements.elements), entries)
    {
      visibleElements.ObserverCallback(entries);
    }
  }

  /**
   * `handleContactClick`: the optional `onContactClick` callback, seen as its
   * effect on the caller's state, runs when it was supplied and nothing happens
   * otherwise.
   */
  function HandleContactClick<S>(onContactClick: Option<S -> S>, state: S): (r: S)
    ensures onContactClick.None? ==> r == state
    ensures onContactClick.Some? ==> r == onContactClick.value(state)
  {
    match onContactClick
    case None => state
    case Some(callback) => callback(state)
  }
}
