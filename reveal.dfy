/**
 * The scroll-reveal animation shared by the Contact, Skills and Education
 * sections: a one-shot `animated` flag that the section's intersection
 * observer sets when the section comes into view, and the staggered
 * transition delays of the cards that fade in once it is set.
 *
 * The observer itself (threshold 0.3, observe/unobserve) is browser I/O; an
 * observer callback is modelled as an event carrying `isIntersecting`.
 */
module Reveal {

  /**
   * The observer callback: `if (entry.isIntersecting && !animated)
   * setAnimated(true)`. It sets the flag exactly on an intersecting event and
   * never clears it.
   */
  function Observe(animated: bool, isIntersecting: bool): (r: bool)
    ensures r <==> animated || isIntersecting
    ensures animated ==> r
  {
    if isIntersecting && !animated then true else animated
  }

  /** The flag after the callbacks for `events` have run in order. */
  function ObserveAll(animated: bool, events: seq<bool>): bool
    decreases events
  {
    if events == [] then animated
    else ObserveAll(Observe(animated, events[0]), events[1..])
  }

  /** A flag that is set stays set, whatever the observer reports afterwards. */
  lemma {:induction false} StaysRevealed(events: seq<bool>)
    ensures ObserveAll(true, events)
  {
    if events != [] {
      StaysRevealed(events[1..]);
    }
  }

  /**
   * Starting from the initial `false`, the section is revealed after a run of
   * callbacks exactly when one of them reported an intersection.
   */
  lemma {:induction false} RevealedIffIntersected(events: seq<bool>)
    ensures ObserveAll(false, events) <==> exists i :: 0 <= i < |events| && events[i]
  {
    if events != [] {
      if events[0] {
        StaysRevealed(events[1..]);
      } else {
        RevealedIffIntersected(events[1..]);
        if exists i :: 0 <= i < |events| && events[i] {
          var i :| 0 <= i < |events| && events[i];
          assert events[1..][i - 1] == events[i];
        }
        if exists j :: 0 <= j < |events[1..]| && events[1..][j] {
          var j :| 0 <= j < |events[1..]| && events[1..][j];
          assert events[j + 1] == events[1..][j];
        }
      }
    }
  }

  /** Monotonicity: once revealed after a prefix of the events, revealed after all of them. */
  lemma {:induction false} RevealedPrefixStaysRevealed(animated: bool, events: seq<bool>, n: nat)
    requires n <= |events|
    requires ObserveAll(animated, events[..n])
    ensures ObserveAll(animated, events)
    decreases n
  {
    if n > 0 {
      assert events[..n][1..] == events[1..][..n - 1];
      RevealedPrefixStaysRevealed(Observe(animated, events[0]), events[1..], n - 1);
    } else {
      assert animated;
      StaysRevealed(events);
    }
  }

  /** A card as rendered by `items.map((item, index) => …)`: the item and its transition delay in ms. */
  datatype Staggered<T> = Staggered(item: T, delayMs: nat)

  /**
   * The cards of a list whose i-th entry waits `i * stepMs` milliseconds
   * before its reveal transition starts.
   */
  function Stagger<T>(items: seq<T>, stepMs: nat): (cards: seq<Staggered<T>>)
    ensures |cards| == |items|
    ensures forall i :: 0 <= i < |cards| ==> cards[i].item == items[i] && cards[i].delayMs == i * stepMs
  {
    if items == [] then []
    else Stagger(items[..|items| - 1], stepMs) + [Staggered(items[|items| - 1], (|items| - 1) * stepMs)]
  }
}
