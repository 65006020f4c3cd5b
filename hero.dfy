/**
 * The hero banner's rotating title: an index into a fixed list of three
 * texts, advanced by one (wrapping round) on every interval tick.
 */
module Hero {

  const Texts: seq<string> := ["Full-Stack Developer", "MERN Stack", "C++ Enthusiast"]

  /**
   * The tick's update `(prevIndex + 1) % texts.length`: the next index,
   * wrapping from the last position back to the first.
   */
  function NextIndex(i: nat, n: nat): (r: nat)
    requires n > 0
    ensures r < n
    ensures i + 1 < n ==> r == i + 1
    ensures i + 1 == n ==> r == 0
  {
    (i + 1) % n
  }

  /** The index after `ticks` ticks from `start`. */
  function IndexAfter(start: nat, n: nat, ticks: nat): (r: nat)
    requires n > 0
    ensures start < n ==> r < n
  {
    if ticks == 0 then start else NextIndex(IndexAfter(start, n, ticks - 1), n)
  }

  /** Until the end of the list is reached, each tick moves one place forward. */
  lemma {:induction false} IndexAfterAdvances(start: nat, n: nat, ticks: nat)
    requires start + ticks < n
    ensures IndexAfter(start, n, ticks) == start + ticks
  {
    if ticks > 0 {
      IndexAfterAdvances(start, n, ticks - 1);
    }
  }

  /** The tick after the last position lands on the first one. */
  lemma WrapsToFirst(start: nat, n: nat)
    requires start < n
    ensures IndexAfter(start, n, n - start) == 0
  {
    IndexAfterAdvances(start, n, n - 1 - start);
  }

  /** Ticking `a` times and then `b` times is ticking `a + b` times. */
  lemma {:induction false} IndexAfterCompose(start: nat, n: nat, a: nat, b: nat)
    requires n > 0
    ensures IndexAfter(start, n, a + b) == IndexAfter(IndexAfter(start, n, a), n, b)
  {
    if b > 0 {
      IndexAfterCompose(start, n, a, b - 1);
    }
  }

  /** After as many ticks as there are texts, the index is back where it started. */
  lemma FullCycleReturns(start: nat, n: nat)
    requires start < n
    ensures IndexAfter(start, n, n) == start
  {
    IndexAfterCompose(start, n, n - start, start);
    WrapsToFirst(start, n);
    if start > 0 {
      IndexAfterAdvances(0, n, start);
    }
  }

  /** The rotation is periodic: `n` more ticks show the same text again, whatever the tick count. */
  lemma Periodic(start: nat, n: nat, ticks: nat)
    requires start < n
    ensures IndexAfter(start, n, ticks + n) == IndexAfter(start, n, ticks)
  {
    IndexAfterCompose(start, n, ticks, n);
    FullCycleReturns(IndexAfter(start, n, ticks), n);
  }

  class HeroBanner {
    var textIndex: nat

    /** The index always addresses one of the texts. */
    ghost predicate Valid()
      reads this
    {
      textIndex < |Texts|
    }

    /** On mount the first text is shown. */
    constructor ()
      ensures Valid() && textIndex == 0
    {
      textIndex := 0;
    }

    /** An interval tick (every 3000 ms): the next text, wrapping round. */
    method Tick()
      requires Valid()
      modifies this
      ensures Valid()
      ensures textIndex == NextIndex(old(textIndex), |Texts|)
    {
      textIndex := (textIndex + 1) % |Texts|;
    }

    /** `texts[textIndex]`: always one of the texts, never out of range. */
    function CurrentText(): (text: string)
      requires Valid()
      reads this
      ensures text in Texts
    {
      Texts[textIndex]
    }
  }

  /** The banner shows the three texts in turn and then the first again. */
  method FirstFourTitles() returns (shown: seq<string>)
    ensures shown == [Texts[0], Texts[1], Texts[2], Texts[0]]
  {
    var banner := new HeroBanner();
    shown := [banner.CurrentText()];
    banner.Tick();
    shown := shown + [banner.CurrentText()];
    banner.Tick();
    shown := shown + [banner.CurrentText()];
    banner.Tick();
    shown := shown + [banner.CurrentText()];
  }
}
