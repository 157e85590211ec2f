/**
 * The loading screen's animated ellipsis: every tick appends a dot until
 * there are three, then starts over.
 */
module Loading {

  /** Most dots shown before the ellipsis starts over. */
  const MAX_DOTS: nat := 3

  /** The interval callback's update: reset once three dots are shown, else add one. */
  function NextDots(prev: string): (next: string)
    ensures |prev| >= MAX_DOTS ==> next == ""
    ensures |prev| < MAX_DOTS ==> next == prev + "."
  {
    if |prev| >= MAX_DOTS then "" else prev + "."
  }

  /** `n` dots. */
  function Dots(n: nat): (s: string)
    ensures |s| == n
    ensures forall i | 0 <= i < n :: s[i] == '.'
  {
    if n == 0 then "" else Dots(n - 1) + "."
  }

  /** What the state can hold: only dots, at most three of them. */
  predicate ValidDots(s: string) {
    |s| <= MAX_DOTS && forall i | 0 <= i < |s| :: s[i] == '.'
  }

  /** The update keeps the state valid. */
  lemma NextDotsKeepsValid(s: string)
    requires ValidDots(s)
    ensures ValidDots(NextDots(s))
  {
  }

  /** The state after `k` ticks from `s`. */
  function Iterate(s: string, k: nat): string {
    if k == 0 then s else NextDots(Iterate(s, k - 1))
  }

  /** From the empty string the states run '' → '.' → '..' → '...' → '' and so on. */
  lemma {:induction false} DotsCycle(k: nat)
    ensures Iterate("", k) == Dots(k % 4)
  {
    if k > 0 {
      DotsCycle(k - 1);
      if (k - 1) % 4 == 3 {
        assert k % 4 == 0;
      } else {
        assert k % 4 == (k - 1) % 4 + 1;
      }
    }
  }

  /** The cycle has period four. */
  lemma DotsPeriodic(k: nat)
    ensures Iterate("", k + 4) == Iterate("", k)
    ensures ValidDots(Iterate("", k))
  {
    DotsCycle(k);
    DotsCycle(k + 4);
  }

  /** The component's `dots` state, stepped by the 500 ms interval. */
  class LoadingIndicator {
    var dots: string

    ghost predicate Valid()
      reads this
    {
      ValidDots(dots)
    }

    constructor()
      ensures dots == "" && Valid()
    {
      dots := "";
    }

    method Tick()
      requires Valid()
      modifies this
      ensures dots == NextDots(old(dots))
      ensures Valid()
    {
      if |dots| >= MAX_DOTS {
        dots := "";
      } else {
        dots := dots + ".";
      }
    }
  }
}
