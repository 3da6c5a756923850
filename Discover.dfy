/**
  The discovery feed (`Discover`): a cursor `currentIndex` into a fixed list
  of candidate profiles. A like or a pass starts a 300 ms animation; when the
  animation's timer fires the cursor moves to the next profile, wrapping to
  the first after the last. While the animation runs (`isAnimating`) further
  actions are ignored. The timer is modelled as its two ends: the click that
  starts it and the callback that completes it.
 */
module Discovery {
  import opened Wrappers

  datatype Action = Like | Pass

  datatype Candidate = Candidate(
    id: int, name: string, age: int, location: string, bio: string,
    occupation: string, education: string, interests: seq<string>, photos: seq<string>)

  /** The list the page starts with. */
  const MockProfiles: seq<Candidate> := [
    Candidate(1, "Emma", 26, "San Francisco, CA", "Art lover, yoga enthusiast, always up for new adventures!",
              "Graphic Designer", "Art Institute", ["Art", "Yoga", "Travel"], ["/placeholder.svg"]),
    Candidate(2, "Marcus", 30, "Oakland, CA", "Foodie chef who loves hiking and trying new restaurants.",
              "Chef", "Culinary Institute", ["Cooking", "Hiking", "Food"], ["/placeholder.svg"]),
    Candidate(3, "Sophie", 24, "Berkeley, CA", "PhD student, book lover, coffee addict \U{2615}\U{FE0F}",
              "Graduate Student", "UC Berkeley", ["Reading", "Research", "Coffee"], ["/placeholder.svg"]),
    Candidate(4, "Jordan", 27, "San Jose, CA", "Musician by night, developer by day. Let's make beautiful music together!",
              "Software Developer", "Stanford University", ["Music", "Coding", "Guitar"], ["/placeholder.svg"]),
    Candidate(5, "Riley", 25, "San Francisco, CA", "Adventure photographer capturing life's beautiful moments.",
              "Photographer", "SFSU", ["Photography", "Travel", "Nature"], ["/placeholder.svg"])
  ]

  /** `x` modulo `n`, by repeated subtraction: the remainder left after whole multiples of `n`. */
  function Wrap(x: nat, n: nat): (r: nat)
    requires n > 0
    ensures r < n
    ensures exists q: nat :: x == q * n + r
  {
    if x < n then
      assert x == 0 * n + x;
      x
    else
      var r := Wrap(x - n, n);
      var q: nat :| x - n == q * n + r;
      assert x == (q + 1) * n + r;
      r
  }

  /**
    Where the cursor goes when an animation completes over a list of `n`
    profiles: one further, or back to 0 from the last. Inside the list this is
    `current + 1` taken modulo `n`; over an empty list the cursor stays at 0.
   */
  function NextIndex(current: nat, n: nat): (next: nat)
    ensures current < n ==> next < n && next == Wrap(current + 1, n)
    ensures n == 0 ==> next == 0
  {
    if current < n - 1 then current + 1 else 0
  }

  /** The cursor after `k` completed actions. */
  function Advanced(current: nat, n: nat, k: nat): nat {
    if k == 0 then current else NextIndex(Advanced(current, n, k - 1), n)
  }

  lemma {:induction false} WrapSuccessor(x: nat, n: nat)
    requires n > 0
    ensures Wrap(Wrap(x, n) + 1, n) == Wrap(x + 1, n)
  {
    if x >= n {
      WrapSuccessor(x - n, n);
    }
  }

  /** After `k` actions the cursor stands at `current + k` modulo `n`. */
  lemma {:induction false} AdvancedIsModular(current: nat, n: nat, k: nat)
    requires current < n
    ensures Advanced(current, n, k) == Wrap(current + k, n)
  {
    if k > 0 {
      AdvancedIsModular(current, n, k - 1);
      WrapSuccessor(current + k - 1, n);
    }
  }

  /** One action per profile brings the cursor back to where it started. */
  lemma FullCycle(current: nat, n: nat)
    requires current < n
    ensures Advanced(current, n, n) == current
  {
    AdvancedIsModular(current, n, n);
  }

  /** `profiles[current]`, which is `undefined` past the end of the list. */
  function ProfileAt(profiles: seq<Candidate>, current: nat): (c: Option<Candidate>)
    ensures c.None? <==> current >= |profiles|
    ensures c.Some? ==> c.value == profiles[current]
  {
    if current < |profiles| then Some(profiles[current]) else None
  }

  /** The progress dots: one per profile, highlighted up to and including the current one. */
  function ProgressDots(n: nat, current: nat): (dots: seq<bool>)
    ensures |dots| == n
    ensures forall k :: 0 <= k < n ==> (dots[k] <==> k <= current)
  {
    seq(n, k => k <= current)
  }

  /** The number of highlighted dots. */
  function CountLit(dots: seq<bool>): nat {
    if dots == [] then 0 else CountLit(dots[..|dots| - 1]) + (if dots[|dots| - 1] then 1 else 0)
  }

  lemma {:induction false} CountLitPrefix(dots: seq<bool>, current: nat)
    requires forall k :: 0 <= k < |dots| ==> (dots[k] <==> k <= current)
    ensures CountLit(dots) == if |dots| <= current then |dots| else current + 1
  {
    if dots != [] {
      CountLitPrefix(dots[..|dots| - 1], current);
    }
  }

  /** With the cursor inside the list, exactly `currentIndex + 1` dots are highlighted. */
  lemma HighlightedDots(n: nat, current: nat)
    requires current < n
    ensures CountLit(ProgressDots(n, current)) == current + 1
  {
    CountLitPrefix(ProgressDots(n, current), current);
  }

  class DiscoverPage {
    /** `useState(mockProfiles)`; `setProfiles` is never called, so the list never changes. */
    const profiles: seq<Candidate>
    var currentIndex: nat
    var isAnimating: bool

    /** The cursor is inside the list, or at 0 when the list is empty. */
    ghost predicate Valid()
      reads this
    {
      currentIndex == 0 || currentIndex < |profiles|
    }

    /** The page opens on the first of the mock profiles, so a card is shown. */
    constructor ()
      ensures Valid() && profiles == MockProfiles
      ensures currentIndex == 0 && !isAnimating
      ensures CurrentProfile() == Some(MockProfiles[0])
    {
      profiles := MockProfiles;
      currentIndex := 0;
      isAnimating := false;
    }

    /**
      `handleAction(action)`: ignored while animating; otherwise it starts the
      animation and schedules its completion. A like and a pass do the same.
     */
    method HandleAction(action: Action) returns (scheduled: bool)
      modifies this
      ensures scheduled <==> !old(isAnimating)
      ensures isAnimating && currentIndex == old(currentIndex)
    {
      if isAnimating {
        return false;
      }
      isAnimating := true;
      scheduled := true;
    }

    /** The timer callback: the cursor advances or wraps, and the animation ends. */
    method CompleteAction()
      requires Valid()
      modifies this
      ensures Valid()
      ensures currentIndex == NextIndex(old(currentIndex), |profiles|)
      ensures !isAnimating
    {
      if currentIndex < |profiles| - 1 {
        currentIndex := currentIndex + 1;
      } else {
        currentIndex := 0;
      }
      isAnimating := false;
    }

    /** `currentProfile`: missing, which shows "No more profiles!", only when the list is empty. */
    function CurrentProfile(): (c: Option<Candidate>)
      reads this
      requires Valid()
      ensures c.None? <==> |profiles| == 0
      ensures c.Some? ==> c.value == profiles[currentIndex]
    {
      ProfileAt(profiles, currentIndex)
    }

    /** The progress dots under the card: `currentIndex + 1` of them are highlighted. */
    function Dots(): (dots: seq<bool>)
      reads this
      requires Valid()
      ensures |dots| == |profiles|
      ensures |profiles| > 0 ==> CountLit(dots) == currentIndex + 1
    {
      if |profiles| > 0 then HighlightedDots(|profiles|, currentIndex); ProgressDots(|profiles|, currentIndex)
      else ProgressDots(|profiles|, currentIndex)
    }
  }
}
