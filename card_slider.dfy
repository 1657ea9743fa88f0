/** The news-card carousel of src/components/CardSlider.tsx: a window of
    `visibleCards` cards starting at `currentIndex`, moved by the arrows and
    the indicator dots. */
module Cards {
  import opened Js

  datatype NewsCard = NewsCard(title: string, description: string, image: Option<string>)

  /** `{ ...card, index: cardIndex }`: a card as the window lists it. */
  datatype Shown = Shown(card: NewsCard, index: int)

  /** `Math.max(0, cards.length - visibleCards)`: the last start position. */
  function MaxIndex(count: nat, visibleCards: int): (m: nat)
    ensures m >= count - visibleCards
    ensures m == 0 || m == count - visibleCards
  {
    if count - visibleCards > 0 then count - visibleCards else 0
  }

  /** goToNext: the last start position wraps round to the first. */
  function Next(i: int, maxIndex: int): (r: int)
    ensures 0 <= i <= maxIndex ==> 0 <= r <= maxIndex
    ensures i == maxIndex ==> r == 0
    ensures i != maxIndex ==> r == i + 1
  {
    if i == maxIndex then 0 else i + 1
  }

  /** goToPrevious: the first start position wraps round to the last. */
  function Previous(i: int, maxIndex: int): (r: int)
    ensures 0 <= i <= maxIndex ==> 0 <= r <= maxIndex
    ensures i == 0 ==> r == maxIndex
    ensures i != 0 ==> r == i - 1
  {
    if i == 0 then maxIndex else i - 1
  }

  /** Forward then back, or back then forward, returns to the same card. */
  lemma NextPreviousInverse(i: int, maxIndex: int)
    requires 0 <= i <= maxIndex
    ensures Previous(Next(i, maxIndex), maxIndex) == i
    ensures Next(Previous(i, maxIndex), maxIndex) == i
  {
  }

  /** The user's controls: the two arrows and the dot for a start position. */
  datatype Control = Back | Forward | Indicator(k: int)

  function Press(i: int, c: Control, maxIndex: int): int
  {
    match c
    case Back => Previous(i, maxIndex)
    case Forward => Next(i, maxIndex)
    case Indicator(k) => k
  }

  /** The position after a sequence of presses. */
  function Replay(i: int, presses: seq<Control>, maxIndex: int): int
    decreases |presses|
  {
    if presses == [] then i else Replay(Press(i, presses[0], maxIndex), presses[1..], maxIndex)
  }

  /** Dots exist for positions 0 to maxIndex only. */
  predicate RenderedDots(presses: seq<Control>, maxIndex: int) {
    forall j :: 0 <= j < |presses| && presses[j].Indicator? ==> 0 <= presses[j].k <= maxIndex
  }

  /** Whatever the user presses, the start position stays in 0 to maxIndex. */
  lemma {:induction false} ReplayStaysInRange(i: int, presses: seq<Control>, maxIndex: int)
    requires 0 <= i <= maxIndex
    requires RenderedDots(presses, maxIndex)
    ensures 0 <= Replay(i, presses, maxIndex) <= maxIndex
    decreases |presses|
  {
    if presses != [] {
      assert RenderedDots(presses[1..], maxIndex) by {
        forall j | 0 <= j < |presses[1..]| && presses[1..][j].Indicator?
          ensures 0 <= presses[1..][j].k <= maxIndex
        {
          assert presses[1..][j] == presses[j + 1];
        }
      }
      ReplayStaysInRange(Press(i, presses[0], maxIndex), presses[1..], maxIndex);
    }
  }

  /** How many cards the loop of getVisibleCards takes: `visibleCards`, but no
      more than there are and none when `visibleCards` is not positive. */
  function VisibleCount(count: nat, visibleCards: int): (n: nat)
    ensures n <= count
    ensures visibleCards >= 0 ==> n <= visibleCards
    ensures n == count || n == visibleCards || (n == 0 && visibleCards <= 0)
    ensures visibleCards <= 0 ==> n == 0
  {
    if visibleCards <= 0 then 0 else if visibleCards < count then visibleCards else count
  }

  /** `(currentIndex + i) % cards.length`: the i-th position from `current`, round the end. */
  function Slot(current: int, i: int, m: int): (k: int)
    requires m > 0
    ensures 0 <= k < m
  {
    (current + i) % m
  }

  /** The cards getVisibleCards lists from `current`, reading round the end. */
  function Window(cards: seq<NewsCard>, visibleCards: int, current: int): (w: seq<Shown>)
    ensures |w| == VisibleCount(|cards|, visibleCards)
    ensures forall i :: 0 <= i < |w| ==> 0 <= w[i].index < |cards| && w[i].card == cards[w[i].index]
    ensures |w| > 0 ==> w[0].index == current % |cards|
    ensures forall i :: 0 < i < |w| ==> w[i].index == Next(w[i - 1].index, |cards| - 1)
  {
    var n := VisibleCount(|cards|, visibleCards);
    WindowSteps(current, |cards|, n);
    seq(n, i requires 0 <= i < n => Shown(cards[Slot(current, i, |cards|)], Slot(current, i, |cards|)))
  }

  /** Reading round the end: the card after position `a mod m` is position `(a + 1) mod m`. */
  lemma RemainderNext(a: int, m: int)
    requires m > 0
    ensures (a + 1) % m == Next(a % m, m - 1)
  {
    var q, r := a / m, a % m;
    if r == m - 1 {
      RemainderOf(a + 1, m, q + 1, 0);
    } else {
      RemainderOf(a + 1, m, q, r + 1);
    }
  }

  lemma WindowSteps(current: int, m: nat, n: nat)
    requires n <= m
    ensures forall i :: 0 < i < n ==> Slot(current, i, m) == Next(Slot(current, i - 1, m), m - 1)
  {
    forall i | 0 < i < n
      ensures Slot(current, i, m) == Next(Slot(current, i - 1, m), m - 1)
    {
      RemainderNext(current + i - 1, m);
    }
  }

  /** From every start position the carousel can reach, the window does not
      actually wrap: it is the run of cards from `current` on, in order. */
  lemma WindowIsRun(cards: seq<NewsCard>, visibleCards: int, current: int)
    requires 0 <= current <= MaxIndex(|cards|, visibleCards)
    ensures visibleCards > 0 ==> current + VisibleCount(|cards|, visibleCards) <= |cards|
    ensures forall i :: 0 <= i < |Window(cards, visibleCards, current)| ==>
              Window(cards, visibleCards, current)[i] == Shown(cards[current + i], current + i)
  {
    var n := VisibleCount(|cards|, visibleCards);
    var w := Window(cards, visibleCards, current);
    if visibleCards > 0 && visibleCards < |cards| {
      assert current <= |cards| - visibleCards;
    }
    forall i | 0 <= i < |w|
      ensures w[i] == Shown(cards[current + i], current + i)
    {
      SmallRemainder(current + i, |cards|);
    }
  }

  lemma SmallRemainder(a: int, m: int)
    requires 0 <= a < m
    ensures a % m == a
  {
  }

  /** What the component draws: the window, whether the arrows are shown, and
      one dot per start position telling whether it is the current one. */
  datatype Frame = Frame(shown: seq<Shown>, arrows: bool, dots: seq<bool>)

  class CardSlider {
    const cards: seq<NewsCard>
    const visibleCards: int
    var currentIndex: int

    predicate Valid()
      reads this
    {
      0 <= currentIndex <= MaxIndex(|cards|, visibleCards)
    }

    /** `visibleCards = 3` is the default the caller may override. */
    constructor (cards: seq<NewsCard>, visibleCards: int)
      ensures this.cards == cards && this.visibleCards == visibleCards
      ensures Valid() && currentIndex == 0
    {
      this.cards := cards;
      this.visibleCards := visibleCards;
      currentIndex := 0;
    }

    method GoToPrevious()
      requires Valid()
      modifies this
      ensures Valid()
      ensures currentIndex == Previous(old(currentIndex), MaxIndex(|cards|, visibleCards))
    {
      var maxIndex := MaxIndex(|cards|, visibleCards);
      currentIndex := if currentIndex == 0 then maxIndex else currentIndex - 1;
    }

    method GoToNext()
      requires Valid()
      modifies this
      ensures Valid()
      ensures currentIndex == Next(old(currentIndex), MaxIndex(|cards|, visibleCards))
    {
      var maxIndex := MaxIndex(|cards|, visibleCards);
      currentIndex := if currentIndex == maxIndex then 0 else currentIndex + 1;
    }

    /** A click on dot `k`; the dots are drawn for 0 to maxIndex, and only
        when there are more cards than fit. */
    method SelectIndicator(k: int)
      requires Valid()
      requires |cards| > visibleCards && 0 <= k <= MaxIndex(|cards|, visibleCards)
      modifies this
      ensures Valid() && currentIndex == k
    {
      currentIndex := k;
    }

    /** getVisibleCards: the loop that collects the window. */
    method GetVisibleCards() returns (visible: seq<Shown>)
      requires Valid()
      ensures |visible| == VisibleCount(|cards|, visibleCards)
      ensures forall i :: 0 <= i < |visible| ==>
                0 < |cards| && visible[i] == Shown(cards[(currentIndex + i) % |cards|], (currentIndex + i) % |cards|)
      ensures visible == Window(cards, visibleCards, currentIndex)
    {
      visible := [];
      var i := 0;
      while i < visibleCards && i < |cards|
        invariant 0 <= i <= |cards| && i == |visible|
        invariant i <= VisibleCount(|cards|, visibleCards)
        invariant forall j :: 0 <= j < i ==>
                    visible[j] == Shown(cards[(currentIndex + j) % |cards|], (currentIndex + j) % |cards|)
      {
        var cardIndex := (currentIndex + i) % |cards|;
        visible := visible + [Shown(cards[cardIndex], cardIndex)];
        i := i + 1;
      }
    }

    /** The rendered component; None is `return null`. */
    function Render(): (r: Option<Frame>)
      reads this
      requires Valid()
      ensures r.None? <==> |cards| == 0
      ensures r.Some? ==> r.value.shown == Window(cards, visibleCards, currentIndex)
      ensures r.Some? ==> (r.value.arrows <==> |cards| > visibleCards)
      ensures r.Some? && r.value.arrows ==>
                |r.value.dots| == MaxIndex(|cards|, visibleCards) + 1 && r.value.dots[currentIndex] &&
                forall j :: 0 <= j < |r.value.dots| && j != currentIndex ==> !r.value.dots[j]
      ensures r.Some? && !r.value.arrows ==> r.value.dots == []
    {
      if |cards| == 0 then None
      else
        var more := |cards| > visibleCards;
        var current := currentIndex;
        var count := MaxIndex(|cards|, visibleCards) + 1;
        Some(Frame(Window(cards, visibleCards, currentIndex), more,
                   if more then seq(count, j requires 0 <= j < count => j == current) else []))
    }
  }
}
