/**
 * The flashcard navigator (components/FlashcardDeck.tsx): a clamped card index, the flip flag,
 * the set of card ids marked known, and the two view toggles. The 100 ms and 150 ms delays
 * before the index moves are taken as one atomic step.
 */
module FlashcardNavigator {
  import opened Artifacts

  /** `currentIndex`, `isFlipped`, `knownCards`, `showAll`, `showTips`. */
  datatype Nav = Nav(index: nat, isFlipped: bool, known: set<int>, showAll: bool, showTips: bool)

  function InitialNav(): Nav {
    Nav(0, false, {}, false, false)
  }

  /** The ids of a deck's cards. */
  function CardIds(cards: seq<Flashcard>): set<int> {
    set c | c in cards :: c.id
  }

  /** A deck of n cards has at most n distinct ids. */
  lemma {:induction false} CardIdsBound(cards: seq<Flashcard>)
    ensures |CardIds(cards)| <= |cards|
  {
    if cards != [] {
      CardIdsBound(cards[1..]);
      assert CardIds(cards) == CardIds(cards[1..]) + {cards[0].id} by {
        forall id | id in CardIds(cards) ensures id in CardIds(cards[1..]) + {cards[0].id} {
          var c :| c in cards && c.id == id;
          if c != cards[0] {
            assert c in cards[1..];
          }
        }
      }
    }
  }

  /** The index points at a card (or is 0 for an empty deck); only the deck's ids are known. */
  predicate NavInv(cards: seq<Flashcard>, s: Nav) {
    (s.index < |cards| || s.index == 0) && s.known <= CardIds(cards)
  }

  /** `goNext`: unflip, then `Math.min(i + 1, cards.length - 1)`. */
  function NextCard(cards: seq<Flashcard>, s: Nav): (r: Nav)
    requires |cards| > 0
    ensures r.index < |cards| && !r.isFlipped
    ensures s.index < |cards| ==> r.index == (if s.index == |cards| - 1 then s.index else s.index + 1)
    ensures r.(index := s.index, isFlipped := s.isFlipped) == s
  {
    s.(isFlipped := false, index := if s.index + 1 < |cards| - 1 then s.index + 1 else |cards| - 1)
  }

  /** `goPrev`: unflip, then `Math.max(i - 1, 0)`. */
  function PrevCard(s: Nav): (r: Nav)
    ensures r.index == (if s.index == 0 then 0 else s.index - 1) && !r.isFlipped
    ensures r.(index := s.index, isFlipped := s.isFlipped) == s
  {
    s.(isFlipped := false, index := if s.index - 1 > 0 then s.index - 1 else 0)
  }

  /** `markKnown`: add the current card's id, then behave as `goNext`. */
  function MarkCardKnown(cards: seq<Flashcard>, s: Nav): (r: Nav)
    requires s.index < |cards|
    ensures r.known == s.known + {cards[s.index].id}
    ensures r.index == NextCard(cards, s).index && !r.isFlipped
    ensures r.showAll == s.showAll && r.showTips == s.showTips
  {
    NextCard(cards, s.(known := s.known + {cards[s.index].id}))
  }

  /** "Still Learning" (line 152): the same move as `goNext`, 150 ms instead of 100 ms later. */
  function StillLearning(cards: seq<Flashcard>, s: Nav): (r: Nav)
    requires |cards| > 0
    ensures r == NextCard(cards, s) && r.known == s.known
  {
    s.(isFlipped := false, index := if s.index + 1 < |cards| - 1 then s.index + 1 else |cards| - 1)
  }

  /** A click on the card turns it over. */
  function FlipCard(s: Nav): (r: Nav)
    ensures r.isFlipped == !s.isFlipped && r.(isFlipped := s.isFlipped) == s
  {
    s.(isFlipped := !s.isFlipped)
  }

  /** "View all cards" / "Back to card view": only the view changes. */
  function ToggleShowAll(s: Nav): (r: Nav)
    ensures r.index == s.index && r.isFlipped == s.isFlipped && r.known == s.known
    ensures r.showAll == !s.showAll && r.showTips == s.showTips
  {
    s.(showAll := !s.showAll)
  }

  /** "Study tips" / "Hide tips": only the tips panel changes. */
  function ToggleShowTips(s: Nav): (r: Nav)
    ensures r.index == s.index && r.isFlipped == s.isFlipped && r.known == s.known
    ensures r.showTips == !s.showTips && r.showAll == s.showAll
  {
    s.(showTips := !s.showTips)
  }

  /** "Previous" is disabled on the first card, "Next" on the last. */
  predicate PrevDisabled(s: Nav) {
    s.index == 0
  }

  predicate NextDisabled(cards: seq<Flashcard>, s: Nav) {
    s.index == |cards| - 1
  }

  /** The controls a user can press. */
  datatype Control = PrevButton | NextButton | StillLearningButton | GotItButton | CardFace | ViewAllToggle | TipsToggle

  /** The card and its controls render only in card view and when `current` exists. */
  predicate Available(cards: seq<Flashcard>, s: Nav, c: Control) {
    c.ViewAllToggle? || c.TipsToggle? || (s.index < |cards| && !s.showAll)
  }

  /** A press of control `c`; a disabled button does nothing. */
  function Press(cards: seq<Flashcard>, s: Nav, c: Control): Nav
    requires Available(cards, s, c)
  {
    match c
    case PrevButton => if PrevDisabled(s) then s else PrevCard(s)
    case NextButton => if NextDisabled(cards, s) then s else NextCard(cards, s)
    case StillLearningButton => StillLearning(cards, s)
    case GotItButton => MarkCardKnown(cards, s)
    case CardFace => FlipCard(s)
    case ViewAllToggle => ToggleShowAll(s)
    case TipsToggle => ToggleShowTips(s)
  }

  /** Every press keeps the index on a card and the known set inside the deck, and only adds to it. */
  lemma PressKeepsInv(cards: seq<Flashcard>, s: Nav, c: Control)
    requires NavInv(cards, s) && Available(cards, s, c)
    ensures NavInv(cards, Press(cards, s, c))
    ensures s.known <= Press(cards, s, c).known
  {
  }

  predicate ValidPresses(cards: seq<Flashcard>, s: Nav, cs: seq<Control>)
    decreases |cs|
  {
    cs == [] || (Available(cards, s, cs[0]) && ValidPresses(cards, Press(cards, s, cs[0]), cs[1..]))
  }

  function RunPresses(cards: seq<Flashcard>, s: Nav, cs: seq<Control>): Nav
    requires ValidPresses(cards, s, cs)
    decreases |cs|
  {
    if cs == [] then s else RunPresses(cards, Press(cards, s, cs[0]), cs[1..])
  }

  /**
   * Under any sequence of presses the index stays in [0, |cards|), the known set stays inside
   * the deck's ids (so never larger than the deck) and never shrinks.
   */
  lemma {:induction false} PressesKeepInv(cards: seq<Flashcard>, s: Nav, cs: seq<Control>)
    requires NavInv(cards, s) && ValidPresses(cards, s, cs)
    ensures NavInv(cards, RunPresses(cards, s, cs))
    ensures s.known <= RunPresses(cards, s, cs).known
    ensures |RunPresses(cards, s, cs).known| <= |cards|
    decreases |cs|
  {
    if cs != [] {
      PressKeepsInv(cards, s, cs[0]);
      PressesKeepInv(cards, Press(cards, s, cs[0]), cs[1..]);
    } else {
      CardIdsBound(cards);
      SubsetCardinality(s.known, CardIds(cards));
    }
  }

  lemma SubsetCardinality(a: set<int>, b: set<int>)
    requires a <= b
    ensures |a| <= |b|
  {
    assert b == a + (b - a);
  }

  /** `k` presses of "Next" (disabled once on the last card) move to card min(index + k, |cards| - 1): a clamp, no wrap-around. */
  lemma {:induction false} RepeatedNext(cards: seq<Flashcard>, s: Nav, k: nat)
    requires s.index < |cards| && !s.showAll
    ensures ValidPresses(cards, s, seq(k, _ => NextButton))
    ensures var r := RunPresses(cards, s, seq(k, _ => NextButton));
      r.index == (if s.index + k < |cards| - 1 then s.index + k else |cards| - 1) && r.known == s.known
    decreases k
  {
    var cs := seq(k, _ => NextButton);
    if k > 0 {
      var s' := Press(cards, s, NextButton);
      assert cs[0] == NextButton && cs[1..] == seq(k - 1, _ => NextButton);
      RepeatedNext(cards, s', k - 1);
    } else {
      assert cs == [];
    }
  }

  /** `k` presses of "Previous" move to card max(index - k, 0). */
  lemma {:induction false} RepeatedPrev(cards: seq<Flashcard>, s: Nav, k: nat)
    requires s.index < |cards| && !s.showAll
    ensures ValidPresses(cards, s, seq(k, _ => PrevButton))
    ensures var r := RunPresses(cards, s, seq(k, _ => PrevButton));
      r.index == (if s.index >= k then s.index - k else 0) && r.known == s.known
    decreases k
  {
    var cs := seq(k, _ => PrevButton);
    if k > 0 {
      var s' := Press(cards, s, PrevButton);
      assert cs[0] == PrevButton && cs[1..] == seq(k - 1, _ => PrevButton);
      RepeatedPrev(cards, s', k - 1);
    } else {
      assert cs == [];
    }
  }

  /** An enabled "Next" or "Previous" moves exactly one card and shows the new card's front. */
  lemma EnabledMovesOneCard(cards: seq<Flashcard>, s: Nav)
    requires s.index < |cards| && !s.showAll
    ensures !NextDisabled(cards, s) ==> Press(cards, s, NextButton).index == s.index + 1 && !Press(cards, s, NextButton).isFlipped
    ensures !PrevDisabled(s) ==> Press(cards, s, PrevButton).index == s.index - 1 && !Press(cards, s, PrevButton).isFlipped
    ensures NextDisabled(cards, s) ==> Press(cards, s, NextButton) == s
    ensures PrevDisabled(s) ==> Press(cards, s, PrevButton) == s
  {
  }

  /** The component, with the deck it was given. */
  class FlashcardDeck {
    const cards: seq<Flashcard>
    var currentIndex: nat
    var isFlipped: bool
    var knownCards: set<int>
    var showAll: bool
    var showTips: bool

    ghost function State(): Nav
      reads this
    {
      Nav(currentIndex, isFlipped, knownCards, showAll, showTips)
    }

    ghost predicate Valid()
      reads this
    {
      NavInv(cards, State())
    }

    constructor (data: FlashcardDeckData)
      ensures cards == data.flashcards && State() == InitialNav() && Valid()
    {
      cards := data.flashcards;
      currentIndex, isFlipped, knownCards, showAll, showTips := 0, false, {}, false, false;
    }

    method GoNext()
      requires Valid() && |cards| > 0
      modifies this
      ensures Valid() && State() == NextCard(cards, old(State()))
    {
      isFlipped := false;
      currentIndex := if currentIndex + 1 < |cards| - 1 then currentIndex + 1 else |cards| - 1;
    }

    method GoPrev()
      requires Valid()
      modifies this
      ensures Valid() && State() == PrevCard(old(State()))
    {
      isFlipped := false;
      currentIndex := if currentIndex - 1 > 0 then currentIndex - 1 else 0;
    }

    method MarkKnown()
      requires Valid() && currentIndex < |cards|
      modifies this
      ensures Valid() && State() == MarkCardKnown(cards, old(State()))
      ensures old(knownCards) <= knownCards
    {
      knownCards := knownCards + {cards[currentIndex].id};
      GoNext();
    }

    method KeepLearning()
      requires Valid() && |cards| > 0
      modifies this
      ensures Valid() && State() == StillLearning(cards, old(State()))
    {
      isFlipped := false;
      currentIndex := if currentIndex + 1 < |cards| - 1 then currentIndex + 1 else |cards| - 1;
    }

    method Flip()
      requires Valid()
      modifies this
      ensures Valid() && State() == FlipCard(old(State()))
    {
      isFlipped := !isFlipped;
    }

    method ShowAllToggle()
      requires Valid()
      modifies this
      ensures Valid() && State() == ToggleShowAll(old(State()))
    {
      showAll := !showAll;
    }

    method ShowTipsToggle()
      requires Valid()
      modifies this
      ensures Valid() && State() == ToggleShowTips(old(State()))
    {
      showTips := !showTips;
    }
  }
}
