/**
 * The flashcard deck: a list of cards each with a learned flag, a current
 * card, and the set of card ids currently turned over. A card is flipped by
 * clicking it; the current card can be marked learned once it is flipped,
 * which also moves on to the next card; "study again" clears every flag.
 */
module Flashcards {

  datatype Flashcard = Flashcard(id: int, front: string, back: string, learned: bool)

  /** The five built-in cards, with ids 1 to 5, none learned. */
  function SampleFlashcards(): seq<Flashcard> {
    [ Flashcard(1, "What is blockchain consensus?",
                "A mechanism that ensures all network participants agree on the same version of the distributed ledger", false),
      Flashcard(2, "Define Smart Contract",
                "Self-executing contracts with terms directly written into code, running on blockchain networks", false),
      Flashcard(3, "What is DeFi?",
                "Decentralized Finance - financial services built on blockchain without traditional intermediaries", false),
      Flashcard(4, "Explain Gas Fees",
                "Transaction fees paid to network validators for processing and confirming blockchain transactions", false),
      Flashcard(5, "What is a Wallet?",
                "A digital tool that stores private keys and allows users to interact with blockchain networks", false)
    ]
  }

  /** The built-in deck has five cards with distinct ids, none learned yet. */
  lemma SampleFlashcardsWellFormed()
    ensures |SampleFlashcards()| == 5
    ensures forall i, j :: 0 <= i < j < |SampleFlashcards()| ==> SampleFlashcards()[i].id != SampleFlashcards()[j].id
    ensures forall i :: 0 <= i < |SampleFlashcards()| ==> !SampleFlashcards()[i].learned
  {
  }

  /** The two lists hold the same cards in the same order, learned flags aside. */
  predicate SameCards(a: seq<Flashcard>, b: seq<Flashcard>) {
    && |a| == |b|
    && forall i :: 0 <= i < |a| ==> a[i].id == b[i].id && a[i].front == b[i].front && a[i].back == b[i].back
  }

  // ---------------------------------------------------------------------
  // The pieces each handler is made of.

  /** Adds `id` to the flipped set when absent, removes it when present. */
  function Toggle(flipped: set<int>, id: int): (r: set<int>)
    ensures id in r <==> id !in flipped
    ensures forall other :: other != id ==> (other in r <==> other in flipped)
  {
    if id in flipped then flipped - {id} else flipped + {id}
  }

  /** Flipping a card twice turns it back. */
  lemma ToggleTwice(flipped: set<int>, id: int)
    ensures Toggle(Toggle(flipped, id), id) == flipped
  {
  }

  /** Every card whose id is `id` becomes learned; nothing else changes. */
  function MarkLearned(cards: seq<Flashcard>, id: int): (r: seq<Flashcard>)
    ensures SameCards(cards, r)
    ensures forall i :: 0 <= i < |r| ==> r[i].learned == (cards[i].learned || cards[i].id == id)
  {
    if cards == [] then []
    else [if cards[0].id == id then cards[0].(learned := true) else cards[0]] + MarkLearned(cards[1..], id)
  }

  /** Every card becomes unlearned; ids and text are kept. */
  function Unlearn(cards: seq<Flashcard>): (r: seq<Flashcard>)
    ensures SameCards(cards, r)
    ensures forall i :: 0 <= i < |r| ==> !r[i].learned
  {
    if cards == [] then [] else [cards[0].(learned := false)] + Unlearn(cards[1..])
  }

  /** The number of learned cards: the progress bar's numerator. */
  function LearnedCount(cards: seq<Flashcard>): (n: nat)
    ensures n <= |cards|
  {
    if cards == [] then 0 else (if cards[0].learned then 1 else 0) + LearnedCount(cards[1..])
  }

  predicate AllLearned(cards: seq<Flashcard>) {
    forall i :: 0 <= i < |cards| ==> cards[i].learned
  }

  /** The "all mastered" screen shows exactly when the learned count reaches the deck size. */
  lemma {:induction false} AllLearnedIffCountIsSize(cards: seq<Flashcard>)
    ensures AllLearned(cards) <==> LearnedCount(cards) == |cards|
  {
    if cards != [] {
      AllLearnedIffCountIsSize(cards[1..]);
      assert AllLearned(cards) <==> cards[0].learned && AllLearned(cards[1..]) by {
        if cards[0].learned && AllLearned(cards[1..]) {
          forall i | 0 <= i < |cards| ensures cards[i].learned {
            if i > 0 { assert cards[i] == cards[1..][i - 1]; }
          }
        }
      }
    }
  }

  /** Learned flags that only go from false to true never lower the count. */
  lemma {:induction false} CountMonotone(a: seq<Flashcard>, b: seq<Flashcard>)
    requires |a| == |b|
    requires forall i :: 0 <= i < |a| ==> a[i].learned ==> b[i].learned
    ensures LearnedCount(a) <= LearnedCount(b)
  {
    if a != [] {
      CountMonotone(a[1..], b[1..]);
    }
  }

  /** ... and raise it when one of them does go from false to true. */
  lemma {:induction false} CountRises(a: seq<Flashcard>, b: seq<Flashcard>, j: nat)
    requires |a| == |b| && j < |a|
    requires forall i :: 0 <= i < |a| ==> a[i].learned ==> b[i].learned
    requires !a[j].learned && b[j].learned
    ensures LearnedCount(a) < LearnedCount(b)
  {
    if j == 0 {
      CountMonotone(a[1..], b[1..]);
    } else {
      CountRises(a[1..], b[1..], j - 1);
    }
  }

  lemma {:induction false} NoneLearnedCountsZero(cards: seq<Flashcard>)
    requires forall i :: 0 <= i < |cards| ==> !cards[i].learned
    ensures LearnedCount(cards) == 0
  {
    if cards != [] {
      NoneLearnedCountsZero(cards[1..]);
    }
  }

  // ---------------------------------------------------------------------
  // The deck's state and its transitions.

  datatype DeckState = DeckState(flashcards: seq<Flashcard>, currentIndex: nat, flippedCards: set<int>)

  /** The deck starts on its first card, nothing flipped. */
  function Start(cards: seq<Flashcard>): DeckState {
    DeckState(cards, 0, {})
  }

  /** The current card stays within the deck. */
  predicate Inv(s: DeckState) {
    s.currentIndex < |s.flashcards|
  }

  /** handleFlip: toggles one card id. */
  function Flip(s: DeckState, cardId: int): (r: DeckState)
    ensures r.flashcards == s.flashcards && r.currentIndex == s.currentIndex
    ensures cardId in r.flippedCards <==> cardId !in s.flippedCards
    ensures forall other :: other != cardId ==> (other in r.flippedCards <==> other in s.flippedCards)
  {
    s.(flippedCards := Toggle(s.flippedCards, cardId))
  }

  /** nextCard: moves on and turns every card back, unless on the last card. */
  function Advance(s: DeckState): (r: DeckState)
    ensures r.flashcards == s.flashcards
    ensures s.currentIndex < |s.flashcards| - 1 ==> r.currentIndex == s.currentIndex + 1 && r.flippedCards == {}
    ensures s.currentIndex >= |s.flashcards| - 1 ==> r == s
  {
    if s.currentIndex < |s.flashcards| - 1 then s.(currentIndex := s.currentIndex + 1, flippedCards := {})
    else s
  }

  /** markAsLearned: marks every card with the current card's id, then nextCard. */
  function MarkCurrent(s: DeckState): (r: DeckState)
    requires Inv(s)
    ensures SameCards(s.flashcards, r.flashcards)
    ensures r.flashcards[s.currentIndex].learned
    ensures forall i :: 0 <= i < |s.flashcards| ==>
      r.flashcards[i].learned == (s.flashcards[i].learned || s.flashcards[i].id == s.flashcards[s.currentIndex].id)
    ensures r.currentIndex == Advance(s).currentIndex && r.flippedCards == Advance(s).flippedCards
  {
    Advance(s.(flashcards := MarkLearned(s.flashcards, s.flashcards[s.currentIndex].id)))
  }

  /** resetCards: every card unlearned, back to the first card, nothing flipped. */
  function Reset(s: DeckState): (r: DeckState)
    ensures SameCards(s.flashcards, r.flashcards)
    ensures LearnedCount(r.flashcards) == 0
    ensures r.currentIndex == 0 && r.flippedCards == {}
  {
    var cards := Unlearn(s.flashcards);
    NoneLearnedCountsZero(cards);
    DeckState(cards, 0, {})
  }

  /** Whether the current card is turned over (false when there is no current card). */
  predicate IsFlipped(s: DeckState)
    ensures IsFlipped(s) ==> Inv(s) && s.flippedCards != {}
  {
    s.currentIndex < |s.flashcards| && s.flashcards[s.currentIndex].id in s.flippedCards
  }

  /**
   * From a deck with nothing turned over, flipping a card shows the current
   * card flipped exactly when the flipped id is the current card's.
   */
  lemma FlipShowsOnlyThatCard(s: DeckState, id: int)
    requires Inv(s) && s.flippedCards == {}
    ensures IsFlipped(Flip(s, id)) <==> id == s.flashcards[s.currentIndex].id
    ensures MarkEnabled(Flip(s, id)) <==> id == s.flashcards[s.currentIndex].id
  {
  }

  /** The face shown belongs to the card id: two cards with the same id are flipped together. */
  lemma SameIdSameFace(s: DeckState, i: nat)
    requires Inv(s) && i < |s.flashcards| && s.flashcards[i].id == s.flashcards[s.currentIndex].id
    ensures IsFlipped(s) <==> IsFlipped(s.(currentIndex := i))
  {
  }

  /** The "mark as learned" button is enabled only while the current card is flipped. */
  predicate MarkEnabled(s: DeckState)
    ensures MarkEnabled(s) ==> Inv(s) && MarkCurrent(s).flashcards[s.currentIndex].learned
  {
    IsFlipped(s)
  }

  /** The "next" button is disabled on the last card: it is enabled exactly when pressing it moves to another card. */
  predicate NextEnabled(s: DeckState)
    ensures NextEnabled(s) <==> Advance(s).currentIndex != s.currentIndex
  {
    !(s.currentIndex >= |s.flashcards| - 1)
  }

  /**
   * Flipping the current card switches the mark button on or off, and
   * moving to another card switches it off.
   */
  lemma MarkEnablement(s: DeckState)
    requires Inv(s)
    ensures MarkEnabled(Flip(s, s.flashcards[s.currentIndex].id)) <==> !MarkEnabled(s)
    ensures NextEnabled(s) ==> !MarkEnabled(Advance(s))
  {
  }

  /** The user's actions on the deck. */
  datatype Action = FlipCard(cardId: int) | MarkAsLearned | NextCard | ResetCards

  function Step(s: DeckState, a: Action): DeckState
    requires Inv(s)
  {
    match a
    case FlipCard(id) => Flip(s, id)
    case MarkAsLearned => MarkCurrent(s)
    case NextCard => Advance(s)
    case ResetCards => Reset(s)
  }

  /**
   * Every action keeps the current card inside the deck and keeps the
   * deck's cards (ids, fronts, backs, order) as they are.
   */
  lemma StepPreservesDeck(s: DeckState, a: Action)
    requires Inv(s)
    ensures Inv(Step(s, a)) && SameCards(s.flashcards, Step(s, a).flashcards)
  {
  }

  /** The learned count never goes down except on reset. */
  lemma {:induction false} LearnedNeverDecreases(s: DeckState, a: Action)
    requires Inv(s) && a != ResetCards
    ensures LearnedCount(s.flashcards) <= LearnedCount(Step(s, a).flashcards)
  {
    if a == MarkAsLearned {
      CountMonotone(s.flashcards, Step(s, a).flashcards);
    }
  }

  /** Marking an unlearned current card raises the learned count. */
  lemma {:induction false} MarkingNewCardRaisesCount(s: DeckState)
    requires Inv(s) && !s.flashcards[s.currentIndex].learned
    ensures LearnedCount(s.flashcards) < LearnedCount(MarkCurrent(s).flashcards)
  {
    CountRises(s.flashcards, MarkCurrent(s).flashcards, s.currentIndex);
  }

  // ---------------------------------------------------------------------
  // The component.

  class FlashcardDeck {
    var flashcards: seq<Flashcard>
    var currentIndex: nat
    var flippedCards: set<int>

    function State(): DeckState
      reads this
    {
      DeckState(flashcards, currentIndex, flippedCards)
    }

    ghost predicate Valid()
      reads this
    {
      Inv(State())
    }

    constructor (cards: seq<Flashcard>)
      requires |cards| > 0
      ensures Valid() && State() == Start(cards)
    {
      flashcards := cards;
      currentIndex := 0;
      flippedCards := {};
    }

    method HandleFlip(cardId: int)
      requires Valid()
      modifies this
      ensures Valid() && State() == Flip(old(State()), cardId)
    {
      if cardId in flippedCards {
        flippedCards := flippedCards - {cardId};
      } else {
        flippedCards := flippedCards + {cardId};
      }
    }

    method NextCard()
      requires Valid()
      modifies this
      ensures Valid() && State() == Advance(old(State()))
    {
      if currentIndex < |flashcards| - 1 {
        currentIndex := currentIndex + 1;
        flippedCards := {};
      }
    }

    method MarkAsLearned()
      requires Valid()
      modifies this
      ensures Valid() && State() == MarkCurrent(old(State()))
    {
      flashcards := MarkLearned(flashcards, flashcards[currentIndex].id);
      NextCard();
    }

    method ResetCards()
      requires Valid()
      modifies this
      ensures Valid() && State() == Reset(old(State()))
    {
      flashcards := Unlearn(flashcards);
      currentIndex := 0;
      flippedCards := {};
    }
  }
}
