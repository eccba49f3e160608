/**
 * The reasons panel: five closed cards that the visitor opens and closes. The first time
 * every card has been opened at least once, the panel calls `onAllOpened`, once.
 */
module WhyMartinaPanel {

  /** The ids of the five cards. */
  const ItemIds: seq<string> := ["1", "2", "3", "4", "5"]

  /** `!!opened[id]`: a card absent from the record is closed. */
  predicate IsOpen(cards: map<string, bool>, id: string) {
    id in cards && cards[id]
  }

  /** The record after `setOpened(prev => ({ ...prev, [id]: !prev[id] }))`. */
  function Flip(cards: map<string, bool>, id: string): (r: map<string, bool>)
    ensures IsOpen(r, id) == !IsOpen(cards, id)
    ensures forall x :: x != id ==> IsOpen(r, x) == IsOpen(cards, x)
    ensures r.Keys == cards.Keys + {id}
  {
    cards[id := !IsOpen(cards, id)]
  }

  /** Flipping a card twice leaves every card as it was. */
  lemma FlipTwice(cards: map<string, bool>, id: string, x: string)
    ensures IsOpen(Flip(Flip(cards, id), id), x) == IsOpen(cards, x)
  {
  }

  /** Every card has been opened at some point. */
  predicate AllOpened(ever: set<string>) {
    forall i :: 0 <= i < |ItemIds| ==> ItemIds[i] in ever
  }

  class WhyMartinaPanel {
    /** `opened`: which cards are open now. */
    var openedCards: map<string, bool>
    /** `openedEverRef`: the cards opened at least once. The record only ever stores
        `true`, so it is a set. */
    var openedEver: set<string>
    /** `allOpenedCalledRef`: whether `onAllOpened` was called. */
    var allOpenedCalled: bool

    ghost predicate Valid()
      reads this
    {
      && (forall x :: IsOpen(openedCards, x) ==> x in openedEver)
      && (allOpenedCalled <==> AllOpened(openedEver))
    }

    constructor ()
      ensures Valid()
      ensures openedCards == map[] && openedEver == {} && !allOpenedCalled
    {
      openedCards := map[];
      openedEver := {};
      allOpenedCalled := false;
      new;
      assert !AllOpened(openedEver) by { assert ItemIds[0] !in openedEver; }
    }

    /** `toggle(id)`: flips the card; opening it records it as opened, and if that
        completes the set for the first time, calls `onAllOpened`. Returns whether it was
        called. */
    method Toggle(id: string) returns (calledOnAllOpened: bool)
      requires Valid()
      modifies this
      ensures Valid()
      ensures openedCards == Flip(old(openedCards), id)
      ensures openedEver == if IsOpen(openedCards, id) then old(openedEver) + {id} else old(openedEver)
      ensures old(openedEver) <= openedEver
      ensures old(allOpenedCalled) ==> allOpenedCalled
      ensures calledOnAllOpened <==> !AllOpened(old(openedEver)) && AllOpened(openedEver)
      ensures calledOnAllOpened ==> !old(allOpenedCalled) && allOpenedCalled
    {
      var willOpen := !IsOpen(openedCards, id);
      openedCards := Flip(openedCards, id);
      calledOnAllOpened := false;
      if willOpen {
        openedEver := openedEver + {id};
        if !allOpenedCalled {
          var all := AllOpened(openedEver);
          if all {
            allOpenedCalled := true;
            calledOnAllOpened := true;
          }
        }
      }
    }
  }

  /** Opening the five cards one after another calls `onAllOpened` on the fifth. */
  method OpenAllInOrder() returns (calls: seq<bool>)
    ensures calls == [false, false, false, false, true]
  {
    var p := new WhyMartinaPanel();
    var c1 := p.Toggle("1");
    var c2 := p.Toggle("2");
    var c3 := p.Toggle("3");
    var c4 := p.Toggle("4");
    assert p.openedEver == {"1", "2", "3", "4"};
    assert !AllOpened(p.openedEver) by {
      assert ItemIds[4] == "5" && "5" !in p.openedEver;
    }
    var c5 := p.Toggle("5");
    assert p.openedEver == {"1", "2", "3", "4", "5"};
    calls := [c1, c2, c3, c4, c5];
  }
}
