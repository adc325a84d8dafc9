/** One tile of the grid: a three-state machine (Hidden, Visible, Matched)
    whose every state write notifies the card's own observers, and whose
    flip and close animations complete later, one tween at a time. */
module Cards {
  import opened Seqs
  import opened Enums
  import opened Events

  /** A tween in flight on the face transform. The flip scales the face out
      (then swaps in the original face) and back in (then sets Visible); the
      close does the same with the back sprite and ends in Hidden. */
  datatype Tween = FlipOut | FlipIn | CloseOut | CloseIn

  type CardDelivery = Delivery<Card, CardEventType>

  class Card {
    var id: int
    var originalFace: Option<Sprite>
    /** The sprite the face image currently shows. */
    var shownFace: Option<Sprite>
    var state: CardState
    /** Tweens started and not yet completed, in any completion order. */
    var tweens: seq<Tween>
    const backSprite: Sprite
    const events: EventManager<Card, CardEventType>

    /** A freshly instantiated card prefab. */
    constructor (back: Sprite)
      ensures id == 0 && originalFace == None && shownFace == Some(back)
      ensures state == Hidden && tweens == [] && backSprite == back
      ensures fresh(events) && events.observers == []
    {
      id := 0;
      originalFace := None;
      shownFace := Some(back);
      state := Hidden;
      tweens := [];
      backSprite := back;
      events := new EventManager();
    }

    /** The `State` setter: writes the state, then notifies once. */
    method SetState(s: CardState) returns (ds: seq<CardDelivery>)
      modifies this`state
      ensures state == s
      ensures ds == Broadcast(events.observers, this, CardFlipped)
    {
      state := s;
      ds := events.NotifyObservers(this, CardFlipped);
    }

    /** Assigns a new face and id and hides the card. The notification goes
        out while the previous face and id are still in place. */
    method SetCardFace(newFace: Sprite, newId: int) returns (ds: seq<CardDelivery>)
      modifies this`state, this`originalFace, this`shownFace, this`id
      ensures state == Hidden && originalFace == Some(newFace)
      ensures shownFace == Some(backSprite) && id == newId
      ensures ds == Broadcast(events.observers, this, CardFlipped)
    {
      ds := SetState(Hidden);
      originalFace := Some(newFace);
      shownFace := Some(backSprite);
      id := newId;
    }

    /** Ignored on a matched card; otherwise kills every tween in flight and
        starts the first half of the flip. The state is not written yet. */
    method FlipCard()
      modifies this`tweens
      ensures old(state) == Matched ==> tweens == old(tweens)
      ensures old(state) != Matched ==> tweens == [FlipOut]
    {
      if state == Matched {
        return;
      }
      tweens := [FlipOut];
    }

    /** Starts the first half of the close, only on a visible card. Tweens
        already in flight are not killed. */
    method CloseCard()
      modifies this`tweens
      ensures tweens == Closing(old(tweens), state)
    {
      if state == Visible {
        tweens := tweens + [CloseOut];
      }
    }

    /** Sets Matched whatever the state was, and notifies. */
    method MatchCard() returns (ds: seq<CardDelivery>)
      modifies this`state
      ensures state == Matched
      ensures ds == Broadcast(events.observers, this, CardFlipped)
    {
      ds := SetState(Matched);
    }

    /** The completion callback of tween `k`. A first half swaps the sprite
        and starts the second half; a second half writes the final state
        (whatever the state is by then) and notifies. */
    method CompleteTween(k: nat) returns (ds: seq<CardDelivery>)
      requires k < |tweens|
      modifies this`state, this`shownFace, this`tweens
      ensures old(tweens[k]) == FlipOut ==>
        shownFace == originalFace && tweens == old(tweens)[k := FlipIn] &&
        state == old(state) && ds == []
      ensures old(tweens[k]) == CloseOut ==>
        shownFace == Some(backSprite) && tweens == old(tweens)[k := CloseIn] &&
        state == old(state) && ds == []
      ensures old(tweens[k]) == FlipIn ==>
        state == Visible && shownFace == old(shownFace) &&
        tweens == old(tweens)[..k] + old(tweens)[k + 1..] &&
        ds == Broadcast(events.observers, this, CardFlipped)
      ensures old(tweens[k]) == CloseIn ==>
        state == Hidden && shownFace == old(shownFace) &&
        tweens == old(tweens)[..k] + old(tweens)[k + 1..] &&
        ds == Broadcast(events.observers, this, CardFlipped)
    {
      match tweens[k]
      case FlipOut =>
        shownFace := originalFace;
        tweens := tweens[k := FlipIn];
        ds := [];
      case CloseOut =>
        shownFace := Some(backSprite);
        tweens := tweens[k := CloseIn];
        ds := [];
      case FlipIn =>
        tweens := tweens[..k] + tweens[k + 1..];
        ds := SetState(Visible);
      case CloseIn =>
        tweens := tweens[..k] + tweens[k + 1..];
        ds := SetState(Hidden);
    }
  }

  /** The tweens after `CloseCard` on a card in state `s`. */
  function Closing(tweens: seq<Tween>, s: CardState): seq<Tween>
  {
    if s == Visible then tweens + [CloseOut] else tweens
  }

  /** A card given a face, flipped open and closed again, with every tween
      run to completion, ends hidden with the same id, showing its back. */
  method FlipThenClose(back: Sprite, face: Sprite, id: int) returns (card: Card)
    ensures card.state == Hidden && card.id == id && card.tweens == []
    ensures card.shownFace == Some(back) && card.originalFace == Some(face)
  {
    card := new Card(back);
    var ds := card.SetCardFace(face, id);
    card.FlipCard();
    ds := card.CompleteTween(0);
    assert card.shownFace == Some(face);
    ds := card.CompleteTween(0);
    assert card.state == Visible;
    card.CloseCard();
    ds := card.CompleteTween(0);
    ds := card.CompleteTween(0);
  }

  /** With one observer, each state write (the reset in `SetCardFace`, the
      match) delivers exactly one `CardFlipped` to it. */
  method OneNotificationPerWrite(back: Sprite, face: Sprite, id: int, observer: object)
    returns (card: Card, reset: seq<CardDelivery>, matched: seq<CardDelivery>)
    ensures reset == [Delivery(observer, card, CardFlipped)]
    ensures matched == [Delivery(observer, card, CardFlipped)]
  {
    card := new Card(back);
    card.events.AddObserver(observer);
    reset := card.SetCardFace(face, id);
    matched := card.MatchCard();
  }

  /** A matched card ignores a flip: no tween starts and it stays matched. */
  method MatchedCardIgnoresFlip(back: Sprite, face: Sprite, id: int) returns (card: Card)
    ensures card.state == Matched && card.tweens == [] && card.shownFace == Some(back)
  {
    card := new Card(back);
    var ds := card.SetCardFace(face, id);
    ds := card.MatchCard();
    card.FlipCard();
  }
}
