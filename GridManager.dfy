/** The grid engine: prepares the level's sprites, lays out pooled cards,
    listens to every laid-out card, pairs the cards that turn visible and
    publishes the outcome of every pair on its own event bus. */
module Grid {
  import opened Seqs
  import opened Enums
  import opened Events
  import opened Cards
  import opened Pool
  import opened Shuffle

  type GridDelivery = Delivery<GridManager, GridEventType>

  /** Result of a grid build: the two refusals are the logged errors. */
  datatype BuildOutcome = Built | OddTileCount | NotEnoughSprites

  class GridManager {
    const pool: ObjectPool
    /** The card catalog of the configuration asset. */
    const catalog: seq<CardData>
    const events: EventManager<GridManager, GridEventType>
    var cardSprites: seq<CardData>
    var activeCards: seq<Card>
    var openCards: seq<Card>
    var matchedCards: seq<Card>

    /** Every card the pool has handed out or holds. */
    ghost function PooledCards(): set<Card>
      reads pool
    {
      set c | c in pool.active + pool.inactive
    }

    ghost function Buses(): set<EventManager<Card, CardEventType>>
      reads pool
    {
      set c | c in pool.active + pool.inactive :: c.events
    }

    /** The subscriptions the engine keeps: the laid-out cards are the pool's
        cards on loan; the engine listens exactly once to each of them and to
        no idle card; every card has its own bus. */
    ghost predicate Subscribed()
      reads this`activeCards, pool, Buses()
    {
      pool.Valid() &&
      activeCards == pool.active &&
      (forall c :: c in pool.inactive ==> c.events.observers == []) &&
      (forall c :: c in pool.active ==> c.events.observers == [this as object]) &&
      (forall c, d :: c in PooledCards() && d in PooledCards() && c != d ==> c.events != d.events)
    }

    /** The open and matched cards are laid-out cards. */
    ghost predicate Tracked()
      reads this`activeCards, this`openCards, this`matchedCards
    {
      (forall c :: c in openCards ==> c in activeCards) &&
      (forall c :: c in matchedCards ==> c in activeCards)
    }

    /** The engine listens to every laid-out card. */
    ghost predicate Listening()
      reads this`activeCards, set c | c in activeCards :: c.events
    {
      forall c :: c in activeCards ==> c.events.observers == [this as object]
    }

    /** What the pairing logic relies on and keeps: it listens to every
        laid-out card, and at most one card waits for its partner. */
    ghost predicate Ready()
      reads this, set c | c in activeCards :: c.events
    {
      Listening() && Tracked() && |openCards| <= 1
    }

    /** Between calls at most one card waits for its partner. */
    ghost predicate Valid()
      reads this, pool, Buses()
    {
      Subscribed() && Tracked() && |openCards| <= 1
    }

    /** Awake: the engine with an empty pool and no grid. */
    constructor (prefab: Sprite, catalog: seq<CardData>)
      ensures Valid() && fresh(pool) && fresh(events)
      ensures this.catalog == catalog && pool.prefab == prefab && events.observers == []
      ensures cardSprites == [] && activeCards == [] && openCards == [] && matchedCards == []
      ensures pool.active == [] && pool.inactive == []
    {
      pool := new ObjectPool(prefab);
      this.catalog := catalog;
      events := new EventManager();
      cardSprites := [];
      activeCards := [];
      openCards := [];
      matchedCards := [];
    }

    // ----- Sprite preparation -----

    /** Prepares the sprites for `gridData`, drawing the random indices of
        the two shuffles from `allRolls` and `pairRolls`. */
    method TriggerCardShuffle(gridData: GridData, allRolls: seq<int>, pairRolls: seq<int>)
      requires ValidRolls(allRolls, |catalog|)
      requires ValidRolls(pairRolls, 2 * PairCount(gridData.gridRows * gridData.gridColumns, |catalog|))
      modifies this`cardSprites
      ensures cardSprites == PreparedSprites(catalog, gridData, allRolls, pairRolls)
    {
      cardSprites := [];
      GetCardSprites(gridData, allRolls, pairRolls);
    }

    method GetCardSprites(gridData: GridData, allRolls: seq<int>, pairRolls: seq<int>)
      requires ValidRolls(allRolls, |catalog|)
      requires ValidRolls(pairRolls, 2 * PairCount(gridData.gridRows * gridData.gridColumns, |catalog|))
      modifies this`cardSprites
      ensures cardSprites == PreparedSprites(catalog, gridData, allRolls, pairRolls)
    {
      cardSprites := [];
      var totalCards := gridData.gridRows * gridData.gridColumns;
      if totalCards % 2 != 0 {
        return;
      }
      var pairCount := totalCards / 2;
      var shuffledAll := ShuffleAllCardSprites(allRolls);
      if |shuffledAll| == 0 {
        return;
      }
      if pairCount > |shuffledAll| {
        pairCount := |shuffledAll|;
      }
      ghost var n := PairCount(gridData.gridRows * gridData.gridColumns, |catalog|);
      assert n == if pairCount < 0 then 0 else pairCount;
      var i := 0;
      while i < pairCount
        invariant 0 <= i <= n
        invariant cardSprites == Doubled(shuffledAll[..i])
      {
        var s := shuffledAll[i];
        assert shuffledAll[..i + 1][..i] == shuffledAll[..i];
        cardSprites := cardSprites + [s];
        cardSprites := cardSprites + [s];
        i := i + 1;
      }
      assert i == n && cardSprites == Doubled(FisherYates(catalog, allRolls)[..n]);
      DoubledShape(shuffledAll[..i]);
      ShuffleSelectedCardSprites(pairRolls);
    }

    /** Shuffles the prepared sprites in place. */
    method ShuffleSelectedCardSprites(rolls: seq<int>)
      requires ValidRolls(rolls, |cardSprites|)
      modifies this`cardSprites
      ensures cardSprites == FisherYates(old(cardSprites), rolls)
    {
      var i := 0;
      while i < |cardSprites|
        invariant 0 <= i <= |cardSprites| == |old(cardSprites)|
        invariant ShuffleFrom(cardSprites, rolls, i) == FisherYates(old(cardSprites), rolls)
      {
        var randIndex := rolls[i];
        cardSprites := cardSprites[i := cardSprites[randIndex]][randIndex := cardSprites[i]];
        i := i + 1;
      }
    }

    /** A shuffled copy of the whole catalog: a permutation of it. */
    method ShuffleAllCardSprites(rolls: seq<int>) returns (temp: seq<CardData>)
      requires ValidRolls(rolls, |catalog|)
      ensures temp == FisherYates(catalog, rolls)
      ensures |temp| == |catalog| && multiset(temp) == multiset(catalog)
    {
      temp := [];
      for j := 0 to |catalog|
        invariant temp == catalog[..j]
      {
        temp := temp + [catalog[j]];
      }
      assert temp == catalog;
      var i := 0;
      while i < |temp|
        invariant 0 <= i <= |temp| == |catalog|
        invariant ShuffleFrom(temp, rolls, i) == FisherYates(catalog, rolls)
      {
        var randIndex := rolls[i];
        temp := temp[i := temp[randIndex]][randIndex := temp[i]];
        i := i + 1;
      }
      FisherYatesPermutes(catalog, rolls);
    }

    // ----- Grid build and teardown -----

    /** Tears down the previous grid, then lays out one pooled card per
        prepared sprite, in order, and listens to each of them. An odd tile
        count, or fewer prepared sprites than tiles, leaves no card laid out.
        Cards that are not laid out are left as they were. */
    method CreateCardGrid(gridData: GridData) returns (outcome: BuildOutcome)
      requires Valid()
      modifies this, pool, PooledCards(), Buses()
      ensures Valid()
      ensures cardSprites == old(cardSprites) && openCards == [] && matchedCards == []
      ensures var total := gridData.gridRows * gridData.gridColumns;
        (outcome == OddTileCount <==> total % 2 != 0) &&
        (outcome == NotEnoughSprites <==> total % 2 == 0 && |cardSprites| < total) &&
        (outcome == Built <==> total % 2 == 0 && |cardSprites| >= total)
      ensures outcome != Built ==>
        activeCards == [] && pool.inactive == old(pool.inactive) + old(pool.active)
      ensures outcome == Built ==>
        |activeCards| == Tiles(gridData) &&
        forall i :: 0 <= i < |activeCards| ==> LaidOut(activeCards[i], cardSprites[i])
      ensures forall c :: c in old(PooledCards()) && c !in activeCards ==> unchanged(c)
      ensures forall c :: c in activeCards ==>
        if c in old(PooledCards()) then c.tweens == old(c.tweens) else c.tweens == []
    {
      ReleaseCardPool();
      assert forall c :: c in old(PooledCards()) <==> c in pool.inactive;
      var totalCards := gridData.gridRows * gridData.gridColumns;
      if totalCards % 2 != 0 {
        return OddTileCount;
      }
      if |cardSprites| < totalCards {
        return NotEnoughSprites;
      }
      outcome := Built;
      LayOutCards(if totalCards < 0 then 0 else totalCards);
    }

    /** The build loop: lays out `count` pooled cards, the `i`-th with the
        `i`-th prepared sprite. */
    method LayOutCards(count: nat)
      requires Valid() && activeCards == [] && openCards == [] && matchedCards == []
      requires count <= |cardSprites|
      modifies this`activeCards, pool, PooledCards(), Buses()
      ensures Valid() && |activeCards| == count
      ensures forall i :: 0 <= i < count ==> LaidOut(activeCards[i], cardSprites[i])
      ensures forall c :: c in old(pool.inactive) && c !in activeCards ==> unchanged(c)
      ensures forall c :: c in activeCards ==>
        if c in old(pool.inactive) then c.tweens == old(c.tweens) else c.tweens == []
    {
      var i := 0;
      while i < count
        invariant 0 <= i <= count && Valid() && |activeCards| == i
        invariant forall c :: c in pool.inactive ==> c in old(pool.inactive)
        invariant forall j :: 0 <= j < i ==> LaidOut(activeCards[j], cardSprites[j])
        invariant forall c :: c in old(pool.inactive) && c !in activeCards ==> unchanged(c)
        invariant forall c :: c in activeCards ==>
          if c in old(pool.inactive) then c.tweens == old(c.tweens) else c.tweens == []
      {
        assert pool.inactive != [] ==> pool.inactive[0].events in old(Buses());
        var card := LayOutCard(cardSprites[i]);
        i := i + 1;
      }
    }

    /** The next card the pool hands out, and its bus, when one is idle. */
    ghost function NextIdle(): set<object>
      reads pool
    {
      if pool.inactive == [] then {} else {pool.inactive[0], pool.inactive[0].events}
    }

    /** One step of the build loop: takes a card from the pool, appends it to
        the laid-out cards, gives it the face and id of `data`, and listens to
        it. The engine is not yet listening when the card is reset, so that
        notification reaches no one. */
    method LayOutCard(data: CardData) returns (card: Card)
      requires Valid()
      modifies this`activeCards, pool, NextIdle()
      ensures Valid()
      ensures activeCards == old(activeCards) + [card] && LaidOut(card, data)
      ensures forall c :: c in pool.inactive ==> c in old(pool.inactive)
      ensures old(pool.inactive) != [] ==>
        card == old(pool.inactive[0]) && card.tweens == old(pool.inactive[0].tweens)
      ensures old(pool.inactive) == [] ==> fresh(card) && card.tweens == []
      ensures forall c :: c in old(activeCards) ==> unchanged(c)
    {
      card := pool.GetObject();
      activeCards := activeCards + [card];
      var ds := card.SetCardFace(data.sprite, data.id);
      assert ds == [];
      card.events.AddObserver(this);
    }

    /** Returns every card to the pool, stops listening to each of them and
        forgets the open and matched cards. */
    method ReleaseCardPool()
      requires Valid()
      modifies this, pool, Buses()
      ensures Valid()
      ensures pool.active == [] && pool.inactive == old(pool.inactive) + old(pool.active)
      ensures activeCards == [] && matchedCards == [] && openCards == []
      ensures forall c :: c in old(activeCards) ==> c.events.observers == []
      ensures cardSprites == old(cardSprites)
    {
      pool.ReleaseAllObjects();
      for i := 0 to |activeCards|
        invariant pool.active == [] && pool.inactive == old(pool.inactive) + old(pool.active)
        invariant activeCards == old(activeCards) && cardSprites == old(cardSprites)
        invariant forall j :: 0 <= j < i ==> activeCards[j].events.observers == []
        invariant forall j :: i <= j < |activeCards| ==> activeCards[j].events.observers == [this as object]
        invariant forall c :: c in old(pool.inactive) ==> c.events.observers == []
      {
        assert activeCards[i].events in old(Buses());
        activeCards[i].events.RemoveObserver(this);
      }
      activeCards := [];
      matchedCards := [];
      openCards := [];
    }

    // ----- Pairing -----

    /** A card notification. A matched publisher is ignored; otherwise the
        flip is handled. */
    method OnNotify(publisher: Card, eventType: CardEventType) returns (out: seq<GridDelivery>)
      requires Ready() && publisher in activeCards
      modifies this`openCards, this`matchedCards, publisher`state, publisher`tweens
      modifies openCards`state, openCards`tweens
      decreases if publisher.state == Matched then 0 else 1, 2
      ensures Ready()
      ensures old(publisher.state) != Visible ==>
        out == [] && openCards == old(openCards) && matchedCards == old(matchedCards) &&
        publisher.state == old(publisher.state) && publisher.tweens == old(publisher.tweens) &&
        forall d :: d in old(openCards) ==> d.state == old(d.state) && d.tweens == old(d.tweens)
      ensures old(publisher.state) == Visible && old(openCards) == [] ==>
        openCards == [publisher] && matchedCards == old(matchedCards) && out == [] &&
        publisher.state == old(publisher.state) && publisher.tweens == old(publisher.tweens)
      ensures old(publisher.state) == Visible && |old(openCards)| == 1 ==>
        openCards == [] &&
        PairOutcome(old(openCards)[0], publisher, old(openCards[0].id) == publisher.id,
                    old(matchedCards), out)
    {
      out := [];
      if publisher.state == Matched {
        return;
      }
      match eventType
      case CardFlipped =>
        out := OnCardFlipped(publisher);
    }

    /** A visible card is opened; the second open card triggers the pair check. */
    method OnCardFlipped(card: Card) returns (out: seq<GridDelivery>)
      requires Ready() && card in activeCards
      modifies this`openCards, this`matchedCards, card`state, card`tweens
      modifies openCards`state, openCards`tweens
      decreases 1, 1
      ensures Ready()
      ensures old(card.state) != Visible ==>
        out == [] && openCards == old(openCards) && matchedCards == old(matchedCards) &&
        card.state == old(card.state) && card.tweens == old(card.tweens) &&
        forall d :: d in old(openCards) ==> d.state == old(d.state) && d.tweens == old(d.tweens)
      ensures old(card.state) == Visible && old(openCards) == [] ==>
        openCards == [card] && matchedCards == old(matchedCards) && out == [] &&
        card.state == old(card.state) && card.tweens == old(card.tweens)
      ensures old(card.state) == Visible && |old(openCards)| == 1 ==>
        openCards == [] &&
        PairOutcome(old(openCards)[0], card, old(openCards[0].id) == card.id,
                    old(matchedCards), out)
    {
      out := [];
      if card.state != Visible {
        return;
      }
      if |openCards| < 2 {
        openCards := openCards + [card];
      }
      if |openCards| == 2 {
        var firstCard := openCards[0];
        var secondCard := openCards[1];
        out := CheckPair(firstCard, secondCard);
      }
    }

    /** Compares the two open cards: equal ids match both, unequal ids close
        both. The two cards need not be distinct objects. */
    method CheckPair(firstCard: Card, secondCard: Card) returns (out: seq<GridDelivery>)
      requires Listening() && Tracked() && openCards == [firstCard, secondCard]
      modifies this`openCards, this`matchedCards, firstCard`state, firstCard`tweens
      modifies secondCard`state, secondCard`tweens
      decreases 1, 0
      ensures Ready() && openCards == []
      ensures PairOutcome(firstCard, secondCard, firstCard.id == secondCard.id,
                          old(matchedCards), out)
    {
      openCards := [];
      var isMatched := firstCard.id == secondCard.id;
      if isMatched {
        var ds := firstCard.MatchCard();
        assert ds == [Delivery(this, firstCard, CardFlipped)];
        var ignored := OnNotify(firstCard, CardFlipped);
        ds := secondCard.MatchCard();
        assert ds == [Delivery(this, secondCard, CardFlipped)];
        ignored := OnNotify(secondCard, CardFlipped);
        matchedCards := matchedCards + [firstCard, secondCard];
        out := events.NotifyObservers(this, CardMatched);
        if |matchedCards| == |activeCards| {
          var more := events.NotifyObservers(this, AllCardsMatched);
          out := out + more;
        }
      } else {
        firstCard.CloseCard();
        secondCard.CloseCard();
        out := events.NotifyObservers(this, CardFailed);
      }
    }

    /** What resolving the pair `(first, second)` leaves behind, given whether
        their ids were equal: both matched and recorded with `CardMatched`
        (and `AllCardsMatched` once every laid-out slot is recorded), or both
        closed with `CardFailed`. */
    twostate predicate PairOutcome(first: Card, second: Card, sameId: bool,
                                   matchedBefore: seq<Card>, new out: seq<GridDelivery>)
      reads this, first, second, events
    {
      if sameId then
        first.state == Matched && second.state == Matched &&
        first.tweens == old(first.tweens) && second.tweens == old(second.tweens) &&
        matchedCards == matchedBefore + [first, second] &&
        out == Broadcast(events.observers, this, CardMatched) +
               (if |matchedCards| == |activeCards|
                then Broadcast(events.observers, this, AllCardsMatched) else [])
      else
        first != second &&
        first.state == old(first.state) && second.state == old(second.state) &&
        first.tweens == Closing(old(first.tweens), old(first.state)) &&
        second.tweens == Closing(old(second.tweens), old(second.state)) &&
        matchedCards == matchedBefore &&
        out == Broadcast(events.observers, this, CardFailed)
    }
  }

  /** The completion callback of tween `k` of `card`, with the card's bus
      delivering the resulting notification to its observers. The engine
      listens to every laid-out card and to no idle one, so a completed second
      half of a flip opens a laid-out card (and may resolve a pair), and
      nothing else reaches the engine's state. */
  method CompleteCardTween(grid: GridManager, card: Card, k: nat) returns (out: seq<GridDelivery>)
    requires grid.Valid() && card in grid.PooledCards() && k < |card.tweens|
    modifies card`state, card`shownFace, card`tweens
    modifies grid`openCards, grid`matchedCards, grid.openCards`state, grid.openCards`tweens
    ensures grid.Valid()
    // What the card's own completion does, as far as the engine leaves it.
    ensures old(card.tweens[k]) == FlipOut ==>
      card.shownFace == card.originalFace && card.tweens == old(card.tweens)[k := FlipIn] &&
      card.state == old(card.state)
    ensures old(card.tweens[k]) == CloseOut ==>
      card.shownFace == Some(card.backSprite) && card.tweens == old(card.tweens)[k := CloseIn] &&
      card.state == old(card.state)
    ensures old(card.tweens[k]) == CloseIn ==>
      card.state == Hidden && card.shownFace == old(card.shownFace) &&
      card.tweens == old(card.tweens)[..k] + old(card.tweens)[k + 1..]
    ensures old(card.tweens[k]) == FlipIn ==> card.shownFace == old(card.shownFace)
    ensures old(card.tweens[k]) == FlipIn && card !in grid.activeCards ==>
      card.state == Visible && card.tweens == old(card.tweens)[..k] + old(card.tweens)[k + 1..]
    // Only a completed flip of a laid-out card reaches the engine.
    ensures old(card.tweens[k]) != FlipIn || card !in grid.activeCards ==>
      out == [] && grid.openCards == old(grid.openCards) &&
      grid.matchedCards == old(grid.matchedCards) &&
      forall d :: d in old(grid.openCards) && d != card ==>
        d.state == old(d.state) && d.tweens == old(d.tweens)
    ensures old(card.tweens[k]) == FlipIn && card in grid.activeCards && old(grid.openCards) == [] ==>
      out == [] && grid.openCards == [card] && grid.matchedCards == old(grid.matchedCards) &&
      card.state == Visible && card.tweens == old(card.tweens)[..k] + old(card.tweens)[k + 1..]
    ensures old(card.tweens[k]) == FlipIn && card in grid.activeCards && |old(grid.openCards)| == 1 ==>
      var first := old(grid.openCards[0]);
      var rest := old(card.tweens)[..k] + old(card.tweens)[k + 1..];
      grid.openCards == [] &&
      (first.id == card.id ==>
        card.state == Matched && first.state == Matched && card.tweens == rest &&
        (first != card ==> first.tweens == old(first.tweens)) &&
        grid.matchedCards == old(grid.matchedCards) + [first, card] &&
        out == Broadcast(grid.events.observers, grid, CardMatched) +
               (if |grid.matchedCards| == |grid.activeCards|
                then Broadcast(grid.events.observers, grid, AllCardsMatched) else [])) &&
      (first.id != card.id ==>
        first != card && card.state == Visible && card.tweens == rest + [CloseOut] &&
        first.state == old(first.state) && first.tweens == Closing(old(first.tweens), old(first.state)) &&
        grid.matchedCards == old(grid.matchedCards) &&
        out == Broadcast(grid.events.observers, grid, CardFailed))
  {
    var ds := card.CompleteTween(k);
    out := [];
    if ds != [] {
      assert ds == [Delivery(grid, card, CardFlipped)];
      out := grid.OnNotify(card, CardFlipped);
    }
  }

  /** The open card flipped again before a partner arrives: `FlipCard`
      refuses only matched cards, so the flip runs, and when it completes
      the engine pairs the card with itself and records it twice. */
  method ReopenedCardPairsWithItself(grid: GridManager, card: Card) returns (out: seq<GridDelivery>)
    requires grid.Valid() && card in grid.activeCards
    requires grid.openCards == [card] && card.state == Visible
    modifies card`state, card`shownFace, card`tweens
    modifies grid`openCards, grid`matchedCards
    ensures grid.Valid() && grid.openCards == [] && card.state == Matched && card.tweens == []
    ensures grid.matchedCards == old(grid.matchedCards) + [card, card]
  {
    card.FlipCard();
    out := CompleteCardTween(grid, card, 0);
    out := CompleteCardTween(grid, card, 0);
  }

  /** A level's start as the engine's caller performs it: prepare the
      sprites, then build the grid. A catalog short of half the tiles makes
      the preparation clamp the pair count, and the build then refuses to lay
      out any card; a catalog of at least half the tiles fills the grid. */
  method PrepareAndBuild(grid: GridManager, gridData: GridData, allRolls: seq<int>, pairRolls: seq<int>)
    returns (outcome: BuildOutcome)
    requires grid.Valid()
    requires ValidRolls(allRolls, |grid.catalog|)
    requires ValidRolls(pairRolls, 2 * PairCount(gridData.gridRows * gridData.gridColumns, |grid.catalog|))
    modifies grid, grid.pool, grid.PooledCards(), grid.Buses()
    ensures grid.Valid()
    ensures var total := gridData.gridRows * gridData.gridColumns;
      total % 2 == 0 && |grid.catalog| < total / 2 ==>
        outcome == NotEnoughSprites && grid.activeCards == []
    ensures var total := gridData.gridRows * gridData.gridColumns;
      total % 2 == 0 && total >= 0 && |grid.catalog| >= total / 2 ==>
        outcome == Built && |grid.activeCards| == total
  {
    grid.TriggerCardShuffle(gridData, allRolls, pairRolls);
    var total := gridData.gridRows * gridData.gridColumns;
    if total % 2 == 0 && |grid.catalog| < total / 2 {
      ShortCatalogFallsShort(grid.catalog, gridData, allRolls, pairRolls);
    }
    if total % 2 == 0 && total >= 0 && |grid.catalog| >= total / 2 {
      FullCatalogFillsGrid(grid.catalog, gridData, allRolls, pairRolls);
    }
    outcome := grid.CreateCardGrid(gridData);
  }

  /** The number of tiles of a grid; a negative product lays out none. */
  function Tiles(gridData: GridData): (n: nat)
    ensures gridData.gridRows * gridData.gridColumns >= 0 ==> n == gridData.gridRows * gridData.gridColumns
  {
    var total := gridData.gridRows * gridData.gridColumns;
    if total < 0 then 0 else total
  }

  /** Card `c` shows the back of `data`'s face, hidden, keyed by its id. */
  ghost predicate LaidOut(c: Card, data: CardData)
    reads c
  {
    c.state == Hidden && c.id == data.id &&
    c.originalFace == Some(data.sprite) && c.shownFace == Some(c.backSprite)
  }
}
