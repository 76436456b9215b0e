/**
 What one heartbeat does to the recorded collections and events (server/src/cider_api.rs:214-266), told item
 by item.
 */
module CollectedItems {
  import opened Wrappers
  import opened RetainedGraph
  import opened Collector

  type Key = (ItemKind, string)

  function KeyOf(i: Item): Key {
    (i.kind, i.id)
  }

  /** The resource of the item is known from the inventory the heartbeat goes with. */
  predicate Placed(known: bool, g: Graph, i: Item) {
    known && Entity(ResourceKind, i.resource) in g.present
  }

  predicate AnyPlaced(known: bool, g: Graph, items: seq<Item>, k: Key) {
    exists j :: 0 <= j < |items| && KeyOf(items[j]) == k && Placed(known, g, items[j])
  }

  predicate Mentions(items: seq<Item>, k: Key) {
    exists j :: 0 <= j < |items| && KeyOf(items[j]) == k
  }

  predicate WasProjected(t: Items, k: Key) {
    k in t.held && t.held[k].projected
  }

  /** The item is projected: it can be placed, and nothing of its name was before. */
  predicate Projects(t: Items, known: bool, g: Graph, front: seq<Item>, i: Item) {
    Placed(known, g, i) && !WasProjected(t, KeyOf(i)) && !AnyPlaced(known, g, front, KeyOf(i))
  }

  /** Another content was recorded under its name. */
  predicate Altered(t: Items, front: seq<Item>, i: Item) {
    || (KeyOf(i) in t.held && t.held[KeyOf(i)].content != i.content)
    || exists j :: 0 <= j < |front| && KeyOf(front[j]) == KeyOf(i) && front[j].content != i.content
  }

  /** An event, or a collection taken on the heartbeat's clock. */
  predicate Datable(i: Item) {
    i.kind.EventItem? || i.sameClock
  }

  /** More than five minutes ahead. */
  predicate Ahead(i: Item, now: int) {
    Datable(i) && i.at > now + 300_000
  }

  /** A collection of the last day, an event of the last thirty. */
  predicate Recent(i: Item, now: int) {
    Datable(i) && (if i.kind.Collection? then now - i.at <= 86_400_000 else now - i.at <= 2_592_000_000)
  }

  predicate BadAt(t: Items, known: bool, g: Graph, now: int, items: seq<Item>, i: nat)
    requires i < |items|
  {
    Altered(t, items[..i], items[i]) || (Projects(t, known, g, items[..i], items[i]) && Ahead(items[i], now))
  }

  predicate Bad(t: Items, known: bool, g: Graph, now: int, items: seq<Item>) {
    exists i :: 0 <= i < |items| && BadAt(t, known, g, now, items, i)
  }

  function ReceivedAt(t: Items, k: Key, now: int): int {
    if k in t.held then t.held[k].receivedAt else now
  }

  /** What is held under a name afterwards. */
  predicate HeldNext(t: Items, t': Items, known: bool, g: Graph, now: int, items: seq<Item>, k: Key) {
    if !Mentions(items, k) then (k in t'.held <==> k in t.held) && (k in t.held ==> t'.held[k] == t.held[k])
    else
      && k in t'.held && t'.held[k].receivedAt == ReceivedAt(t, k, now)
      && (t'.held[k].projected <==> WasProjected(t, k) || AnyPlaced(known, g, items, k))
      && forall j :: 0 <= j < |items| && KeyOf(items[j]) == k ==> items[j].content == t'.held[k].content
  }

  function ProjectionOf(t: Items, now: int, i: Item): Projection {
    Projection(KeyOf(i), i.at, ReceivedAt(t, KeyOf(i), now), now, Recent(i, now))
  }

  /** The projections of the items that are projected, in their order. */
  function ProjectionsOf(t: Items, known: bool, g: Graph, now: int, items: seq<Item>): seq<Projection> {
    if items == [] then []
    else
      var front, i := items[..|items| - 1], items[|items| - 1];
      ProjectionsOf(t, known, g, now, front) + if Projects(t, known, g, front, i) then [ProjectionOf(t, now, i)] else []
  }

  ghost predicate AllHeld(t: Items, t': Items, known: bool, g: Graph, now: int, items: seq<Item>) {
    forall k :: HeldNext(t, t', known, g, now, items, k)
  }

  lemma BadMore(t: Items, known: bool, g: Graph, now: int, items: seq<Item>)
    requires items != []
    ensures var front, i := items[..|items| - 1], items[|items| - 1];
      Bad(t, known, g, now, items) <==>
        Bad(t, known, g, now, front) || Altered(t, front, i) || (Projects(t, known, g, front, i) && Ahead(i, now))
  {
    var n, front := |items| - 1, items[..|items| - 1];
    hide Altered, Projects, Ahead;
    forall i | 0 <= i < n ensures BadAt(t, known, g, now, items, i) <==> BadAt(t, known, g, now, front, i) {
      assert items[..i] == front[..i] && items[i] == front[i];
    }
    assert BadAt(t, known, g, now, items, n) <==>
      Altered(t, front, items[n]) || (Projects(t, known, g, front, items[n]) && Ahead(items[n], now));
  }

  lemma MentionsMore(known: bool, g: Graph, items: seq<Item>, k: Key)
    requires items != []
    ensures var front, i := items[..|items| - 1], items[|items| - 1];
      && (Mentions(items, k) <==> Mentions(front, k) || KeyOf(i) == k)
      && (AnyPlaced(known, g, items, k) <==> AnyPlaced(known, g, front, k) || (KeyOf(i) == k && Placed(known, g, i)))
  {
    hide Placed;
    var front := items[..|items| - 1];
    forall j | 0 <= j < |front| ensures items[j] == front[j] {
    }
  }

  /** The held record decides like everything that went before. */
  lemma HeldDecides(t: Items, was: Items, known: bool, g: Graph, now: int, front: seq<Item>, i: Item)
    requires HeldNext(t, was, known, g, now, front, KeyOf(i))
    ensures KeyOf(i) in was.held && was.held[KeyOf(i)].content != i.content ==> Altered(t, front, i)
    ensures Altered(t, front, i) && !AlteredBefore(t, front) ==>
      KeyOf(i) in was.held && was.held[KeyOf(i)].content != i.content
    ensures WasProjected(was, KeyOf(i)) <==> WasProjected(t, KeyOf(i)) || AnyPlaced(known, g, front, KeyOf(i))
    ensures ReceivedAt(was, KeyOf(i), now) == ReceivedAt(t, KeyOf(i), now)
  {
    hide Placed;
    var k := KeyOf(i);
    if Mentions(front, k) {
      var j :| 0 <= j < |front| && KeyOf(front[j]) == k;
      assert front[j].content == was.held[k].content;
      if k in t.held && !AlteredBefore(t, front) {
        assert !Altered(t, front[..j], front[j]);
      }
    }
  }

  predicate AlteredBefore(t: Items, items: seq<Item>) {
    exists i :: 0 <= i < |items| && Altered(t, items[..i], items[i])
  }

  lemma BadIfAltered(t: Items, known: bool, g: Graph, now: int, items: seq<Item>)
    requires AlteredBefore(t, items)
    ensures Bad(t, known, g, now, items)
  {
    hide Altered, Projects, Ahead;
    var i :| 0 <= i < |items| && Altered(t, items[..i], items[i]);
    assert BadAt(t, known, g, now, items, i);
  }

  /** One more item that is taken. */
  lemma HeldMore(t: Items, was: Items, known: bool, g: Graph, now: int, items: seq<Item>, k: Key)
    requires items != [] && HeldNext(t, was, known, g, now, items[..|items| - 1], k)
    requires HeldNext(t, was, known, g, now, items[..|items| - 1], KeyOf(items[|items| - 1]))
    requires TakeItem(was, known, g, now, items[|items| - 1]).Some?
    ensures HeldNext(t, TakeItem(was, known, g, now, items[|items| - 1]).value, known, g, now, items, k)
  {
    var front, i := items[..|items| - 1], items[|items| - 1];
    MentionsMore(known, g, items, k);
    MentionsMore(known, g, items, KeyOf(i));
    HeldDecides(t, was, known, g, now, front, i);
    TakenHeld(was, known, g, now, i);
    var t' := TakeItem(was, known, g, now, i).value;
    hide Placed, TakeItem, Mentions, AnyPlaced, Altered, AlteredBefore;
    forall j | 0 <= j < |items| && KeyOf(items[j]) == k && Mentions(items, k)
      ensures items[j].content == t'.held[k].content {
      if j < |front| {
        assert front[j] == items[j];
        MentionedAt(front, j);
      }
    }
  }

  lemma MentionedAt(items: seq<Item>, j: nat)
    requires j < |items|
    ensures Mentions(items, KeyOf(items[j]))
  {
  }

  /** What taking one item does to what is held. */
  lemma TakenHeld(t: Items, known: bool, g: Graph, now: int, i: Item)
    requires TakeItem(t, known, g, now, i).Some?
    ensures var t' := TakeItem(t, known, g, now, i).value;
      && KeyOf(i) in t'.held && t'.held[KeyOf(i)] ==
           Held(i.content, WasProjected(t, KeyOf(i)) || Placed(known, g, i), ReceivedAt(t, KeyOf(i), now))
      && (KeyOf(i) in t.held ==> t.held[KeyOf(i)].content == i.content)
      && (forall k :: k != KeyOf(i) ==> (k in t'.held <==> k in t.held))
      && (forall k :: k != KeyOf(i) && k in t.held ==> t'.held[k] == t.held[k])
  {
    hide Stores, Future;
  }

  lemma TakenIs(t: Items, known: bool, g: Graph, now: int, i: Item)
    ensures TakeItem(t, known, g, now, i).None? <==>
      || (KeyOf(i) in t.held && t.held[KeyOf(i)].content != i.content)
      || (Placed(known, g, i) && !WasProjected(t, KeyOf(i)) && Ahead(i, now))
    ensures TakeItem(t, known, g, now, i).Some? ==>
      TakeItem(t, known, g, now, i).value.projected == t.projected
        + if Placed(known, g, i) && !WasProjected(t, KeyOf(i)) then [ProjectionOf(t, now, i)] else []
  {
  }

  /** The items are refused exactly when one is altered or, about to be projected, ahead of its time; else
      every name is held as told, and exactly the items not projected before are projected. */
  lemma {:induction false} ItemsExactly(t: Items, known: bool, g: Graph, now: int, items: seq<Item>)
    ensures TakeAll(t, known, g, now, items).None? <==> Bad(t, known, g, now, items)
    ensures TakeAll(t, known, g, now, items).Some? ==>
      var t' := TakeAll(t, known, g, now, items).value;
      AllHeld(t, t', known, g, now, items) && t'.projected == t.projected + ProjectionsOf(t, known, g, now, items)
    decreases |items|
  {
    if items == [] {
      NoItems(t, known, g, now);
    } else {
      var front, i := items[..|items| - 1], items[|items| - 1];
      ItemsExactly(t, known, g, now, front);
      BadMore(t, known, g, now, items);
      hide Bad, Altered, AllHeld, TakeItem, Projects, Ahead, Placed, AnyPlaced, ProjectionOf;
      if TakeAll(t, known, g, now, front).Some? {
        ItemMore(t, TakeAll(t, known, g, now, front).value, known, g, now, items);
      }
    }
  }

  lemma NoItems(t: Items, known: bool, g: Graph, now: int)
    ensures AllHeld(t, t, known, g, now, []) && t.projected == t.projected + ProjectionsOf(t, known, g, now, [])
  {
  }

  lemma ItemMore(t: Items, was: Items, known: bool, g: Graph, now: int, items: seq<Item>)
    requires items != [] && !Bad(t, known, g, now, items[..|items| - 1])
    requires AllHeld(t, was, known, g, now, items[..|items| - 1])
    requires was.projected == t.projected + ProjectionsOf(t, known, g, now, items[..|items| - 1])
    ensures var front, i := items[..|items| - 1], items[|items| - 1];
      TakeItem(was, known, g, now, i).None? <==>
        Altered(t, front, i) || (Projects(t, known, g, front, i) && Ahead(i, now))
    ensures TakeItem(was, known, g, now, items[|items| - 1]).Some? ==>
      var t' := TakeItem(was, known, g, now, items[|items| - 1]).value;
      AllHeld(t, t', known, g, now, items) && t'.projected == t.projected + ProjectionsOf(t, known, g, now, items)
  {
    var front, i := items[..|items| - 1], items[|items| - 1];
    assert HeldNext(t, was, known, g, now, front, KeyOf(i));
    HeldDecides(t, was, known, g, now, front, i);
    TakenIs(was, known, g, now, i);
    if AlteredBefore(t, front) {
      BadIfAltered(t, known, g, now, front);
    }
    hide Bad, Altered, AlteredBefore, TakeItem, Ahead, Placed, AnyPlaced, HeldNext, WasProjected, Recent;
    if TakeItem(was, known, g, now, i).Some? {
      forall k ensures HeldNext(t, TakeItem(was, known, g, now, i).value, known, g, now, items, k) {
        HeldMore(t, was, known, g, now, items, k);
      }
    }
  }
}
