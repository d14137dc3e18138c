/** Inventory merging and pruning, and the loot table (src/store/useGameStore.ts:427-449,
    644-653, 846-868). */
module Items {
  import opened Wrappers
  import opened GameTypes

  const HealthPotion: ItemDef := ItemDef("health_potion", Potion)
  const MathScroll: ItemDef := ItemDef("math_scroll", Scroll)
  const RusScroll: ItemDef := ItemDef("rus_scroll", Scroll)
  const Amulet: ItemDef := ItemDef("amulet", Artifact)
  const ShieldRune: ItemDef := ItemDef("shield_rune", Artifact)
  const BigHealthPotion: ItemDef := ItemDef("health_potion_big", Potion)
  const GeoCrystal: ItemDef := ItemDef("geo_crystal", Artifact)

  /** `STARTER_ITEMS`: two health potions and one counting scroll. */
  const StarterItems: seq<InventoryItem> :=
    [InventoryItem("health_potion", Potion, 2), InventoryItem("math_scroll", Scroll, 1)]

  // ---------------------------------------------------------------- loot

  /** A row of `DROP_TABLE`; `chance` is in percent, so 30 stands for 0.30. */
  datatype DropEntry = DropEntry(chance: int, item: ItemDef)

  const DropTable: seq<DropEntry> :=
    [DropEntry(30, HealthPotion), DropEntry(15, MathScroll), DropEntry(10, RusScroll), DropEntry(5, Amulet)]

  /** The sum of the first k chances of the table. */
  function Cumulative(k: nat): int
    requires k <= |DropTable|
  {
    if k == 0 then 0 else Cumulative(k - 1) + DropTable[k - 1].chance
  }

  /** The drop for roll r, looking from bucket k on: the first bucket whose running sum exceeds r. */
  function DropFrom(r: int, k: nat): Option<ItemDef>
    requires k <= |DropTable|
    decreases |DropTable| - k
  {
    if k == |DropTable| then None
    else if r < Cumulative(k + 1) then Some(DropTable[k].item)
    else DropFrom(r, k + 1)
  }

  /** What `rollDrop` yields for a draw r, in percent. */
  function DropFor(r: int): Option<ItemDef>
  {
    DropFrom(r, 0)
  }

  /** `rollDrop`, with the call to `Math.random()` replaced by the roll r in [0, 100). */
  method RollDrop(r: int) returns (drop: Option<ItemDef>)
    ensures drop == DropFor(r)
  {
    var cumulative := 0;
    var i := 0;
    while i < |DropTable|
      invariant 0 <= i <= |DropTable|
      invariant cumulative == Cumulative(i)
      invariant DropFrom(r, i) == DropFor(r)
    {
      cumulative := cumulative + DropTable[i].chance;
      if r < cumulative {
        return Some(DropTable[i].item);
      }
      i := i + 1;
    }
    return None;
  }

  /** The drop bands of the table: below 30 a health potion, then a counting scroll up to 45,
      a word scroll up to 55, an amulet up to 60, and nothing from 60 on. */
  lemma {:induction false} DropBands(r: int)
    ensures DropFor(r) == if r < 30 then Some(HealthPotion)
                          else if r < 45 then Some(MathScroll)
                          else if r < 55 then Some(RusScroll)
                          else if r < 60 then Some(Amulet)
                          else None
  {
    assert Cumulative(1) == 30 && Cumulative(2) == 45 && Cumulative(3) == 55 && Cumulative(4) == 60;
    assert DropFrom(r, 4) == None;
    assert DropFrom(r, 3) == if r < 60 then Some(Amulet) else None;
    assert DropFrom(r, 2) == if r < 55 then Some(RusScroll) else DropFrom(r, 3);
    assert DropFrom(r, 1) == if r < 45 then Some(MathScroll) else DropFrom(r, 2);
  }

  lemma NoDropExactlyFromSixty(r: int)
    requires 0 <= r < 100
    ensures DropFor(r) == None <==> r >= 60
  {
    DropBands(r);
  }

  // ---------------------------------------------------------------- inventory

  predicate HasItem(inv: seq<InventoryItem>, id: string)
  {
    exists i :: 0 <= i < |inv| && inv[i].id == id
  }

  /** Adds one to every entry with the given id. */
  function Increment(inv: seq<InventoryItem>, id: string): (r: seq<InventoryItem>)
    ensures |r| == |inv|
    ensures forall i :: 0 <= i < |inv| ==>
      r[i] == if inv[i].id == id then inv[i].(quantity := inv[i].quantity + 1) else inv[i]
  {
    seq(|inv|, i requires 0 <= i < |inv| =>
      if inv[i].id == id then inv[i].(quantity := inv[i].quantity + 1) else inv[i])
  }

  /** The item grant of `addItem`, of a loot drop, of a quest reward and of the daily bonus:
      add one to an owned item, or append the item with quantity 1. */
  function Grant(inv: seq<InventoryItem>, d: ItemDef): seq<InventoryItem>
  {
    if HasItem(inv, d.id) then Increment(inv, d.id) else inv + [InventoryItem(d.id, d.kind, 1)]
  }

  /** Subtracts one from every entry with the given id. */
  function Decrement(inv: seq<InventoryItem>, id: string): (r: seq<InventoryItem>)
    ensures |r| == |inv|
    ensures forall i :: 0 <= i < |inv| ==>
      r[i] == if inv[i].id == id then inv[i].(quantity := inv[i].quantity - 1) else inv[i]
  {
    seq(|inv|, i requires 0 <= i < |inv| =>
      if inv[i].id == id then inv[i].(quantity := inv[i].quantity - 1) else inv[i])
  }

  /** `filter(i => i.quantity > 0)`: keeps, in order, the entries with a positive quantity. */
  function Prune(inv: seq<InventoryItem>): (r: seq<InventoryItem>)
    ensures |r| <= |inv|
    ensures forall i :: 0 <= i < |r| ==> r[i].quantity > 0
    ensures forall x :: x in r <==> x in inv && x.quantity > 0
  {
    if inv == [] then []
    else (if inv[0].quantity > 0 then [inv[0]] else []) + Prune(inv[1..])
  }

  /** The inventory change of `useItem` once the guard has passed. */
  function Consume(inv: seq<InventoryItem>, id: string): (r: seq<InventoryItem>)
    ensures forall i :: 0 <= i < |r| ==> r[i].quantity > 0
  {
    Prune(Decrement(inv, id))
  }

  /** The first entry with the given id (`inventory.find`). */
  function Find(inv: seq<InventoryItem>, id: string): (r: Option<InventoryItem>)
    ensures r.None? <==> !HasItem(inv, id)
    ensures r.Some? ==> r.value in inv && r.value.id == id
  {
    if inv == [] then None
    else if inv[0].id == id then Some(inv[0])
    else Find(inv[1..], id)
  }

  /** The entry `Find` returns is the first one with the id: every entry before it has another id. */
  lemma {:induction false} FindIsFirst(inv: seq<InventoryItem>, id: string)
    requires Find(inv, id).Some?
    ensures exists k :: 0 <= k < |inv| && inv[k] == Find(inv, id).value && forall j :: 0 <= j < k ==> inv[j].id != id
  {
    if inv[0].id != id {
      FindIsFirst(inv[1..], id);
      var k :| 0 <= k < |inv[1..]| && inv[1..][k] == Find(inv, id).value && forall j :: 0 <= j < k ==> inv[1..][j].id != id;
      assert inv[k + 1] == Find(inv, id).value;
      forall j | 0 <= j < k + 1
        ensures inv[j].id != id
      {
        if j > 0 { assert inv[j] == inv[1..][j - 1]; }
      }
    } else {
      assert inv[0] == Find(inv, id).value;
    }
  }

  // ---------------------------------------------------------------- quantities

  /** The number of `id` the player owns: the quantities of its entries, summed. */
  function Quantity(inv: seq<InventoryItem>, id: string): int
  {
    if inv == [] then 0
    else (if inv[0].id == id then inv[0].quantity else 0) + Quantity(inv[1..], id)
  }

  /** Every id appears at most once and every quantity is positive. */
  ghost predicate WellFormed(inv: seq<InventoryItem>)
  {
    && (forall i, j :: 0 <= i < j < |inv| ==> inv[i].id != inv[j].id)
    && (forall i :: 0 <= i < |inv| ==> inv[i].quantity > 0)
  }

  lemma StarterItemsWellFormed()
    ensures WellFormed(StarterItems)
  {
  }

  lemma {:induction false} QuantityAppend(inv: seq<InventoryItem>, e: InventoryItem, x: string)
    ensures Quantity(inv + [e], x) == Quantity(inv, x) + (if e.id == x then e.quantity else 0)
  {
    if inv != [] {
      assert (inv + [e])[1..] == inv[1..] + [e];
      QuantityAppend(inv[1..], e, x);
    }
  }

  lemma {:induction false} QuantityAbsent(inv: seq<InventoryItem>, x: string)
    requires !HasItem(inv, x)
    ensures Quantity(inv, x) == 0
  {
    if inv != [] {
      QuantityAbsent(inv[1..], x);
    }
  }

  /** Adding or subtracting one at the (single) entry of `id` moves its quantity by `delta`
      and leaves every other id's quantity alone. */
  lemma {:induction false} QuantityShift(inv: seq<InventoryItem>, id: string, delta: int, x: string, r: seq<InventoryItem>)
    requires forall i, j :: 0 <= i < j < |inv| ==> inv[i].id != inv[j].id
    requires |r| == |inv|
    requires forall i :: 0 <= i < |inv| ==>
      r[i] == if inv[i].id == id then inv[i].(quantity := inv[i].quantity + delta) else inv[i]
    ensures Quantity(r, x) == Quantity(inv, x) + (if x == id && HasItem(inv, id) then delta else 0)
  {
    if inv != [] {
      QuantityShift(inv[1..], id, delta, x, r[1..]);
      if inv[0].id == id {
        assert !HasItem(inv[1..], id);
      } else {
        assert HasItem(inv, id) == HasItem(inv[1..], id) by {
          if HasItem(inv, id) {
            var i :| 0 <= i < |inv| && inv[i].id == id;
            assert inv[1..][i - 1].id == id;
          }
          if HasItem(inv[1..], id) {
            var i :| 0 <= i < |inv[1..]| && inv[1..][i].id == id;
            assert inv[i + 1].id == id;
          }
        }
      }
    }
  }

  /** Dropping entries whose quantity is zero changes no quantity. */
  lemma {:induction false} QuantityPrune(inv: seq<InventoryItem>, x: string)
    requires forall i :: 0 <= i < |inv| ==> inv[i].quantity >= 0
    ensures Quantity(Prune(inv), x) == Quantity(inv, x)
  {
    if inv != [] {
      QuantityPrune(inv[1..], x);
      if inv[0].quantity > 0 {
        assert ([inv[0]] + Prune(inv[1..]))[1..] == Prune(inv[1..]);
      } else {
        assert Prune(inv) == Prune(inv[1..]);
      }
    }
  }

  /** An item grant keeps the inventory well formed, adds exactly one to the granted id and
      changes no other id. */
  lemma GrantAddsOne(inv: seq<InventoryItem>, d: ItemDef, x: string)
    requires WellFormed(inv)
    ensures WellFormed(Grant(inv, d))
    ensures Quantity(Grant(inv, d), x) == Quantity(inv, x) + (if x == d.id then 1 else 0)
  {
    var e := InventoryItem(d.id, d.kind, 1);
    if HasItem(inv, d.id) {
      QuantityShift(inv, d.id, 1, x, Increment(inv, d.id));
    } else {
      QuantityAppend(inv, e, x);
      var r := inv + [e];
      forall i, j | 0 <= i < j < |r| ensures r[i].id != r[j].id {
        if j == |inv| {
          assert r[i] == inv[i];
        }
      }
    }
  }

  /** Using an owned item keeps the inventory well formed and removes exactly one of it; every
      other id keeps its quantity (the pruned entry is the one that reached zero). */
  lemma ConsumeRemovesOne(inv: seq<InventoryItem>, id: string, x: string)
    requires WellFormed(inv) && HasItem(inv, id)
    ensures WellFormed(Consume(inv, id))
    ensures Quantity(Consume(inv, id), x) == Quantity(inv, x) - (if x == id then 1 else 0)
  {
    var d := Decrement(inv, id);
    QuantityShift(inv, id, -1, x, d);
    QuantityPrune(d, x);
    PruneKeepsUnique(d);
  }

  lemma {:induction false} PruneKeepsUnique(inv: seq<InventoryItem>)
    requires forall i, j :: 0 <= i < j < |inv| ==> inv[i].id != inv[j].id
    ensures forall i, j :: 0 <= i < j < |Prune(inv)| ==> Prune(inv)[i].id != Prune(inv)[j].id
  {
    if inv != [] {
      PruneKeepsUnique(inv[1..]);
      var r := Prune(inv);
      if inv[0].quantity > 0 {
        forall j | 0 < j < |r| ensures r[0].id != r[j].id {
          assert r[j] in Prune(inv[1..]);
          var k :| 0 <= k < |inv[1..]| && inv[1..][k] == r[j];
          assert inv[k + 1] == r[j];
        }
      }
    }
  }
}
