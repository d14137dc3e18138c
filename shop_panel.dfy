/** The shop window's `handleBuy` (src/components/ui/ShopPanel.tsx:100-115): the catalogue, the
    admission rules of a purchase (gold first, then stock), and the per-item purchase counter the
    window keeps. Rendering and the notification's timer are not modelled. */
module ShopPanel {
  import opened Wrappers
  import opened GameTypes
  import opened Items
  import opened SaveGame
  import opened GameStore

  /** A catalogue entry; `stock` None is unlimited. Names, emoji and descriptions are left out. */
  datatype ShopItem = ShopItem(id: string, price: int, kind: ItemKind, stock: Option<int>)

  /** `SHOP_CATALOGUE`. */
  const Catalogue: seq<ShopItem> := [
    ShopItem("health_potion", 15, Potion, None),
    ShopItem("big_potion", 30, Potion, None),
    ShopItem("math_scroll", 25, Scroll, None),
    ShopItem("rus_scroll", 25, Scroll, None),
    ShopItem("amulet", 80, Artifact, Some(1)),
    ShopItem("shield_rune", 60, Artifact, Some(2))
  ]

  /** The outcome of a purchase, as the notification reports it. */
  datatype Verdict = NotEnoughGold | SoldOut | Bought(id: string)

  /** `purchased[id] ?? 0`. */
  function BoughtCount(purchased: map<string, int>, id: string): int
  {
    if id in purchased then purchased[id] else 0
  }

  /** The admission of a purchase: refused for lack of gold, else refused when a limited item's
      count has reached its stock, else made. */
  function Admit(gold: int, item: ShopItem, purchased: map<string, int>): Verdict
  {
    if gold < item.price then NotEnoughGold
    else if item.stock.Some? && BoughtCount(purchased, item.id) >= item.stock.value then SoldOut
    else Bought(item.id)
  }

  /** The item the purchase hands to `addItem`. */
  function Delivered(item: ShopItem): ItemDef
  {
    ItemDef(item.id, item.kind)
  }

  /** A purchase is made exactly when the gold covers the price and the item is unlimited or
      not yet bought up to its stock. */
  lemma AdmitExactly(gold: int, item: ShopItem, purchased: map<string, int>)
    ensures Admit(gold, item, purchased).Bought? <==>
      gold >= item.price && (item.stock.None? || BoughtCount(purchased, item.id) < item.stock.value)
    ensures Admit(gold, item, purchased).Bought? ==> Admit(gold, item, purchased).id == item.id
  {
  }

  /** The gold check comes first: lacking gold is reported even for a sold-out item. */
  lemma GoldCheckedFirst(gold: int, item: ShopItem, purchased: map<string, int>)
    requires gold < item.price
    ensures Admit(gold, item, purchased) == NotEnoughGold
  {
  }

  /** The catalogue's ids are distinct. */
  lemma CatalogueIdsDistinct()
    ensures forall i, j :: 0 <= i < j < |Catalogue| ==> Catalogue[i].id != Catalogue[j].id
  {
  }

  /** Every catalogue price is positive and every stock is at least one. */
  lemma CatalogueWellFormed()
    ensures forall i :: 0 <= i < |Catalogue| ==> Catalogue[i].price > 0
    ensures forall i :: 0 <= i < |Catalogue| && Catalogue[i].stock.Some? ==> Catalogue[i].stock.value >= 1
  {
  }

  /** No limited catalogue item has been bought beyond its stock. */
  predicate WithinStock(purchased: map<string, int>)
  {
    forall i :: 0 <= i < |Catalogue| && Catalogue[i].stock.Some? ==>
      BoughtCount(purchased, Catalogue[i].id) <= Catalogue[i].stock.value
  }

  /** The counter after a purchase of the item. */
  function Counted(purchased: map<string, int>, id: string): map<string, int>
  {
    purchased[id := BoughtCount(purchased, id) + 1]
  }

  /** A made purchase of a catalogue item leaves gold non-negative when it was, and keeps every
      limited item within its stock. */
  lemma PurchaseKeepsBounds(gold: int, k: int, purchased: map<string, int>)
    requires 0 <= k < |Catalogue|
    requires gold >= 0 && WithinStock(purchased)
    requires Admit(gold, Catalogue[k], purchased).Bought?
    ensures gold - Catalogue[k].price >= 0
    ensures WithinStock(Counted(purchased, Catalogue[k].id))
  {
    var item := Catalogue[k];
    var after := Counted(purchased, item.id);
    CatalogueIdsDistinct();
    forall i | 0 <= i < |Catalogue| && Catalogue[i].stock.Some?
      ensures BoughtCount(after, Catalogue[i].id) <= Catalogue[i].stock.value
    {
      if i != k {
        assert Catalogue[i].id != item.id by {
          if i < k { assert Catalogue[i].id != Catalogue[k].id; }
          else { assert Catalogue[k].id != Catalogue[i].id; }
        }
        assert BoughtCount(after, Catalogue[i].id) == BoughtCount(purchased, Catalogue[i].id);
      }
    }
  }

  /** Once a limited item's count reaches its stock, a purchase that the gold covers is refused
      as sold out. */
  lemma SoldOutAtStock(gold: int, k: int, purchased: map<string, int>)
    requires 0 <= k < |Catalogue| && Catalogue[k].stock.Some?
    requires BoughtCount(purchased, Catalogue[k].id) >= Catalogue[k].stock.value
    requires gold >= Catalogue[k].price
    ensures Admit(gold, Catalogue[k], purchased) == SoldOut
  {
  }

  class ShopView {
    /** `purchased`: the purchases made in this window, by item id. */
    var purchased: map<string, int>
    /** The notification shown, if any. */
    var notice: Option<Verdict>
    const store: Store

    constructor(store: Store)
      ensures this.store == store
      ensures purchased == map[] && notice == None
    {
      this.store := store;
      purchased := map[];
      notice := None;
    }

    /** The window's own invariant: gold is not negative and no limited item is bought past its
        stock. */
    predicate Consistent()
      reads this, store
    {
      store.player.gold >= 0 && WithinStock(purchased)
    }

    /** `handleBuy`: the verdict goes to the notification; a refused purchase changes nothing
        else; a made one sets gold to the old gold less the price (`setGold`), adds one of the
        item (`addItem`, merged into its entry) and counts one more purchase of it. Both store
        calls save; the last save is the store after both. */
    method HandleBuy(item: ShopItem, now: int) returns (v: Verdict)
      modifies this`purchased, this`notice, store`player, store`inventory, store.storage`save
      ensures v == Admit(old(store.player.gold), item, old(purchased))
      ensures notice == Some(v)
      ensures !v.Bought? ==> purchased == old(purchased) && unchanged(store, store.storage)
      ensures v.Bought? ==>
        && store.player == old(store.player).(gold := old(store.player.gold) - item.price)
        && store.inventory == Grant(old(store.inventory), Delivered(item))
        && purchased == Counted(old(purchased), item.id)
        && store.storage.save ==
             (if store.storage.writable then Present(store.Current(now)) else old(store.storage.save))
      ensures old(store.Valid()) ==> store.Valid()
      ensures old(Consistent()) && item in Catalogue ==> Consistent()
    {
      var gold := store.player.gold;
      v := Admit(gold, item, purchased);
      notice := Some(v);
      if !v.Bought? {
        return;
      }
      ghost var k :| 0 <= k < |Catalogue| && (item in Catalogue ==> Catalogue[k] == item);
      if item in Catalogue && gold >= 0 && WithinStock(purchased) {
        PurchaseKeepsBounds(gold, k, purchased);
      }
      store.SetGold(gold - item.price, now);
      store.AddItem(Delivered(item), now);
      purchased := Counted(purchased, item.id);
    }

    /** The notification's timer: it disappears. */
    method ClearNotice()
      modifies this`notice
      ensures notice == None
    {
      notice := None;
    }
  }
}
