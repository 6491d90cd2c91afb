// The item shop of cogs/shop.py. The module-level `shop` list and
// `refresh_time` are the fields of one `ShopCog` object; purchases go through
// the older database helpers (db_interface.py), whose keyword names the cog
// uses.

module Shop {
  import opened Wrappers
  import opened Queries
  import opened Database
  import opened LegacyDatabase

  /** An entry of the `shop` list: `(item_name, item_value, item_rarity)`. */
  datatype Offer = Offer(name: string, value: int, rarity: Rarity)

  /** Seconds between two refreshes of the shop (30 minutes). */
  const RefreshInterval := 1800

  /** `[item[0] for item in shop]`. */
  function Names(shop: seq<Offer>): (r: seq<string>)
  {
    seq(|shop|, i requires 0 <= i < |shop| => shop[i].name)
  }

  /** The position of the first offer carrying `name`, if any. */
  function FirstOffer(shop: seq<Offer>, name: string): (r: Option<nat>)
    ensures r.Some? <==> name in Names(shop)
    ensures r.Some? ==> r.value < |shop| && shop[r.value].name == name &&
                        forall j :: 0 <= j < r.value ==> shop[j].name != name
  {
    if |shop| == 0 then None
    else
      assert Names(shop) == [shop[0].name] + Names(shop[1..]);
      if shop[0].name == name then Some(0)
      else match FirstOffer(shop[1..], name)
      case None => None
      case Some(i) => Some(i + 1)
  }

  /** What `buy` did. */
  datatype Purchase =
    | Bought(value: int, rarity: Rarity)
    | NotRegistered
    | NotInShop
    | AlreadyOwned
    | TooExpensive(value: int)

  class ShopCog {
    var shop: seq<Offer>
    var refreshTime: int

    /** Loading the module: an empty shop, with the refresh time set to the load time. */
    constructor (now: int)
      ensures shop == [] && refreshTime == now
    {
      shop := [];
      refreshTime := now;
    }

    /** `set_shop_refresh_time`: records when the shop next refreshes. */
    method SetShopRefreshTime(timestamp: int)
      modifies this
      ensures refreshTime == timestamp && shop == old(shop)
    {
      refreshTime := timestamp;
    }

    /** `refresh_shop`: replaces the whole offer and schedules the next refresh 30 minutes on. */
    method RefreshShop(items: seq<Offer>, now: int)
      modifies this
      ensures shop == items && refreshTime == now + RefreshInterval
    {
      shop := items;
      SetShopRefreshTime(now + RefreshInterval);
    }

    /**
     * `buy`: refuses an unregistered user, a name not on offer, an item
     * already owned and a price above the balance, changing nothing; otherwise
     * takes the price of the first offer of that name and adds the item.
     */
    method Buy(db: LegacyBattlepassDb, userId: int, itemName: string, now: int) returns (p: Purchase)
      modifies db
      ensures userId !in old(db.users) ==> p == NotRegistered
      ensures userId in old(db.users) && itemName !in Names(shop) ==> p == NotInShop
      ensures userId in old(db.users) && itemName in Names(shop) && Owns(old(db.inventory), userId, itemName) ==>
                p == AlreadyOwned
      ensures userId in old(db.users) && itemName in Names(shop) && !Owns(old(db.inventory), userId, itemName) ==>
                var offer := shop[FirstOffer(shop, itemName).value];
                p == if old(db.users[userId].points) >= offer.value then Bought(offer.value, offer.rarity)
                     else TooExpensive(offer.value)
      ensures !p.Bought? ==> unchanged(db)
      ensures p.Bought? ==>
                && db.users == old(db.users)[userId := old(db.users[userId]).(points := old(db.users[userId].points) - p.value)]
                && db.inventory == old(db.inventory) + [InventoryRow(userId, None, itemName, p.value, p.rarity, now)]
                && db.shop == old(db.shop)
      ensures p.Bought? ==> Owns(db.inventory, userId, itemName) && db.users[userId].points >= 0
    {
      var user := db.GetUserId(userId);
      if user.None? {
        return NotRegistered;
      }
      if itemName !in Names(shop) {
        return NotInShop;
      }
      var ownedItem := db.RetrieveOwnedItem(userId, itemName);
      if ownedItem.Some? {
        return AlreadyOwned;
      }
      var points := db.RetrievePoints(userId).value;
      var itemValue, itemRarity := FindOffer(shop, itemName);
      if points >= itemValue {
        db.UpdatePoints(userId, points - itemValue);
        db.UpdateInventory(userId, itemName, itemValue, itemRarity, now);
        BoughtIsOwned(old(db.inventory), userId, itemName, itemValue, itemRarity, now);
        p := Bought(itemValue, itemRarity);
      } else {
        p := TooExpensive(itemValue);
      }
    }
  }

  /** The loop over `shop` that stops at the first offer of that name. */
  method FindOffer(shop: seq<Offer>, itemName: string) returns (itemValue: int, itemRarity: Rarity)
    requires itemName in Names(shop)
    ensures FirstOffer(shop, itemName).Some?
    ensures shop[FirstOffer(shop, itemName).value] == Offer(itemName, itemValue, itemRarity)
  {
    var i := 0;
    while i < |shop|
      invariant 0 <= i <= |shop|
      invariant forall j :: 0 <= j < i ==> shop[j].name != itemName
    {
      if itemName == shop[i].name {
        FirstOfferAt(shop, itemName, i);
        return shop[i].value, shop[i].rarity;
      }
      i := i + 1;
    }
    assert false;
  }

  /** An offer with no earlier namesake is the first offer. */
  lemma FirstOfferAt(shop: seq<Offer>, name: string, i: nat)
    requires i < |shop| && shop[i].name == name
    requires forall j :: 0 <= j < i ==> shop[j].name != name
    ensures FirstOffer(shop, name) == Some(i)
  {
    assert Names(shop)[i] == name;
  }

  /** A purchase is final: afterwards the buyer owns the item, so buying it again is refused. */
  lemma BoughtIsOwned(inventory: seq<InventoryRow>, userId: int, itemName: string, value: int, rarity: Rarity, now: int)
    ensures Owns(inventory + [InventoryRow(userId, None, itemName, value, rarity, now)], userId, itemName)
  {
    OwnsAfterAppend(inventory, InventoryRow(userId, None, itemName, value, rarity, now), userId, itemName);
  }
}
