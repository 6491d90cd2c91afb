// The battlepass database as the commands see it (utils/db_interface.py):
// the battlepass table keyed by user id, the inventory table and the shop
// table, with one method or function per helper. Each helper opens its own
// connection and commits, so each is one atomic step here.

module Database {
  import opened Wrappers
  import opened Queries

  /** A row of the battlepass table; `user_id` is its key. Timestamps are seconds. */
  datatype User = User(
    guildId: int,
    points: int,
    redemptionTime: Option<int>,
    level: int,
    userName: string,
    dailyRedemption: Option<int>)

  /**
   * A row of the inventory table. The `img_url` column is never written, and
   * `guild_id` is NULL in rows the older helpers insert.
   */
  datatype InventoryRow = InventoryRow(
    userId: int,
    guildId: Option<int>,
    itemName: string,
    value: int,
    rarity: Rarity,
    purchaseDate: int)

  /** A record of `retrieve_inventory`: `(item_name, value, rarity)`. */
  datatype Item = Item(itemName: string, value: int, rarity: Rarity)

  /** The points a new user starts with. */
  const StartingPoints := 120

  /** Whether the row with key `userId` satisfies `column = value`. */
  predicate Matches(userId: int, u: User, c: Condition)
  {
    match c.column
    case UserIdColumn => c.value == IntValue(userId)
    case GuildIdColumn => c.value == IntValue(u.guildId)
    case UserNameColumn => c.value == TextValue(u.userName)
  }

  /** Whether the row satisfies every `AND`-ed term of the WHERE clause (all rows, when there is none). */
  predicate MatchesAll(userId: int, u: User, conds: seq<Condition>)
  {
    forall i :: 0 <= i < |conds| ==> Matches(userId, u, conds[i])
  }

  /** Looking a user up by id alone finds a row exactly when the id is a key. */
  lemma ByUserId(users: map<int, User>, userId: int)
    ensures (exists k :: k in users && MatchesAll(k, users[k], [Condition(UserIdColumn, IntValue(userId))]))
            <==> userId in users
  {
    var byId := [Condition(UserIdColumn, IntValue(userId))];
    if userId in users {
      assert MatchesAll(userId, users[userId], byId);
    }
    if exists k :: k in users && MatchesAll(k, users[k], byId) {
      var k :| k in users && MatchesAll(k, users[k], byId);
      assert Matches(k, users[k], byId[0]);
    }
  }

  /** The `(item_name, value, rarity)` records of one user's inventory rows, in table order. */
  function ItemsOf(inventory: seq<InventoryRow>, userId: int): (items: seq<Item>)
    ensures |items| <= |inventory|
    ensures forall it :: it in items <==>
              exists i :: 0 <= i < |inventory| && inventory[i].userId == userId &&
                          it == Item(inventory[i].itemName, inventory[i].value, inventory[i].rarity)
  {
    if |inventory| == 0 then []
    else
      var row := inventory[|inventory| - 1];
      var front := ItemsOf(inventory[..|inventory| - 1], userId);
      if row.userId == userId then front + [Item(row.itemName, row.value, row.rarity)] else front
  }

  /** Whether one of the user's inventory rows carries that item name. */
  predicate Owns(inventory: seq<InventoryRow>, userId: int, itemName: string)
  {
    exists i :: 0 <= i < |inventory| && inventory[i].userId == userId && inventory[i].itemName == itemName
  }

  /** The columns of each user the leaderboard query reads. */
  function Standings(users: map<int, User>): (table: map<int, Standing>)
    ensures table.Keys == users.Keys
    ensures forall k :: k in users ==>
              table[k] == Standing(users[k].userName, users[k].guildId, users[k].level, users[k].points)
  {
    map k | k in users :: Standing(users[k].userName, users[k].guildId, users[k].level, users[k].points)
  }

  class BattlepassDb {
    var users: map<int, User>
    var inventory: seq<InventoryRow>
    var shop: seq<ShopRow>

    /** The tables as the setup script leaves them, with the shop already stocked. */
    constructor (stock: seq<ShopRow>)
      ensures users == map[] && inventory == [] && shop == stock
    {
      users := map[];
      inventory := [];
      shop := stock;
    }

    /**
     * `get_user_id(**kwargs)`: builds the query from the keyword arguments
     * and returns the key of some row that satisfies all of them, or None.
     */
    method GetUserId(kwargs: seq<Condition>) returns (row: Option<int>)
      ensures row.Some? <==> exists k :: k in users && MatchesAll(k, users[k], kwargs)
      ensures row.Some? ==> row.value in users && MatchesAll(row.value, users[row.value], kwargs)
    {
      var query, values := BuildUserIdQuery(kwargs);
      if exists k :: k in users && MatchesAll(k, users[k], kwargs) {
        var k :| k in users && MatchesAll(k, users[k], kwargs);
        row := Some(k);
      } else {
        row := None;
      }
    }

    /**
     * `create_user`: inserts a row with 120 points at level 1. The key is the
     * table's primary key, so inserting an existing id fails and changes nothing.
     */
    method CreateUser(userId: int, redemptionTime: int, userName: string, guildId: int, dailyRedemption: int)
      returns (ok: bool)
      modifies this
      ensures ok <==> userId !in old(users)
      ensures ok ==> users == old(users)[userId := User(guildId, StartingPoints, Some(redemptionTime), 1,
                                                        userName, Some(dailyRedemption))]
      ensures !ok ==> users == old(users)
      ensures inventory == old(inventory) && shop == old(shop)
    {
      if userId in users {
        ok := false;
      } else {
        users := users[userId := User(guildId, StartingPoints, Some(redemptionTime), 1, userName, Some(dailyRedemption))];
        ok := true;
      }
    }

    /** `retrieve_points`: fails when there is no row for the user. */
    function RetrievePoints(userId: int): (r: Result<int>)
      reads this
      ensures r.Ok? <==> userId in users
      ensures r.Err? ==> r.error == RowMissing
      ensures r.Ok? ==> r.value == users[userId].points
    {
      if userId in users then Ok(users[userId].points) else Err(RowMissing)
    }

    /** `retrieve_redemption_time`: None for an unknown user and for a NULL column alike. */
    function RetrieveRedemptionTime(userId: int): (r: Option<int>)
      reads this
      ensures r.Some? <==> userId in users && users[userId].redemptionTime.Some?
      ensures r.Some? ==> r == users[userId].redemptionTime
    {
      if userId in users then users[userId].redemptionTime else None
    }

    /** `retrieve_daily_redemption_time`: None for an unknown user and for a NULL column alike. */
    function RetrieveDailyRedemptionTime(userId: int): (r: Option<int>)
      reads this
      ensures r.Some? <==> userId in users && users[userId].dailyRedemption.Some?
      ensures r.Some? ==> r == users[userId].dailyRedemption
    {
      if userId in users then users[userId].dailyRedemption else None
    }

    /** `retrieve_level`: None exactly for an unknown user. */
    function RetrieveLevel(userId: int): (r: Option<int>)
      reads this
      ensures r.Some? <==> userId in users
      ensures r.Some? ==> r.value == users[userId].level
    {
      if userId in users then Some(users[userId].level) else None
    }

    /** `update_redemption_time`: an UPDATE of one column; no row, no change. */
    method UpdateRedemptionTime(userId: int, currentTime: int)
      modifies this
      ensures userId in old(users) ==>
                users == old(users)[userId := old(users)[userId].(redemptionTime := Some(currentTime))]
      ensures userId !in old(users) ==> users == old(users)
      ensures inventory == old(inventory) && shop == old(shop)
    {
      if userId in users {
        users := users[userId := users[userId].(redemptionTime := Some(currentTime))];
      }
    }

    /** `update_daily_redemption_time`: an UPDATE of one column; no row, no change. */
    method UpdateDailyRedemptionTime(userId: int, currentTime: int)
      modifies this
      ensures userId in old(users) ==>
                users == old(users)[userId := old(users)[userId].(dailyRedemption := Some(currentTime))]
      ensures userId !in old(users) ==> users == old(users)
      ensures inventory == old(inventory) && shop == old(shop)
    {
      if userId in users {
        users := users[userId := users[userId].(dailyRedemption := Some(currentTime))];
      }
    }

    /** `update_points`: an UPDATE of one column; no row, no change. */
    method UpdatePoints(userId: int, points: int)
      modifies this
      ensures userId in old(users) ==> users == old(users)[userId := old(users)[userId].(points := points)]
      ensures userId !in old(users) ==> users == old(users)
      ensures inventory == old(inventory) && shop == old(shop)
    {
      if userId in users {
        users := users[userId := users[userId].(points := points)];
      }
    }

    /** `update_level`: an UPDATE of one column; no row, no change. */
    method UpdateLevel(userId: int, level: int)
      modifies this
      ensures userId in old(users) ==> users == old(users)[userId := old(users)[userId].(level := level)]
      ensures userId !in old(users) ==> users == old(users)
      ensures inventory == old(inventory) && shop == old(shop)
    {
      if userId in users {
        users := users[userId := users[userId].(level := level)];
      }
    }

    /** `retrieve_inventory`: the user's items, in table order. */
    function RetrieveInventory(userId: int): (items: seq<Item>)
      reads this
      ensures forall it :: it in items <==>
                exists i :: 0 <= i < |inventory| && inventory[i].userId == userId &&
                            it == Item(inventory[i].itemName, inventory[i].value, inventory[i].rarity)
    {
      ItemsOf(inventory, userId)
    }

    /** `update_inventory`: inserts one row; the table has no key, so this always succeeds. */
    method UpdateInventory(userId: int, guildId: int, itemName: string, value: int, rarity: Rarity, purchaseDate: int)
      modifies this
      ensures inventory == old(inventory) + [InventoryRow(userId, Some(guildId), itemName, value, rarity, purchaseDate)]
      ensures users == old(users) && shop == old(shop)
    {
      inventory := inventory + [InventoryRow(userId, Some(guildId), itemName, value, rarity, purchaseDate)];
    }

    /** `retrieve_top_five`: the leaderboard of one guild. */
    method RetrieveTopFive(guildId: int) returns (rows: seq<Standing>)
      ensures exists ids :: IsTopFive(Standings(users), Some(guildId), ids, rows)
    {
      var ids;
      ids, rows := TopFive(Standings(users), Some(guildId));
    }

    /** `retrieve_shop_items`: a random draw of the shop table by rarity quota. */
    method RetrieveShopItems() returns (items: seq<ShopRow>)
      ensures IsShopSelection(shop, items)
    {
      items := SelectShopItems(shop);
    }

    /** `retrieve_owned_item`: the item name when the user owns an item of that name, else None. */
    function RetrieveOwnedItem(userId: int, itemName: string): (r: Option<string>)
      reads this
      ensures r.Some? <==> Owns(inventory, userId, itemName)
      ensures r.Some? ==> r.value == itemName
    {
      if Owns(inventory, userId, itemName) then Some(itemName) else None
    }
  }

  /** Owning is monotone: appending an inventory row keeps every earlier ownership and adds exactly the new one. */
  lemma OwnsAfterAppend(inventory: seq<InventoryRow>, row: InventoryRow, userId: int, itemName: string)
    ensures Owns(inventory + [row], userId, itemName) <==>
              Owns(inventory, userId, itemName) || (row.userId == userId && row.itemName == itemName)
  {
    var all := inventory + [row];
    if Owns(all, userId, itemName) && !Owns(inventory, userId, itemName) {
      var i :| 0 <= i < |all| && all[i].userId == userId && all[i].itemName == itemName;
      assert i == |inventory|;
    }
    if row.userId == userId && row.itemName == itemName {
      assert all[|inventory|] == row;
    }
    if Owns(inventory, userId, itemName) {
      var i :| 0 <= i < |inventory| && inventory[i].userId == userId && inventory[i].itemName == itemName;
      assert all[i] == inventory[i];
    }
  }

  /** Appending an inventory row adds its item to the owner's inventory and leaves every other user's alone. */
  lemma {:induction false} ItemsOfAppend(inventory: seq<InventoryRow>, row: InventoryRow, userId: int)
    ensures ItemsOf(inventory + [row], userId) ==
              if row.userId == userId then ItemsOf(inventory, userId) + [Item(row.itemName, row.value, row.rarity)]
              else ItemsOf(inventory, userId)
  {
    assert (inventory + [row])[..|inventory + [row]| - 1] == inventory;
  }
}
