// The older database helpers (db_interface.py at the repository root). They
// predate the daily claim: the battlepass row keeps one `last_awarded_at`
// timestamp, new users start with 100 points, users are looked up by id only
// and inventory rows are inserted without a guild.

module LegacyDatabase {
  import opened Wrappers
  import opened Queries
  import opened Database

  /** A row of the older battlepass table; `user_id` is its key. */
  datatype LegacyUser = LegacyUser(
    guildId: int,
    points: int,
    lastAwardedAt: Option<int>,
    level: int,
    userName: string)

  /** The points a new user starts with under the older helpers. */
  const LegacyStartingPoints := 100

  /** The columns of each user the leaderboard query reads. */
  function LegacyStandings(users: map<int, LegacyUser>): (table: map<int, Standing>)
    ensures table.Keys == users.Keys
    ensures forall k :: k in users ==>
              table[k] == Standing(users[k].userName, users[k].guildId, users[k].level, users[k].points)
  {
    map k | k in users :: Standing(users[k].userName, users[k].guildId, users[k].level, users[k].points)
  }

  /**
   * The intended leaderboard is never empty once someone is enrolled, while
   * the query as written fails on every table: the two disagree on any
   * non-empty table.
   */
  lemma TopFiveOfBattlepassNonEmpty(users: map<int, LegacyUser>, ids: seq<int>, rows: seq<Standing>)
    requires users.Keys != {}
    requires IsTopFive(LegacyStandings(users), None, ids, rows)
    ensures 1 <= |rows| <= TopLimit
    ensures |users| <= TopLimit ==> |rows| == |users|
  {
    var table := LegacyStandings(users);
    var pool := Candidates(table, None);
    forall k | k in users.Keys
      ensures k in pool
    {
      assert InScope(table[k], None);
    }
    assert pool == users.Keys;
  }

  class LegacyBattlepassDb {
    var users: map<int, LegacyUser>
    var inventory: seq<InventoryRow>
    var shop: seq<ShopRow>

    constructor (stock: seq<ShopRow>)
      ensures users == map[] && inventory == [] && shop == stock
    {
      users := map[];
      inventory := [];
      shop := stock;
    }

    /** `get_user_id(user_id)`: the id back when the user is enrolled, else None. */
    function GetUserId(userId: int): (r: Option<int>)
      reads this
      ensures r.Some? <==> userId in users
      ensures r.Some? ==> r.value == userId
    {
      if userId in users then Some(userId) else None
    }

    /** `create_user`: inserts a row with 100 points at level 1; an existing id is refused by the key. */
    method CreateUser(userId: int, lastAwardedAt: int, userName: string, guildId: int) returns (ok: bool)
      modifies this
      ensures ok <==> userId !in old(users)
      ensures ok ==> users == old(users)[userId := LegacyUser(guildId, LegacyStartingPoints, Some(lastAwardedAt),
                                                              1, userName)]
      ensures !ok ==> users == old(users)
      ensures inventory == old(inventory) && shop == old(shop)
    {
      if userId in users {
        ok := false;
      } else {
        users := users[userId := LegacyUser(guildId, LegacyStartingPoints, Some(lastAwardedAt), 1, userName)];
        ok := true;
      }
    }

    /** `retrieve_points`: fails when there is no row for the user. */
    function RetrievePoints(userId: int): (r: Result<int>)
      reads this
      ensures r.Ok? <==> userId in users
      ensures r.Err? ==> r.error == RowMissing
      ensures r.Ok? ==> r.value == users[userId].points
    {
      if userId in users then Ok(users[userId].points) else Err(RowMissing)
    }

    /** `retrieve_last_awarded_at`: None for an unknown user and for a NULL column alike. */
    function RetrieveLastAwardedAt(userId: int): (r: Option<int>)
      reads this
      ensures r.Some? <==> userId in users && users[userId].lastAwardedAt.Some?
      ensures r.Some? ==> r == users[userId].lastAwardedAt
    {
      if userId in users then users[userId].lastAwardedAt else None
    }

    /** `update_last_awarded_at`: an UPDATE of one column; no row, no change. */
    method UpdateLastAwardedAt(userId: int, currentTime: int)
      modifies this
      ensures userId in old(users) ==>
                users == old(users)[userId := old(users)[userId].(lastAwardedAt := Some(currentTime))]
      ensures userId !in old(users) ==> users == old(users)
      ensures inventory == old(inventory) && shop == old(shop)
    {
      if userId in users {
        users := users[userId := users[userId].(lastAwardedAt := Some(currentTime))];
      }
    }

    /** `update_points`: an UPDATE of one column; no row, no change. */
    method UpdatePoints(userId: int, points: int)
      modifies this
      ensures userId in old(users) ==> users == old(users)[userId := old(users)[userId].(points := points)]
      ensures userId !in old(users) ==> users == old(users)
      ensures inventory == old(inventory) && shop == old(shop)
    {
      if userId in users {
        users := users[userId := users[userId].(points := points)];
      }
    }

    /** `retrieve_level`: None exactly for an unknown user. */
    function RetrieveLevel(userId: int): (r: Option<int>)
      reads this
      ensures r.Some? <==> userId in users
      ensures r.Some? ==> r.value == users[userId].level
    {
      if userId in users then Some(users[userId].level) else None
    }

    /** `update_level`: an UPDATE of one column; no row, no change. */
    method UpdateLevel(userId: int, level: int)
      modifies this
      ensures userId in old(users) ==> users == old(users)[userId := old(users)[userId].(level := level)]
      ensures userId !in old(users) ==> users == old(users)
      ensures inventory == old(inventory) && shop == old(shop)
    {
      if userId in users {
        users := users[userId := users[userId].(level := level)];
      }
    }

    /** `retrieve_inventory`: the user's items, in table order. */
    function RetrieveInventory(userId: int): (items: seq<Item>)
      reads this
      ensures forall it :: it in items <==>
                exists i :: 0 <= i < |inventory| && inventory[i].userId == userId &&
                            it == Item(inventory[i].itemName, inventory[i].value, inventory[i].rarity)
    {
      ItemsOf(inventory, userId)
    }

    /** `update_inventory`: inserts one row with no guild. */
    method UpdateInventory(userId: int, itemName: string, itemValue: int, itemRarity: Rarity, purchaseDate: int)
      modifies this
      ensures inventory == old(inventory) + [InventoryRow(userId, None, itemName, itemValue, itemRarity, purchaseDate)]
      ensures users == old(users) && shop == old(shop)
    {
      inventory := inventory + [InventoryRow(userId, None, itemName, itemValue, itemRarity, purchaseDate)];
    }

    /**
     * `retrieve_top_five()` as written: the query reads a table named
     * `points`, which the repository's setup script does not create, so the
     * call fails whatever the data.
     */
    method RetrieveTopFive() returns (r: Result<seq<Standing>>)
      ensures r.Err? && r.error == NoSuchTable
    {
      r := Err(NoSuchTable);
    }

    /**
     * `retrieve_top_five()` as its docstring and ORDER BY intend, read from
     * the battlepass table: at most five users of any guild, highest level
     * first, then highest points.
     */
    method RetrieveTopFiveOfBattlepass() returns (rows: seq<Standing>)
      ensures exists ids :: IsTopFive(LegacyStandings(users), None, ids, rows)
    {
      var ids;
      ids, rows := TopFive(LegacyStandings(users), None);
    }

    /** `retrieve_shop_items`: the same per-rarity draw as the newer helpers. */
    method RetrieveShopItems() returns (items: seq<ShopRow>)
      ensures IsShopSelection(shop, items)
    {
      items := SelectShopItems(shop);
    }

    /** `retrieve_owned_item`: the item name when the user owns an item of that name, else None. */
    function RetrieveOwnedItem(userId: int, itemName: string): (r: Option<string>)
      reads this
      ensures r.Some? <==> Owns(inventory, userId, itemName)
      ensures r.Some? ==> r.value == itemName
    {
      if Owns(inventory, userId, itemName) then Some(itemName) else None
    }
  }
}
