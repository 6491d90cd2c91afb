/**
 * The parts of the database layer that compute rather than store: the
 * WHERE-clause builder of `get_user_id`, the top-five ranking that
 * `ORDER BY level DESC, points DESC LIMIT 5` returns, and the per-rarity
 * shop selection. Both revisions of the database layer use them.
 */
module Queries {
  import opened Wrappers

  function Min(a: int, b: int): (r: int)
  {
    if a <= b then a else b
  }

  // ---------------------------------------------------------------------
  // get_user_id: the query built from keyword arguments
  // ---------------------------------------------------------------------

  /** The columns the commands filter users on. */
  datatype Column = UserIdColumn | GuildIdColumn | UserNameColumn

  function ColumnName(c: Column): (r: string)
  {
    match c
    case UserIdColumn => "user_id"
    case GuildIdColumn => "guild_id"
    case UserNameColumn => "user_name"
  }

  /** A value bound to a `?` placeholder. */
  datatype Value = IntValue(i: int) | TextValue(s: string)

  /** One keyword argument: `column=value`. */
  datatype Condition = Condition(column: Column, value: Value)

  const SelectUserId: string := "SELECT user_id FROM battlepass"

  /** The term `f'{key} = ?'` contributed by one keyword argument. */
  function Term(c: Condition): (r: string)
  {
    ColumnName(c.column) + " = ?"
  }

  function Terms(conditions: seq<Condition>): (r: seq<string>)
    ensures |r| == |conditions|
    ensures forall i :: 0 <= i < |r| ==> r[i] == Term(conditions[i])
  {
    seq(|conditions|, i requires 0 <= i < |conditions| => Term(conditions[i]))
  }

  /** `sep.join(parts)`. */
  function Join(parts: seq<string>, sep: string): (r: string)
  {
    if |parts| == 0 then ""
    else if |parts| == 1 then parts[0]
    else Join(parts[..|parts| - 1], sep) + sep + parts[|parts| - 1]
  }

  /** How many `?` placeholders a query text holds. */
  function Placeholders(s: string): (r: nat)
  {
    if |s| == 0 then 0 else Placeholders(s[..|s| - 1]) + (if s[|s| - 1] == '?' then 1 else 0)
  }

  lemma {:induction false} PlaceholdersAppend(a: string, b: string)
    ensures Placeholders(a + b) == Placeholders(a) + Placeholders(b)
    decreases |b|
  {
    if |b| == 0 {
      assert a + b == a;
    } else {
      assert (a + b)[..|a + b| - 1] == a + b[..|b| - 1];
      PlaceholdersAppend(a, b[..|b| - 1]);
    }
  }

  lemma {:induction false} NoPlaceholders(s: string)
    requires '?' !in s
    ensures Placeholders(s) == 0
    decreases |s|
  {
    if |s| > 0 {
      NoPlaceholders(s[..|s| - 1]);
    }
  }

  lemma TermPlaceholders(c: Condition)
    ensures Placeholders(Term(c)) == 1
  {
    NoPlaceholders(ColumnName(c.column));
    NoPlaceholders(" = ");
    assert " = ?" == " = " + "?";
    PlaceholdersAppend(" = ", "?");
    PlaceholdersAppend(ColumnName(c.column), " = ?");
  }

  /** Joining terms that hold one placeholder each, with a separator holding none, gives one per term. */
  lemma {:induction false} JoinPlaceholders(parts: seq<string>, sep: string)
    requires Placeholders(sep) == 0
    requires forall i :: 0 <= i < |parts| ==> Placeholders(parts[i]) == 1
    ensures Placeholders(Join(parts, sep)) == |parts|
    decreases |parts|
  {
    if |parts| > 1 {
      var init := parts[..|parts| - 1];
      JoinPlaceholders(init, sep);
      PlaceholdersAppend(Join(init, sep), sep);
      PlaceholdersAppend(Join(init, sep) + sep, parts[|parts| - 1]);
    }
  }

  /**
   * Builds `SELECT user_id FROM battlepass`, followed, when there are
   * keyword arguments, by ` WHERE ` and their `key = ?` terms joined by
   * ` AND `; the bound values follow the terms one for one, in order.
   */
  method BuildUserIdQuery(kwargs: seq<Condition>) returns (query: string, values: seq<Value>)
    ensures |values| == |kwargs|
    ensures forall i :: 0 <= i < |kwargs| ==> values[i] == kwargs[i].value
    ensures |kwargs| == 0 ==> query == SelectUserId
    ensures |kwargs| > 0 ==> query == SelectUserId + " WHERE " + Join(Terms(kwargs), " AND ")
    ensures Placeholders(query) == |values|
  {
    var conditions: seq<string> := [];
    values := [];
    var i := 0;
    while i < |kwargs|
      invariant 0 <= i <= |kwargs|
      invariant |conditions| == i && |values| == i
      invariant forall j :: 0 <= j < i ==> conditions[j] == Term(kwargs[j]) && values[j] == kwargs[j].value
    {
      conditions := conditions + [Term(kwargs[i])];
      values := values + [kwargs[i].value];
      i := i + 1;
    }
    assert conditions == Terms(kwargs);
    var whereClause := Join(conditions, " AND ");
    query := SelectUserId;
    NoPlaceholders(SelectUserId);
    if |conditions| > 0 {
      query := query + " WHERE " + whereClause;
      forall j | 0 <= j < |conditions| ensures Placeholders(conditions[j]) == 1 {
        TermPlaceholders(kwargs[j]);
      }
      NoPlaceholders(" AND ");
      NoPlaceholders(" WHERE ");
      JoinPlaceholders(conditions, " AND ");
      PlaceholdersAppend(SelectUserId, " WHERE ");
      PlaceholdersAppend(SelectUserId + " WHERE ", whereClause);
    }
  }

  // ---------------------------------------------------------------------
  // retrieve_top_five: ORDER BY level DESC, points DESC LIMIT 5
  // ---------------------------------------------------------------------

  /** The columns of a user row that the leaderboard reads. */
  datatype Standing = Standing(userName: string, guildId: int, level: int, points: int)

  const TopLimit: nat := 5

  /** Whether a row passes the optional `WHERE guild_id = ?` filter. */
  predicate InScope(s: Standing, guild: Option<int>)
  {
    guild.None? || s.guildId == guild.value
  }

  /** `a` sorts no later than `b`: higher level first, then more points. */
  predicate RanksAtLeast(a: Standing, b: Standing)
  {
    a.level > b.level || (a.level == b.level && a.points >= b.points)
  }

  function Candidates(table: map<int, Standing>, guild: Option<int>): (r: set<int>)
  {
    set k | k in table && InScope(table[k], guild)
  }

  lemma NonEmptyHasMember(pool: set<int>)
    requires pool != {}
    ensures exists k :: k in pool
  {
    if forall k :: k !in pool {
      assert false;
    }
  }

  /** Finds a row of `pool` that ranks at least as high as every other row of it. */
  method PickBest(table: map<int, Standing>, pool: set<int>) returns (best: int)
    requires pool != {} && pool <= table.Keys
    ensures best in pool
    ensures forall k :: k in pool ==> RanksAtLeast(table[best], table[k])
  {
    NonEmptyHasMember(pool);
    best :| best in pool;
    var rest := pool - {best};
    while rest != {}
      invariant rest <= pool && best in pool && best !in rest
      invariant forall k :: k in pool - rest ==> RanksAtLeast(table[best], table[k])
      decreases rest
    {
      NonEmptyHasMember(rest);
      var k :| k in rest;
      if !RanksAtLeast(table[best], table[k]) {
        best := k;
      }
      rest := rest - {k};
    }
  }

  /**
   * What `ORDER BY level DESC, points DESC LIMIT 5` may return: the user
   * ids and their rows, at most five of the filter's scope (all of them
   * when there are fewer), each user once, in ranking order, and no row
   * left out that ranks above one let in. Ties may come back in any order.
   */
  ghost predicate IsTopFive(table: map<int, Standing>, guild: Option<int>, ids: seq<int>, rows: seq<Standing>)
  {
    && |ids| == Min(TopLimit, |Candidates(table, guild)|)
    && |rows| == |ids|
    && (forall i :: 0 <= i < |ids| ==> ids[i] in Candidates(table, guild) && rows[i] == table[ids[i]])
    && (forall i, j :: 0 <= i < j < |ids| ==> ids[i] != ids[j])
    && (forall i, j :: 0 <= i < j < |rows| ==> RanksAtLeast(rows[i], rows[j]))
    && (forall k, i :: k in Candidates(table, guild) && k !in ids && 0 <= i < |rows| ==>
          RanksAtLeast(rows[i], table[k]))
  }

  /**
   * The leaderboard: at most five rows of the filter's scope, as many as
   * there are when fewer, each user once, ordered by level and then points
   * (both descending), and no row left out that ranks above one let in.
   */
  method TopFive(table: map<int, Standing>, guild: Option<int>) returns (ids: seq<int>, rows: seq<Standing>)
    ensures IsTopFive(table, guild, ids, rows)
  {
    var candidates := set k | k in table && InScope(table[k], guild);
    assert candidates == Candidates(table, guild);
    var remaining := candidates;
    ids, rows := [], [];
    while |ids| < TopLimit && remaining != {}
      invariant remaining <= candidates
      invariant |ids| <= TopLimit && |rows| == |ids|
      invariant forall i :: 0 <= i < |ids| ==> ids[i] in candidates && ids[i] !in remaining && rows[i] == table[ids[i]]
      invariant forall k :: k in candidates && k !in remaining ==> k in ids
      invariant forall i, j :: 0 <= i < j < |ids| ==> ids[i] != ids[j]
      invariant |ids| + |remaining| == |candidates|
      invariant forall i, j :: 0 <= i < j < |rows| ==> RanksAtLeast(rows[i], rows[j])
      invariant forall k, i :: k in remaining && 0 <= i < |rows| ==> RanksAtLeast(rows[i], table[k])
      decreases remaining
    {
      var best := PickBest(table, remaining);
      ids, rows := ids + [best], rows + [table[best]];
      remaining := remaining - {best};
    }
  }

  // ---------------------------------------------------------------------
  // retrieve_shop_items: per-rarity quotas
  // ---------------------------------------------------------------------

  /** The six rarity names the quota dictionary knows. */
  const QuotaNames: set<string> := {"Legendary", "Exotic", "Very Rare", "Rare", "Uncommon", "Common"}

  /** Text in the rarity column that is none of the six quota names. */
  type OtherRarityName = s: string | s !in QuotaNames witness ""

  /** The rarity column: the six names the quotas know, or any other text. */
  datatype Rarity = Legendary | Exotic | VeryRare | Rare | Uncommon | Common | Unlisted(name: OtherRarityName)

  /** The text stored in the rarity column. */
  function RarityName(r: Rarity): (name: string)
  {
    match r
    case Legendary => "Legendary"
    case Exotic => "Exotic"
    case VeryRare => "Very Rare"
    case Rare => "Rare"
    case Uncommon => "Uncommon"
    case Common => "Common"
    case Unlisted(name) => name
  }

  /** Distinct rarities have distinct column text, so comparing rarities is the `rarity = ?` test of the query. */
  lemma RarityNameInjective(a: Rarity, b: Rarity)
    ensures RarityName(a) == RarityName(b) <==> a == b
  {
  }

  /** A row of the shop table. */
  datatype ShopRow = ShopRow(itemName: string, rarity: Rarity, imgUrl: string)

  /** The rarities in the order the quota dictionary lists them, and how many of each are drawn. */
  const Rarities: seq<Rarity> := [Legendary, Exotic, VeryRare, Rare, Uncommon, Common]
  const Quotas: seq<nat> := [1, 1, 1, 2, 2, 3]
  /** QuotaPrefix[k] is the sum of the first k quotas. */
  const QuotaPrefix: seq<nat> := [0, 1, 2, 3, 5, 7, 10]

  /** The position of a rarity in the quota order; 6 for a rarity that has no quota. */
  function RarityRank(rarity: Rarity): (r: nat)
    ensures r <= |Rarities|
    ensures r < |Rarities| ==> Rarities[r] == rarity
    ensures r == |Rarities| ==> rarity !in Rarities
  {
    match rarity
    case Legendary => 0
    case Exotic => 1
    case VeryRare => 2
    case Rare => 3
    case Uncommon => 4
    case Common => 5
    case Unlisted(_) => 6
  }

  /** Each listed rarity sits at its own rank, so distinct positions hold distinct rarities. */
  lemma RarityRanks(j: nat)
    requires j < |Rarities|
    ensures RarityRank(Rarities[j]) == j
  {
    if j == 0 { assert Rarities[0] == Legendary; }
    else if j == 1 { assert Rarities[1] == Exotic; }
    else if j == 2 { assert Rarities[2] == VeryRare; }
    else if j == 3 { assert Rarities[3] == Rare; }
    else if j == 4 { assert Rarities[4] == Uncommon; }
    else { assert Rarities[5] == Common; }
  }

  /** `WHERE rarity = ?`: the rows of one rarity, in table order. */
  function OfRarity(rows: seq<ShopRow>, rarity: Rarity): (r: seq<ShopRow>)
    ensures |r| <= |rows|
  {
    if |rows| == 0 then []
    else OfRarity(rows[..|rows| - 1], rarity)
         + (if rows[|rows| - 1].rarity == rarity then [rows[|rows| - 1]] else [])
  }

  lemma {:induction false} OfRarityAppend(a: seq<ShopRow>, b: seq<ShopRow>, rarity: Rarity)
    ensures OfRarity(a + b, rarity) == OfRarity(a, rarity) + OfRarity(b, rarity)
    decreases |b|
  {
    if |b| == 0 {
      assert a + b == a;
    } else {
      assert (a + b)[..|a + b| - 1] == a + b[..|b| - 1];
      OfRarityAppend(a, b[..|b| - 1], rarity);
    }
  }

  /** Filtering by rarity keeps every row of that rarity as often as it occurs, and no other row. */
  lemma {:induction false} OfRarityCounts(rows: seq<ShopRow>, rarity: Rarity, x: ShopRow)
    ensures multiset(OfRarity(rows, rarity))[x] == if x.rarity == rarity then multiset(rows)[x] else 0
    decreases |rows|
  {
    if |rows| > 0 {
      var init := rows[..|rows| - 1];
      OfRarityCounts(init, rarity, x);
      assert rows == init + [rows[|rows| - 1]];
    }
  }

  /** Rows all of one rarity filter to themselves for it and to nothing for any other. */
  lemma {:induction false} OfRarityUniform(rows: seq<ShopRow>, rarity: Rarity, other: Rarity)
    requires forall i :: 0 <= i < |rows| ==> rows[i].rarity == rarity
    ensures OfRarity(rows, rarity) == rows
    ensures other != rarity ==> OfRarity(rows, other) == []
    decreases |rows|
  {
    if |rows| > 0 {
      OfRarityUniform(rows[..|rows| - 1], rarity, other);
      assert rows == rows[..|rows| - 1] + [rows[|rows| - 1]];
    }
  }

  /** Rows whose rarities all rank below `k` hold no row of the `k`-th or a later rarity. */
  lemma {:induction false} OfRarityBelow(rows: seq<ShopRow>, k: nat, j: nat)
    requires k <= j < |Rarities|
    requires forall i :: 0 <= i < |rows| ==> RarityRank(rows[i].rarity) < k
    ensures OfRarity(rows, Rarities[j]) == []
    decreases |rows|
  {
    if |rows| > 0 {
      OfRarityBelow(rows[..|rows| - 1], k, j);
    }
  }

  /** `ORDER BY RANDOM() LIMIT n` on a pool: as many distinct pool rows as the limit allows. */
  predicate IsSample(group: seq<ShopRow>, pool: seq<ShopRow>, n: nat)
  {
    |group| == Min(n, |pool|) && multiset(group) <= multiset(pool)
  }

  lemma PrefixIsSample(pool: seq<ShopRow>, n: nat)
    ensures IsSample(pool[..Min(n, |pool|)], pool, n)
  {
    var m := Min(n, |pool|);
    assert pool == pool[..m] + pool[m..];
  }

  /** `ORDER BY RANDOM() LIMIT n` over `pool`: any admissible sample. */
  method Sample(pool: seq<ShopRow>, n: nat) returns (group: seq<ShopRow>)
    ensures IsSample(group, pool, n)
  {
    PrefixIsSample(pool, n);
    group :| IsSample(group, pool, n);
  }

  /** Every row of `rows` has a rarity ranked below `k`. */
  ghost predicate RanksBelow(rows: seq<ShopRow>, k: nat)
  {
    forall i :: 0 <= i < |rows| ==> RarityRank(rows[i].rarity) < k
  }

  /** Rows appear grouped by rarity, in quota order. */
  ghost predicate GroupedByRarity(rows: seq<ShopRow>)
  {
    forall i, j :: 0 <= i < j < |rows| ==> RarityRank(rows[i].rarity) <= RarityRank(rows[j].rarity)
  }

  /** The first `k` rarities are each represented up to their quota, or by all the table has. */
  ghost predicate QuotasMet(selected: seq<ShopRow>, shop: seq<ShopRow>, k: nat)
    requires k <= |Rarities|
  {
    forall j :: 0 <= j < k ==> |OfRarity(selected, Rarities[j])| == Min(Quotas[j], |OfRarity(shop, Rarities[j])|)
  }

  /** Each selected row is a table row of one of the first `k` rarities, never drawn twice. */
  ghost predicate DrawnFrom(selected: seq<ShopRow>, shop: seq<ShopRow>, k: nat)
  {
    forall x :: multiset(selected)[x] <= if RarityRank(x.rarity) < k then multiset(shop)[x] else 0
  }

  /** A sample of the `k`-th rarity's rows has only rows of that rarity. */
  lemma SampleIsUniform(shop: seq<ShopRow>, k: nat, group: seq<ShopRow>)
    requires k < |Rarities|
    requires IsSample(group, OfRarity(shop, Rarities[k]), Quotas[k])
    ensures forall i :: 0 <= i < |group| ==> group[i].rarity == Rarities[k]
  {
    forall i | 0 <= i < |group| ensures group[i].rarity == Rarities[k] {
      assert group[i] in multiset(OfRarity(shop, Rarities[k]));
      OfRarityCounts(shop, Rarities[k], group[i]);
    }
  }

  /** Appending the `k`-th rarity's sample keeps every row drawn from the table. */
  lemma AppendKeepsDrawn(shop: seq<ShopRow>, selected: seq<ShopRow>, k: nat, group: seq<ShopRow>)
    requires k < |Rarities|
    requires DrawnFrom(selected, shop, k)
    requires IsSample(group, OfRarity(shop, Rarities[k]), Quotas[k])
    requires forall i :: 0 <= i < |group| ==> group[i].rarity == Rarities[k]
    ensures DrawnFrom(selected + group, shop, k + 1)
  {
    forall x ensures multiset(selected + group)[x] <= if RarityRank(x.rarity) < k + 1 then multiset(shop)[x] else 0 {
      OfRarityCounts(shop, Rarities[k], x);
      if x in group {
        assert RarityRank(x.rarity) == k;
      }
    }
  }

  /** Appending the `k`-th rarity's sample settles the count of rarity `j` for good. */
  lemma AppendQuotaAt(shop: seq<ShopRow>, selected: seq<ShopRow>, k: nat, group: seq<ShopRow>, j: nat)
    requires j <= k < |Rarities|
    requires RanksBelow(selected, k)
    requires j < k ==> |OfRarity(selected, Rarities[j])| == Min(Quotas[j], |OfRarity(shop, Rarities[j])|)
    requires IsSample(group, OfRarity(shop, Rarities[k]), Quotas[k])
    requires forall i :: 0 <= i < |group| ==> group[i].rarity == Rarities[k]
    ensures |OfRarity(selected + group, Rarities[j])| == Min(Quotas[j], |OfRarity(shop, Rarities[j])|)
  {
    var rj := Rarities[j];
    OfRarityAppend(selected, group, rj);
    if j == k {
      OfRarityUniform(group, rj, rj);
      OfRarityBelow(selected, k, k);
      assert OfRarity(selected + group, rj) == group;
    } else {
      RarityRanks(j);
      RarityRanks(k);
      OfRarityUniform(group, Rarities[k], rj);
      assert OfRarity(selected + group, rj) == OfRarity(selected, rj);
    }
  }

  /** Appending the `k`-th rarity's sample meets that rarity's quota and keeps the earlier ones. */
  lemma AppendMeetsQuota(shop: seq<ShopRow>, selected: seq<ShopRow>, k: nat, group: seq<ShopRow>)
    requires k < |Rarities|
    requires RanksBelow(selected, k) && QuotasMet(selected, shop, k)
    requires IsSample(group, OfRarity(shop, Rarities[k]), Quotas[k])
    requires forall i :: 0 <= i < |group| ==> group[i].rarity == Rarities[k]
    ensures QuotasMet(selected + group, shop, k + 1)
  {
    forall j | 0 <= j < k + 1
      ensures |OfRarity(selected + group, Rarities[j])| == Min(Quotas[j], |OfRarity(shop, Rarities[j])|)
    {
      AppendQuotaAt(shop, selected, k, group, j);
    }
  }

  /** Appending rows of the `k`-th rarity after rows ranked below `k` keeps the grouping. */
  lemma AppendKeepsOrder(selected: seq<ShopRow>, k: nat, group: seq<ShopRow>)
    requires k < |Rarities|
    requires RanksBelow(selected, k) && GroupedByRarity(selected)
    requires forall i :: 0 <= i < |group| ==> group[i].rarity == Rarities[k]
    ensures RanksBelow(selected + group, k + 1) && GroupedByRarity(selected + group)
  {
    RarityRanks(k);
    var all := selected + group;
    forall i | 0 <= i < |all| ensures RarityRank(all[i].rarity) <= k && (i >= |selected| ==> RarityRank(all[i].rarity) == k) {
      if i >= |selected| {
        assert all[i] == group[i - |selected|];
      }
    }
  }

  lemma QuotaPrefixStep(k: nat)
    requires k < |Rarities|
    ensures QuotaPrefix[k + 1] == QuotaPrefix[k] + Quotas[k]
  {
  }

  /** What the draw guarantees after the first `k` rarities. */
  ghost predicate DrawSoFar(shop: seq<ShopRow>, selected: seq<ShopRow>, k: nat)
    requires k <= |Rarities|
  {
    && |selected| <= QuotaPrefix[k]
    && RanksBelow(selected, k) && GroupedByRarity(selected)
    && QuotasMet(selected, shop, k)
    && DrawnFrom(selected, shop, k)
  }

  /** Drawing the `k`-th rarity's sample extends the guarantee to `k + 1` rarities. */
  lemma DrawStep(shop: seq<ShopRow>, selected: seq<ShopRow>, k: nat, group: seq<ShopRow>)
    requires k < |Rarities|
    requires DrawSoFar(shop, selected, k)
    requires IsSample(group, OfRarity(shop, Rarities[k]), Quotas[k])
    ensures DrawSoFar(shop, selected + group, k + 1)
  {
    SampleIsUniform(shop, k, group);
    AppendKeepsDrawn(shop, selected, k, group);
    AppendMeetsQuota(shop, selected, k, group);
    AppendKeepsOrder(selected, k, group);
    QuotaPrefixStep(k);
  }

  /**
   * What the per-rarity draw may return: at most ten rows, each drawn from
   * the table no more often than it occurs there; for every rarity exactly
   * its quota, or all the table has when that is fewer; only rarities that
   * have a quota; grouped by rarity in quota order.
   */
  ghost predicate IsShopSelection(shop: seq<ShopRow>, selected: seq<ShopRow>)
  {
    && |selected| <= 10
    && multiset(selected) <= multiset(shop)
    && (forall k :: 0 <= k < |Rarities| ==>
          |OfRarity(selected, Rarities[k])| == Min(Quotas[k], |OfRarity(shop, Rarities[k])|))
    && (forall i :: 0 <= i < |selected| ==> RarityRank(selected[i].rarity) < |Rarities|)
    && (forall i, j :: 0 <= i < j < |selected| ==>
          RarityRank(selected[i].rarity) <= RarityRank(selected[j].rarity))
  }

  /** After every rarity, the guarantee is a valid selection. */
  lemma DrawComplete(shop: seq<ShopRow>, selected: seq<ShopRow>)
    requires DrawSoFar(shop, selected, |Rarities|)
    ensures IsShopSelection(shop, selected)
  {
    forall x ensures multiset(selected)[x] <= multiset(shop)[x] {
    }
  }

  /**
   * The shop offer: for each rarity in quota order, up to its quota of
   * randomly chosen rows of that rarity (all of them when there are fewer).
   * At most ten rows, grouped by rarity in quota order, each drawn from the
   * table no more often than it occurs there.
   */
  method SelectShopItems(shop: seq<ShopRow>) returns (selected: seq<ShopRow>)
    ensures IsShopSelection(shop, selected)
  {
    selected := [];
    var k := 0;
    while k < |Rarities|
      invariant 0 <= k <= |Rarities|
      invariant DrawSoFar(shop, selected, k)
    {
      var group := Sample(OfRarity(shop, Rarities[k]), Quotas[k]);
      DrawStep(shop, selected, k, group);
      selected := selected + group;
      k := k + 1;
    }
    DrawComplete(shop, selected);
  }

  /** The quotas add up to ten. */
  lemma QuotaTotal()
    ensures QuotaPrefix[|Rarities|] == Quotas[0] + Quotas[1] + Quotas[2] + Quotas[3] + Quotas[4] + Quotas[5] == 10
  {
  }
}
