# Discord bot core, modelled in Dafny

This project models the stateful core of a Discord bot written in Python.
The core has three parts:

- A **music cog** keeps two dictionaries keyed by guild id: the queue of
  requested songs and the voice connection. Its commands (`play`, `skip`,
  `shuffle`, `move`, `pause`, `resume`, `stop`) edit those dictionaries.
  Requests are resolved by substring tests: a YouTube link, a Spotify track
  link, or free text to search for.
- A **battlepass economy** keeps a table of users. Each row holds points, a
  level, a 15-minute claim timestamp and a 24-hour claim timestamp. Users
  register, claim points on two independent cooldowns, spend points to tier
  up and buy items from a shop that is refreshed every 30 minutes.
- The **database helpers** (a newer and an older revision) perform those
  reads and writes, build the `get_user_id` query, rank the leaderboard and
  draw the shop by rarity quota.

Modules, one per source component:

| module | file | models |
|---|---|---|
| `Wrappers` | wrappers.dfy | `Option`, `Result` and the exceptions the source raises |
| `HexUtils` | hex.dfy | utils.py, cogs/utils.py, utils/misc.py |
| `Sources` | sources.dfy | URL classification and resolution shared by cogs/music.py and download_yt.py |
| `TrackInfo` | track_info.dfy | download_yt.py |
| `Music` | music.dfy | cogs/music.py, as a `MusicCog` class over two maps |
| `Queries` | queries.dfy | the loops of the database helpers: the WHERE builder, the top five, the rarity draw |
| `Database` | database.dfy | utils/db_interface.py, as a `BattlepassDb` class over the three tables |
| `LegacyDatabase` | legacy_database.dfy | db_interface.py, as a `LegacyBattlepassDb` class |
| `Battlepass` | battlepass.dfy | cogs/battlepass.py |
| `Shop` | shop.dfy | cogs/shop.py, as a `ShopCog` class holding the module-level shop state |

Modelling choices:

- **External services.** pytube's `YouTube` and `Search` and spotipy's
  `track` are the fields of a `Services` value. Each field is a total
  function that may answer "nothing". Every theorem holds for every
  `Services` value.
- **Time.** The clock is a `now` parameter in whole seconds.
- **Randomness.** `random.shuffle` and `ORDER BY RANDOM()` are
  nondeterministic choices. They are constrained only by what the source
  guarantees: a permutation, or a sample of the right rows.
- **Exceptions.** A Python exception that a command lets escape, or catches
  and only logs, is an error outcome with the state it leaves behind.
- **Atomicity.** Each command is one atomic step.

Where the code and its own documentation disagree, the model follows the
code:

- The level-cost docstring lists "2:100". The formula gives 110.
- The older helpers target an older schema than database_setup.py creates:
  they read and write a `last_awarded_at` column, which only
  manual_db_entry.py names. Those calls are modelled on that older
  battlepass row. Their leaderboard query, however, reads a table named
  `points`, which no script of the repository creates under either schema.
  It is modelled both as written (the call fails) and as its docstring and
  `ORDER BY` intend (see "## Findings").
- `move` subtracts 1 from its string arguments before reaching its TODO. It
  therefore always fails and never reorders the queue.

## Model

| member | source | states |
|---|---|---|
| HexUtils.DoubleXpDoubles | utils.py:5-13 | the award is 15 points, doubled to 30 under double XP |
| HexUtils.LevelCostSteps | utils.py:23-30 | level 1 costs 100, and each further level costs exactly 10 more than the one before |
| HexUtils.LevelCostIncreasing | cogs/utils.py:13-20 | the level cost is strictly increasing in the level |
| HexUtils.HexDigits | utils.py:20 | the hex rendering is at least one lowercase hex digit; it starts with `0` exactly for zero, and zero renders as "0" |
| HexUtils.HexRoundTrip | utils.py:20 | reading the hex digits back gives the number |
| HexUtils.AfterLast | utils.py:20 | `split(sep)[-1]` is a suffix of the text that holds no separator; it is the whole text when there is no separator, and otherwise it starts right after a separator |
| HexUtils.AfterLastOfSuffix | utils.py:20 | the part after the last separator is exactly the tail that follows it |
| HexUtils.DecimalToHexIsDigits | utils/misc.py:5-9 | `decimal_to_hex` is exactly the hex digits of the absolute value, with no `0x` and no sign |
| HexUtils.DecimalToHexShape | cogs/utils.py:6-10 | the output is non-empty lowercase hex, with a leading `0` only for zero |
| HexUtils.DecimalToHexRoundTrip | utils.py:16-20 | for a non-negative input, the output parses back to the input |
| HexUtils.DecimalToHexDropsSign | utils/misc.py:9 | a negative input gives the same text as its absolute value |
| Sources.ContainsIff | cogs/music.py:220 | the substring scan says yes exactly when the pattern occurs at some position |
| Sources.IsYtUrlIff | download_yt.py:80-84 | an input is a YouTube link iff `https://www.youtube.com/` occurs in it |
| Sources.IsSpotifyUrlIff | download_yt.py:87-93 | an input is a Spotify link iff `open.spotify.com/track/` occurs in it |
| Sources.MarkerAnywhereClassifies | cogs/music.py:216-230 | a marker anywhere in the input, with any text around it, classifies the input |
| Sources.ShortInputIsSearch | cogs/music.py:224-230 | an input shorter than the Spotify marker is neither kind of link |
| Sources.Classify | cogs/music.py:208-214 | YouTube iff the YouTube test passes; Spotify iff only the Spotify test passes; search text otherwise |
| Sources.SearchTerms | cogs/music.py:242-244 | the Spotify search terms are the track name, one space, then the first artist; a track with no artist gives none |
| Sources.FirstResult | download_yt.py:22-24 | `results[0]` exists exactly when the search found something, and it is the first result |
| Sources.YouTubeWins | download_yt.py:18-19 | a YouTube link is resolved by the YouTube lookup alone, whatever the other services answer |
| Sources.SpotifyGoesThroughSearch | download_yt.py:20-22 | a Spotify link is resolved by searching for "name artist", and its result depends on nothing else |
| Sources.SearchTextIsSearchedVerbatim | download_yt.py:23-24 | plain text is searched as typed, and the first result is taken |
| Sources.ResolveFails | download_yt.py:57-58 | each way the chosen service can come back empty leaves the request unresolved |
| TrackInfo.Decimal | download_yt.py:64 | the decimal rendering is non-empty digits with no leading zero except for zero |
| TrackInfo.DecimalRoundTrip | download_yt.py:64 | reading the decimal back gives the number |
| TrackInfo.IntRoundTrip | download_yt.py:64 | reading a signed decimal back gives the integer |
| TrackInfo.TwoDigits | download_yt.py:64 | `:02d` of a value below 100 is exactly two digits that read back as the value |
| TrackInfo.FormatTimeShape | download_yt.py:61-64 | `format_time` has exactly one colon, three characters from the end, then two digits under 60; for non-negative input the minutes are the decimal of `s / 60` |
| TrackInfo.FormatTimeRoundTrip | download_yt.py:61-64 | reading the output as `m:ss` gives `m*60 + ss == s` for every integer, negative ones included |
| TrackInfo.FormatTimeNoHours | download_yt.py:63-64 | there is no hour field: an hour or more shows as 60 or more minutes |
| TrackInfo.FormatTimeExamples | download_yt.py:61-64 | 3600 gives "60:00", 61 gives "1:01" and 0 gives "0:00" |
| TrackInfo.GetSongInfo | download_yt.py:37-58 | a record exists iff the input resolves; its duration is `format_time(length)`, its url is the user's input, and its author is passed through |
| TrackInfo.Download | download_yt.py:13-34 | a file is saved iff the input resolves to an audio stream, and it is the saved stream |
| TrackInfo.SongInfoKeepsRequest | download_yt.py:50-56 | for a resolved video, the record is exactly its title, formatted length and thumbnail, plus the request's author and url |
| TrackInfo.DownloadAndInfoAgree | download_yt.py:42-48 | both helpers try the same sources in the same order, so a successful download implies a song record |
| Music.PauseThenResume | cogs/music.py:156-175 | resuming right after pausing a playing client restores it |
| Music.PauseThenResumeInCog | cogs/music.py:156-175 | in a cog whose connections are never both playing and paused, pausing then resuming a playing connection restores it |
| Music.DrainIsFifo | cogs/music.py:96-103 | the `play` loop plays entries in FIFO order; without a failure everything plays and the queue ends empty; after a failure the entries behind the failed one stay queued in order |
| Music.DrainFailsIff | cogs/music.py:96-105 | the loop is cut short iff some queued entry cannot be resolved |
| Music.MusicCog.constructor | cogs/music.py:19-22 | the cog starts with no queues and no clients |
| Music.MusicCog.Play | cogs/music.py:57-105 | a user outside voice changes nothing; a connected guild gets the request appended to its queue; an unconnected guild registers exactly one client and drains its queue, keeping what a failure leaves; other guilds are untouched |
| Music.MusicCog.Skip | cogs/music.py:107-129 | while playing, the queue loses exactly its head, and the head is what plays next; an empty queue stops the session; nothing playing changes nothing; a guild with no client is an uncaught lookup error |
| Music.MusicCog.Shuffle | cogs/music.py:131-141 | a queue longer than one becomes a permutation of itself; a shorter one is unchanged; a guild with no queue is an uncaught lookup error |
| Music.MusicCog.Move | cogs/music.py:143-153 | the command never changes the queue; it fails on its argument arithmetic |
| Music.MusicCog.Pause | cogs/music.py:155-164 | only the guild's client changes, and it becomes paused if it was playing; a missing client is logged |
| Music.MusicCog.Resume | cogs/music.py:166-175 | only the guild's client changes, and it plays again if it was paused; a missing client is logged |
| Music.MusicCog.Stop | cogs/music.py:177-189 | the guild's client and queue keys are removed and all other guilds are unchanged; a missing key is swallowed |
| Queries.JoinPlaceholders | utils/db_interface.py:30 | joining one-placeholder terms with ` AND ` keeps one placeholder per term |
| Queries.BuildUserIdQuery | utils/db_interface.py:14-38 | no arguments give the bare `SELECT`; otherwise ` WHERE ` and the terms joined by ` AND ` follow; the values are bound in condition order, one per placeholder |
| Queries.PickBest | utils/db_interface.py:224 | the chosen row ranks at least as high as every other row of the pool |
| Queries.TopFive | utils/db_interface.py:214-226 | only rows of the guild; at most five, or all when fewer; no user twice; ordered by level, then points, descending; no omitted row outranks an included one |
| Queries.RarityRanks | utils/db_interface.py:234-241 | the six quota rarities are distinct, and each sits at its own position |
| Queries.RarityNameInjective | utils/db_interface.py:252 | two rarities are equal iff their column text is equal, so comparing rarities is the query's `rarity = ?` test |
| Queries.OfRarity | utils/db_interface.py:252 | `WHERE rarity = ?` keeps exactly the rows of that rarity, in order |
| Queries.OfRarityCounts | utils/db_interface.py:252 | the filter keeps each row of the rarity as often as the table holds it, and no other row |
| Queries.PrefixIsSample | utils/db_interface.py:252-253 | the first `n` rows of a shuffled pool are a valid `LIMIT n` sample |
| Queries.Sample | utils/db_interface.py:252-253 | `ORDER BY RANDOM() LIMIT n` returns `min(n, size)` rows, each taken from the pool no more often than it occurs there |
| Queries.AppendMeetsQuota | utils/db_interface.py:251-254 | each pass of the quota loop meets its own rarity's quota and keeps the earlier ones |
| Queries.AppendKeepsOrder | utils/db_interface.py:251-254 | each pass appends after everything of an earlier rarity, so the result stays grouped |
| Queries.SelectShopItems | utils/db_interface.py:228-257 | for each rarity, exactly its quota (1, 1, 1, 2, 2, 3) or all the table has; only quota rarities; grouped in quota order; every row drawn from the table |
| Queries.QuotaTotal | utils/db_interface.py:234-241 | the quotas sum to 10 |
| Database.ByUserId | utils/db_interface.py:14-40 | a lookup by `user_id` alone finds a row iff the user is enrolled |
| Database.ItemsOf | utils/db_interface.py:187-191 | the inventory records are exactly the user's rows, as `(name, value, rarity)` |
| Database.OwnsAfterAppend | utils/db_interface.py:269-272 | after one insert, a user owns an item iff they owned it before or the new row is theirs with that name |
| Database.ItemsOfAppend | utils/db_interface.py:177-212 | an insert adds its item to its owner's inventory, at the end, and leaves other users' inventories unchanged |
| Database.BattlepassDb.constructor | database_setup.py:10-39 | the tables start with no users and no inventory |
| Database.BattlepassDb.GetUserId | utils/db_interface.py:14-38 | a key comes back iff some row satisfies every condition, and that row does |
| Database.BattlepassDb.CreateUser | utils/db_interface.py:42-53 | inserts one row with 120 points, level 1 and the given guild, name and timestamps; an existing key is refused and changes nothing |
| Database.BattlepassDb.RetrievePoints | utils/db_interface.py:56-69 | the user's points when enrolled; a missing row is an error, since there is no guard |
| Database.BattlepassDb.RetrieveRedemptionTime | utils/db_interface.py:72-87 | None for an absent user or an unset timestamp; otherwise the stored time |
| Database.BattlepassDb.RetrieveDailyRedemptionTime | utils/db_interface.py:89-105 | None for an absent user or an unset timestamp; otherwise the stored time |
| Database.BattlepassDb.RetrieveLevel | utils/db_interface.py:148-163 | None exactly for an absent user; otherwise the level |
| Database.BattlepassDb.UpdateRedemptionTime | utils/db_interface.py:107-119 | changes only that user's 15-minute timestamp |
| Database.BattlepassDb.UpdateDailyRedemptionTime | utils/db_interface.py:121-133 | changes only that user's daily timestamp |
| Database.BattlepassDb.UpdatePoints | utils/db_interface.py:135-146 | changes only that user's points |
| Database.BattlepassDb.UpdateLevel | utils/db_interface.py:165-175 | changes only that user's level |
| Database.BattlepassDb.RetrieveInventory | utils/db_interface.py:177-191 | exactly the user's items |
| Database.BattlepassDb.UpdateInventory | utils/db_interface.py:193-212 | appends exactly one row with the given fields and touches nothing else |
| Database.BattlepassDb.RetrieveTopFive | utils/db_interface.py:214-226 | the result is a valid top five of the guild |
| Database.BattlepassDb.RetrieveShopItems | utils/db_interface.py:228-257 | the result is a valid per-rarity draw of the shop table |
| Database.BattlepassDb.RetrieveOwnedItem | utils/db_interface.py:259-272 | a row comes back iff the user's inventory holds an item of that name |
| LegacyDatabase.LegacyBattlepassDb.constructor | database_setup.py:10-39 | the tables start with no users and no inventory |
| LegacyDatabase.LegacyBattlepassDb.GetUserId | db_interface.py:17-28 | filters on `user_id` only: a result iff the user is enrolled |
| LegacyDatabase.LegacyBattlepassDb.CreateUser | db_interface.py:31-43 | inserts one row with 100 points and level 1; an existing key is refused |
| LegacyDatabase.LegacyBattlepassDb.RetrievePoints | db_interface.py:46-59 | the user's points when enrolled; a missing row is an error |
| LegacyDatabase.LegacyBattlepassDb.RetrieveLastAwardedAt | db_interface.py:62-78 | None for an absent user or an unset timestamp |
| LegacyDatabase.LegacyBattlepassDb.UpdateLastAwardedAt | db_interface.py:81-93 | changes only that user's timestamp |
| LegacyDatabase.LegacyBattlepassDb.UpdatePoints | db_interface.py:96-107 | changes only that user's points |
| LegacyDatabase.LegacyBattlepassDb.RetrieveLevel | db_interface.py:110-125 | None exactly for an absent user |
| LegacyDatabase.LegacyBattlepassDb.UpdateLevel | db_interface.py:128-138 | changes only that user's level |
| LegacyDatabase.LegacyBattlepassDb.RetrieveInventory | db_interface.py:141-154 | exactly the user's items |
| LegacyDatabase.LegacyBattlepassDb.UpdateInventory | db_interface.py:157-175 | appends exactly one row with the given fields and no guild |
| LegacyDatabase.LegacyBattlepassDb.RetrieveTopFive | db_interface.py:178-189 | as written: the query names a table that no script creates, so it fails whatever the data |
| LegacyDatabase.LegacyBattlepassDb.RetrieveTopFiveOfBattlepass | db_interface.py:178-189 | as intended: users of every guild, at most five, or all when fewer; no user twice; ordered by level, then points, descending; no omitted user outranks an included one |
| LegacyDatabase.TopFiveOfBattlepassNonEmpty | db_interface.py:186-188 | once anyone is enrolled, the intended leaderboard has between one and five rows, and all users when there are at most five |
| LegacyDatabase.LegacyBattlepassDb.RetrieveShopItems | db_interface.py:192-220 | the same per-rarity quotas: at most 10 items, grouped in rarity order |
| LegacyDatabase.LegacyBattlepassDb.RetrieveOwnedItem | db_interface.py:223-236 | a row comes back iff the user owns an item of that name |
| Battlepass.PointsClaimSpec | cogs/battlepass.py:96-109 | a points claim succeeds iff a timestamp is stored and at least 900 seconds have passed; it adds `gain(level)` and changes only points and that timestamp |
| Battlepass.DailyClaimSpec | cogs/battlepass.py:156-168 | a daily claim succeeds iff at least 86400 seconds have passed; it adds exactly 100 and changes only points and the daily timestamp |
| Battlepass.CooldownsHold | cogs/battlepass.py:96-103 | after a granted claim, another claim of the same kind less than one cooldown later is refused |
| Battlepass.ClaimsIndependent | cogs/battlepass.py:103-168 | neither claim changes whether, or how much, the other pays; granting both gives the same record in either order |
| Battlepass.TierUpSpec | cogs/battlepass.py:215-241 | a tier-up succeeds iff the balance is non-zero and covers `points_to_level_up(level)`; it raises the level by exactly one and subtracts exactly the cost; zero points read as unregistered |
| Battlepass.CommandsKeepSound | cogs/battlepass.py:103-222 | no command drives a balance negative or a level below 1 |
| Battlepass.CommitKeepsSound | cogs/battlepass.py:108-109 | writing back a sound record keeps every row of the table sound |
| Battlepass.Register | cogs/battlepass.py:39-80 | an existing user changes nothing; otherwise exactly one row is created, with 120 points and both timestamps at now |
| Battlepass.ClaimPoints | cogs/battlepass.py:83-141 | the table changes exactly as the points-claim outcome says; an unenrolled user or a refused claim changes nothing |
| Battlepass.ClaimDaily | cogs/battlepass.py:143-199 | the table changes exactly as the daily-claim outcome says; refusals change nothing |
| Battlepass.TierUpCommand | cogs/battlepass.py:201-241 | the table changes exactly as the tier-up outcome says; an unenrolled user makes `retrieve_points` fail, with no change |
| Battlepass.Progress | cogs/battlepass.py:244-283 | shows the author's level and points when no name or an empty name is given (`if user:`), otherwise those of the named member of the guild; a zero balance reads as unregistered; a name not found in the guild is reported |
| Shop.FirstOffer | cogs/shop.py:81-85 | the position of the first offer with that name, present iff the name is on offer |
| Shop.FindOffer | cogs/shop.py:81-85 | the loop's value and rarity are those of the first offer with that name |
| Shop.FirstOfferAt | cogs/shop.py:82-85 | an offer with no earlier namesake is the first one |
| Shop.BoughtIsOwned | cogs/shop.py:74-100 | once bought, an item is owned, so buying it again is refused |
| Shop.ShopCog.constructor | cogs/shop.py:8-9 | the shop starts empty, with the refresh time set to load time |
| Shop.ShopCog.SetShopRefreshTime | cogs/shop.py:121-124 | only the refresh time changes |
| Shop.ShopCog.RefreshShop | cogs/shop.py:111-118 | the whole offer is replaced, and the refresh time becomes now plus 30 minutes |
| Shop.ShopCog.Buy | cogs/shop.py:55-108 | an unregistered user, a name not on offer, an owned item or too few points change nothing; otherwise points drop by exactly the first matching offer's value, never below zero, and exactly one inventory row with that name, value and rarity is added |

## Left out

- Discord transport is not modelled: embeds, `ctx.send`, logging, voice `connect`/`disconnect`, `FFmpegOpusAudio` and the cog loading in bot.py. A voice client is reduced to its `playing` and `paused` flags. Whether `connect` succeeds is a parameter of `Play`.
- pytube, spotipy and the file system are parameters, not part of the model: `Services` for lookups, and `save` for the path `download` writes to. `delete` in download_yt.py is file I/O only. pytube is assumed to always report a video's length: a missing length, on which `format_time` would raise, is not modelled.
- Music.MusicCog.Play: the model does not interleave other commands with the `asyncio.sleep` polling loop. The drain sees only the queue as it stood when it started, plus the new request. Because the whole drain is one atomic step, `Play` always leaves the client idle and no other command starts playback. So no reachable state has a playing client: `Skip`'s play-next and stop branches, `Pause`'s effect and `PauseThenResume` describe states the model never reaches from its constructor. The same holds in the source's sequential reading: a `play` that arrives after a drain has finished finds the guild connected and only appends (cogs/music.py:72-76), which `Play`'s connected-guild clause states.
- The `tasks.loop(minutes=30)` scheduler that calls `refresh_shop` is not modelled. `RefreshShop` is one call of it, with the items passed in.
- Datetime is not modelled: no `strptime`/`strftime`, no `total_seconds()` floats and no pytz time zones. Timestamps are whole seconds.
- `get_queue_info` in cogs/music.py is not modelled. Its only callers are commented out, and it repeats `get_stream_url`'s dispatch, which `Sources.Resolve` models.
- The `queue` command and `queue_info` in cogs/music.py are commented out in the source.
- The `shop` and `inventory` commands of cogs/shop.py only display. Their data comes from `ShopCog.shop` and from `RetrieveInventory`.
- The `top5` command of cogs/battlepass.py only displays `Database.BattlepassDb.RetrieveTopFive`.
- `create_shop_item`, `create_shop_submission`, `retrieve_shop_submission(s)` and `create_command_request` in utils/db_interface.py are not modelled. They write tables that no modelled command reads.
- Battlepass.ClaimPoints: the award per level is the parameter `gain`. The source calls `utils.points(level=...)`. utils.py's `points` takes only `double_xp`, and utils/commands.py is not part of this model.
- cogs/battlepass.py and cogs/shop.py import the helpers under names that neither helper file fully provides. Battlepass commands are modelled against utils/db_interface.py, the file that holds the two-timestamp functions they call.
- The shop's `get_points`, `set_points`, `get_owned_item` and `add_to_inventory` are modelled as db_interface.py's `retrieve_points`, `update_points`, `retrieve_owned_item` and `update_inventory`. Their keyword names match those functions.
- The shop list holds `(name, value, rarity)` entries, but the shop table returns `(item_name, rarity, img_url)` rows. `RefreshShop` therefore takes its entries as given, rather than from `RetrieveShopItems`.
- cogs/battlepass.py and cogs/shop.py open the same SQLite file through their two helper modules, but the model gives them two separate stores: `BattlepassDb` for the battlepass commands and `LegacyBattlepassDb` for `Buy`. The two row layouts differ (one timestamp against two), so points earned through `ClaimPoints` cannot be spent through `Buy` in the model.
- Ties in the leaderboard and the rarity draw's randomness are not resolved. Any order among tied rows, and any sample, is allowed.
- Database.BattlepassDb.RetrieveTopFive: the result's rows are stated through the `IsTopFive` predicate. The internal list of ids that witnesses it is not returned, because the source returns only rows.

## Findings

| source | as written | input that shows it | evidently intended | confidence | as-written member | corrected member |
|---|---|---|---|---|---|---|
| db_interface.py:186-188 | `retrieve_top_five` selects `user_name, level, points FROM points`, a table that neither database_setup.py nor any other script creates | any call, for example with one enrolled user | the five highest users of the battlepass table, by level then points, descending | medium, not executed | LegacyDatabase.LegacyBattlepassDb.RetrieveTopFive | LegacyDatabase.LegacyBattlepassDb.RetrieveTopFiveOfBattlepass |
