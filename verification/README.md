# world_scraper: item classifier and scanners, in Dafny

This project models the pure core of `main.py` from world_scraper. That script
walks a Minecraft world save and lists "important" items and who holds them.
The modelled core has three parts:

- **The item classifier** (`get_name`, `is_important_item`). An item is
  important when it has an `id` and either a custom display name or an `id`
  containing `netherite`, `ancient_debris` or `shulk`. The match is a
  case-sensitive substring test.
- **The chunk scanner** (`get_important_chunk_items`). It walks one chunk's
  `Level.Entities` and `Level.TileEntities`. It reports every important item
  found there, paired with its holder's position, in encounter order. The
  accumulation over chunks in `search_world` is modelled on top of it.
- **The player scan** (the loop of `search_players`). Each player file gives a
  name and the important items of `Inventory` and `EnderItems`. The name is
  `bukkit.lastKnownName` when present, else the file stem. The name cache is
  passed in and returned explicitly.

Files and modules:

- `wrappers.dfy` (`Wrappers`): `Option` and `Result`. A `Failure` stands for
  a Python exception leaving the call.
- `tags.dfy` (`Tags`): the decoded tag tree, and the errors the scanned code
  can raise. It also holds the three ways the code touches a tree:
  membership, indexing and iteration. `Lookup` follows a field path; it is
  the reference the field-access code is checked against.
- `text.dfy` (`Text`): Python's substring test. A left-to-right search is
  proved equal to "occurs at some index".
- `json.dfy` (`Json`): decoded JSON values. The JSON decoder is a parameter
  (`Json.Parser`). Its `None` result means the decoder raised.
- `selection.dfy` (`Selection`): order-preserving selection of the
  elements that pass a test. This is the shape of every
  `for x in xs: if test(x): append(...)` loop in the source.
- `classifier.dfy` (`Classifier`): `get_name`, `is_important_item`, and the
  item loop `for item in items: if is_important_item(item): ...` shared by
  both scanners.
- `chunk_scanner.dfy` (`ChunkScanner`): two layers.
  - The reference layer (`ChunkCandidates`) lists every (position, item)
    candidate of a chunk in encounter order, without classifying any.
  - The scanning layer follows the source loop by loop.
  - `SelectsFrom` links them. A scan succeeds exactly when the candidates
    exist and every one classifies without raising. It then returns exactly
    the important candidates, in order.
- `players.dfy` (`Players`): the per-file player scan, and the loop over
  files with the name cache threaded through.

The model follows the code where it is stricter than a lenient reading would suggest:

- A display name that is present but does not decode as JSON makes
  `get_name` raise; it is not treated as "no name". `is_important_item`
  calls `get_name` before it checks keywords, so the error also hits items
  whose `id` holds a keyword. `Classifier.MalformedNameRaisesForKeywordItem`
  shows this for a `netherite` item.
- A missing `Level`, `Entities` or `TileEntities` raises; it is not treated
  as empty. The same holds for an entity without `Pos`, and for a tile
  entity that has `Items` but lacks one of `x`, `y`, `z`.
- The keyword list and the inventory names are constants in the code, so
  they are constants here (`Classifier.Keywords`,
  `ChunkScanner.InventoryNames`).

Assumptions about the tag library, whose code is not part of this model:

- `key in t` is true exactly when `t` is a compound holding `key`. On any
  other kind of tag it is modelled as false.
- `t[key]` raises on a missing key or on a non-compound.
- Integer widths are not told apart. Float payloads are kept as raw bits and
  never interpreted.
- Positions are kept as the tags they were read from: the elements of `Pos`,
  or `[x, y, z]`.
- The player name from `bukkit.lastKnownName` is the tag itself, as the
  source stores it (`main.py:102`).
- `search_players` keys its result dictionary by that tag or by the file
  stem. The files come from one directory, so their stems differ;
  `SearchPlayers` requires this of its input. Tags from different files are
  distinct objects, and the library's tags compare by identity. So no two
  files share a key, and the result is modelled as a sequence in file order.

## Model

| member | source | states |
|---|---|---|
| Text.Contains | main.py:41-43 | `keyword in id` is true exactly when the keyword occurs as a contiguous, case-sensitive part of `id` at some index |
| Classifier.TextField | main.py:24-27 | on a decoded name, a value comes back exactly for an object with a non-null `text`, and it is that value; the step raises exactly for a string containing `text`, a list with the element `"text"`, or a number, boolean or null |
| Classifier.GetName | main.py:12-27 | no name when `tag`, `tag.display` or `tag.display.Name` is absent; raises when `Name` is not a string or does not decode; otherwise the `text` of the decoded value |
| Classifier.AnyKeyword | main.py:39-45 | true exactly when some keyword is a substring of a string `id`; raises for a non-string `id` as soon as the first keyword is checked |
| Classifier.IsImportantItem | main.py:29-45 | false for any item without `id`; with an `id`, a name error propagates, a display name makes it important, and otherwise it is important exactly when a keyword occurs in the `id` |
| Classifier.ImportantItems | main.py:112-114 | the item loop raises exactly when some item's classification raises, and otherwise keeps exactly the important items in order |
| Classifier.KeptItemsAppend | main.py:109-114 | selecting over `Inventory` followed by `EnderItems` is selecting over each in turn, so relative order is kept |
| Classifier.KeptItemsCount | main.py:112-114 | every occurrence of an important item is kept exactly once, and no unimportant item is kept |
| Classifier.KeywordItemIsImportant | main.py:39-43 | an item whose string `id` holds a keyword is important whenever its display name, if any, decodes |
| Classifier.NamedItemIsImportant | main.py:34-37 | an item with an `id` and a display name is important whatever the `id` says |
| Classifier.ExcaliburIsNamed | main.py:22-27 | a display name decoding to `{"text": "Excalibur"}` gives the name `Excalibur`, and the item is important |
| Classifier.MalformedNameRaisesForKeywordItem | main.py:33-34 | a `netherite` item whose display name does not decode makes the classification raise instead of answering true |
| ChunkScanner.ScanList | main.py:87-89 | the loop over one item list reports exactly the important items, each paired with the given position, and raises exactly when the list is not a list or a classification raises |
| ChunkScanner.ScanInventories | main.py:67-71 | the loop over `Items`, `ArmorItems`, `HandItems` reports the important items of the inventories present, in that order; absent inventories contribute nothing |
| ChunkScanner.ScanHeld | main.py:74-75 | the framed `Item` is reported exactly when present and important |
| ChunkScanner.ScanEntity | main.py:60-75 | one entity's report is the important items of its inventories, then its framed item, all at its `Pos`; a missing `Pos` raises |
| ChunkScanner.ScanTile | main.py:78-89 | a tile entity with `Items` reports its important items at `(x, y, z)`; one without `Items` reports nothing |
| ChunkScanner.ScanEntities | main.py:60-75 | the entity loop reports the important candidates of all entities in storage order, and raises exactly when some entity's candidates cannot be read or do not classify; the error it raises is that of the first entity whose loop body raises |
| ChunkScanner.ScanTiles | main.py:78-89 | the tile-entity loop reports the important candidates of all tile entities in storage order, with the same failure condition; the error it raises is that of the first tile entity whose loop body raises |
| ChunkScanner.GetImportantChunkItems | main.py:47-91 | the result is exactly the important candidates of the chunk in encounter order; it raises exactly when the chunk's shape prevents the scan or a classification raises; it is never longer than the candidate list, and a missing `Entities` or `TileEntities` raises; when `Entities` is a list, the first entity whose loop body raises decides the error, whatever `TileEntities` holds, because the emptiness guard reads `TileEntities` only when there are no entities; when both are lists and no entity raises, the first tile entity whose loop body raises decides the error |
| ChunkScanner.SearchWorld | main.py:184-185 | the findings of a sequence of chunks are those of each chunk, concatenated in chunk order |
| ChunkScanner.KeptMember | main.py:70-71 | a candidate is reported exactly when it is a candidate and its item is important |
| ChunkScanner.KeptCount | main.py:60-89 | each occurrence of an important candidate is reported exactly once; unimportant items never are |
| ChunkScanner.ChunkScanMembers | main.py:60-89 | a pair is reported exactly when its item is important and it sits in an entity's `Items`, `ArmorItems`, `HandItems` or `Item` at that entity's `Pos`, or in a tile entity's `Items` at its `(x, y, z)` |
| ChunkScanner.ChunkScanOrder | main.py:57-91 | all entity findings precede all tile-entity findings; the findings of the first k entities, or tile entities, form a leading block of their part |
| ChunkScanner.EntityCandidateOrder | main.py:67-75 | within an entity, candidates come from `Items`, then `ArmorItems`, then `HandItems`, then `Item` |
| ChunkScanner.FirstErrorIsFirst | main.py:60-61 | the error `FirstError` names for a loop is exactly that of an element whose loop body raises while every earlier body succeeds, in both directions |
| ChunkScanner.MissingPosRaisesFirst | main.py:54-61 | a chunk whose single entity lacks `Pos` has that missing key as its first entity error, so `GetImportantChunkItems` raises it whatever tag `TileEntities` is |
| ChunkScanner.NetheriteIngotExample | main.py:60-75 | one entity whose `Pos` holds three float tags, carrying `minecraft:netherite_ingot` with no display name has exactly one candidate, which classifies, so the scan succeeds with exactly one finding: that item at that position |
| ChunkScanner.TileWithoutItemsIsSkipped | main.py:79-80 | a tile entity without `Items` contributes nothing, even when it lacks coordinates |
| ChunkScanner.EmptyChunkYieldsNothing | main.py:54-55 | a chunk with empty entity and tile-entity lists yields no findings |
| Players.PlayerNameOf | main.py:99-102 | the name is `bukkit.lastKnownName` when both steps are present, else the file stem |
| Players.CacheAfterFile | main.py:101-105 | the cache gains `stem -> lastKnownName` only when the file carries it, and is otherwise unchanged |
| Players.ScanInventory | main.py:110-114 | scanning one inventory raises exactly when it is missing, not a list, or holds an item whose classification raises, and otherwise keeps its important items in order |
| Players.ScanPlayer | main.py:99-117 | a player's matches are the important items of `Inventory` followed by those of `EnderItems`, under the chosen name; it raises exactly when an inventory is missing or not a list, or a classification raises |
| Players.SearchPlayers | main.py:93-119 | for files with distinct stems, as one directory lists them: raises exactly when some file's scan raises; otherwise reports the players with at least one match in file order, and returns the cache updated file by file |
| Players.RecordedOnlyWithMatches | main.py:116-117 | a player is reported exactly when it has at least one match |
| Players.RecordedAppend | main.py:96-117 | reporting over two batches of files is reporting over each in turn |
| Players.RecordedSound | main.py:107-117 | every reported player is exactly one file's own scan, and that scan has a match |
| Players.RecordedComplete | main.py:116-117 | every file with a match is reported |
| Players.SameNameBothReported | main.py:116-117 | two files with different stems reported under the same name are both reported, each with its own items |
| Players.SharedNameIsLastKnown | main.py:99-102 | two files with different stems share a name only when both carry `bukkit.lastKnownName`, and the shared name is that tag |
| Players.CachedKeys | main.py:101-105 | the cache gains exactly the stems of files carrying `bukkit.lastKnownName`; other entries keep their values |
| Players.CachedValue | main.py:104-105 | the last file carrying `bukkit.lastKnownName` for a stem decides that stem's cached name |

## Left out

- Decoding tags, reading region files and iterating the world (`nbt.nbt.NBTFile`, `nbt.world.WorldFolder`, `iter_regions`, `iter_chunks`, main.py:97, 164-182): these belong to the external `nbt` library, whose code is not part of this model. The model takes decoded trees as input. `SearchWorld` takes the chunks as a sequence.
- The existence checks and the guarded world opening in `search_world` and `main` (main.py:156-168, 198-202): file-system I/O.
- Globbing the player directory, deriving stems with `Path`, and writing `output.txt` (main.py:96, 99, 104, 250-253): file-system I/O. A player file is given as a (stem, tree) pair, in listing order.
- `search_stats` (main.py:121-153): it reads JSON files and asks the Mojang profile service over HTTP. What remains is two dictionary lookups.
- Report rendering in `main` (main.py:212-248): it formats floats with `:.02f` and emits plain text. Positions stay opaque tags here.
- JSON decoding (`json.loads`, main.py:22): a foreign call. It is a parameter, and a `None` result stands for the decoder raising.
- Progress bars and `print` diagnostics (`tqdm`): user interface.
- The module-level `cached_player_names` (main.py:10): it is passed into `SearchPlayers` and returned, not kept as global state. If a file raises, the whole run aborts, so the model returns no cache on failure. The source would already have stored that file's name.
- Python membership on non-compound tags: a string tag answers `key in t` by a substring test and a list tag by an element test. A numeric tag has no membership test, so `key in t` raises `TypeError`. The model treats all three as "absent". Well-formed saves hold compounds in every position where the code tests membership.
- Iteration and `len` on tags that are not lists: in the tag library a compound iterates its keys and a string tag its characters. The model raises `NotAList` for every non-list tag in those positions. Well-formed saves hold lists wherever the code iterates.
- ChunkScanner.GetImportantChunkItems: the contract names the error when an entity's or a tile entity's loop body raises. For a `Level`, `Entities` or `TileEntities` that is missing or of the wrong shape, it says only that the scan raises. The method's code raises the first error in source order.
- ChunkScanner.ScanEntities: the error is named as that of the first entity's loop body to raise. Which exception that body raises is given by `ScanEntity`'s definition, not by a contract against the reference layer, because the reference layer does not reproduce how shape errors and classification errors interleave.
- ChunkScanner.ScanTiles: the error is named as that of the first tile entity's loop body to raise, for the same reason.
- ChunkScanner.SearchWorld: says whether the accumulation raises, not which error, for the same reason.
- Players.ScanPlayer: says whether the scan raises, not which error it raises.
- Players.SearchPlayers: says whether the loop raises, not which error it raises.
