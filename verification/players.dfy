/** The per-player scan (main.py, the loop body of `search_players`) and
    the loop itself over player files already decoded, in the order the
    directory listing gives them. The process-wide name cache is threaded
    through explicitly. */
module Players {
  import opened Wrappers
  import opened Tags
  import opened Classifier
  import Json

  /** Who a player record is reported under: the file's stem, or the
      `bukkit.lastKnownName` tag itself (the source stores the tag, not its
      string value). */
  datatype PlayerName = FileStem(stem: string) | LastKnown(tag: Tag)

  /** One decoded player file: its name without the `.dat` suffix, and its tree. */
  datatype PlayerFile = PlayerFile(stem: string, root: Tag)

  /** A player's name and important items. */
  datatype PlayerScan = PlayerScan(name: PlayerName, matches: seq<Tag>)

  /** The reported players, in file order, and the name cache afterwards. */
  datatype PlayerSearch = PlayerSearch(inventory: seq<PlayerScan>, cache: map<string, Tag>)

  const LastKnownPath: seq<string> := ["bukkit", "lastKnownName"]

  /** The two inventories scanned for every player, in scan order. */
  const InventoryTypes: seq<string> := ["Inventory", "EnderItems"]

  /** The player's name: `bukkit.lastKnownName` when both steps are present,
      else the file stem. */
  function PlayerNameOf(file: PlayerFile): (n: PlayerName)
    ensures Lookup(file.root, LastKnownPath).Some? ==> n == LastKnown(Lookup(file.root, LastKnownPath).value)
    ensures Lookup(file.root, LastKnownPath).None? ==> n == FileStem(file.stem)
  {
    assert Lookup(file.root, LastKnownPath) ==
      if Has(file.root, "bukkit") && Has(file.root.fields["bukkit"], "lastKnownName")
      then Some(file.root.fields["bukkit"].fields["lastKnownName"]) else None;
    if Has(file.root, "bukkit") && Has(file.root.fields["bukkit"], "lastKnownName") then
      LastKnown(file.root.fields["bukkit"].fields["lastKnownName"])
    else FileStem(file.stem)
  }

  /** The cache after reading `file`: it gains `stem -> lastKnownName` only
      when the file carries a `bukkit.lastKnownName`. */
  function CacheAfterFile(cache: map<string, Tag>, file: PlayerFile): (c: map<string, Tag>)
    ensures Lookup(file.root, LastKnownPath).Some? ==>
      c == cache[file.stem := Lookup(file.root, LastKnownPath).value]
    ensures Lookup(file.root, LastKnownPath).None? ==> c == cache
  {
    match PlayerNameOf(file)
    case LastKnown(tag) => cache[file.stem := tag]
    case FileStem(_) => cache
  }

  /** The items of list field `field` of `root`, when it is one. */
  ghost function StoredItems(root: Tag, field: string): Option<seq<Tag>> {
    if Has(root, field) && root.fields[field].List? then Some(root.fields[field].elems) else None
  }

  /** The scan of one inventory type: index the player's tree by the
      inventory's name, then run the item loop over it. */
  function ScanInventory(root: Tag, field: string, parse: Json.Parser): (r: Result<seq<Tag>, ScanError>)
    ensures r.Success? <==> StoredItems(root, field).Some? && AllClassified(StoredItems(root, field).value, parse)
    ensures r.Success? ==> r.value == KeptItems(StoredItems(root, field).value, parse)
  {
    var inventory :- Index(root, field);
    var items :- Elements(inventory);
    ImportantItems(items, parse)
  }

  /** The body of the `search_players` loop for one file, cache aside: the
      player's name and the important items of `Inventory` followed by those
      of `EnderItems`. It raises when either inventory is missing or not a
      list, or when a classification raises. */
  function ScanPlayer(file: PlayerFile, parse: Json.Parser): (r: Result<PlayerScan, ScanError>)
    ensures r.Success? <==>
      && StoredItems(file.root, "Inventory").Some?
      && StoredItems(file.root, "EnderItems").Some?
      && AllClassified(StoredItems(file.root, "Inventory").value + StoredItems(file.root, "EnderItems").value, parse)
    ensures r.Success? ==>
      && r.value.name == PlayerNameOf(file)
      && r.value.matches ==
           KeptItems(StoredItems(file.root, "Inventory").value + StoredItems(file.root, "EnderItems").value, parse)
  {
    BothInventories(file.root, parse);
    var fromInventory :- ScanInventory(file.root, "Inventory", parse);
    var fromEnder :- ScanInventory(file.root, "EnderItems", parse);
    Success(PlayerScan(PlayerNameOf(file), fromInventory + fromEnder))
  }

  /** Classifying and selecting over both inventories is doing so over each in turn. */
  lemma BothInventories(root: Tag, parse: Json.Parser)
    ensures StoredItems(root, "Inventory").Some? && StoredItems(root, "EnderItems").Some? ==>
      var a := StoredItems(root, "Inventory").value;
      var b := StoredItems(root, "EnderItems").value;
      && (AllClassified(a + b, parse) <==> AllClassified(a, parse) && AllClassified(b, parse))
      && KeptItems(a + b, parse) == KeptItems(a, parse) + KeptItems(b, parse)
  {
    if StoredItems(root, "Inventory").Some? && StoredItems(root, "EnderItems").Some? {
      AllClassifiedAppend(StoredItems(root, "Inventory").value, StoredItems(root, "EnderItems").value, parse);
      KeptItemsAppend(StoredItems(root, "Inventory").value, StoredItems(root, "EnderItems").value, parse);
    }
  }

  /** Every file scans without raising. */
  predicate AllScan(files: seq<PlayerFile>, parse: Json.Parser) {
    forall i :: 0 <= i < |files| ==> ScanPlayer(files[i], parse).Success?
  }

  /** Reference: the players recorded for `files`, in file order; a player
      is recorded when it has at least one match. */
  function Recorded(files: seq<PlayerFile>, parse: Json.Parser): seq<PlayerScan>
    requires AllScan(files, parse)
    decreases |files|
  {
    if files == [] then []
    else
      var last := ScanPlayer(files[|files| - 1], parse).value;
      Recorded(files[..|files| - 1], parse) + if |last.matches| > 0 then [last] else []
  }

  /** Reference: the cache after reading all of `files` in order. */
  function Cached(cache: map<string, Tag>, files: seq<PlayerFile>): map<string, Tag>
    decreases |files|
  {
    if files == [] then cache
    else CacheAfterFile(Cached(cache, files[..|files| - 1]), files[|files| - 1])
  }

  /** `search_players` over decoded files: it raises when some file's scan
      raises, and otherwise reports the players with matches in file order
      and returns the updated name cache. */
  method SearchPlayers(files: seq<PlayerFile>, cache: map<string, Tag>, parse: Json.Parser)
    returns (r: Result<PlayerSearch, ScanError>)
    requires forall i, j :: 0 <= i < j < |files| ==> files[i].stem != files[j].stem
    ensures r.Success? <==> AllScan(files, parse)
    ensures r.Success? ==> r.value.inventory == Recorded(files, parse)
    ensures r.Success? ==> r.value.cache == Cached(cache, files)
  {
    var inventory: seq<PlayerScan> := [];
    var names := cache;
    for i := 0 to |files|
      invariant AllScan(files[..i], parse)
      invariant inventory == Recorded(files[..i], parse)
      invariant names == Cached(cache, files[..i])
    {
      names := CacheAfterFile(names, files[i]);
      var scan := ScanPlayer(files[i], parse);
      if scan.Failure? {
        assert !ScanPlayer(files[i], parse).Success?;
        return Failure(scan.error);
      }
      SearchStep(files, cache, i, parse);
      if |scan.value.matches| > 0 {
        inventory := inventory + [scan.value];
      }
    }
    assert files[..|files|] == files;
    return Success(PlayerSearch(inventory, names));
  }

  /** One more file extends the reference results by that file's own. */
  lemma SearchStep(files: seq<PlayerFile>, cache: map<string, Tag>, i: nat, parse: Json.Parser)
    requires i < |files| && AllScan(files[..i], parse) && ScanPlayer(files[i], parse).Success?
    ensures AllScan(files[..i + 1], parse)
    ensures var s := ScanPlayer(files[i], parse).value;
      Recorded(files[..i + 1], parse) == Recorded(files[..i], parse) + if |s.matches| > 0 then [s] else []
    ensures Cached(cache, files[..i + 1]) == CacheAfterFile(Cached(cache, files[..i]), files[i])
  {
    var front := files[..i + 1];
    assert front[..i] == files[..i];
    assert front[i] == files[i];
    assert forall j :: 0 <= j < i ==> front[j] == files[..i][j];
  }

  // ---------------------------------------------------------------------
  // Properties.

  /** A player whose files hold no important item is not reported; one
      that holds some is reported with exactly those items. */
  lemma RecordedOnlyWithMatches(file: PlayerFile, parse: Json.Parser)
    requires ScanPlayer(file, parse).Success?
    ensures var s := ScanPlayer(file, parse).value;
      Recorded([file], parse) == if |s.matches| > 0 then [s] else []
  {
    assert [file][..0] == [];
  }

  /** Recording distributes over concatenation of file lists. */
  lemma {:induction false} RecordedAppend(a: seq<PlayerFile>, b: seq<PlayerFile>, parse: Json.Parser)
    requires AllScan(a, parse) && AllScan(b, parse)
    ensures AllScan(a + b, parse)
    ensures Recorded(a + b, parse) == Recorded(a, parse) + Recorded(b, parse)
    decreases |b|
  {
    assert forall i :: 0 <= i < |a + b| ==> (a + b)[i] == if i < |a| then a[i] else b[i - |a|];
    if b == [] {
      assert a + b == a;
    } else {
      var b' := b[..|b| - 1];
      assert (a + b)[..|a + b| - 1] == a + b';
      RecordedAppend(a, b', parse);
    }
  }

  /** No cross-contamination: every reported player is exactly the scan of
      one file on its own, and that scan has a match. */
  lemma {:induction false} RecordedSound(files: seq<PlayerFile>, parse: Json.Parser)
    requires AllScan(files, parse)
    ensures forall k :: 0 <= k < |Recorded(files, parse)| ==>
      exists i :: (0 <= i < |files|
        && Recorded(files, parse)[k] == ScanPlayer(files[i], parse).value
        && |ScanPlayer(files[i], parse).value.matches| > 0)
    decreases |files|
  {
    if files != [] {
      var n := |files| - 1;
      var init := files[..n];
      AllScanPrefix(files, n, parse);
      RecordedSound(init, parse);
      var last := ScanPlayer(files[n], parse).value;
      assert Recorded(files, parse) == Recorded(init, parse) + if |last.matches| > 0 then [last] else [];
      forall k | 0 <= k < |Recorded(files, parse)|
        ensures exists i :: (0 <= i < |files|
          && Recorded(files, parse)[k] == ScanPlayer(files[i], parse).value
          && |ScanPlayer(files[i], parse).value.matches| > 0)
      {
        if k < |Recorded(init, parse)| {
          var i :| 0 <= i < |init| && Recorded(init, parse)[k] == ScanPlayer(init[i], parse).value &&
            |ScanPlayer(init[i], parse).value.matches| > 0;
          assert init[i] == files[i];
          assert Recorded(files, parse)[k] == Recorded(init, parse)[k];
        } else {
          assert Recorded(files, parse)[k] == last;
        }
      }
    } else {
      assert Recorded(files, parse) == [];
    }
  }

  /** Every prefix of a list of files that all scan also scans. */
  lemma AllScanPrefix(files: seq<PlayerFile>, k: nat, parse: Json.Parser)
    requires k <= |files| && AllScan(files, parse)
    ensures AllScan(files[..k], parse)
  {
    assert forall i :: 0 <= i < k ==> files[..k][i] == files[i];
  }

  /** Every file with a match is reported. */
  lemma {:induction false} RecordedComplete(files: seq<PlayerFile>, parse: Json.Parser, i: nat)
    requires AllScan(files, parse)
    requires i < |files| && |ScanPlayer(files[i], parse).value.matches| > 0
    ensures ScanPlayer(files[i], parse).value in Recorded(files, parse)
    decreases |files|
  {
    var init := files[..|files| - 1];
    AllScanPrefix(files, |files| - 1, parse);
    if i < |files| - 1 {
      assert init[i] == files[i];
      RecordedComplete(init, parse, i);
    }
  }

  /** The cache gains exactly the stems of files carrying
      `bukkit.lastKnownName`; other entries keep their values. */
  lemma {:induction false} CachedKeys(cache: map<string, Tag>, files: seq<PlayerFile>, stem: string)
    ensures stem in Cached(cache, files) <==>
      stem in cache ||
      exists i :: 0 <= i < |files| && files[i].stem == stem && Lookup(files[i].root, LastKnownPath).Some?
    ensures (forall i :: 0 <= i < |files| && files[i].stem == stem ==> Lookup(files[i].root, LastKnownPath).None?) ==>
      (stem in cache ==> Cached(cache, files)[stem] == cache[stem])
    decreases |files|
  {
    if files != [] {
      var init := files[..|files| - 1];
      CachedKeys(cache, init, stem);
      assert forall i :: 0 <= i < |init| ==> init[i] == files[i];
    }
  }

  /** The last file carrying `bukkit.lastKnownName` for a stem decides the
      cached name. */
  lemma {:induction false} CachedValue(cache: map<string, Tag>, files: seq<PlayerFile>, i: nat)
    requires i < |files| && Lookup(files[i].root, LastKnownPath).Some?
    requires forall j :: i < j < |files| ==> files[j].stem != files[i].stem
    ensures files[i].stem in Cached(cache, files)
    ensures Cached(cache, files)[files[i].stem] == Lookup(files[i].root, LastKnownPath).value
    decreases |files|
  {
    var init := files[..|files| - 1];
    if i < |files| - 1 {
      assert init[i] == files[i];
      assert forall j :: i < j < |init| ==> init[j] == files[j];
      CachedValue(cache, init, i);
    }
  }

  /** Two files of one directory reported under the same name are both
      reported, each with its own items: nothing is merged or overwritten. */
  lemma SameNameBothReported(a: PlayerFile, b: PlayerFile, parse: Json.Parser)
    requires a.stem != b.stem
    requires ScanPlayer(a, parse).Success? && ScanPlayer(b, parse).Success?
    requires PlayerNameOf(a) == PlayerNameOf(b)
    requires |ScanPlayer(a, parse).value.matches| > 0 && |ScanPlayer(b, parse).value.matches| > 0
    ensures AllScan([a, b], parse)
    ensures Recorded([a, b], parse) == [ScanPlayer(a, parse).value, ScanPlayer(b, parse).value]
  {
    RecordedOnlyWithMatches(a, parse);
    RecordedOnlyWithMatches(b, parse);
    RecordedAppend([a], [b], parse);
    assert [a] + [b] == [a, b];
  }

  /** Files of one directory can share a name only through
      `bukkit.lastKnownName`: their stems differ. */
  lemma SharedNameIsLastKnown(a: PlayerFile, b: PlayerFile)
    requires a.stem != b.stem
    requires PlayerNameOf(a) == PlayerNameOf(b)
    ensures PlayerNameOf(a).LastKnown?
    ensures Lookup(a.root, LastKnownPath).Some? && Lookup(b.root, LastKnownPath).Some?
  {
  }
}
