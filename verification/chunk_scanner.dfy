/** The chunk scanner (main.py, `get_important_chunk_items`, and the
    accumulation over chunks in `search_world`).

    The model has two layers. The reference layer lists every candidate
    (position, item) pair a chunk offers, in encounter order, without
    classifying anything; it fails only when the chunk's shape makes the
    source raise before classification. The scanning layer follows the
    source step by step, classifying as it goes. `SelectsFrom` ties the
    two together: a scan succeeds exactly when the candidates exist and all
    classify, and then returns exactly the important candidates in order. */
module ChunkScanner {
  import opened Wrappers
  import opened Tags
  import opened Classifier
  import opened Selection
  import Json

  /** One reported item with the coordinates of its holder: the values of an
      entity's `Pos` list, or a tile entity's `x`, `y` and `z`, kept as the
      tags they were read from. */
  datatype Finding = Finding(pos: seq<Tag>, item: Tag)

  /** The list-valued inventories an entity may carry, in scan order. */
  const InventoryNames: seq<string> := ["Items", "ArmorItems", "HandItems"]

  type Scan = Result<seq<Finding>, ScanError>

  /** Every item of `items`, paired with `pos`. */
  function Pair(pos: seq<Tag>, items: seq<Tag>): seq<Finding> {
    seq(|items|, i requires 0 <= i < |items| => Finding(pos, items[i]))
  }

  /** Run `a`, then `b`, and concatenate; the first failure wins. */
  function Concat(a: Scan, b: Scan): Scan {
    var x :- a;
    var y :- b;
    Success(x + y)
  }

  // ---------------------------------------------------------------------
  // Reference layer: candidates in encounter order.

  /** The elements of a list tag, each paired with `pos`. */
  function ListCandidates(list: Tag, pos: seq<Tag>): Scan {
    var items :- Elements(list);
    Success(Pair(pos, items))
  }

  /** The items of the named inventories of `entity`, in the order of
      `names`; an absent inventory contributes nothing. */
  function InventoryCandidates(entity: Tag, pos: seq<Tag>, names: seq<string>): Scan
    decreases |names|
  {
    if names == [] then Success([])
    else
      Concat(if Has(entity, names[0]) then ListCandidates(entity.fields[names[0]], pos) else Success([]),
             InventoryCandidates(entity, pos, names[1..]))
  }

  /** The single framed item of `entity`, if it has one. */
  function HeldCandidates(entity: Tag, pos: seq<Tag>): seq<Finding> {
    if Has(entity, "Item") then [Finding(pos, entity.fields["Item"])] else []
  }

  /** An entity's candidates: its inventories, then its framed item, all at its `Pos`. */
  function EntityCandidates(entity: Tag): Scan {
    var posTag :- Index(entity, "Pos");
    var pos :- Elements(posTag);
    Concat(InventoryCandidates(entity, pos, InventoryNames), Success(HeldCandidates(entity, pos)))
  }

  /** A tile entity's candidates: its `Items`, at its `x`, `y`, `z`. */
  function TileCandidates(tile: Tag): Scan {
    if !Has(tile, "Items") then Success([])
    else
      var x :- Index(tile, "x");
      var y :- Index(tile, "y");
      var z :- Index(tile, "z");
      ListCandidates(tile.fields["Items"], [x, y, z])
  }

  /** `f` applied to each element of `xs` in order, results concatenated. */
  function FlatMap(xs: seq<Tag>, f: Tag -> Scan): Scan
    decreases |xs|
  {
    if xs == [] then Success([])
    else Concat(FlatMap(xs[..|xs| - 1], f), f(xs[|xs| - 1]))
  }

  /** A chunk's candidates: those of its entities in storage order, then
      those of its tile entities in storage order. */
  function ChunkCandidates(chunk: Tag): Scan {
    var level :- Index(chunk, "Level");
    var entities :- Index(level, "Entities");
    var tileEntities :- Index(level, "TileEntities");
    var es :- Elements(entities);
    var ts :- Elements(tileEntities);
    Concat(FlatMap(es, EntityCandidates), FlatMap(ts, TileCandidates))
  }

  /** The classification test on a candidate's item, as a value. */
  function FindingTest(parse: Json.Parser): Finding -> bool {
    (f: Finding) => Important(f.item, parse)
  }

  /** The important candidates of `cs`, in order. */
  function Kept(cs: seq<Finding>, parse: Json.Parser): seq<Finding> {
    Filter(cs, FindingTest(parse))
  }

  /** Every candidate of `cs` classifies without raising. */
  predicate AllClassify(cs: seq<Finding>, parse: Json.Parser) {
    forall i :: 0 <= i < |cs| ==> Classifies(cs[i].item, parse)
  }

  /** The candidates exist and all of them classify. */
  predicate Good(cands: Scan, parse: Json.Parser) {
    cands.Success? && AllClassify(cands.value, parse)
  }

  /** `r` is what classifying the candidates `cands` yields. */
  predicate SelectsFrom(r: Scan, cands: Scan, parse: Json.Parser) {
    && (r.Success? <==> Good(cands, parse))
    && (r.Success? ==> r.value == Kept(cands.value, parse))
  }

  // ---------------------------------------------------------------------
  // Scanning layer: the source's loops, in the source's order.

  /** The item loop over a list tag: each important item, paired with
      `pos`, in list order. */
  function ScanList(list: Tag, pos: seq<Tag>, parse: Json.Parser): (r: Scan)
    ensures SelectsFrom(r, ListCandidates(list, pos), parse)
  {
    var items :- Elements(list);
    KeptPair(pos, items, parse);
    AllClassifyPair(pos, items, parse);
    var found :- ImportantItems(items, parse);
    Success(Pair(pos, found))
  }

  /** The loop over the inventory names of one entity. */
  function ScanInventories(entity: Tag, pos: seq<Tag>, names: seq<string>, parse: Json.Parser): (r: Scan)
    ensures SelectsFrom(r, InventoryCandidates(entity, pos, names), parse)
    decreases |names|
  {
    if names == [] then Success([])
    else
      var here := if Has(entity, names[0]) then ScanList(entity.fields[names[0]], pos, parse) else Success([]);
      var rest := ScanInventories(entity, pos, names[1..], parse);
      SelectsConcat(here, if Has(entity, names[0]) then ListCandidates(entity.fields[names[0]], pos) else Success([]),
                    rest, InventoryCandidates(entity, pos, names[1..]), parse);
      Concat(here, rest)
  }

  /** The framed-item test of the entity loop: an entity's `Item`, kept
      when present and important. */
  function ScanHeld(entity: Tag, pos: seq<Tag>, parse: Json.Parser): (r: Scan)
    ensures SelectsFrom(r, Success(HeldCandidates(entity, pos)), parse)
  {
    if !Has(entity, "Item") then Success([])
    else
      var held := Finding(pos, entity.fields["Item"]);
      assert [held][0] == held;
      match IsImportantItem(held.item, parse)
      case Failure(e) => Failure(e)
      case Success(keep) =>
        assert FindingTest(parse)(held) == keep;
        FilterSingle(held, FindingTest(parse));
        Success(if keep then [held] else [])
  }

  /** The body of the entity loop: read `Pos`, scan the inventories, then the framed item. */
  function ScanEntity(entity: Tag, parse: Json.Parser): (r: Scan)
    ensures SelectsFrom(r, EntityCandidates(entity), parse)
  {
    var posTag :- Index(entity, "Pos");
    var pos :- Elements(posTag);
    var inventories := ScanInventories(entity, pos, InventoryNames, parse);
    var held := ScanHeld(entity, pos, parse);
    SelectsConcat(inventories, InventoryCandidates(entity, pos, InventoryNames),
                  held, Success(HeldCandidates(entity, pos)), parse);
    Concat(inventories, held)
  }

  /** The body of the tile-entity loop: skip a tile without `Items`,
      otherwise read `x`, `y`, `z` and scan `Items`. */
  function ScanTile(tile: Tag, parse: Json.Parser): (r: Scan)
    ensures SelectsFrom(r, TileCandidates(tile), parse)
  {
    if !Has(tile, "Items") then Success([])
    else
      var x :- Index(tile, "x");
      var y :- Index(tile, "y");
      var z :- Index(tile, "z");
      ScanList(tile.fields["Items"], [x, y, z], parse)
  }

  /** The body of the entity loop, as a value. */
  function EntityStep(parse: Json.Parser): Tag -> Scan {
    (entity: Tag) => ScanEntity(entity, parse)
  }

  /** The body of the tile-entity loop, as a value. */
  function TileStep(parse: Json.Parser): Tag -> Scan {
    (tile: Tag) => ScanTile(tile, parse)
  }

  /** The error of the first element of `xs` whose step raises, if any. */
  function FirstError(xs: seq<Tag>, step: Tag -> Scan): Option<ScanError>
    decreases |xs|
  {
    if xs == [] then None
    else
      match FirstError(xs[..|xs| - 1], step)
      case Some(e) => Some(e)
      case None => if step(xs[|xs| - 1]).Failure? then Some(step(xs[|xs| - 1]).error) else None
  }

  /** Element `i` of `xs` is the first whose step raises, and it raises `e`. */
  ghost predicate FailsFirstAt(xs: seq<Tag>, step: Tag -> Scan, i: int, e: ScanError) {
    && 0 <= i < |xs|
    && step(xs[i]) == Failure(e)
    && forall j :: 0 <= j < i ==> step(xs[j]).Success?
  }

  /** `get_important_chunk_items`: the important items of a chunk's
      entities and tile entities, each with its holder's position, in
      encounter order. It raises when `Level`, `Entities` or
      `TileEntities` is missing, when a scanned entity lacks `Pos`, when a
      tile entity with `Items` lacks a coordinate, or when a
      classification raises. */
  method GetImportantChunkItems(chunk: Tag, parse: Json.Parser) returns (r: Scan)
    ensures SelectsFrom(r, ChunkCandidates(chunk), parse)
    ensures r.Success? ==> |r.value| <= |ChunkCandidates(chunk).value|
    ensures Lookup(chunk, ["Level", "Entities"]).None? ==> r.Failure?
    ensures Lookup(chunk, ["Level", "TileEntities"]).None? ==> r.Failure?
    ensures var entities := Lookup(chunk, ["Level", "Entities"]);
            Lookup(chunk, ["Level", "TileEntities"]).Some? && entities.Some? && entities.value.List? ==>
              FirstError(entities.value.elems, EntityStep(parse)).Some? ==>
                r == Failure(FirstError(entities.value.elems, EntityStep(parse)).value)
    ensures var entities := Lookup(chunk, ["Level", "Entities"]);
            var tiles := Lookup(chunk, ["Level", "TileEntities"]);
            entities.Some? && entities.value.List? && tiles.Some? && tiles.value.List? ==>
              FirstError(entities.value.elems, EntityStep(parse)).None? &&
              FirstError(tiles.value.elems, TileStep(parse)).Some? ==>
                r == Failure(FirstError(tiles.value.elems, TileStep(parse)).value)
  {
    var level :- Index(chunk, "Level");
    var entities :- Index(level, "Entities");
    var tileEntities :- Index(level, "TileEntities");
    assert Lookup(chunk, ["Level", "Entities"]) == Some(entities);
    assert Lookup(chunk, ["Level", "TileEntities"]) == Some(tileEntities);
    var es :- Elements(entities);
    // The emptiness guard reads `TileEntities` as a list only when there
    // are no entities; otherwise the entity loop runs first.
    if |es| == 0 {
      var ts :- Elements(tileEntities);
      if |ts| == 0 {
        return Success([]);
      }
    }

    var fromEntities := ScanEntities(es, parse);
    if fromEntities.Failure? {
      if Elements(tileEntities).Success? {
        GoodConcat(FlatMap(es, EntityCandidates), FlatMap(Elements(tileEntities).value, TileCandidates), parse);
      }
      return fromEntities;
    }
    var ts :- Elements(tileEntities);
    assert ChunkCandidates(chunk) == Concat(FlatMap(es, EntityCandidates), FlatMap(ts, TileCandidates));
    var fromTiles := ScanTiles(ts, parse);
    SelectsConcat(fromEntities, FlatMap(es, EntityCandidates), fromTiles, FlatMap(ts, TileCandidates), parse);
    r := Concat(fromEntities, fromTiles);
    if r.Success? {
      KeptLength(ChunkCandidates(chunk).value, parse);
    }
  }

  /** One pass of the entity loop's body. This is proof plumbing, not
      specification: its contract repeats `ScanEntity`'s, and keeping it
      apart lets the loop's proof see only that contract. */
  method EntityPass(entity: Tag, parse: Json.Parser) returns (step: Scan)
    ensures step == EntityStep(parse)(entity)
    ensures SelectsFrom(step, EntityCandidates(entity), parse)
  {
    step := ScanEntity(entity, parse);
  }

  /** The entity loop of `get_important_chunk_items`. */
  method ScanEntities(es: seq<Tag>, parse: Json.Parser) returns (r: Scan)
    ensures SelectsFrom(r, FlatMap(es, EntityCandidates), parse)
    ensures r.Failure? ==> FirstError(es, EntityStep(parse)) == Some(r.error)
    ensures r.Success? ==> FirstError(es, EntityStep(parse)) == None
  {
    var found: seq<Finding> := [];
    for i := 0 to |es|
      invariant SelectsFrom(Success(found), FlatMap(es[..i], EntityCandidates), parse)
      invariant FirstError(es[..i], EntityStep(parse)) == None
    {
      var step := EntityPass(es[i], parse);
      FlatMapStep(es, EntityCandidates, i);
      SelectsConcat(Success(found), FlatMap(es[..i], EntityCandidates), step, EntityCandidates(es[i]), parse);
      if step.Failure? {
        GoodPrefix(es, EntityCandidates, i + 1, parse);
        FirstErrorStep(es, EntityStep(parse), i);
        FirstErrorPrefix(es, EntityStep(parse), i + 1);
        return Failure(step.error);
      }
      FirstErrorStep(es, EntityStep(parse), i);
      found := found + step.value;
    }
    assert es[..|es|] == es;
    return Success(found);
  }

  /** One pass of the tile-entity loop's body; proof plumbing, as
      `EntityPass` is. */
  method TilePass(tile: Tag, parse: Json.Parser) returns (step: Scan)
    ensures step == TileStep(parse)(tile)
    ensures SelectsFrom(step, TileCandidates(tile), parse)
  {
    step := ScanTile(tile, parse);
  }

  /** The tile-entity loop of `get_important_chunk_items`. */
  method ScanTiles(ts: seq<Tag>, parse: Json.Parser) returns (r: Scan)
    ensures SelectsFrom(r, FlatMap(ts, TileCandidates), parse)
    ensures r.Failure? ==> FirstError(ts, TileStep(parse)) == Some(r.error)
    ensures r.Success? ==> FirstError(ts, TileStep(parse)) == None
  {
    var found: seq<Finding> := [];
    for j := 0 to |ts|
      invariant SelectsFrom(Success(found), FlatMap(ts[..j], TileCandidates), parse)
      invariant FirstError(ts[..j], TileStep(parse)) == None
    {
      var step := TilePass(ts[j], parse);
      FlatMapStep(ts, TileCandidates, j);
      SelectsConcat(Success(found), FlatMap(ts[..j], TileCandidates), step, TileCandidates(ts[j]), parse);
      if step.Failure? {
        GoodPrefix(ts, TileCandidates, j + 1, parse);
        FirstErrorStep(ts, TileStep(parse), j);
        FirstErrorPrefix(ts, TileStep(parse), j + 1);
        return Failure(step.error);
      }
      FirstErrorStep(ts, TileStep(parse), j);
      found := found + step.value;
    }
    assert ts[..|ts|] == ts;
    return Success(found);
  }

  /** The accumulation over chunks in `search_world`: each chunk's findings
      appended to those of the chunks before it, for chunks already read
      from the region files, in the order given. */
  method SearchWorld(chunks: seq<Tag>, parse: Json.Parser) returns (r: Scan)
    ensures SelectsFrom(r, FlatMap(chunks, ChunkCandidates), parse)
  {
    var found: seq<Finding> := [];
    for i := 0 to |chunks|
      invariant SelectsFrom(Success(found), FlatMap(chunks[..i], ChunkCandidates), parse)
    {
      var step := GetImportantChunkItems(chunks[i], parse);
      FlatMapStep(chunks, ChunkCandidates, i);
      SelectsConcat(Success(found), FlatMap(chunks[..i], ChunkCandidates), step, ChunkCandidates(chunks[i]), parse);
      if step.Failure? {
        GoodPrefix(chunks, ChunkCandidates, i + 1, parse);
        return Failure(step.error);
      }
      found := found + step.value;
    }
    assert chunks[..|chunks|] == chunks;
    return Success(found);
  }

  // ---------------------------------------------------------------------
  // Lemmas about selection.

  /** Selection distributes over concatenation. */
  lemma KeptAppend(a: seq<Finding>, b: seq<Finding>, parse: Json.Parser)
    ensures Kept(a + b, parse) == Kept(a, parse) + Kept(b, parse)
  {
    FilterAppend(a, b, FindingTest(parse));
  }

  /** Classification succeeds on a concatenation exactly when it does on both parts. */
  lemma AllClassifyAppend(a: seq<Finding>, b: seq<Finding>, parse: Json.Parser)
    ensures AllClassify(a + b, parse) <==> AllClassify(a, parse) && AllClassify(b, parse)
  {
    if AllClassify(a, parse) && AllClassify(b, parse) {
      forall i | 0 <= i < |a + b|
        ensures Classifies((a + b)[i].item, parse)
      {
        if i >= |a| {
          assert (a + b)[i] == b[i - |a|];
        }
      }
    }
    if AllClassify(a + b, parse) {
      forall i | 0 <= i < |a|
        ensures Classifies(a[i].item, parse)
      {
        assert (a + b)[i] == a[i];
      }
      forall i | 0 <= i < |b|
        ensures Classifies(b[i].item, parse)
      {
        assert (a + b)[|a| + i] == b[i];
      }
    }
  }

  /** Selecting among items paired with one position is selecting the items. */
  lemma {:induction false} KeptPair(pos: seq<Tag>, items: seq<Tag>, parse: Json.Parser)
    ensures Kept(Pair(pos, items), parse) == Pair(pos, KeptItems(items, parse))
  {
    if items != [] {
      var head := if Important(items[0], parse) then [items[0]] else [];
      assert Pair(pos, items)[0] == Finding(pos, items[0]);
      assert Pair(pos, items)[1..] == Pair(pos, items[1..]);
      assert FindingTest(parse)(Finding(pos, items[0])) == ImportantTest(parse)(items[0]);
      KeptPair(pos, items[1..], parse);
      assert KeptItems(items, parse) == head + KeptItems(items[1..], parse);
      assert Pair(pos, head + KeptItems(items[1..], parse))
        == Pair(pos, head) + Pair(pos, KeptItems(items[1..], parse));
    } else {
      assert Pair(pos, items) == [];
    }
  }

  lemma AllClassifyPair(pos: seq<Tag>, items: seq<Tag>, parse: Json.Parser)
    ensures AllClassify(Pair(pos, items), parse) <==> AllClassified(items, parse)
  {
    assert forall i :: 0 <= i < |items| ==> Pair(pos, items)[i].item == items[i];
  }

  /** Candidates are good in sequence exactly when both parts are. */
  lemma GoodConcat(a: Scan, b: Scan, parse: Json.Parser)
    ensures Good(Concat(a, b), parse) <==> Good(a, parse) && Good(b, parse)
  {
    if a.Success? && b.Success? {
      AllClassifyAppend(a.value, b.value, parse);
    }
  }

  /** Scanning in sequence selects from the candidates in sequence. */
  lemma SelectsConcat(r1: Scan, c1: Scan, r2: Scan, c2: Scan, parse: Json.Parser)
    requires SelectsFrom(r1, c1, parse) && SelectsFrom(r2, c2, parse)
    ensures SelectsFrom(Concat(r1, r2), Concat(c1, c2), parse)
  {
    GoodConcat(c1, c2, parse);
    if c1.Success? && c2.Success? {
      KeptAppend(c1.value, c2.value, parse);
    }
  }

  /** One more element of `xs` extends `FirstError` by that element's step. */
  lemma FirstErrorStep(xs: seq<Tag>, step: Tag -> Scan, i: nat)
    requires i < |xs|
    ensures FirstError(xs[..i + 1], step) ==
      if FirstError(xs[..i], step).Some? then FirstError(xs[..i], step)
      else if step(xs[i]).Failure? then Some(step(xs[i]).error) else None
  {
    assert xs[..i + 1][..i] == xs[..i];
  }

  /** An error among the first `k` elements is the first error of all of `xs`. */
  lemma {:induction false} FirstErrorPrefix(xs: seq<Tag>, step: Tag -> Scan, k: nat)
    requires k <= |xs| && FirstError(xs[..k], step).Some?
    ensures FirstError(xs, step) == FirstError(xs[..k], step)
    decreases |xs| - k
  {
    if k < |xs| {
      FirstErrorStep(xs, step, k);
      FirstErrorPrefix(xs, step, k + 1);
    } else {
      assert xs[..k] == xs;
    }
  }

  /** `FirstError` names exactly the error of the first raising element. */
  lemma {:induction false} FirstErrorIsFirst(xs: seq<Tag>, step: Tag -> Scan, e: ScanError)
    ensures FirstError(xs, step) == Some(e) <==> exists i :: FailsFirstAt(xs, step, i, e)
    decreases |xs|
  {
    if xs != [] {
      var init := xs[..|xs| - 1];
      FirstErrorIsFirst(init, step, e);
      forall i | FailsFirstAt(init, step, i, e)
        ensures FailsFirstAt(xs, step, i, e)
      {
        assert forall j :: 0 <= j <= i ==> init[j] == xs[j];
      }
      forall i | FailsFirstAt(xs, step, i, e) && i < |init|
        ensures FailsFirstAt(init, step, i, e)
      {
        assert forall j :: 0 <= j <= i ==> init[j] == xs[j];
      }
      if FirstError(init, step).None? {
        if step(xs[|xs| - 1]) == Failure(e) {
          forall j | 0 <= j < |init|
            ensures step(xs[j]).Success?
          {
            if step(init[j]).Failure? {
              FirstErrorHasWitness(init, step, j);
            }
          }
          assert FailsFirstAt(xs, step, |xs| - 1, e);
        }
      } else {
        if exists i :: FailsFirstAt(xs, step, i, e) {
          var i :| FailsFirstAt(xs, step, i, e);
          if i == |init| {
            var d := FirstError(init, step).value;
            FirstErrorIsFirst(init, step, d);
            var k :| FailsFirstAt(init, step, k, d);
          }
        }
      }
    }
  }

  /** A raising element makes `FirstError` defined. */
  lemma {:induction false} FirstErrorHasWitness(xs: seq<Tag>, step: Tag -> Scan, j: nat)
    requires j < |xs| && step(xs[j]).Failure?
    ensures FirstError(xs, step).Some?
  {
    FirstErrorStep(xs, step, j);
    if FirstError(xs[..j + 1], step).Some? {
      FirstErrorPrefix(xs, step, j + 1);
    }
  }

  /** One more element of `xs` extends `FlatMap` by that element's result. */
  lemma FlatMapStep(xs: seq<Tag>, f: Tag -> Scan, i: nat)
    requires i < |xs|
    ensures FlatMap(xs[..i + 1], f) == Concat(FlatMap(xs[..i], f), f(xs[i]))
  {
    assert xs[..i + 1][..i] == xs[..i];
  }

  /** If all of `xs` is good, so is every prefix. */
  lemma {:induction false} GoodPrefix(xs: seq<Tag>, f: Tag -> Scan, k: nat, parse: Json.Parser)
    requires k <= |xs|
    ensures Good(FlatMap(xs, f), parse) ==> Good(FlatMap(xs[..k], f), parse)
    decreases |xs|
  {
    if k == |xs| {
      assert xs[..k] == xs;
    } else {
      GoodConcat(FlatMap(xs[..|xs| - 1], f), f(xs[|xs| - 1]), parse);
      GoodPrefix(xs[..|xs| - 1], f, k, parse);
      assert xs[..|xs| - 1][..k] == xs[..k];
    }
  }

  /** Selection never adds: the output is no longer than its candidates. */
  lemma KeptLength(cs: seq<Finding>, parse: Json.Parser)
    ensures |Kept(cs, parse)| <= |cs|
  {
    FilterLength(cs, FindingTest(parse));
  }

  /** Membership in the selection: exactly the important candidates. */
  lemma KeptMember(cs: seq<Finding>, parse: Json.Parser, f: Finding)
    ensures f in Kept(cs, parse) <==> f in cs && Important(f.item, parse)
  {
    FilterMember(cs, FindingTest(parse), f);
  }

  /** Each occurrence of an important candidate is reported exactly once,
      and nothing unimportant is reported. */
  lemma KeptCount(cs: seq<Finding>, parse: Json.Parser, f: Finding)
    ensures multiset(Kept(cs, parse))[f] == if Important(f.item, parse) then multiset(cs)[f] else 0
  {
    FilterCount(cs, FindingTest(parse), f);
  }

  // ---------------------------------------------------------------------
  // Where a finding comes from.

  /** `x` is an element of the list tag `t`. */
  ghost predicate InList(t: Tag, x: Tag) {
    t.List? && x in t.elems
  }

  /** `f` is an item of one of the entity's inventories, or its framed item,
      reported at the entity's `Pos`. */
  ghost predicate HeldByEntity(entity: Tag, f: Finding) {
    && Has(entity, "Pos") && entity.fields["Pos"].List? && f.pos == entity.fields["Pos"].elems
    && ((exists name :: name in InventoryNames && Has(entity, name) && InList(entity.fields[name], f.item))
        || (Has(entity, "Item") && entity.fields["Item"] == f.item))
  }

  /** `f` is an item of the tile entity's `Items`, reported at its `x`, `y`, `z`. */
  ghost predicate HeldByTile(tile: Tag, f: Finding) {
    && Has(tile, "Items") && InList(tile.fields["Items"], f.item)
    && Has(tile, "x") && Has(tile, "y") && Has(tile, "z")
    && f.pos == [tile.fields["x"], tile.fields["y"], tile.fields["z"]]
  }

  /** The entity list of a chunk (empty when it is not there). */
  ghost function EntitiesOf(chunk: Tag): seq<Tag> {
    var t := Lookup(chunk, ["Level", "Entities"]);
    if t.Some? && t.value.List? then t.value.elems else []
  }

  /** The tile-entity list of a chunk (empty when it is not there). */
  ghost function TilesOf(chunk: Tag): seq<Tag> {
    var t := Lookup(chunk, ["Level", "TileEntities"]);
    if t.Some? && t.value.List? then t.value.elems else []
  }

  /** When the chunk's candidates exist, they are the entity candidates
      followed by the tile-entity candidates of the chunk's two lists. */
  lemma ChunkCandidatesSplit(chunk: Tag)
    requires ChunkCandidates(chunk).Success?
    ensures FlatMap(EntitiesOf(chunk), EntityCandidates).Success?
    ensures FlatMap(TilesOf(chunk), TileCandidates).Success?
    ensures ChunkCandidates(chunk).value ==
      FlatMap(EntitiesOf(chunk), EntityCandidates).value + FlatMap(TilesOf(chunk), TileCandidates).value
  {
    var level := chunk.fields["Level"];
    assert Lookup(chunk, ["Level", "Entities"]) == Some(level.fields["Entities"]);
    assert Lookup(chunk, ["Level", "TileEntities"]) == Some(level.fields["TileEntities"]);
  }

  lemma ConcatMember(a: Scan, b: Scan, f: Finding)
    requires Concat(a, b).Success?
    ensures a.Success? && b.Success?
    ensures f in Concat(a, b).value <==> f in a.value || f in b.value
  {
  }

  lemma ListCandidatesMember(list: Tag, pos: seq<Tag>, f: Finding)
    requires ListCandidates(list, pos).Success?
    ensures f in ListCandidates(list, pos).value <==> f.pos == pos && InList(list, f.item)
  {
    var items := list.elems;
    if f.pos == pos && InList(list, f.item) {
      var i :| 0 <= i < |items| && items[i] == f.item;
      assert Pair(pos, items)[i] == f;
    }
  }

  lemma {:induction false} InventoryCandidatesMember(entity: Tag, pos: seq<Tag>, names: seq<string>, f: Finding)
    requires InventoryCandidates(entity, pos, names).Success?
    ensures f in InventoryCandidates(entity, pos, names).value <==>
      f.pos == pos && exists name :: name in names && Has(entity, name) && InList(entity.fields[name], f.item)
    decreases |names|
  {
    if names != [] {
      var here := if Has(entity, names[0]) then ListCandidates(entity.fields[names[0]], pos) else Success([]);
      ConcatMember(here, InventoryCandidates(entity, pos, names[1..]), f);
      InventoryCandidatesMember(entity, pos, names[1..], f);
      if Has(entity, names[0]) {
        ListCandidatesMember(entity.fields[names[0]], pos, f);
      }
      assert forall name :: name in names <==> name == names[0] || name in names[1..];
    }
  }

  lemma EntityCandidatesMember(entity: Tag, f: Finding)
    requires EntityCandidates(entity).Success?
    ensures f in EntityCandidates(entity).value <==> HeldByEntity(entity, f)
  {
    var pos := entity.fields["Pos"].elems;
    ConcatMember(InventoryCandidates(entity, pos, InventoryNames), Success(HeldCandidates(entity, pos)), f);
    InventoryCandidatesMember(entity, pos, InventoryNames, f);
  }

  lemma TileCandidatesMember(tile: Tag, f: Finding)
    requires TileCandidates(tile).Success?
    ensures f in TileCandidates(tile).value <==> HeldByTile(tile, f)
  {
    if Has(tile, "Items") {
      ListCandidatesMember(tile.fields["Items"], [tile.fields["x"], tile.fields["y"], tile.fields["z"]], f);
    }
  }

  /** A successful `FlatMap` succeeded on every element, and holds exactly
      what the elements' results hold. */
  lemma {:induction false} FlatMapMember(xs: seq<Tag>, g: Tag -> Scan, f: Finding)
    requires FlatMap(xs, g).Success?
    ensures forall x :: x in xs ==> g(x).Success?
    ensures f in FlatMap(xs, g).value <==> exists x :: x in xs && f in g(x).value
    decreases |xs|
  {
    if xs != [] {
      var init := xs[..|xs| - 1];
      ConcatMember(FlatMap(init, g), g(xs[|xs| - 1]), f);
      FlatMapMember(init, g, f);
      assert forall x :: x in xs <==> x in init || x == xs[|xs| - 1] by {
        assert xs == init + [xs[|xs| - 1]];
      }
    }
  }

  /** Soundness and completeness of the chunk scan: a finding is reported
      exactly when its item is important and it is held, at the reported
      position, by one of the chunk's entities or tile entities. */
  lemma ChunkScanMembers(chunk: Tag, parse: Json.Parser, f: Finding)
    requires ChunkCandidates(chunk).Success?
    ensures f in Kept(ChunkCandidates(chunk).value, parse) <==>
      && Important(f.item, parse)
      && ((exists e :: e in EntitiesOf(chunk) && HeldByEntity(e, f))
          || (exists t :: t in TilesOf(chunk) && HeldByTile(t, f)))
  {
    var es := EntitiesOf(chunk);
    var ts := TilesOf(chunk);
    ChunkCandidatesSplit(chunk);
    KeptMember(ChunkCandidates(chunk).value, parse, f);
    FlatMapMember(es, EntityCandidates, f);
    FlatMapMember(ts, TileCandidates, f);
    forall e | e in es
      ensures f in EntityCandidates(e).value <==> HeldByEntity(e, f)
    {
      EntityCandidatesMember(e, f);
    }
    forall t | t in ts
      ensures f in TileCandidates(t).value <==> HeldByTile(t, f)
    {
      TileCandidatesMember(t, f);
    }
  }

  /** A successful `FlatMap` over a prefix yields a prefix of the whole. */
  lemma {:induction false} FlatMapPrefix(xs: seq<Tag>, g: Tag -> Scan, k: nat)
    requires k <= |xs| && FlatMap(xs, g).Success?
    ensures FlatMap(xs[..k], g).Success?
    ensures FlatMap(xs[..k], g).value <= FlatMap(xs, g).value
    decreases |xs|
  {
    if k == |xs| {
      assert xs[..k] == xs;
    } else {
      FlatMapPrefix(xs[..|xs| - 1], g, k);
      assert xs[..|xs| - 1][..k] == xs[..k];
    }
  }

  /** Ordering of the chunk scan: all entity findings come before all
      tile-entity findings, and the findings of the first `k` entities (or
      tile entities) form a leading block of their part, for every `k`. */
  lemma ChunkScanOrder(chunk: Tag, parse: Json.Parser, k: nat)
    requires ChunkCandidates(chunk).Success?
    ensures FlatMap(EntitiesOf(chunk), EntityCandidates).Success?
    ensures FlatMap(TilesOf(chunk), TileCandidates).Success?
    ensures var fromEntities := Kept(FlatMap(EntitiesOf(chunk), EntityCandidates).value, parse);
      Kept(ChunkCandidates(chunk).value, parse) ==
        fromEntities + Kept(FlatMap(TilesOf(chunk), TileCandidates).value, parse)
    ensures k <= |EntitiesOf(chunk)| ==>
      && FlatMap(EntitiesOf(chunk)[..k], EntityCandidates).Success?
      && Kept(FlatMap(EntitiesOf(chunk)[..k], EntityCandidates).value, parse) <=
         Kept(FlatMap(EntitiesOf(chunk), EntityCandidates).value, parse)
    ensures k <= |TilesOf(chunk)| ==>
      && FlatMap(TilesOf(chunk)[..k], TileCandidates).Success?
      && Kept(FlatMap(TilesOf(chunk)[..k], TileCandidates).value, parse) <=
         Kept(FlatMap(TilesOf(chunk), TileCandidates).value, parse)
  {
    var es := EntitiesOf(chunk);
    var ts := TilesOf(chunk);
    ChunkCandidatesSplit(chunk);
    KeptAppend(FlatMap(es, EntityCandidates).value, FlatMap(ts, TileCandidates).value, parse);
    if k <= |es| {
      KeptPrefix(es, EntityCandidates, k, parse);
    }
    if k <= |ts| {
      KeptPrefix(ts, TileCandidates, k, parse);
    }
  }

  /** The findings of a prefix of `xs` lead the findings of all of `xs`. */
  lemma KeptPrefix(xs: seq<Tag>, g: Tag -> Scan, k: nat, parse: Json.Parser)
    requires k <= |xs| && FlatMap(xs, g).Success?
    ensures FlatMap(xs[..k], g).Success?
    ensures Kept(FlatMap(xs[..k], g).value, parse) <= Kept(FlatMap(xs, g).value, parse)
  {
    FlatMapPrefix(xs, g, k);
    var whole := FlatMap(xs, g).value;
    var front := FlatMap(xs[..k], g).value;
    assert whole == front + whole[|front|..];
    KeptAppend(front, whole[|front|..], parse);
  }

  /** The items of inventory `name` of `entity` (none when absent or not a list). */
  ghost function Inventory(entity: Tag, name: string): seq<Tag> {
    if Has(entity, name) && entity.fields[name].List? then entity.fields[name].elems else []
  }

  /** Within one entity, candidates come from `Items`, then `ArmorItems`,
      then `HandItems`, then the framed `Item`. */
  lemma EntityCandidateOrder(entity: Tag)
    requires EntityCandidates(entity).Success?
    ensures var pos := entity.fields["Pos"].elems;
      EntityCandidates(entity).value ==
        Pair(pos, Inventory(entity, "Items")) + Pair(pos, Inventory(entity, "ArmorItems"))
        + Pair(pos, Inventory(entity, "HandItems")) + HeldCandidates(entity, pos)
  {
    var pos := entity.fields["Pos"].elems;
    var held := HeldCandidates(entity, pos);
    var inv := InventoryCandidates(entity, pos, InventoryNames);
    assert EntityCandidates(entity) == Concat(inv, Success(held));
    var n1, n2, n3 := InventoryNames[1..], InventoryNames[2..], InventoryNames[3..];
    assert n1[1..] == n2 && n2[1..] == n3 && n3 == [];
    InventoryStep(entity, pos, InventoryNames);
    InventoryStep(entity, pos, n1);
    InventoryStep(entity, pos, n2);
    var a, b, c := Pair(pos, Inventory(entity, "Items")), Pair(pos, Inventory(entity, "ArmorItems")),
      Pair(pos, Inventory(entity, "HandItems"));
    assert InventoryCandidates(entity, pos, n3).value == [];
    assert inv.value == a + (b + (c + []));
  }

  /** The first named inventory's candidates lead those of the rest. */
  lemma InventoryStep(entity: Tag, pos: seq<Tag>, names: seq<string>)
    requires names != [] && InventoryCandidates(entity, pos, names).Success?
    ensures InventoryCandidates(entity, pos, names[1..]).Success?
    ensures InventoryCandidates(entity, pos, names).value ==
      Pair(pos, Inventory(entity, names[0])) + InventoryCandidates(entity, pos, names[1..]).value
  {
    if !Has(entity, names[0]) {
      assert Pair(pos, []) == [];
    }
  }

  /** A tile entity without `Items` contributes nothing, whatever else it lacks. */
  lemma TileWithoutItemsIsSkipped(tile: Tag, parse: Json.Parser)
    requires !Has(tile, "Items")
    ensures TileCandidates(tile) == Success([])
    ensures ScanTile(tile, parse) == Success([])
  {
  }

  /** A chunk whose entity and tile-entity lists are both empty yields no findings. */
  lemma EmptyChunkYieldsNothing(chunk: Tag, parse: Json.Parser)
    requires Lookup(chunk, ["Level", "Entities"]) == Some(List([]))
    requires Lookup(chunk, ["Level", "TileEntities"]) == Some(List([]))
    ensures ChunkCandidates(chunk) == Success([])
    ensures SelectsFrom(Success([]), ChunkCandidates(chunk), parse)
  {
    var level := chunk.fields["Level"];
    assert level.fields["Entities"] == List([]);
    assert level.fields["TileEntities"] == List([]);
    var none: seq<Finding> := [];
    assert FlatMap([], EntityCandidates) == Success(none);
    assert FlatMap([], TileCandidates) == Success(none);
    assert none + none == none;
    assert Concat(Success(none), Success(none)) == Success(none);
  }

  /** A chunk whose one entity lacks `Pos` meets the premise of the
      first-error clause of `GetImportantChunkItems`, whatever tag
      `TileEntities` is: the scan raises the missing `Pos` before it iterates
      the tile entities. */
  lemma MissingPosRaisesFirst(parse: Json.Parser, tileEntities: Tag)
    ensures var chunk := Compound(map["Level" := Compound(map["Entities" := List([Compound(map[])]),
                                                              "TileEntities" := tileEntities])]);
      && Lookup(chunk, ["Level", "Entities"]) == Some(List([Compound(map[])]))
      && Lookup(chunk, ["Level", "TileEntities"]).Some?
      && FirstError([Compound(map[])], EntityStep(parse)) == Some(KeyMissing("Pos"))
  {
    assert ScanEntity(Compound(map[]), parse) == Failure(KeyMissing("Pos"));
  }

  /** The worked example: one entity whose `Pos` holds the three float tags
      with bit patterns `xBits`, `yBits`, `zBits`, carrying a stack of three
      netherite ingots, yields exactly one finding: that stack at that `Pos`. */
  lemma NetheriteIngotExample(parse: Json.Parser, xBits: int, yBits: int, zBits: int)
    ensures var item := Compound(map["id" := Str("minecraft:netherite_ingot"), "Count" := Int(3)]);
      var entity := Compound(map["Pos" := List([Float(xBits), Float(yBits), Float(zBits)]), "Items" := List([item])]);
      var chunk := Compound(map["Level" := Compound(map["Entities" := List([entity]), "TileEntities" := List([])])]);
      && ChunkCandidates(chunk) == Success([Finding([Float(xBits), Float(yBits), Float(zBits)], item)])
      && Good(ChunkCandidates(chunk), parse)
      && Kept(ChunkCandidates(chunk).value, parse) == [Finding([Float(xBits), Float(yBits), Float(zBits)], item)]
  {
    var item := Compound(map["id" := Str("minecraft:netherite_ingot"), "Count" := Int(3)]);
    var pos := [Float(xBits), Float(yBits), Float(zBits)];
    var entity := Compound(map["Pos" := List(pos), "Items" := List([item])]);
    var chunk := Compound(map["Level" := Compound(map["Entities" := List([entity]), "TileEntities" := List([])])]);
    var f := Finding(pos, item);

    assert Text.OccursAt("netherite", item.fields["id"].s, 10);
    assert "netherite" in Keywords && Text.IsInfix("netherite", item.fields["id"].s);
    assert HasKeyword(item.fields["id"].s);
    assert Lookup(item, NamePath).None?;
    assert Important(item, parse);

    InventoryStep(entity, pos, InventoryNames);
    InventoryStep(entity, pos, InventoryNames[1..]);
    InventoryStep(entity, pos, InventoryNames[2..]);
    assert InventoryNames[1..][1..] == InventoryNames[2..];
    assert InventoryNames[2..][1..] == [];
    assert Pair(pos, [item]) == [f];
    assert Pair(pos, []) == [];
    assert InventoryCandidates(entity, pos, InventoryNames).value == [f];
    assert EntityCandidates(entity) == Success([f]);
    var none: seq<Finding> := [];
    assert [entity][..0] == [];
    assert FlatMap([entity][..0], EntityCandidates) == Success(none);
    assert none + [f] == [f];
    assert FlatMap([entity], EntityCandidates) == Concat(Success(none), Success([f]));
    assert FlatMap([], TileCandidates) == Success(none);
    assert [f] + none == [f];
    assert ChunkCandidates(chunk) == Concat(Success([f]), Success(none));
    assert FindingTest(parse)(f);
    FilterSingle(f, FindingTest(parse));
  }
}
