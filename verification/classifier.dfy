/** The item classifier: custom display-name extraction and the
    "is this item important" decision (main.py, `get_name` and
    `is_important_item`). */
module Classifier {
  import opened Wrappers
  import opened Tags
  import opened Text
  import opened Selection
  import Json

  /** The identifier fragments that make an unnamed item important. */
  const Keywords: seq<string> := ["netherite", "ancient_debris", "shulk"]

  /** Where an item keeps its JSON-encoded display name. */
  const NamePath: seq<string> := ["tag", "display", "Name"]

  /** Some keyword is a case-sensitive substring of `id`. */
  ghost predicate HasKeyword(id: string) {
    exists k :: k in Keywords && IsInfix(k, id)
  }

  /** `'text' in name` followed by `name['text']` on a decoded JSON value.
      Python's `in` is a key test on an object, a substring test on a
      string, an element test on a list and a TypeError on anything else;
      subscripting a string or a list with `'text'` raises. A `text` of
      JSON null comes back as Python's `None`, so it reads as "no name". */
  function TextField(name: Json.Value): (r: Result<Option<Json.Value>, ScanError>)
    ensures r.Success? && r.value.Some? <==>
      name.Object? && "text" in name.fields && !name.fields["text"].Null?
    ensures r.Success? && r.value.Some? ==> r.value.value == name.fields["text"]
    ensures r.Failure? <==>
      match name
      case Object(_) => false
      case String(s) => IsInfix("text", s)
      case Array(a) => Json.String("text") in a
      case _ => true
    ensures r.Failure? ==> r.error == NameNotAnObject
  {
    match name
    case Object(m) =>
      if "text" !in m then Success(None)
      else if m["text"].Null? then Success(None)
      else Success(Some(m["text"]))
    case String(s) =>
      if Contains(s, "text") then Failure(NameNotAnObject) else Success(None)
    case Array(a) =>
      if Json.String("text") in a then Failure(NameNotAnObject) else Success(None)
    case _ => Failure(NameNotAnObject)
  }

  /** The custom display name of an item, if it has one. Absence of any
      step of `tag.display.Name` means "no name"; a name that is present
      but does not decode raises. */
  function GetName(item: Tag, parse: Json.Parser): (r: Result<Option<Json.Value>, ScanError>)
    ensures Lookup(item, NamePath).None? ==> r == Success(None)
    ensures Lookup(item, NamePath).Some? && !Lookup(item, NamePath).value.Str? ==>
      r == Failure(NameNotText)
    ensures var p := Lookup(item, NamePath);
      p.Some? && p.value.Str? ==>
        var parsed := parse(p.value.s);
        && (parsed.None? ==> r == Failure(MalformedJson))
        && (parsed.Some? ==> r == TextField(parsed.value))
  {
    assert Lookup(item, NamePath) ==
      if Has(item, "tag") && Has(item.fields["tag"], "display") && Has(item.fields["tag"].fields["display"], "Name")
      then Some(item.fields["tag"].fields["display"].fields["Name"])
      else None;
    if !Has(item, "tag") then Success(None)
    else
      var tag := item.fields["tag"];
      if !Has(tag, "display") || !Has(tag.fields["display"], "Name") then Success(None)
      else
        var nameTag := tag.fields["display"].fields["Name"];
        if !nameTag.Str? then Failure(NameNotText)
        else
          match parse(nameTag.s)
          case None => Failure(MalformedJson)
          case Some(name) => TextField(name)
  }

  /** The loop over the keyword list: the first keyword found in `id`
      answers true; a non-string `id` raises at the first test. */
  function AnyKeyword(id: Tag, keywords: seq<string>): (r: Result<bool, ScanError>)
    ensures keywords != [] && !id.Str? ==> r == Failure(IdNotText)
    ensures keywords == [] ==> r == Success(false)
    ensures id.Str? ==> r == Success(exists k :: k in keywords && IsInfix(k, id.s))
  {
    if keywords == [] then Success(false)
    else if !id.Str? then Failure(IdNotText)
    else if Contains(id.s, keywords[0]) then Success(true)
    else
      var rest := AnyKeyword(id, keywords[1..]);
      assert forall k :: k in keywords <==> k == keywords[0] || k in keywords[1..];
      rest
  }

  /** Whether an item counts as important: it needs an `id`, and then
      either a display name or a keyword inside the `id`. The display name
      is looked up first, so its errors surface even for keyword items. */
  function IsImportantItem(item: Tag, parse: Json.Parser): (r: Result<bool, ScanError>)
    ensures !Has(item, "id") ==> r == Success(false)
    ensures Has(item, "id") ==>
      match GetName(item, parse)
      case Failure(e) => r == Failure(e)
      case Success(Some(_)) => r == Success(true)
      case Success(None) =>
        if item.fields["id"].Str? then r == Success(HasKeyword(item.fields["id"].s))
        else r == Failure(IdNotText)
  {
    if !Has(item, "id") then Success(false)
    else
      var id := item.fields["id"];
      var name :- GetName(item, parse);
      if name.Some? then Success(true)
      else AnyKeyword(id, Keywords)
  }

  /** The classification succeeded and said "important". */
  predicate Important(item: Tag, parse: Json.Parser) {
    IsImportantItem(item, parse) == Success(true)
  }

  /** The classification did not raise. */
  predicate Classifies(item: Tag, parse: Json.Parser) {
    IsImportantItem(item, parse).Success?
  }

  /** Every item of `items` classifies without raising. */
  predicate AllClassified(items: seq<Tag>, parse: Json.Parser) {
    forall i :: 0 <= i < |items| ==> Classifies(items[i], parse)
  }

  /** The classification test as a value, for selection. */
  function ImportantTest(parse: Json.Parser): Tag -> bool {
    item => Important(item, parse)
  }

  /** Reference selection: the important items of `items`, in order. */
  function KeptItems(items: seq<Tag>, parse: Json.Parser): seq<Tag> {
    Filter(items, ImportantTest(parse))
  }

  /** The loop that keeps the important items of a list of items: it raises exactly when some item's classification raises, and
      otherwise keeps exactly the important items in their order. */
  function ImportantItems(items: seq<Tag>, parse: Json.Parser): (r: Result<seq<Tag>, ScanError>)
    ensures r.Success? <==> AllClassified(items, parse)
    ensures r.Success? ==> r.value == KeptItems(items, parse)
  {
    if items == [] then Success([])
    else
      var keep :- IsImportantItem(items[0], parse);
      var rest :- ImportantItems(items[1..], parse);
      assert forall i :: 1 <= i < |items| ==> items[i] == items[1..][i - 1];
      assert ImportantTest(parse)(items[0]) == keep;
      Success((if keep then [items[0]] else []) + rest)
  }

  /** Selection distributes over concatenation, so it keeps relative order. */
  lemma KeptItemsAppend(a: seq<Tag>, b: seq<Tag>, parse: Json.Parser)
    ensures KeptItems(a + b, parse) == KeptItems(a, parse) + KeptItems(b, parse)
  {
    FilterAppend(a, b, ImportantTest(parse));
  }

  /** Each occurrence of an important item is kept exactly once, and
      nothing unimportant is kept. */
  lemma KeptItemsCount(items: seq<Tag>, parse: Json.Parser, x: Tag)
    ensures multiset(KeptItems(items, parse))[x] ==
      if Important(x, parse) then multiset(items)[x] else 0
  {
    FilterCount(items, ImportantTest(parse), x);
  }

  /** Classification succeeds on a concatenation exactly when it does on both parts. */
  lemma AllClassifiedAppend(a: seq<Tag>, b: seq<Tag>, parse: Json.Parser)
    ensures AllClassified(a + b, parse) <==> AllClassified(a, parse) && AllClassified(b, parse)
  {
    if AllClassified(a, parse) && AllClassified(b, parse) {
      forall i | 0 <= i < |a + b|
        ensures Classifies((a + b)[i], parse)
      {
        if i >= |a| {
          assert (a + b)[i] == b[i - |a|];
        }
      }
    }
    if AllClassified(a + b, parse) {
      forall i | 0 <= i < |a|
        ensures Classifies(a[i], parse)
      {
        assert (a + b)[i] == a[i];
      }
      forall i | 0 <= i < |b|
        ensures Classifies(b[i], parse)
      {
        assert (a + b)[|a| + i] == b[i];
      }
    }
  }

  /** An item whose `id` holds a keyword is important whenever its display
      name, if any, decodes. */
  lemma KeywordItemIsImportant(item: Tag, parse: Json.Parser, k: string)
    requires Has(item, "id") && item.fields["id"].Str?
    requires k in Keywords && IsInfix(k, item.fields["id"].s)
    requires GetName(item, parse).Success?
    ensures Important(item, parse)
  {
  }

  /** A named item is important whatever its `id` holds. */
  lemma NamedItemIsImportant(item: Tag, parse: Json.Parser)
    requires Has(item, "id")
    requires GetName(item, parse).Success? && GetName(item, parse).value.Some?
    ensures Important(item, parse)
  {
  }

  /** The worked example: a display name `{"text":"Excalibur"}` yields the
      text `Excalibur`. */
  lemma ExcaliburIsNamed(parse: Json.Parser, raw: string)
    requires parse(raw) == Some(Json.Object(map["text" := Json.String("Excalibur")]))
    ensures var item := Compound(map["id" := Str("minecraft:diamond_sword"),
        "tag" := Compound(map["display" := Compound(map["Name" := Str(raw)])])]);
      GetName(item, parse) == Success(Some(Json.String("Excalibur"))) && Important(item, parse)
  {
    var item := Compound(map["id" := Str("minecraft:diamond_sword"),
        "tag" := Compound(map["display" := Compound(map["Name" := Str(raw)])])]);
    assert Lookup(item, NamePath) == Some(Str(raw));
  }

  /** A display name that does not decode makes the classification raise,
      even when the `id` alone would have made the item important. */
  lemma MalformedNameRaisesForKeywordItem(parse: Json.Parser, raw: string)
    requires parse(raw).None?
    ensures var item := Compound(map["id" := Str("minecraft:netherite_ingot"),
        "tag" := Compound(map["display" := Compound(map["Name" := Str(raw)])])]);
      IsImportantItem(item, parse) == Failure(MalformedJson)
  {
    var item := Compound(map["id" := Str("minecraft:netherite_ingot"),
        "tag" := Compound(map["display" := Compound(map["Name" := Str(raw)])])]);
    assert Lookup(item, NamePath) == Some(Str(raw));
  }
}
