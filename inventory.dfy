/** The list-based inventory manager: an ordered list of products changed in
    place, a case-insensitive search, and the pipe-delimited text and JSON
    forms of the list. */
module Inventory {
  import opened Basics
  import opened Text
  import opened Values
  import opened Models

  /** One keyword argument of `edit_product(product_id, **kwargs)`: an attribute
      the product has, with its new value, or any other keyword, which is ignored. */
  datatype ProductUpdate =
    | SetProductId(productId: string)
    | SetName(name: string)
    | SetCategory(category: string)
    | SetQuantity(quantity: int)
    | SetPrice(price: real)
    | SetDescription(description: string)
    | OtherKey(key: string)

  /** `setattr(product, key, value)` when `hasattr(product, key)`; nothing otherwise. */
  function ApplyUpdate(p: Product, u: ProductUpdate): Product {
    match u
    case SetProductId(v) => p.(productId := v)
    case SetName(v) => p.(name := v)
    case SetCategory(v) => p.(category := v)
    case SetQuantity(v) => p.(quantity := v)
    case SetPrice(v) => p.(price := v)
    case SetDescription(v) => p.(description := v)
    case OtherKey(_) => p
  }

  /** The keyword arguments applied in order; a later one for the same attribute wins. */
  function ApplyUpdates(p: Product, us: seq<ProductUpdate>): Product {
    if us == [] then p else ApplyUpdate(ApplyUpdates(p, us[..|us| - 1]), us[|us| - 1])
  }

  /** Keywords that name no attribute change nothing, and an attribute that no
      keyword names keeps its value. */
  lemma {:induction false} UpdatesTouchOnlyNamedFields(p: Product, us: seq<ProductUpdate>)
    ensures (forall k :: 0 <= k < |us| ==> !us[k].SetProductId?) ==> ApplyUpdates(p, us).productId == p.productId
    ensures (forall k :: 0 <= k < |us| ==> !us[k].SetName?) ==> ApplyUpdates(p, us).name == p.name
    ensures (forall k :: 0 <= k < |us| ==> !us[k].SetCategory?) ==> ApplyUpdates(p, us).category == p.category
    ensures (forall k :: 0 <= k < |us| ==> !us[k].SetQuantity?) ==> ApplyUpdates(p, us).quantity == p.quantity
    ensures (forall k :: 0 <= k < |us| ==> !us[k].SetPrice?) ==> ApplyUpdates(p, us).price == p.price
    ensures (forall k :: 0 <= k < |us| ==> !us[k].SetDescription?) ==> ApplyUpdates(p, us).description == p.description
    ensures (forall k :: 0 <= k < |us| ==> us[k].OtherKey?) ==> ApplyUpdates(p, us) == p
  {
    if us != [] {
      UpdatesTouchOnlyNamedFields(p, us[..|us| - 1]);
    }
  }

  /** Position of the first product with the id, or `|ps|` when there is none. */
  function FirstWithId(ps: seq<Product>, id: string): (i: nat)
    ensures i <= |ps|
    ensures i < |ps| ==> ps[i].productId == id
    ensures forall j :: 0 <= j < i ==> ps[j].productId != id
  {
    if ps == [] then 0
    else if ps[0].productId == id then 0
    else 1 + FirstWithId(ps[1..], id)
  }

  /** The product matches the query when the lower-cased query occurs in its
      lower-cased name or category. */
  predicate Matches(p: Product, query: string) {
    IsSubstring(Lower(query), Lower(p.name)) || IsSubstring(Lower(query), Lower(p.category))
  }

  /** `search_products(query)`: the matching products, in list order. */
  function SearchProducts(ps: seq<Product>, query: string): (r: seq<Product>)
    ensures |r| <= |ps|
    ensures forall p :: p in r <==> p in ps && Matches(p, query)
    ensures r == Keep(ps, p => Matches(p, query))
  {
    if ps == [] then []
    else SearchProducts(ps[..|ps| - 1], query) + (if Matches(ps[|ps| - 1], query) then [ps[|ps| - 1]] else [])
  }

  /** An empty query matches every product: the whole list comes back. */
  lemma {:induction false} SearchEmptyQuery(ps: seq<Product>)
    ensures SearchProducts(ps, "") == ps
  {
    if ps != [] {
      SearchEmptyQuery(ps[..|ps| - 1]);
      EmptyMatches(ps[|ps| - 1]);
      SnocSplit(ps);
    }
  }

  lemma EmptyMatches(p: Product)
    ensures Matches(p, "")
  {
    EmptyIsSubstring(Lower(p.name));
    assert Lower("") == "";
  }

  /** The text line `save_to_txt` writes for one product:
      id|name|category|quantity|price|description. */
  function TxtLine(p: Product): string {
    Join(TxtFields(p), '|')
  }

  function TxtLines(ps: seq<Product>): (lines: seq<string>)
    ensures |lines| == |ps|
    ensures forall k :: 0 <= k < |ps| ==> lines[k] == TxtLine(ps[k])
  {
    seq(|ps|, k requires 0 <= k < |ps| => TxtLine(ps[k]))
  }

  /** The file text `save_to_txt` writes: one line per product, each ended by a
      line break. */
  function SaveToTxt(ps: seq<Product>): string {
    Join(TxtLines(ps) + [""], '\n')
  }

  /** What `load_from_txt` makes of one line. */
  datatype LineOutcome = Skipped | Loaded(p: Product) | Failed

  /** One line of `load_from_txt`: strip it, split it on `|`; fewer than six parts
      skip the line, otherwise the first six parts give the product, and a
      quantity or price that does not convert raises. */
  function ParseTxtLine(line: string): LineOutcome {
    var parts := Split(Strip(line), '|');
    if |parts| < 6 then Skipped
    else
      match (ToInt(VStr(parts[3])), ToFloat(VStr(parts[4])))
      case (Some(q), Some(pr)) => Loaded(Product(parts[0], parts[1], parts[2], q, pr, parts[5]))
      case _ => Failed
  }

  /** The products `load_from_txt` has appended after reading `lines`, and
      whether it got through them without an error. Reading stops at the first
      line that fails. */
  function LoadTxtLines(lines: seq<string>): (seq<Product>, bool) {
    if lines == [] then ([], true)
    else
      var (ps, ok) := LoadTxtLines(lines[..|lines| - 1]);
      if !ok then (ps, false)
      else match ParseTxtLine(lines[|lines| - 1])
        case Skipped => (ps, true)
        case Loaded(p) => (ps + [p], true)
        case Failed => (ps, false)
  }

  /** After a failing line, later lines change nothing. */
  lemma {:induction false} LoadStopsAtFailure(lines: seq<string>, i: nat)
    requires i <= |lines| && !LoadTxtLines(lines[..i]).1
    ensures LoadTxtLines(lines) == LoadTxtLines(lines[..i])
    decreases |lines| - i
  {
    if i < |lines| {
      assert lines[..i + 1][..i] == lines[..i];
      LoadStopsAtFailure(lines, i + 1);
    } else {
      assert lines[..i] == lines;
    }
  }

  /** A line `save_to_txt` writes reads back as the same product when no text
      field holds `|` or a line end (`\n` or `\r`), the id does not start and the
      description does not end with whitespace, and the price is a whole number
      of cents. */
  ghost predicate TxtSafe(p: Product) {
    && '|' !in p.productId && '|' !in p.name && '|' !in p.category && '|' !in p.description
    && '\n' !in p.productId && '\n' !in p.name && '\n' !in p.category && '\n' !in p.description
    && '\r' !in p.productId && '\r' !in p.name && '\r' !in p.category && '\r' !in p.description
    && (p.productId != [] ==> !IsSpace(p.productId[0]))
    && (p.description != [] ==> !IsSpace(p.description[|p.description| - 1]))
    && WholeCents(p.price)
  }

  lemma ParseTxtLineOfSave(p: Product)
    requires TxtSafe(p)
    ensures ParseTxtLine(TxtLine(p)) == Loaded(p)
    ensures '\n' !in TxtLine(p) && '\r' !in TxtLine(p)
  {
    TxtLineParts(p);
    IntTextRoundTrip(p.quantity);
    FloatTextRoundTrip(p.price);
    ParseSixParts(TxtLine(p), TxtFields(p), p);
  }

  /** The six fields of a product's line, in file order. */
  function TxtFields(p: Product): seq<string> {
    [p.productId, p.name, p.category, Render(VInt(p.quantity)), Render(VFloat(p.price)), p.description]
  }

  /** A saved line strips to itself, splits back into its fields and holds no
      line end. */
  lemma TxtLineParts(p: Product)
    requires TxtSafe(p)
    ensures Split(Strip(TxtLine(p)), '|') == TxtFields(p)
    ensures '\n' !in TxtLine(p) && '\r' !in TxtLine(p)
  {
    var fields := TxtFields(p);
    NumberTextOmits(VInt(p.quantity), '|');
    NumberTextOmits(VInt(p.quantity), '\n');
    NumberTextOmits(VFloat(p.price), '|');
    NumberTextOmits(VFloat(p.price), '\n');
    NumberTextOmits(VInt(p.quantity), '\r');
    NumberTextOmits(VFloat(p.price), '\r');
    var line := TxtLine(p);
    JoinEdges(fields, '|');
    StripUnchanged(line);
    SplitJoin(fields, '|');
    NotInJoin(fields, '|', '\n');
    NotInJoin(fields, '|', '\r');
  }

  lemma ParseSixParts(line: string, parts: seq<string>, p: Product)
    requires Split(Strip(line), '|') == parts && |parts| == 6
    requires parts[0] == p.productId && parts[1] == p.name && parts[2] == p.category && parts[5] == p.description
    requires ToInt(VStr(parts[3])) == Some(p.quantity) && ToFloat(VStr(parts[4])) == Some(p.price)
    ensures ParseTxtLine(line) == Loaded(p)
  {
  }

  lemma {:induction false} LoadSavedLines(ps: seq<Product>)
    requires forall k :: 0 <= k < |ps| ==> TxtSafe(ps[k])
    ensures LoadTxtLines(TxtLines(ps)) == (ps, true)
  {
    if ps != [] {
      var init, p := ps[..|ps| - 1], ps[|ps| - 1];
      forall k | 0 <= k < |init|
        ensures TxtSafe(init[k])
      {
        assert init[k] == ps[k];
      }
      LoadSavedLines(init);
      TxtLinesSnoc(ps);
      ParseTxtLineOfSave(p);
      LoadStep(TxtLines(ps), init, p);
      SnocSplit(ps);
    }
  }

  lemma TxtLinesSnoc(ps: seq<Product>)
    requires ps != []
    ensures TxtLines(ps)[..|ps| - 1] == TxtLines(ps[..|ps| - 1])
    ensures TxtLines(ps)[|ps| - 1] == TxtLine(ps[|ps| - 1])
  {
  }

  /** A line that loads appends its product to what came before. */
  lemma LoadStep(lines: seq<string>, init: seq<Product>, p: Product)
    requires lines != [] && LoadTxtLines(lines[..|lines| - 1]) == (init, true)
    requires ParseTxtLine(lines[|lines| - 1]) == Loaded(p)
    ensures LoadTxtLines(lines) == (init + [p], true)
  {
  }

  /** `load_from_txt` after `save_to_txt` gives back the same products. */
  lemma TxtRoundTrip(ps: seq<Product>)
    requires forall k :: 0 <= k < |ps| ==> TxtSafe(ps[k])
    ensures LoadTxtLines(TextLines(SaveToTxt(ps))) == (ps, true)
  {
    var saved := TxtLines(ps);
    var lines := saved + [""];
    forall k | 0 <= k < |saved|
      ensures '\n' !in saved[k] && '\r' !in saved[k]
    {
      ParseTxtLineOfSave(ps[k]);
    }
    TextLinesOfJoin(saved);
    LoadSavedLines(ps);
    assert lines[..|lines| - 1] == TxtLines(ps);
    assert Split(Strip(""), '|') == [""];
  }

  /** The JSON document `save_to_json` writes: the list of `to_dict` forms. */
  function SaveToJson(ps: seq<Product>): Value {
    VList(seq(|ps|, k requires 0 <= k < |ps| => VDict(ToDict(ps[k]))))
  }

  /** `[Product.from_dict(item) for item in data]`: None when iterating the
      document or converting any item raises. */
  function ProductsFromJson(items: seq<Value>): (r: Option<seq<Product>>)
    ensures r.Some? ==> |r.value| == |items|
  {
    if items == [] then Some([])
    else
      match ProductsFromJson(items[..|items| - 1])
      case None => None
      case Some(init) =>
        var last := items[|items| - 1];
        if !last.VDict? then None
        else match FromDict(last.entries)
          case Err(_) => None
          case Ok(p) => Some(init + [p])
  }

  /** `load_from_json` after `save_to_json` gives back the same products. */
  lemma {:induction false} JsonRoundTrip(ps: seq<Product>)
    ensures ProductsFromJson(SaveToJson(ps).items) == Some(ps)
  {
    if ps != [] {
      var init := ps[..|ps| - 1];
      var p := ps[|ps| - 1];
      JsonRoundTrip(init);
      var items := SaveToJson(ps).items;
      SaveToJsonSnoc(ps);
      FromDictToDict(p);
      ProductsFromJsonStep(items, init, p);
      SnocSplit(ps);
    }
  }

  lemma SaveToJsonSnoc(ps: seq<Product>)
    requires ps != []
    ensures SaveToJson(ps).items[..|ps| - 1] == SaveToJson(ps[..|ps| - 1]).items
    ensures SaveToJson(ps).items[|ps| - 1] == VDict(ToDict(ps[|ps| - 1]))
  {
  }

  /** Converting one more dictionary that builds `p` appends `p`. */
  lemma ProductsFromJsonStep(items: seq<Value>, init: seq<Product>, p: Product)
    requires items != [] && ProductsFromJson(items[..|items| - 1]) == Some(init)
    requires items[|items| - 1].VDict? && FromDict(items[|items| - 1].entries) == Ok(p)
    ensures ProductsFromJson(items) == Some(init + [p])
  {
  }

  /** The manager: one list of products, changed in place. */
  class InventoryManager {
    var products: seq<Product>

    constructor ()
      ensures products == []
    {
      products := [];
    }

    /** `add_product`: append at the end; duplicate ids and names are accepted. */
    method AddProduct(p: Product)
      modifies this
      ensures products == old(products) + [p]
    {
      products := products + [p];
    }

    /** `edit_product`: apply the keyword arguments to the first product with
        the id; false, with nothing changed, when no product has it. */
    method EditProduct(id: string, updates: seq<ProductUpdate>) returns (found: bool)
      modifies this
      ensures found <==> exists j :: 0 <= j < |old(products)| && old(products)[j].productId == id
      ensures var i := FirstWithId(old(products), id);
        products == if i < |old(products)| then old(products)[i := ApplyUpdates(old(products)[i], updates)]
                    else old(products)
    {
      var i := 0;
      while i < |products|
        invariant 0 <= i <= |products| && products == old(products)
        invariant forall j :: 0 <= j < i ==> products[j].productId != id
      {
        if products[i].productId == id {
          var p := products[i];
          var k := 0;
          while k < |updates|
            invariant 0 <= k <= |updates|
            invariant p == ApplyUpdates(products[i], updates[..k])
          {
            p := ApplyUpdate(p, updates[k]);
            assert updates[..k + 1][..k] == updates[..k];
            k := k + 1;
          }
          assert updates[..k] == updates;
          products := products[i := p];
          return true;
        }
        i := i + 1;
      }
      return false;
    }

    /** `delete_product`: remove the first product with the id, keeping the
        order of the rest; false, with nothing changed, when no product has it. */
    method DeleteProduct(id: string) returns (found: bool)
      modifies this
      ensures found <==> exists j :: 0 <= j < |old(products)| && old(products)[j].productId == id
      ensures var i := FirstWithId(old(products), id);
        products == if i < |old(products)| then old(products)[..i] + old(products)[i + 1..]
                    else old(products)
    {
      var i := 0;
      while i < |products|
        invariant 0 <= i <= |products| && products == old(products)
        invariant forall j :: 0 <= j < i ==> products[j].productId != id
      {
        if products[i].productId == id {
          products := products[..i] + products[i + 1..];
          return true;
        }
        i := i + 1;
      }
      return false;
    }

    /** `load_from_txt`: false with nothing changed for a missing file;
        otherwise the list is emptied and refilled line by line, and a line whose
        quantity or price does not convert ends the load with false, keeping the
        products read before it. */
    method LoadFromTxt(file: Option<string>) returns (ok: bool)
      modifies this
      ensures file.None? ==> !ok && products == old(products)
      ensures file.Some? ==> (products, ok) == LoadTxtLines(TextLines(file.value))
    {
      if file.None? {
        return false;
      }
      var lines := TextLines(file.value);
      products := [];
      var i := 0;
      while i < |lines|
        invariant 0 <= i <= |lines|
        invariant LoadTxtLines(lines[..i]) == (products, true)
      {
        assert lines[..i + 1][..i] == lines[..i];
        var outcome := ParseTxtLine(lines[i]);
        if outcome.Failed? {
          LoadStopsAtFailure(lines, i + 1);
          return false;
        }
        if outcome.Loaded? {
          products := products + [outcome.p];
        }
        i := i + 1;
      }
      assert lines[..i] == lines;
      return true;
    }

    /** `load_from_json`: false with nothing changed when the file is missing or
        malformed, the document is not iterable, or any item fails to convert;
        otherwise the list is replaced by the converted items. */
    method LoadFromJson(file: JsonFile) returns (ok: bool)
      modifies this
      ensures !file.Parsed? ==> !ok && products == old(products)
      ensures file.Parsed? ==>
        match Iterate(file.doc)
        case None => !ok && products == old(products)
        case Some(items) =>
          match ProductsFromJson(items)
          case None => !ok && products == old(products)
          case Some(ps) => ok && products == ps
    {
      if !file.Parsed? {
        return false;
      }
      var items := Iterate(file.doc);
      if items.None? {
        return false;
      }
      var loaded := ProductsFromJson(items.value);
      if loaded.None? {
        return false;
      }
      products := loaded.value;
      return true;
    }
  }
}
