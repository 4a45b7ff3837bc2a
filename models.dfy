/** The product record of the list-based inventory and its dictionary form. */
module Models {
  import opened Basics
  import opened Values

  /** A product; every field has a default (empty text, quantity 0, price 0.0). */
  datatype Product = Product(
    productId: string,
    name: string,
    category: string,
    quantity: int,
    price: real,
    description: string)

  /** `Product()` with every argument left at its default. */
  const DefaultProduct: Product := Product("", "", "", 0, 0.0, "")

  /** The keys of `to_dict`, in the order it writes them. */
  const ProductKeys: seq<string> := ["product_id", "name", "category", "quantity", "price", "description"]

  /** `to_dict`: the six fields under their keys, in declaration order. */
  function ToDict(p: Product): (d: Entries<Value>)
    ensures KeysOf(d) == ProductKeys
    ensures Lookup(d, "product_id") == Some(VStr(p.productId))
    ensures Lookup(d, "name") == Some(VStr(p.name))
    ensures Lookup(d, "category") == Some(VStr(p.category))
    ensures Lookup(d, "quantity") == Some(VInt(p.quantity))
    ensures Lookup(d, "price") == Some(VFloat(p.price))
    ensures Lookup(d, "description") == Some(VStr(p.description))
  {
    var d := [("product_id", VStr(p.productId)), ("name", VStr(p.name)), ("category", VStr(p.category)),
      ("quantity", VInt(p.quantity)), ("price", VFloat(p.price)), ("description", VStr(p.description))];
    LookupAt(d, "product_id", 0);
    LookupAt(d, "name", 1);
    LookupAt(d, "category", 2);
    LookupAt(d, "quantity", 3);
    LookupAt(d, "price", 4);
    LookupAt(d, "description", 5);
    [("product_id", VStr(p.productId)), ("name", VStr(p.name)), ("category", VStr(p.category)),
     ("quantity", VInt(p.quantity)), ("price", VFloat(p.price)), ("description", VStr(p.description))]
  }

  /** `data.get(key, default)` for a field the product keeps as text. */
  function TextField(d: Entries<Value>, key: string, default: string): Result<string> {
    match Lookup(d, key)
    case None => Ok(default)
    case Some(v) => if v.VStr? then Ok(v.s) else Err("field " + key + " does not hold text")
  }

  /** `from_dict`: each missing key takes its default; `int()` and `float()`
      convert quantity and price and fail as they do. */
  function FromDict(d: Entries<Value>): Result<Product> {
    var id := TextField(d, "product_id", "");
    var name := TextField(d, "name", "");
    var category := TextField(d, "category", "");
    var quantity := ToInt(GetOr(d, "quantity", VInt(0)));
    var price := ToFloat(GetOr(d, "price", VFloat(0.0)));
    var description := TextField(d, "description", "");
    if quantity.None? then Err("invalid quantity")
    else if price.None? then Err("invalid price")
    else if id.Err? then Err(id.message)
    else if name.Err? then Err(name.message)
    else if category.Err? then Err(category.message)
    else if description.Err? then Err(description.message)
    else Ok(Product(id.value, name.value, category.value, quantity.value, price.value, description.value))
  }

  /** `from_dict({})` is the default product. */
  lemma FromEmptyDict()
    ensures FromDict([]) == Ok(DefaultProduct)
  {
  }

  /** `from_dict(to_dict(p))` has the same six field values as `p`. */
  lemma FromDictToDict(p: Product)
    ensures FromDict(ToDict(p)) == Ok(p)
  {
  }

  /** Keys other than the six are ignored: two dictionaries that agree on the six
      keys give the same product. */
  lemma FromDictIgnoresOtherKeys(d: Entries<Value>, d': Entries<Value>)
    requires forall k :: k in ProductKeys ==> Lookup(d, k) == Lookup(d', k)
    ensures FromDict(d) == FromDict(d')
  {
    assert TextField(d, "product_id", "") == TextField(d', "product_id", "") by {
      assert "product_id" in ProductKeys;
    }
    assert TextField(d, "name", "") == TextField(d', "name", "") by {
      assert "name" in ProductKeys;
    }
    assert TextField(d, "category", "") == TextField(d', "category", "") by {
      assert "category" in ProductKeys;
    }
    assert TextField(d, "description", "") == TextField(d', "description", "") by {
      assert "description" in ProductKeys;
    }
    assert GetOr(d, "quantity", VInt(0)) == GetOr(d', "quantity", VInt(0)) by {
      assert "quantity" in ProductKeys;
    }
    assert GetOr(d, "price", VFloat(0.0)) == GetOr(d', "price", VFloat(0.0)) by {
      assert "price" in ProductKeys;
    }
  }
}
