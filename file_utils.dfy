/** The product validator of the file utilities: the ordered list of problems
    found in a product dictionary before it is stored. */
module FileUtils {
  import opened Basics
  import opened Values

  /** The fields every product must carry, in the order they are checked. */
  const RequiredFields: seq<string> := ["name", "category", "price", "quantity"]

  const MissingPrefix: string := "Missing required field: "
  const PriceError: string := "Price must be a valid number"
  const QuantityError: string := "Quantity must be a valid integer"
  const MinStockError: string := "Minimum stock must be a valid integer"

  function MissingError(field: string): string {
    MissingPrefix + field
  }

  /** The error reports a missing field (as opposed to a badly typed one). */
  predicate IsMissingError(e: string) {
    |MissingPrefix| <= |e| && e[..|MissingPrefix|] == MissingPrefix
  }

  /** The field is present and its value is truthy. */
  predicate Filled(product: Entries<Value>, field: string) {
    HasKey(product, field) && Truthy(Lookup(product, field).value)
  }

  /** `float(product[field])` raises: the field is present with a value that
      does not convert. */
  predicate NotAFloat(product: Entries<Value>, field: string) {
    HasKey(product, field) && ToFloat(Lookup(product, field).value).None?
  }

  /** `int(product[field])` raises. */
  predicate NotAnInt(product: Entries<Value>, field: string) {
    HasKey(product, field) && ToInt(Lookup(product, field).value).None?
  }

  /** The missing-field errors of `fields`, in their order. */
  function MissingFields(product: Entries<Value>, fields: seq<string>): seq<string> {
    if fields == [] then []
    else
      var f := fields[|fields| - 1];
      MissingFields(product, fields[..|fields| - 1]) + (if Filled(product, f) then [] else [MissingError(f)])
  }

  /** The conversion errors: price, then quantity, then a truthy minimum stock. */
  function TypeErrors(product: Entries<Value>): seq<string> {
    (if NotAFloat(product, "price") then [PriceError] else [])
    + (if NotAnInt(product, "quantity") then [QuantityError] else [])
    + (if Filled(product, "min_stock") && NotAnInt(product, "min_stock") then [MinStockError] else [])
  }

  /** What `validate_product_data` returns. */
  function ValidationErrors(product: Entries<Value>): seq<string> {
    MissingFields(product, RequiredFields) + TypeErrors(product)
  }

  /** A product the validator accepts, stated field by field. */
  predicate AcceptableProduct(product: Entries<Value>) {
    (forall f :: f in RequiredFields ==> Filled(product, f))
    && Lookup(product, "price").Some? && ToFloat(Lookup(product, "price").value).Some?
    && Lookup(product, "quantity").Some? && ToInt(Lookup(product, "quantity").value).Some?
    && (Filled(product, "min_stock") ==> ToInt(Lookup(product, "min_stock").value).Some?)
  }

  /** `validate_product_data`: the loop over the required fields, then the
      guarded conversion checks. */
  method ValidateProductData(product: Entries<Value>) returns (errors: seq<string>)
    ensures errors == ValidationErrors(product)
  {
    errors := [];
    var i := 0;
    while i < |RequiredFields|
      invariant 0 <= i <= |RequiredFields|
      invariant errors == MissingFields(product, RequiredFields[..i])
    {
      var field := RequiredFields[i];
      MissingFieldsStep(product, RequiredFields, i);
      if !HasKey(product, field) || !Truthy(Lookup(product, field).value) {
        errors := errors + [MissingError(field)];
      }
      i := i + 1;
    }
    assert RequiredFields[..i] == RequiredFields;
    ghost var missing := errors;
    ghost var priceErrors := if NotAFloat(product, "price") then [PriceError] else [];
    ghost var quantityErrors := if NotAnInt(product, "quantity") then [QuantityError] else [];
    ghost var minStockErrors :=
      if Filled(product, "min_stock") && NotAnInt(product, "min_stock") then [MinStockError] else [];
    if HasKey(product, "price") && ToFloat(Lookup(product, "price").value).None? {
      errors := errors + [PriceError];
    }
    assert errors == missing + priceErrors;
    if HasKey(product, "quantity") && ToInt(Lookup(product, "quantity").value).None? {
      errors := errors + [QuantityError];
    }
    assert errors == missing + priceErrors + quantityErrors;
    ghost var counted := errors;
    if HasKey(product, "min_stock") && Truthy(Lookup(product, "min_stock").value) {
      if ToInt(Lookup(product, "min_stock").value).None? {
        errors := errors + [MinStockError];
      }
    }
    assert errors == counted + minStockErrors;
    assert TypeErrors(product) == priceErrors + quantityErrors + minStockErrors;
    assert errors == missing + (priceErrors + quantityErrors + minStockErrors);
  }

  lemma MissingFieldsStep(product: Entries<Value>, fields: seq<string>, i: nat)
    requires i < |fields|
    ensures MissingFields(product, fields[..i + 1])
         == MissingFields(product, fields[..i]) + (if Filled(product, fields[i]) then [] else [MissingError(fields[i])])
  {
    assert fields[..i + 1][..i] == fields[..i];
  }

  lemma MissingErrorInjective(a: string, b: string)
    requires MissingError(a) == MissingError(b)
    ensures a == b
  {
    assert a == MissingError(a)[|MissingPrefix|..];
    assert b == MissingError(b)[|MissingPrefix|..];
  }

  /** Every error of `MissingFields` reports a missing field, and exactly the
      listed fields that are absent or falsy are reported. */
  lemma {:induction false} MissingFieldsMeaning(product: Entries<Value>, fields: seq<string>, f: string)
    ensures forall e :: e in MissingFields(product, fields) ==> IsMissingError(e)
    ensures MissingError(f) in MissingFields(product, fields) <==> f in fields && !Filled(product, f)
  {
    if fields != [] {
      var init := fields[..|fields| - 1];
      var g := fields[|fields| - 1];
      assert fields == init + [g];
      MissingFieldsMeaning(product, init, f);
      assert MissingError(g)[..|MissingPrefix|] == MissingPrefix;
      if MissingError(f) == MissingError(g) {
        MissingErrorInjective(f, g);
      }
    }
  }

  /** None of the conversion errors reads as a missing field. */
  lemma TypeErrorsNotMissing(product: Entries<Value>)
    ensures forall e :: e in TypeErrors(product) ==> !IsMissingError(e)
  {
    assert PriceError[0] != MissingPrefix[0];
    assert QuantityError[0] != MissingPrefix[0];
    assert MinStockError[2] != MissingPrefix[2];
  }

  /** All missing-field errors come before all conversion errors. */
  lemma MissingBeforeTypeErrors(product: Entries<Value>, i: nat, j: nat)
    requires i < j < |ValidationErrors(product)|
    requires !IsMissingError(ValidationErrors(product)[i])
    ensures !IsMissingError(ValidationErrors(product)[j])
  {
    var m := MissingFields(product, RequiredFields);
    var t := TypeErrors(product);
    MissingFieldsMeaning(product, RequiredFields, "");
    TypeErrorsNotMissing(product);
    assert forall k :: 0 <= k < |m| ==> ValidationErrors(product)[k] == m[k] && m[k] in m;
    assert ValidationErrors(product)[j] == t[j - |m|];
    assert t[j - |m|] in t;
  }

  /** A field is reported missing exactly when it is required and absent or
      falsy; a zero quantity or price counts as missing. */
  lemma MissingReported(product: Entries<Value>, f: string)
    ensures MissingError(f) in ValidationErrors(product) <==> f in RequiredFields && !Filled(product, f)
  {
    MissingFieldsMeaning(product, RequiredFields, f);
    TypeErrorsNotMissing(product);
    assert MissingError(f)[..|MissingPrefix|] == MissingPrefix;
  }

  /** Each conversion error is reported exactly when its check fails; a price
      or quantity that is present but None or empty text is reported twice,
      as missing and as badly typed. */
  lemma TypeErrorsReported(product: Entries<Value>)
    ensures PriceError in ValidationErrors(product) <==> NotAFloat(product, "price")
    ensures QuantityError in ValidationErrors(product) <==> NotAnInt(product, "quantity")
    ensures MinStockError in ValidationErrors(product) <==>
      Filled(product, "min_stock") && NotAnInt(product, "min_stock")
  {
    MissingFieldsMeaning(product, RequiredFields, "");
    assert PriceError[..|MissingPrefix|] != MissingPrefix by { assert PriceError[0] != MissingPrefix[0]; }
    assert QuantityError[..|MissingPrefix|] != MissingPrefix by { assert QuantityError[0] != MissingPrefix[0]; }
    assert MinStockError[..|MissingPrefix|] != MissingPrefix by { assert MinStockError[2] != MissingPrefix[2]; }
    assert PriceError != QuantityError && PriceError != MinStockError && QuantityError != MinStockError;
  }

  /** The validator returns no error exactly for an acceptable product. */
  lemma NoErrorsIffAcceptable(product: Entries<Value>)
    ensures ValidationErrors(product) == [] <==> AcceptableProduct(product)
  {
    MissingFieldsEmpty(product, RequiredFields);
    TypeErrorsReported(product);
  }

  /** No missing-field error exactly when every listed field is filled. */
  lemma {:induction false} MissingFieldsEmpty(product: Entries<Value>, fields: seq<string>)
    ensures MissingFields(product, fields) == [] <==> forall f :: f in fields ==> Filled(product, f)
  {
    if fields != [] {
      var init := fields[..|fields| - 1];
      var g := fields[|fields| - 1];
      assert fields == init + [g];
      MissingFieldsEmpty(product, init);
    }
  }

  /** At most one error per check. */
  lemma ErrorCountBound(product: Entries<Value>)
    ensures |ValidationErrors(product)| <= |RequiredFields| + 3
  {
    MissingFieldsLength(product, RequiredFields);
  }

  lemma {:induction false} MissingFieldsLength(product: Entries<Value>, fields: seq<string>)
    ensures |MissingFields(product, fields)| <= |fields|
  {
    if fields != [] {
      MissingFieldsLength(product, fields[..|fields| - 1]);
    }
  }

  /** An out-of-stock product (quantity 0) is rejected as missing its
      quantity, although 0 converts to an integer. */
  lemma ZeroQuantityRejected(product: Entries<Value>)
    requires Lookup(product, "quantity") == Some(VInt(0))
    ensures MissingError("quantity") in ValidationErrors(product)
    ensures QuantityError !in ValidationErrors(product)
  {
    MissingReported(product, "quantity");
    TypeErrorsReported(product);
  }
}
