/** The product editor of the admin dashboard (frontend/src/pages/admin/ProductEditModal.jsx):
    the form state built from the product, the field and option handlers, the quick price
    update and the submit flow. The form is a JavaScript object, a map from field names to
    values; the server's answers are parameters. */
module ProductEditModal {
  import opened Wrappers
  import opened Entities
  import opened AdminDtos

  /** A value held by the form. */
  datatype FormValue = Null | Text(s: string) | Num(n: int) | Flag(b: bool) | List(items: seq<map<string, FormValue>>)

  function NumOrNull(x: Option<int>): FormValue {
    if x.Some? then Num(x.value) else Null
  }

  function TextOrNull(x: Option<string>): FormValue {
    if x.Some? then Text(x.value) else Null
  }

  function FlagOrNull(x: Option<bool>): FormValue {
    if x.Some? then Flag(x.value) else Null
  }

  /** An option as the backend's JSON delivers it: every field present, null when unset. */
  function OptionRecord(o: OptionAdminDto): map<string, FormValue> {
    map[
      "id" := NumOrNull(o.id), "nameEs" := TextOrNull(o.nameEs), "nameEn" := TextOrNull(o.nameEn),
      "descriptionEs" := TextOrNull(o.descriptionEs), "descriptionEn" := TextOrNull(o.descriptionEn),
      "price" := NumOrNull(o.price), "originalPrice" := NumOrNull(o.originalPrice),
      "optionType" := if o.optionType.Some? then Text(OptionTypeName(o.optionType.value)) else Null,
      "servesPeople" := NumOrNull(o.servesPeople), "sizeCode" := TextOrNull(o.sizeCode),
      "preparationCode" := TextOrNull(o.preparationCode), "displayOrder" := NumOrNull(o.displayOrder),
      "active" := FlagOrNull(o.active), "available" := FlagOrNull(o.available),
      "isDefault" := FlagOrNull(o.isDefault)]
  }

  /** The option records of a list of options, in order. */
  function OptionRecords(options: seq<OptionAdminDto>): (r: seq<map<string, FormValue>>)
    ensures |r| == |options|
    ensures forall i :: 0 <= i < |r| ==> r[i] == OptionRecord(options[i])
  {
    seq(|options|, i requires 0 <= i < |options| => OptionRecord(options[i]))
  }

  /** The form fields. */
  const FormFields: set<string> := {"id", "nameEs", "nameEn", "descriptionEs", "descriptionEn", "basePrice",
                                    "available", "featured", "imageUrl", "categoryId", "options"}

  /** The text fields of the initial `formData`: a missing text becomes ''. */
  function InitialTexts(product: ProductAdminDto): (r: map<string, FormValue>)
    ensures r.Keys == {"nameEs", "nameEn", "descriptionEs", "descriptionEn", "imageUrl"}
    ensures r["nameEs"] == Text(if product.nameEs.Some? then product.nameEs.value else "")
    ensures r["nameEn"] == Text(if product.nameEn.Some? then product.nameEn.value else "")
    ensures r["descriptionEs"] == Text(if product.descriptionEs.Some? then product.descriptionEs.value else "")
    ensures r["descriptionEn"] == Text(if product.descriptionEn.Some? then product.descriptionEn.value else "")
    ensures r["imageUrl"] == Text(if product.imageUrl.Some? then product.imageUrl.value else "")
  {
    map[
      "nameEs" := Text(product.nameEs.GetOr("")),
      "nameEn" := Text(product.nameEn.GetOr("")),
      "descriptionEs" := Text(product.descriptionEs.GetOr("")),
      "descriptionEn" := Text(product.descriptionEn.GetOr("")),
      "imageUrl" := Text(product.imageUrl.GetOr(""))]
  }

  /** The other fields of the initial `formData`: `available` is true and `featured` false
      only when they are null (`??`), missing options become []. The product DTO has no
      `basePrice`, so `product.basePrice || 0` is always 0. */
  function InitialValues(product: ProductAdminDto): (r: map<string, FormValue>)
    ensures r.Keys == {"id", "basePrice", "available", "featured", "categoryId", "options"}
    ensures r["id"] == (if product.id.Some? then Num(product.id.value) else Null)
    ensures r["basePrice"] == Num(0)
    ensures r["available"] == Flag(product.available != Some(false))
    ensures r["featured"] == Flag(product.featured == Some(true))
    ensures r["categoryId"] == (if product.categoryId.Some? then Num(product.categoryId.value) else Null)
    ensures r["options"] == List(if product.options.Some? then OptionRecords(product.options.value) else [])
  {
    map[
      "id" := NumOrNull(product.id),
      "basePrice" := Num(0),
      "available" := Flag(product.available.GetOr(true)),
      "featured" := Flag(product.featured.GetOr(false)),
      "categoryId" := NumOrNull(product.categoryId),
      "options" := List(OptionRecords(product.options.GetOr([])))]
  }

  /** The initial `formData`: the product's fields, with the defaults above. */
  function InitialForm(product: ProductAdminDto): (r: map<string, FormValue>)
    ensures r.Keys == FormFields
    ensures r["id"] == (if product.id.Some? then Num(product.id.value) else Null)
    ensures r["nameEs"] == Text(if product.nameEs.Some? then product.nameEs.value else "")
    ensures r["nameEn"] == Text(if product.nameEn.Some? then product.nameEn.value else "")
    ensures r["descriptionEs"] == Text(if product.descriptionEs.Some? then product.descriptionEs.value else "")
    ensures r["descriptionEn"] == Text(if product.descriptionEn.Some? then product.descriptionEn.value else "")
    ensures r["basePrice"] == Num(0)
    ensures r["available"] == Flag(product.available != Some(false))
    ensures r["featured"] == Flag(product.featured == Some(true))
    ensures r["imageUrl"] == Text(if product.imageUrl.Some? then product.imageUrl.value else "")
    ensures r["categoryId"] == (if product.categoryId.Some? then Num(product.categoryId.value) else Null)
    ensures r["options"].List? && |r["options"].items| == (if product.options.Some? then |product.options.value| else 0)
    ensures forall i :: 0 <= i < |r["options"].items| ==> r["options"].items[i] == OptionRecord(product.options.value[i])
  {
    FieldGroups(product);
    InitialTexts(product) + InitialValues(product)
  }

  /** The text fields and the other fields split the form fields between them. */
  lemma FieldGroups(product: ProductAdminDto)
    ensures InitialTexts(product).Keys !! InitialValues(product).Keys
    ensures InitialTexts(product).Keys + InitialValues(product).Keys == FormFields
  {
  }

  // ---------------------------------------------------------------------------
  // parseInt

  /** The characters `parseInt` skips before the number: white space and line terminators. */
  predicate IsJsSpace(c: char) {
    c in {'\t', '\n', '\U{b}', '\U{c}', '\r', ' ', '\U{a0}', '\U{1680}', '\U{2028}', '\U{2029}',
          '\U{202f}', '\U{205f}', '\U{3000}', '\U{feff}'}
    || ('\U{2000}' <= c <= '\U{200a}')
  }

  predicate IsDigit(c: char) {
    '0' <= c <= '9'
  }

  function DropSpaces(s: string): (r: string)
    ensures |r| <= |s| && r == s[|s| - |r|..]
    ensures forall i :: 0 <= i < |s| - |r| ==> IsJsSpace(s[i])
    ensures |r| > 0 ==> !IsJsSpace(r[0])
  {
    if |s| > 0 && IsJsSpace(s[0]) then DropSpaces(s[1..]) else s
  }

  /** The longest prefix of decimal digits. */
  function LeadingDigits(s: string): (r: string)
    ensures |r| <= |s| && r == s[..|r|]
    ensures forall i :: 0 <= i < |r| ==> IsDigit(r[i])
    ensures |r| < |s| ==> !IsDigit(s[|r|])
  {
    if |s| > 0 && IsDigit(s[0]) then [s[0]] + LeadingDigits(s[1..]) else []
  }

  /** The value of a string of decimal digits. */
  function DigitsValue(d: string): nat
    requires forall i :: 0 <= i < |d| ==> IsDigit(d[i])
  {
    if |d| == 0 then 0
    else
      var last := d[|d| - 1];
      assert IsDigit(last);
      10 * DigitsValue(d[..|d| - 1]) + (last as int - '0' as int)
  }

  /** What follows an optional leading sign. */
  function Unsigned(t: string): (r: string)
    ensures r == t || (|t| > 0 && (t[0] == '-' || t[0] == '+') && r == t[1..])
  {
    if |t| > 0 && (t[0] == '-' || t[0] == '+') then t[1..] else t
  }

  /** `parseInt(s)` in base 10: blanks, an optional sign, then as many digits as there
      are; NaN (None) when there are none. A number input only ever holds a decimal
      number or '', so the '0x' prefix does not arise. */
  function ParseInt(s: string): (r: Option<int>)
    ensures var u := Unsigned(DropSpaces(s));
      r.None? <==> |u| == 0 || !IsDigit(u[0])
    ensures r.Some? ==>
      var t := DropSpaces(s);
      var d := LeadingDigits(Unsigned(t));
      && (r.value == DigitsValue(d) || r.value == -(DigitsValue(d) as int))
      && (r.value < 0 ==> t[0] == '-')
      && (t[0] == '-' ==> r.value <= 0)
  {
    var t := DropSpaces(s);
    var signed := |t| > 0 && (t[0] == '-' || t[0] == '+');
    var d := LeadingDigits(if signed then t[1..] else t);
    if |d| == 0 then None
    else if signed && t[0] == '-' then Some(-(DigitsValue(d) as int))
    else Some(DigitsValue(d))
  }

  /** `parseInt(value) || 0`, the price inputs' parse. */
  function ParsePrice(value: string): (r: int)
    ensures var u := Unsigned(DropSpaces(value));
      |u| == 0 || !IsDigit(u[0]) ==> r == 0
    ensures ParseInt(value).None? ==> r == 0
    ensures ParseInt(value).Some? ==> r == ParseInt(value).value
  {
    match ParseInt(value)
    case None => 0
    case Some(n) => n
  }

  /** The decimal digits of n. */
  function Decimal(n: nat): (r: string)
    ensures |r| > 0
    ensures forall i :: 0 <= i < |r| ==> IsDigit(r[i])
  {
    if n < 10 then [('0' as int + n) as char] else Decimal(n / 10) + [('0' as int + n % 10) as char]
  }

  lemma {:induction false} DecimalValue(n: nat)
    ensures DigitsValue(Decimal(n)) == n
  {
    if n >= 10 {
      var r := Decimal(n);
      assert r[..|r| - 1] == Decimal(n / 10);
      DecimalValue(n / 10);
    }
  }

  /** A prefix of digits followed by a non-digit is what `LeadingDigits` keeps. */
  lemma {:induction false} LeadingDigitsOf(d: string, rest: string)
    requires forall i :: 0 <= i < |d| ==> IsDigit(d[i])
    requires |rest| == 0 || !IsDigit(rest[0])
    ensures LeadingDigits(d + rest) == d
  {
    if |d| > 0 {
      assert (d + rest)[1..] == d[1..] + rest;
      LeadingDigitsOf(d[1..], rest);
    } else {
      assert d + rest == rest;
    }
  }

  /** A price typed as digits, with anything after them that does not start with a digit
      (a fraction, an exponent), parses to the whole number the digits spell. */
  lemma ParsePriceOfDigits(n: nat, rest: string)
    requires |rest| == 0 || !IsDigit(rest[0])
    ensures ParsePrice(Decimal(n) + rest) == n
  {
    var s := Decimal(n) + rest;
    assert s[0] == Decimal(n)[0] && IsDigit(s[0]);
    assert !IsJsSpace(s[0]);
    assert DropSpaces(s) == s;
    assert Unsigned(s) == s;
    LeadingDigitsOf(Decimal(n), rest);
    DecimalValue(n);
    assert ParseInt(s) == Some(n);
  }

  /** A field that does not start with a number parses as 0. */
  lemma ParsePriceOfText(value: string)
    requires var t := DropSpaces(value); |t| == 0 || (!IsDigit(t[0]) && t[0] != '-' && t[0] != '+')
    ensures ParsePrice(value) == 0
  {
  }

  /** An emptied field, or one holding only a sign, parses as 0. */
  lemma ParsePriceOfEmptyOrSign()
    ensures ParsePrice("") == 0
    ensures ParsePrice("-") == 0 && ParsePrice("+") == 0
  {
    assert Unsigned(DropSpaces("")) == "";
    assert !IsJsSpace('-') && !IsJsSpace('+');
    assert DropSpaces("-") == "-" && Unsigned("-") == "";
    assert DropSpaces("+") == "+" && Unsigned("+") == "";
  }

  /** A field without any digit parses as 0. */
  lemma ParsePriceWithoutDigits(value: string)
    requires forall i :: 0 <= i < |value| ==> !IsDigit(value[i])
    ensures ParsePrice(value) == 0
  {
    var t := DropSpaces(value);
    var u := Unsigned(t);
    if |u| > 0 {
      assert u[0] == value[|value| - |u|];
    }
  }

  // ---------------------------------------------------------------------------
  // The editor

  /** The position of the first option record whose id is `id`, or -1 (`findIndex`). */
  function FindOption(options: seq<map<string, FormValue>>, id: int): (i: int)
    ensures -1 <= i < |options|
    ensures i >= 0 ==> "id" in options[i] && options[i]["id"] == Num(id)
    ensures i >= 0 ==> forall j :: 0 <= j < i ==> !("id" in options[j] && options[j]["id"] == Num(id))
    ensures i == -1 ==> forall j :: 0 <= j < |options| ==> !("id" in options[j] && options[j]["id"] == Num(id))
    decreases |options|
  {
    if |options| == 0 then -1
    else if "id" in options[0] && options[0]["id"] == Num(id) then 0
    else
      var i := FindOption(options[1..], id);
      if i == -1 then -1 else i + 1
  }

  /** The options after `options[index] = {...options[index], [field]: value}` on a copy. An
      index of -1 (what `findIndex` gives for no match) sets a property that is not an
      element, so the elements stay as they were. */
  function WithOptionField(options: seq<map<string, FormValue>>, index: int, field: string, value: FormValue)
    : (r: seq<map<string, FormValue>>)
    requires -1 <= index < |options|
    ensures |r| == |options|
    ensures forall j :: 0 <= j < |options| && j != index ==> r[j] == options[j]
    ensures index >= 0 ==> r[index] == options[index][field := value]
  {
    if index == -1 then options else options[index := options[index][field := value]]
  }

  class Editor {
    var formData: map<string, FormValue>
    var loading: bool
    var error: string

    /** The form holds its option list. */
    predicate Valid()
      reads this
    {
      "options" in formData && formData["options"].List?
    }

    function Options(): seq<map<string, FormValue>>
      requires Valid()
      reads this
    {
      formData["options"].items
    }

    constructor (product: ProductAdminDto)
      ensures Valid() && formData == InitialForm(product) && !loading && error == ""
    {
      formData := InitialForm(product);
      loading := false;
      error := "";
    }

    /** `handleChange`: exactly one field takes the new value. */
    method HandleChange(field: string, value: FormValue)
      requires Valid() && (field == "options" ==> value.List?)
      modifies this
      ensures Valid()
      ensures formData == old(formData)[field := value]
      ensures loading == old(loading) && error == old(error)
    {
      formData := formData[field := value];
    }

    /** `handleOptionChange`: only `options[index]` changes, and only in `field`. */
    method HandleOptionChange(index: int, field: string, value: FormValue)
      requires Valid() && -1 <= index < |Options()|
      modifies this
      ensures Valid()
      ensures formData == old(formData)["options" := List(WithOptionField(old(Options()), index, field, value))]
      ensures |Options()| == |old(Options())|
      ensures forall j :: 0 <= j < |Options()| && j != index ==> Options()[j] == old(Options())[j]
      ensures loading == old(loading) && error == old(error)
    {
      var newOptions := WithOptionField(Options(), index, field, value);
      formData := formData["options" := List(newOptions)];
    }

    /** `handleQuickPriceUpdate`: once the server accepts the price, the first option with
        that id gets it; when the call throws, the error is set and the options are as
        they were. The `handleOptionChange` it calls copies the option list of the render
        that created them, `rendered`, into the current form, so edits made to the options
        during the call are overwritten while the other fields keep their current values. */
    method HandleQuickPriceUpdate(optionId: int, newPrice: int, serverAccepts: bool,
                                  rendered: map<string, FormValue>)
      requires Valid() && "options" in rendered && rendered["options"].List?
      modifies this
      ensures Valid() && loading == old(loading)
      ensures serverAccepts ==> error == old(error)
      ensures serverAccepts ==>
        var options := rendered["options"].items;
        formData == old(formData)["options" :=
          List(WithOptionField(options, FindOption(options, optionId), "price", Num(newPrice)))]
      ensures !serverAccepts ==> formData == old(formData) && error == "Error al actualizar precio"
    {
      if serverAccepts {
        var options := rendered["options"].items;
        formData := formData["options" :=
          List(WithOptionField(options, FindOption(options, optionId), "price", Num(newPrice)))];
      } else {
        error := "Error al actualizar precio";
      }
    }

    /** The start of `handleSubmit`. */
    method BeginSubmit()
      modifies this
      ensures loading && error == "" && formData == old(formData)
    {
      loading := true;
      error := "";
    }

    /** The end of `handleSubmit`: the saved product goes to `onSave` (returned here) only
        when the server answered with it; otherwise the error is set. */
    method FinishSubmit(response: Option<ProductAdminDto>) returns (onSave: Option<ProductAdminDto>)
      modifies this
      ensures !loading && formData == old(formData)
      ensures onSave == response
      ensures response.Some? ==> error == old(error)
      ensures response.None? ==> error == "Error al guardar los cambios"
    {
      onSave := response;
      if response.None? {
        error := "Error al guardar los cambios";
      }
      loading := false;
    }

    /** `handleSubmit` as a whole: always ends with `loading` false, with no error exactly
        when the product was saved. */
    method HandleSubmit(response: Option<ProductAdminDto>) returns (onSave: Option<ProductAdminDto>)
      modifies this
      ensures !loading && formData == old(formData) && onSave == response
      ensures error == (if response.Some? then "" else "Error al guardar los cambios")
    {
      BeginSubmit();
      onSave := FinishSubmit(response);
    }
  }
}
