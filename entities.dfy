/** The JPA entities of the menu: their column values, the language getters every
    entity shares, the discount rule of an option, the timestamp hooks and the
    list-growing helpers of a product. */
module Entities {
  import opened Wrappers
  import opened Text
  import Rounding

  /** A `LocalDateTime.now()` reading. */
  type Instant = int

  datatype TagType = PORTION | SHARING | VALUE | SPECIAL | DIETARY | PROMO
  datatype OptionType = SIZE | QUANTITY | PREPARATION | SERVING | COMBO

  /** `Enum.name()` of a tag type. */
  function TagTypeName(t: TagType): string {
    match t
    case PORTION => "PORTION"
    case SHARING => "SHARING"
    case VALUE => "VALUE"
    case SPECIAL => "SPECIAL"
    case DIETARY => "DIETARY"
    case PROMO => "PROMO"
  }

  /** `Enum.name()` of an option type. */
  function OptionTypeName(t: OptionType): string {
    match t
    case SIZE => "SIZE"
    case QUANTITY => "QUANTITY"
    case PREPARATION => "PREPARATION"
    case SERVING => "SERVING"
    case COMBO => "COMBO"
  }

  /** What the services throw. */
  datatype EntityKind = CategoryKind | ProductKind | OptionKind | TagKind
  datatype Exception =
    | CategoryCodeNotFound(code: string)          // RuntimeException of the public menu
    | ResourceNotFound(kind: EntityKind, id: int) // ResourceNotFoundException
    | DuplicateCode(kind: EntityKind, code: string) // IllegalArgumentException
    | DivisionByZero                              // ArithmeticException of BigDecimal.divide
    | NotNullViolation(column: string)            // a null written to a NOT NULL column

  /** The test behind every `*En`/`*Es` getter: `"en".equalsIgnoreCase(language)`. */
  predicate IsEnglish(language: Option<string>) {
    EqualsIgnoreCase("en", language)
  }

  /** Picks the English value exactly for the four spellings of "en"; any other
      language, null included, gets the Spanish value. */
  function Localized<T>(language: Option<string>, en: T, es: T): (r: T)
    ensures r == (if language in EnglishSpellings then en else es)
  {
    EqualsIgnoreCaseEn(language);
    if IsEnglish(language) then en else es
  }

  datatype CategoryRow = CategoryRow(
    code: string,
    nameEs: string,
    nameEn: string,
    descriptionEs: Option<string>,
    descriptionEn: Option<string>,
    iconUrl: Option<string>,
    imageUrl: Option<string>,
    displayOrder: int,
    active: bool,
    createdAt: Option<Instant>,
    updatedAt: Option<Instant>)
  {
    function Name(language: Option<string>): (r: string)
      ensures r == (if language in EnglishSpellings then nameEn else nameEs)
    {
      Localized(language, nameEn, nameEs)
    }

    function Description(language: Option<string>): (r: Option<string>)
      ensures r == (if language in EnglishSpellings then descriptionEn else descriptionEs)
    {
      Localized(language, descriptionEn, descriptionEs)
    }
  }

  datatype ProductRow = ProductRow(
    code: string,
    nameEs: string,
    nameEn: string,
    descriptionEs: Option<string>,
    descriptionEn: Option<string>,
    imageUrl: Option<string>,
    displayOrder: int,
    active: bool,
    available: bool,
    featured: bool,
    recommended: bool,
    catchOfDay: bool,
    spicyLevel: Option<int>,
    allergensEs: Option<string>,
    allergensEn: Option<string>,
    createdAt: Option<Instant>,
    updatedAt: Option<Instant>)
  {
    function Name(language: Option<string>): (r: string)
      ensures r == (if language in EnglishSpellings then nameEn else nameEs)
    {
      Localized(language, nameEn, nameEs)
    }

    function Description(language: Option<string>): (r: Option<string>)
      ensures r == (if language in EnglishSpellings then descriptionEn else descriptionEs)
    {
      Localized(language, descriptionEn, descriptionEs)
    }

    function Allergens(language: Option<string>): (r: Option<string>)
      ensures r == (if language in EnglishSpellings then allergensEn else allergensEs)
    {
      Localized(language, allergensEn, allergensEs)
    }
  }

  datatype TagDefRow = TagDefRow(
    code: string,
    textEs: string,
    textEn: string,
    iconName: Option<string>,
    backgroundColor: Option<string>,
    textColor: Option<string>,
    tagType: TagType,
    active: bool,
    displayOrder: Option<int>,
    createdAt: Option<Instant>,
    updatedAt: Option<Instant>)
  {
    function Text(language: Option<string>): (r: string)
      ensures r == (if language in EnglishSpellings then textEn else textEs)
    {
      Localized(language, textEn, textEs)
    }
  }

  /** Prices are whole CLP amounts. */
  datatype OptionRow = OptionRow(
    nameEs: string,
    nameEn: string,
    descriptionEs: Option<string>,
    descriptionEn: Option<string>,
    price: int,
    originalPrice: Option<int>,
    optionType: OptionType,
    servesPeople: Option<int>,
    sizeCode: Option<string>,
    preparationCode: Option<string>,
    displayOrder: int,
    active: bool,
    available: bool,
    isDefault: bool,
    createdAt: Option<Instant>,
    updatedAt: Option<Instant>)
  {
    function Name(language: Option<string>): (r: string)
      ensures r == (if language in EnglishSpellings then nameEn else nameEs)
    {
      Localized(language, nameEn, nameEs)
    }

    function Description(language: Option<string>): (r: Option<string>)
      ensures r == (if language in EnglishSpellings then descriptionEn else descriptionEs)
    {
      Localized(language, descriptionEn, descriptionEs)
    }

    /** An option is on discount when it carries an original price above its price. */
    predicate HasDiscount() {
      originalPrice.Some? && originalPrice.value > price
    }

    /** The discount in whole percent: (original - price) / original rounded HALF_UP to
        two decimals, times 100. Dividing by an original price of 0 throws. */
    function DiscountPercentage(): (r: Result<int, Exception>)
      ensures !HasDiscount() ==> r == Success(0)
      ensures r.Failure? <==> HasDiscount() && originalPrice.value == 0
      ensures r.Failure? ==> r.error == DivisionByZero
      ensures HasDiscount() && r.Success? ==>
        var o := originalPrice.value;
        2 * Rounding.Abs(100 * (o - price) - r.value * o) <= Rounding.Abs(o)
      ensures HasDiscount() && r.Success? ==>
        var o := originalPrice.value;
        2 * Rounding.Abs(100 * (o - price) - r.value * o) == Rounding.Abs(o) ==>
          Rounding.Abs(r.value * o) > Rounding.Abs(100 * (o - price))
    {
      if !HasDiscount() then Success(0)
      else if originalPrice.value == 0 then Failure(DivisionByZero)
      else
        var o := originalPrice.value;
        Success(Rounding.DivideHalfUp(100 * (o - price), o))
    }
  }

  /** With a non-negative price a discount lies between 0 and 100 percent, and a free
      option is a 100 percent discount. */
  lemma DiscountWithinPercentRange(o: OptionRow)
    requires o.price >= 0 && o.HasDiscount()
    ensures o.DiscountPercentage().Success?
    ensures 0 <= o.DiscountPercentage().value <= 100
    ensures o.price == 0 ==> o.DiscountPercentage().value == 100
  {
    var orig := o.originalPrice.value;
    var n := 100 * (orig - o.price);
    Rounding.HalfUpAgreesWithMathRound(n, orig);
    var r := Rounding.MathRound(n, orig);
    assert r == o.DiscountPercentage().value;
    Rounding.MulLe(r, -1, orig);
    Rounding.SuccMul(100, orig);
    Rounding.MulLe(101, r, orig);
    if o.price == 0 {
      Rounding.MathRoundUnique(n, orig, 100);
    }
  }

  class Category {
    var id: Option<int>
    var row: CategoryRow

    constructor (row: CategoryRow)
      ensures this.row == row && id == None
    {
      this.row := row;
      id := None;
    }

    /** `@PrePersist`: two clock readings, the first for `createdAt`, the second for `updatedAt`. */
    method OnCreate(first: Instant, second: Instant)
      modifies this
      ensures row == old(row).(createdAt := Some(first), updatedAt := Some(second))
      ensures id == old(id)
    {
      row := row.(createdAt := Some(first), updatedAt := Some(second));
    }

    /** `@PreUpdate`: only `updatedAt` changes. */
    method OnUpdate(now: Instant)
      modifies this
      ensures row == old(row).(updatedAt := Some(now))
      ensures id == old(id)
    {
      row := row.(updatedAt := Some(now));
    }
  }

  class TagDefinition {
    var id: Option<int>
    var row: TagDefRow

    constructor (row: TagDefRow)
      ensures this.row == row && id == None
    {
      this.row := row;
      id := None;
    }

    method OnCreate(first: Instant, second: Instant)
      modifies this
      ensures row == old(row).(createdAt := Some(first), updatedAt := Some(second))
      ensures id == old(id)
    {
      row := row.(createdAt := Some(first), updatedAt := Some(second));
    }

    method OnUpdate(now: Instant)
      modifies this
      ensures row == old(row).(updatedAt := Some(now))
      ensures id == old(id)
    {
      row := row.(updatedAt := Some(now));
    }
  }

  class ProductOption {
    var id: Option<int>
    var row: OptionRow
    var product: Product?

    constructor (row: OptionRow)
      ensures this.row == row && id == None && product == null
    {
      this.row := row;
      id := None;
      product := null;
    }

    method OnCreate(first: Instant, second: Instant)
      modifies this
      ensures row == old(row).(createdAt := Some(first), updatedAt := Some(second))
      ensures id == old(id) && product == old(product)
    {
      row := row.(createdAt := Some(first), updatedAt := Some(second));
    }

    method OnUpdate(now: Instant)
      modifies this
      ensures row == old(row).(updatedAt := Some(now))
      ensures id == old(id) && product == old(product)
    {
      row := row.(updatedAt := Some(now));
    }
  }

  class ProductTag {
    var id: Option<int>
    var product: Product?
    var tagDefinition: TagDefinition
    var displayOrder: Option<int>

    constructor (tagDefinition: TagDefinition, displayOrder: Option<int>)
      ensures this.tagDefinition == tagDefinition && this.displayOrder == displayOrder
      ensures id == None && product == null
    {
      this.tagDefinition := tagDefinition;
      this.displayOrder := displayOrder;
      id := None;
      product := null;
    }
  }

  class Product {
    var id: Option<int>
    var row: ProductRow
    var category: Category?
    var options: seq<ProductOption>
    var tags: seq<ProductTag>

    constructor (row: ProductRow, category: Category?)
      ensures this.row == row && this.category == category
      ensures id == None && options == [] && tags == []
    {
      this.row := row;
      this.category := category;
      id := None;
      options := [];
      tags := [];
    }

    method OnCreate(first: Instant, second: Instant)
      modifies this
      ensures row == old(row).(createdAt := Some(first), updatedAt := Some(second))
      ensures id == old(id) && category == old(category)
      ensures options == old(options) && tags == old(tags)
    {
      row := row.(createdAt := Some(first), updatedAt := Some(second));
    }

    method OnUpdate(now: Instant)
      modifies this
      ensures row == old(row).(updatedAt := Some(now))
      ensures id == old(id) && category == old(category)
      ensures options == old(options) && tags == old(tags)
    {
      row := row.(updatedAt := Some(now));
    }

    /** Appends the option and points it back at this product. */
    method AddOption(option: ProductOption)
      modifies this, option
      ensures options == old(options) + [option]
      ensures option.product == this
      ensures option.row == old(option.row) && option.id == old(option.id)
      ensures row == old(row) && id == old(id) && category == old(category) && tags == old(tags)
    {
      options := options + [option];
      option.product := this;
    }

    /** Appends the tag and points it back at this product. */
    method AddTag(tag: ProductTag)
      modifies this, tag
      ensures tags == old(tags) + [tag]
      ensures tag.product == this
      ensures tag.tagDefinition == old(tag.tagDefinition) && tag.displayOrder == old(tag.displayOrder)
      ensures tag.id == old(tag.id)
      ensures row == old(row) && id == old(id) && category == old(category) && options == old(options)
    {
      tags := tags + [tag];
      tag.product := this;
    }
  }
}
