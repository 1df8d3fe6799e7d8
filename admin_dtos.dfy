/** The request bodies of the admin endpoints: their fields, the field initialisers a
    request that leaves a field out keeps, and their Jakarta constraints as predicates. */
module AdminDtos {
  import opened Wrappers
  import opened Text
  import opened Entities

  /** How a JSON body sets one field of a DTO. */
  datatype JsonField<T> = Absent | JsonNull | Given(value: T)

  /** The body is read into an object made by the no-argument constructor, so a field
      the body leaves out keeps its initialiser and an explicit null clears it. */
  function Received<T>(f: JsonField<T>, initialiser: Option<T>): (r: Option<T>)
    ensures r.None? <==> f.JsonNull? || (f.Absent? && initialiser.None?)
    ensures f.Given? ==> r == Some(f.value)
  {
    match f
    case Absent => initialiser
    case JsonNull => None
    case Given(v) => Some(v)
  }

  /** The service's `flag != null ? flag : fallback`. */
  function FlagOr(flag: Option<bool>, fallback: bool): (r: bool)
    ensures flag.Some? ==> r == flag.value
    ensures flag.None? ==> r == fallback
  {
    if flag.Some? then flag.value else fallback
  }

  /** A flag the body leaves out or sends as null ends up as the service's fallback;
      otherwise it is the sent value. Holds whatever the field initialiser is, as long as
      initialiser and fallback agree, which they do for every flag of the admin DTOs. */
  lemma FlagFromBody(f: JsonField<bool>, initialiser: bool)
    ensures FlagOr(Received(f, Some(initialiser)), initialiser) == (if f.Given? then f.value else initialiser)
  {
  }

  // ---------------------------------------------------------------------------
  // CategoryAdminDTO

  datatype CategoryAdminDto = CategoryAdminDto(
    id: Option<int>,
    code: Option<string>,
    nameEs: Option<string>,
    nameEn: Option<string>,
    descriptionEs: Option<string>,
    descriptionEn: Option<string>,
    iconUrl: Option<string>,
    imageUrl: Option<string>,
    displayOrder: Option<int>,
    active: Option<bool>)

  /** The object the no-argument constructor makes: only `active` has an initialiser. */
  const NewCategoryAdminDto := CategoryAdminDto(None, None, None, None, None, None, None, None, None, Some(true))

  predicate ValidCategoryAdminDto(d: CategoryAdminDto) {
    && NotBlank(d.code) && SizeAtMost(d.code, 50)
    && NotBlank(d.nameEs) && SizeAtMost(d.nameEs, 100)
    && NotBlank(d.nameEn) && SizeAtMost(d.nameEn, 100)
    && SizeAtMost(d.descriptionEs, 500) && SizeAtMost(d.descriptionEn, 500)
    && d.displayOrder.Some? && d.displayOrder.value >= 0
  }

  /** A valid category request carries a code of 1 to 50 characters with a visible one
      among them, and a display order of at least 0; `active` is not constrained. */
  lemma ValidCategoryAdminDtoFields(d: CategoryAdminDto)
    requires ValidCategoryAdminDto(d)
    ensures d.code.Some? && 1 <= |d.code.value| <= 50
    ensures exists i :: 0 <= i < |d.code.value| && d.code.value[i] > ' '
    ensures d.nameEs.Some? && |d.nameEs.value| <= 100 && d.nameEn.Some? && |d.nameEn.value| <= 100
    ensures d.displayOrder.Some? && d.displayOrder.value >= 0
    ensures forall a :: ValidCategoryAdminDto(d.(active := a))
  {
    NotBlankIffVisible(d.code.value);
  }

  // ---------------------------------------------------------------------------
  // ProductOptionAdminDTO

  datatype OptionAdminDto = OptionAdminDto(
    id: Option<int>,
    nameEs: Option<string>,
    nameEn: Option<string>,
    descriptionEs: Option<string>,
    descriptionEn: Option<string>,
    price: Option<int>,
    originalPrice: Option<int>,
    optionType: Option<OptionType>,
    servesPeople: Option<int>,
    sizeCode: Option<string>,
    preparationCode: Option<string>,
    displayOrder: Option<int>,
    active: Option<bool>,
    available: Option<bool>,
    isDefault: Option<bool>)

  const NewOptionAdminDto := OptionAdminDto(None, None, None, None, None, None, None, None, None, None, None, None,
                                            Some(true), Some(true), Some(false))

  predicate ValidOptionAdminDto(d: OptionAdminDto) {
    && NotBlank(d.nameEs) && SizeAtMost(d.nameEs, 100)
    && NotBlank(d.nameEn) && SizeAtMost(d.nameEn, 100)
    && d.price.Some? && d.price.value > 0
    && d.optionType.Some?
    && d.displayOrder.Some? && d.displayOrder.value >= 0
  }

  /** The price must be strictly positive, but the original price and the number of
      people served are free: an original price below the price is accepted. */
  lemma ValidOptionAdminDtoFields(d: OptionAdminDto)
    requires ValidOptionAdminDto(d)
    ensures d.price.Some? && d.price.value >= 1
    ensures !ValidOptionAdminDto(d.(price := Some(0)))
    ensures forall o, s :: ValidOptionAdminDto(d.(originalPrice := o, servesPeople := s))
    ensures ValidOptionAdminDto(d.(originalPrice := Some(d.price.value - 1)))
  {
  }

  // ---------------------------------------------------------------------------
  // ProductAdminDTO

  datatype ProductAdminDto = ProductAdminDto(
    id: Option<int>,
    code: Option<string>,
    nameEs: Option<string>,
    nameEn: Option<string>,
    descriptionEs: Option<string>,
    descriptionEn: Option<string>,
    imageUrl: Option<string>,
    categoryId: Option<int>,
    displayOrder: Option<int>,
    active: Option<bool>,
    available: Option<bool>,
    featured: Option<bool>,
    recommended: Option<bool>,
    catchOfDay: Option<bool>,
    spicyLevel: Option<int>,
    allergensEs: Option<string>,
    allergensEn: Option<string>,
    options: Option<seq<OptionAdminDto>>,
    tagIds: Option<seq<int>>)

  const NewProductAdminDto := ProductAdminDto(None, None, None, None, None, None, None, None, None,
                                              Some(true), Some(true), Some(false), Some(false), Some(false),
                                              None, None, None, None, None)

  /** The product constraints. The `options` list carries no cascading annotation, so the
      options' own constraints take no part. */
  predicate ValidProductAdminDto(d: ProductAdminDto) {
    && NotBlank(d.code) && SizeAtMost(d.code, 50)
    && NotBlank(d.nameEs) && SizeAtMost(d.nameEs, 150)
    && NotBlank(d.nameEn) && SizeAtMost(d.nameEn, 150)
    && SizeAtMost(d.descriptionEs, 500) && SizeAtMost(d.descriptionEn, 500)
    && d.categoryId.Some?
    && d.displayOrder.Some? && d.displayOrder.value >= 0
    && (d.spicyLevel.None? || 0 <= d.spicyLevel.value <= 3)
  }

  /** Validity never looks at the options, and a missing spicy level is accepted. */
  lemma ValidProductAdminDtoFields(d: ProductAdminDto)
    requires ValidProductAdminDto(d)
    ensures d.code.Some? && 1 <= |d.code.value| <= 50
    ensures d.nameEs.Some? && |d.nameEs.value| <= 150 && d.nameEn.Some? && |d.nameEn.value| <= 150
    ensures d.categoryId.Some? && d.displayOrder.Some? && d.displayOrder.value >= 0
    ensures d.spicyLevel.Some? ==> 0 <= d.spicyLevel.value <= 3
    ensures ValidProductAdminDto(d.(spicyLevel := None))
    ensures forall os :: ValidProductAdminDto(d.(options := os))
  {
    NotBlankIffVisible(d.code.value);
  }

  // ---------------------------------------------------------------------------
  // QuickPriceUpdateDTO

  datatype QuickPriceUpdateDto = QuickPriceUpdateDto(
    optionId: Option<int>,
    newPrice: Option<int>,
    originalPrice: Option<int>)

  predicate ValidQuickPriceUpdate(u: QuickPriceUpdateDto) {
    u.optionId.Some? && u.newPrice.Some? && u.newPrice.value > 0
  }

  /** The minimum is exclusive, so a new price of 0 is refused; the original price is
      free, absent or not. */
  lemma ValidQuickPriceUpdateFields(u: QuickPriceUpdateDto)
    ensures !ValidQuickPriceUpdate(u.(newPrice := Some(0)))
    ensures ValidQuickPriceUpdate(u) <==> u.optionId.Some? && u.newPrice.Some? && u.newPrice.value >= 1
    ensures forall o :: ValidQuickPriceUpdate(u.(originalPrice := o)) == ValidQuickPriceUpdate(u)
  {
  }
}
