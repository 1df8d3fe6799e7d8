/** The public menu projection: from the stored categories, products, options and tags
    to the DTOs the public endpoints return. Nothing here changes state. */
module MenuService {
  import opened Wrappers
  import opened Entities
  import opened Seqs
  import Text

  // ---------------------------------------------------------------------------
  // The entity graph as the repositories load it

  datatype OptionNode = OptionNode(id: int, row: OptionRow)
  datatype TagNode = TagNode(id: int, row: TagDefRow)
  /** A `ProductTag`: the link's own display order and its tag definition. */
  datatype ProductTagNode = ProductTagNode(displayOrder: Option<int>, definition: TagNode)
  /** A product with its category and its `options` and `tags` collections, in load order. */
  datatype ProductNode = ProductNode(
    id: int,
    row: ProductRow,
    category: CategoryRow,
    options: seq<OptionNode>,
    tags: seq<ProductTagNode>)
  /** A category with its `products` collection, in load order. */
  datatype CategoryNode = CategoryNode(id: int, row: CategoryRow, products: seq<ProductNode>)

  /** Every stored category and every stored product, in storage order. */
  datatype MenuStore = MenuStore(categories: seq<CategoryNode>, products: seq<ProductNode>)

  /** `app.restaurant.name` and `app.restaurant.slogan`. */
  datatype Settings = Settings(restaurantName: string, slogan: string)
  const DefaultSettings := Settings("El Macho", "Productos del Mar")

  // ---------------------------------------------------------------------------
  // DTOs

  datatype OptionDto = OptionDto(
    id: int,
    name: string,
    description: Option<string>,
    price: int,
    originalPrice: Option<int>,
    hasDiscount: bool,
    discountPercentage: int,
    optionType: string,
    servesPeople: Option<int>,
    sizeCode: Option<string>,
    preparationCode: Option<string>,
    displayOrder: int,
    isDefault: bool,
    available: bool)

  datatype TagDto = TagDto(
    id: int,
    code: string,
    text: string,
    iconName: Option<string>,
    backgroundColor: Option<string>,
    textColor: Option<string>,
    tagType: string)

  datatype ProductDto = ProductDto(
    id: int,
    code: string,
    name: string,
    description: Option<string>,
    imageUrl: Option<string>,
    categoryCode: string,
    categoryName: string,
    displayOrder: int,
    featured: bool,
    recommended: bool,
    catchOfDay: bool,
    spicyLevel: Option<int>,
    allergens: Option<string>,
    priceFrom: Option<int>,
    options: seq<OptionDto>,
    tags: seq<TagDto>)

  datatype CategoryDto = CategoryDto(
    id: int,
    code: string,
    name: string,
    description: Option<string>,
    iconUrl: Option<string>,
    imageUrl: Option<string>,
    displayOrder: int,
    products: Option<seq<ProductDto>>,
    productCount: int)

  datatype MenuResponse = MenuResponse(
    restaurantName: string,
    slogan: string,
    language: Option<string>,
    categories: seq<CategoryDto>,
    featuredProducts: seq<ProductDto>,
    catchOfDay: seq<ProductDto>)

  // ---------------------------------------------------------------------------
  // Filters and sort keys

  predicate OptionVisible(o: OptionNode) { o.row.active && o.row.available }
  function OptionOrder(o: OptionNode): int { o.row.displayOrder }
  function OptionPrice(o: OptionNode): int { o.row.price }

  predicate ProductVisible(p: ProductNode) { p.row.active && p.row.available }
  function ProductOrder(p: ProductNode): int { p.row.displayOrder }
  predicate FeaturedVisible(p: ProductNode) { p.row.featured && p.row.active && p.row.available }
  predicate CatchOfDayVisible(p: ProductNode) { p.row.catchOfDay && p.row.active && p.row.available }

  predicate TagActive(t: ProductTagNode) { t.definition.row.active }
  /** A tag link without a display order sorts as 0. */
  function TagOrder(t: ProductTagNode): int { t.displayOrder.GetOr(0) }

  predicate CategoryActive(c: CategoryNode) { c.row.active }
  function CategoryOrder(c: CategoryNode): int { c.row.displayOrder }

  // ---------------------------------------------------------------------------
  // Repository queries

  /** `findByActiveTrueOrderByDisplayOrderAsc`; ties keep storage order. */
  function ActiveCategories(store: MenuStore): seq<CategoryNode> {
    SortBy(Filter(store.categories, CategoryActive), CategoryOrder)
  }

  /** `findFeaturedWithOptions`: no ORDER BY, so storage order. */
  function FeaturedProducts(store: MenuStore): seq<ProductNode> {
    Filter(store.products, FeaturedVisible)
  }

  /** `findCatchOfDayWithOptions`: no ORDER BY, so storage order. */
  function CatchOfDayProducts(store: MenuStore): seq<ProductNode> {
    Filter(store.products, CatchOfDayVisible)
  }

  /** `findByCode` on the unique `code` column. */
  function FindCategoryByCode(categories: seq<CategoryNode>, code: string): (r: Option<CategoryNode>)
    ensures r.None? <==> forall i :: 0 <= i < |categories| ==> categories[i].row.code != code
    ensures r.Some? ==> r.value in categories && r.value.row.code == code
  {
    if |categories| == 0 then None
    else if categories[0].row.code == code then Some(categories[0])
    else FindCategoryByCode(categories[1..], code)
  }

  // ---------------------------------------------------------------------------
  // Pipelines of the mappers

  /** The options a product shows: active and available, by `displayOrder`. */
  function VisibleOptions(p: ProductNode): seq<OptionNode> {
    SortBy(Filter(p.options, OptionVisible), OptionOrder)
  }

  /** The tags a product shows: active definitions, by link `displayOrder` (null as 0). */
  function ActiveTags(p: ProductNode): seq<ProductTagNode> {
    SortBy(Filter(p.tags, TagActive), TagOrder)
  }

  /** The products a category shows: active and available, by `displayOrder`. */
  function VisibleProducts(c: CategoryNode): seq<ProductNode> {
    SortBy(Filter(c.products, ProductVisible), ProductOrder)
  }

  /** The least option price, or null without options. */
  function PriceFrom(options: seq<OptionNode>): (r: Option<int>)
    ensures r.None? <==> |options| == 0
    ensures r.Some? ==> forall i :: 0 <= i < |options| ==> r.value <= options[i].row.price
    ensures r.Some? ==> exists i :: 0 <= i < |options| && r.value == options[i].row.price
  {
    MinBy(options, OptionPrice)
  }

  // ---------------------------------------------------------------------------
  // Mappers

  function MapOptionToDto(o: OptionNode, language: Option<string>): (r: Result<OptionDto, Exception>)
    ensures r.Failure? ==> r.error == DivisionByZero
  {
    var percentage :- o.row.DiscountPercentage();
    Success(OptionDto(
      o.id, o.row.Name(language), o.row.Description(language), o.row.price, o.row.originalPrice,
      o.row.HasDiscount(), percentage, OptionTypeName(o.row.optionType), o.row.servesPeople,
      o.row.sizeCode, o.row.preparationCode, o.row.displayOrder, o.row.isDefault, o.row.available))
  }

  function MapTagToDto(t: TagNode, language: Option<string>): TagDto {
    TagDto(t.id, t.row.code, t.row.Text(language), t.row.iconName, t.row.backgroundColor,
           t.row.textColor, TagTypeName(t.row.tagType))
  }

  /** Maps every option in order; the first option whose discount throws aborts the list. */
  function MapOptions(os: seq<OptionNode>, language: Option<string>): (r: Result<seq<OptionDto>, Exception>)
    ensures r.Success? <==> forall i :: 0 <= i < |os| ==> MapOptionToDto(os[i], language).Success?
    ensures r.Success? ==> |r.value| == |os|
    ensures r.Success? ==> forall i :: 0 <= i < |os| ==> r.value[i] == MapOptionToDto(os[i], language).value
    ensures r.Failure? ==> r.error == DivisionByZero
  {
    var r := MapAll(os, o => MapOptionToDto(o, language));
    if r.Success? then r
    else
      var i :| 0 <= i < |os| && MapOptionToDto(os[i], language).Failure? && MapOptionToDto(os[i], language).error == r.error;
      r
  }

  function MapTags(ts: seq<ProductTagNode>, language: Option<string>): (r: seq<TagDto>)
    ensures |r| == |ts|
    ensures forall i :: 0 <= i < |ts| ==> r[i] == MapTagToDto(ts[i].definition, language)
  {
    seq(|ts|, i requires 0 <= i < |ts| => MapTagToDto(ts[i].definition, language))
  }

  function MapProductToDto(p: ProductNode, language: Option<string>): (r: Result<ProductDto, Exception>)
    ensures r.Failure? ==> r.error == DivisionByZero
    ensures r.Success? ==> r.value.id == p.id && r.value.displayOrder == p.row.displayOrder
  {
    var options := VisibleOptions(p);
    var optionDtos :- MapOptions(options, language);
    Success(ProductDto(
      p.id, p.row.code, p.row.Name(language), p.row.Description(language), p.row.imageUrl,
      p.category.code, p.category.Name(language), p.row.displayOrder, p.row.featured,
      p.row.recommended, p.row.catchOfDay, p.row.spicyLevel, p.row.Allergens(language),
      PriceFrom(options), optionDtos, MapTags(ActiveTags(p), language)))
  }

  /** Maps every product in order; the first failure aborts the list. */
  function MapProducts(ps: seq<ProductNode>, language: Option<string>): (r: Result<seq<ProductDto>, Exception>)
    ensures r.Success? <==> forall i :: 0 <= i < |ps| ==> MapProductToDto(ps[i], language).Success?
    ensures r.Success? ==> |r.value| == |ps|
    ensures r.Success? ==> forall i :: 0 <= i < |ps| ==> r.value[i] == MapProductToDto(ps[i], language).value
    ensures r.Failure? ==> r.error == DivisionByZero
  {
    var r := MapAll(ps, p => MapProductToDto(p, language));
    if r.Success? then r
    else
      var i :| 0 <= i < |ps| && MapProductToDto(ps[i], language).Failure? && MapProductToDto(ps[i], language).error == r.error;
      r
  }

  function MapCategoryToDto(c: CategoryNode, language: Option<string>, includeProducts: bool): (r: Result<CategoryDto, Exception>)
    ensures !includeProducts ==> r.Success? && r.value.products.None? && r.value.productCount == 0
    ensures includeProducts && r.Success? ==>
      r.value.products.Some? && r.value.productCount == |r.value.products.value|
    ensures r.Failure? ==> r.error == DivisionByZero
  {
    if includeProducts then
      var products :- MapProducts(VisibleProducts(c), language);
      Success(CategoryDto(c.id, c.row.code, c.row.Name(language), c.row.Description(language),
                          c.row.iconUrl, c.row.imageUrl, c.row.displayOrder, Some(products), |products|))
    else
      Success(CategoryDto(c.id, c.row.code, c.row.Name(language), c.row.Description(language),
                          c.row.iconUrl, c.row.imageUrl, c.row.displayOrder, None, 0))
  }

  /** Maps every category with its products, in order; the first failure aborts the list. */
  function MapCategories(cs: seq<CategoryNode>, language: Option<string>): (r: Result<seq<CategoryDto>, Exception>)
    ensures r.Success? <==> forall i :: 0 <= i < |cs| ==> MapCategoryToDto(cs[i], language, true).Success?
    ensures r.Success? ==> |r.value| == |cs|
    ensures r.Success? ==> forall i :: 0 <= i < |cs| ==> r.value[i] == MapCategoryToDto(cs[i], language, true).value
    ensures r.Failure? ==> r.error == DivisionByZero
  {
    var r := MapAll(cs, c => MapCategoryToDto(c, language, true));
    if r.Success? then r
    else
      var i :| 0 <= i < |cs| && MapCategoryToDto(cs[i], language, true).Failure? && MapCategoryToDto(cs[i], language, true).error == r.error;
      r
  }

  // ---------------------------------------------------------------------------
  // Service operations

  function GetFullMenu(store: MenuStore, settings: Settings, language: Option<string>): (r: Result<MenuResponse, Exception>)
    ensures r.Success? ==> r.value.language == language
    ensures r.Success? ==> r.value.restaurantName == settings.restaurantName && r.value.slogan == settings.slogan
    ensures r.Success? ==> |r.value.categories| == |ActiveCategories(store)|
    ensures r.Failure? ==> r.error == DivisionByZero
  {
    var categories := MapCategories(ActiveCategories(store), language);
    var featured := MapProducts(FeaturedProducts(store), language);
    var catchOfDay := MapProducts(CatchOfDayProducts(store), language);
    if categories.Failure? then Failure(categories.error)
    else if featured.Failure? then Failure(featured.error)
    else if catchOfDay.Failure? then Failure(catchOfDay.error)
    else Success(MenuResponse(settings.restaurantName, settings.slogan, language,
                              categories.value, featured.value, catchOfDay.value))
  }

  /** One category by code, with its products; the `active` flag is not consulted. */
  function GetProductsByCategory(store: MenuStore, code: string, language: Option<string>): (r: Result<CategoryDto, Exception>)
    ensures (forall i :: 0 <= i < |store.categories| ==> store.categories[i].row.code != code)
              <==> r == Failure(CategoryCodeNotFound(code))
    ensures r.Success? ==> r.value.code == code && r.value.products.Some?
  {
    match FindCategoryByCode(store.categories, code)
    case None => Failure(CategoryCodeNotFound(code))
    case Some(c) => MapCategoryToDto(c, language, true)
  }

  /** `findAllAvailableWithOptionsAndTags`: every active and available product, by display
      order; ties keep storage order. */
  function AvailableProducts(store: MenuStore): seq<ProductNode> {
    SortBy(Filter(store.products, ProductVisible), ProductOrder)
  }

  /** Every active and available product of the menu, whatever its category. */
  function GetAvailableProducts(store: MenuStore, language: Option<string>): (r: Result<seq<ProductDto>, Exception>)
    ensures r.Success? ==> |r.value| == |AvailableProducts(store)|
    ensures r.Success? ==> forall i :: 0 <= i < |r.value| ==>
      r.value[i].id == AvailableProducts(store)[i].id &&
      r.value[i].displayOrder == AvailableProducts(store)[i].row.displayOrder
    ensures r.Failure? ==> r.error == DivisionByZero
  {
    MapProducts(AvailableProducts(store), language)
  }

  /** The available-products endpoint lists one DTO per active and available product, each
      traceable to such a stored product, ascending by display order. */
  lemma AvailableProductsListing(store: MenuStore, language: Option<string>)
    requires GetAvailableProducts(store, language).Success?
    ensures var ds := GetAvailableProducts(store, language).value;
      && |ds| == |Filter(store.products, ProductVisible)|
      && (forall i :: 0 <= i < |ds| ==>
            exists p :: p in store.products && p.row.active && p.row.available && p.id == ds[i].id)
      && (forall i, j :: 0 <= i < j < |ds| ==> ds[i].displayOrder <= ds[j].displayOrder)
  {
    var vs := AvailableProducts(store);
    var ds := GetAvailableProducts(store, language).value;
    SelectSorted(store.products, ProductVisible, ProductOrder);
    assert SortedBy(vs, ProductOrder);
    forall i | 0 <= i < |ds|
      ensures exists p :: p in store.products && p.row.active && p.row.available && p.id == ds[i].id
    {
      assert vs[i] in store.products && ProductVisible(vs[i]);
    }
  }

  /** The featured products on their own. */
  function GetFeaturedProducts(store: MenuStore, language: Option<string>): (r: Result<seq<ProductDto>, Exception>)
    ensures r.Success? ==> |r.value| == |Filter(store.products, FeaturedVisible)|
    ensures r.Success? ==> forall d :: d in r.value ==> d.featured
    ensures r.Failure? ==> r.error == DivisionByZero
  {
    var fs := FeaturedProducts(store);
    var r := MapProducts(fs, language);
    if r.Success? then
      assert forall d :: d in r.value ==> d.featured by {
        forall d | d in r.value
          ensures d.featured
        {
          var i :| 0 <= i < |r.value| && r.value[i] == d;
          ProductDtoParts(fs[i], language);
        }
      }
      r
    else r
  }

  /** The catch of the day on its own. */
  function GetCatchOfDay(store: MenuStore, language: Option<string>): (r: Result<seq<ProductDto>, Exception>)
    ensures r.Success? ==> |r.value| == |Filter(store.products, CatchOfDayVisible)|
    ensures r.Success? ==> forall d :: d in r.value ==> d.catchOfDay
    ensures r.Failure? ==> r.error == DivisionByZero
  {
    var ks := CatchOfDayProducts(store);
    var r := MapProducts(ks, language);
    if r.Success? then
      assert forall d :: d in r.value ==> d.catchOfDay by {
        forall d | d in r.value
          ensures d.catchOfDay
        {
          var i :| 0 <= i < |r.value| && r.value[i] == d;
          ProductDtoParts(ks[i], language);
        }
      }
      r
    else r
  }

  // ---------------------------------------------------------------------------
  // Properties

  /** Whenever the full menu can be built, the featured and catch-of-the-day endpoints
      return the very lists the menu carries. */
  lemma HighlightEndpointsMatchMenu(store: MenuStore, settings: Settings, language: Option<string>)
    requires GetFullMenu(store, settings, language).Success?
    ensures GetFeaturedProducts(store, language).Success?
    ensures GetFeaturedProducts(store, language).value == GetFullMenu(store, settings, language).value.featuredProducts
    ensures GetCatchOfDay(store, language).Success?
    ensures GetCatchOfDay(store, language).value == GetFullMenu(store, settings, language).value.catchOfDay
  {
    FullMenuParts(store, settings, language);
  }


  /** An option is listed exactly when it is one of the product's active and available
      options; the list ascends by display order and ties keep load order. */
  lemma VisibleOptionsSelection(p: ProductNode)
    ensures forall o :: o in VisibleOptions(p) <==> o in p.options && o.row.active && o.row.available
    ensures forall i, j :: 0 <= i < j < |VisibleOptions(p)| ==>
      VisibleOptions(p)[i].row.displayOrder <= VisibleOptions(p)[j].row.displayOrder
    ensures forall k :: WithKey(VisibleOptions(p), OptionOrder, k) == WithKey(Filter(p.options, OptionVisible), OptionOrder, k)
  {
    SelectSorted(p.options, OptionVisible, OptionOrder);
  }

  /** A tag is listed exactly when its definition is active; the list ascends by the link's
      display order (a missing one counting as 0) and ties keep load order. */
  lemma ActiveTagsSelection(p: ProductNode)
    ensures forall t :: t in ActiveTags(p) <==> t in p.tags && t.definition.row.active
    ensures forall i, j :: 0 <= i < j < |ActiveTags(p)| ==>
      ActiveTags(p)[i].displayOrder.GetOr(0) <= ActiveTags(p)[j].displayOrder.GetOr(0)
    ensures forall k :: WithKey(ActiveTags(p), TagOrder, k) == WithKey(Filter(p.tags, TagActive), TagOrder, k)
  {
    SelectSorted(p.tags, TagActive, TagOrder);
  }

  /** A product is listed under its category exactly when it is active and available; the
      list ascends by display order and ties keep load order. */
  lemma VisibleProductsSelection(c: CategoryNode)
    ensures forall p :: p in VisibleProducts(c) <==> p in c.products && p.row.active && p.row.available
    ensures forall i, j :: 0 <= i < j < |VisibleProducts(c)| ==>
      VisibleProducts(c)[i].row.displayOrder <= VisibleProducts(c)[j].row.displayOrder
    ensures forall k :: WithKey(VisibleProducts(c), ProductOrder, k) == WithKey(Filter(c.products, ProductVisible), ProductOrder, k)
  {
    SelectSorted(c.products, ProductVisible, ProductOrder);
  }

  /** The menu's categories are exactly the active ones, ascending by display order. */
  lemma ActiveCategoriesSelection(store: MenuStore)
    ensures forall c :: c in ActiveCategories(store) <==> c in store.categories && c.row.active
    ensures forall i, j :: 0 <= i < j < |ActiveCategories(store)| ==>
      ActiveCategories(store)[i].row.displayOrder <= ActiveCategories(store)[j].row.displayOrder
  {
    SelectSorted(store.categories, CategoryActive, CategoryOrder);
  }

  /** An option DTO carries the entity's discount: the flag means an original price above
      the price, no discount is 0 percent, and a non-negative price keeps the percentage
      within 0..100. Mapping fails only on an original price of 0 below which the price lies. */
  lemma OptionDtoFaithful(o: OptionNode, language: Option<string>)
    ensures MapOptionToDto(o, language).Failure? <==>
      o.row.originalPrice == Some(0) && o.row.price < 0
    ensures MapOptionToDto(o, language).Success? ==>
      var d := MapOptionToDto(o, language).value;
      && (d.hasDiscount <==> o.row.originalPrice.Some? && o.row.originalPrice.value > o.row.price)
      && (!d.hasDiscount ==> d.discountPercentage == 0)
      && (d.hasDiscount && o.row.price >= 0 ==> 0 <= d.discountPercentage <= 100)
      && (d.hasDiscount && o.row.price == 0 ==> d.discountPercentage == 100)
      && d.name == (if language in Text.EnglishSpellings then o.row.nameEn else o.row.nameEs)
      && d.discountPercentage == o.row.DiscountPercentage().value
      && d.description == (if language in Text.EnglishSpellings then o.row.descriptionEn else o.row.descriptionEs)
      && d.id == o.id && d.price == o.row.price && d.originalPrice == o.row.originalPrice
      && d.displayOrder == o.row.displayOrder && d.isDefault == o.row.isDefault
      && d.available == o.row.available
  {
    if o.row.HasDiscount() && o.row.price >= 0 {
      DiscountWithinPercentRange(o.row);
    }
  }

  /** Where each list of a product DTO comes from. */
  lemma ProductDtoParts(p: ProductNode, language: Option<string>)
    requires MapProductToDto(p, language).Success?
    ensures MapOptions(VisibleOptions(p), language).Success?
    ensures MapProductToDto(p, language).value.options == MapOptions(VisibleOptions(p), language).value
    ensures MapProductToDto(p, language).value.priceFrom == PriceFrom(VisibleOptions(p))
    ensures MapProductToDto(p, language).value.tags == MapTags(ActiveTags(p), language)
    ensures MapProductToDto(p, language).value.categoryCode == p.category.code
    ensures MapProductToDto(p, language).value.categoryName == p.category.Name(language)
    ensures MapProductToDto(p, language).value.featured == p.row.featured
    ensures MapProductToDto(p, language).value.catchOfDay == p.row.catchOfDay
  {
  }

  /** The option DTOs of a list of options, field by field. */
  lemma OptionDtoList(vs: seq<OptionNode>, language: Option<string>)
    requires MapOptions(vs, language).Success?
    ensures |MapOptions(vs, language).value| == |vs|
    ensures forall i :: 0 <= i < |vs| ==>
      var d := MapOptions(vs, language).value[i];
      d.id == vs[i].id && d.price == vs[i].row.price && d.available == vs[i].row.available
      && d.displayOrder == vs[i].row.displayOrder
  {
    forall i | 0 <= i < |vs|
      ensures var d := MapOptions(vs, language).value[i];
        d.id == vs[i].id && d.price == vs[i].row.price && d.available == vs[i].row.available
        && d.displayOrder == vs[i].row.displayOrder
    {
      assert MapOptionToDto(vs[i], language).Success?;
    }
  }

  /** A product DTO lists only available options, ascending by display order, one per
      active and available option. */
  lemma ProductDtoOptions(p: ProductNode, language: Option<string>)
    requires MapProductToDto(p, language).Success?
    ensures |MapProductToDto(p, language).value.options| == |Filter(p.options, OptionVisible)|
    ensures forall d :: d in MapProductToDto(p, language).value.options ==> d.available
    ensures forall d :: d in MapProductToDto(p, language).value.options ==>
      exists o :: o in p.options && o.row.active && o.id == d.id
    ensures var ds := MapProductToDto(p, language).value.options;
      forall i, j :: 0 <= i < j < |ds| ==> ds[i].displayOrder <= ds[j].displayOrder
  {
    var vs := VisibleOptions(p);
    ProductDtoParts(p, language);
    var ds := MapOptions(vs, language).value;
    OptionDtoList(vs, language);
    SelectSorted(p.options, OptionVisible, OptionOrder);
    VisibleOptionsSelection(p);
    forall d | d in ds
      ensures d.available && exists o :: o in p.options && o.row.active && o.id == d.id
    {
      var i :| 0 <= i < |ds| && ds[i] == d;
      assert vs[i] in vs;
    }
  }

  /** `priceFrom` is the least price among the listed options, and null exactly when
      nothing is listed. */
  lemma ProductDtoPriceFrom(p: ProductNode, language: Option<string>)
    requires MapProductToDto(p, language).Success?
    ensures var d := MapProductToDto(p, language).value;
      d.priceFrom.None? <==> |d.options| == 0
    ensures var d := MapProductToDto(p, language).value;
      d.priceFrom.Some? ==> forall i :: 0 <= i < |d.options| ==> d.priceFrom.value <= d.options[i].price
    ensures var d := MapProductToDto(p, language).value;
      d.priceFrom.Some? ==> exists i :: 0 <= i < |d.options| && d.priceFrom.value == d.options[i].price
  {
    var vs := VisibleOptions(p);
    ProductDtoParts(p, language);
    var ds := MapOptions(vs, language).value;
    OptionDtoList(vs, language);
    var from := PriceFrom(vs);
    if from.Some? {
      var k :| 0 <= k < |vs| && from.value == vs[k].row.price;
      assert from.value == ds[k].price;
    }
  }

  /** A product DTO lists one tag per link to an active tag definition. */
  lemma ProductDtoTags(p: ProductNode, language: Option<string>)
    requires MapProductToDto(p, language).Success?
    ensures |MapProductToDto(p, language).value.tags| == |Filter(p.tags, TagActive)|
    ensures forall d :: d in MapProductToDto(p, language).value.tags ==>
      exists t :: t in p.tags && t.definition.row.active && d == MapTagToDto(t.definition, language)
    ensures forall t :: t in p.tags && t.definition.row.active ==>
      MapTagToDto(t.definition, language) in MapProductToDto(p, language).value.tags
  {
    ProductDtoParts(p, language);
    TagDtoList(p, language);
  }

  /** The active tags are exactly the links to active definitions, once each. */
  lemma ActiveTagsMembers(p: ProductNode)
    ensures |ActiveTags(p)| == |Filter(p.tags, TagActive)|
    ensures forall t :: t in ActiveTags(p) <==> t in p.tags && t.definition.row.active
  {
    var f := Filter(p.tags, TagActive);
    SortByMembers(f, TagOrder);
    forall t
      ensures t in f <==> t in p.tags && t.definition.row.active
    {
      if t in p.tags && t.definition.row.active {
        var j :| 0 <= j < |p.tags| && p.tags[j] == t;
        assert TagActive(p.tags[j]);
      }
      if t in f {
        var j :| 0 <= j < |f| && f[j] == t;
        assert TagActive(f[j]);
      }
    }
  }

  /** The tag DTOs of the active tags: one per link to an active definition. */
  lemma TagDtoList(p: ProductNode, language: Option<string>)
    ensures |MapTags(ActiveTags(p), language)| == |Filter(p.tags, TagActive)|
    ensures forall d :: d in MapTags(ActiveTags(p), language) ==>
      exists t :: t in p.tags && t.definition.row.active && d == MapTagToDto(t.definition, language)
    ensures forall t :: t in p.tags && t.definition.row.active ==>
      MapTagToDto(t.definition, language) in MapTags(ActiveTags(p), language)
  {
    var ts := ActiveTags(p);
    var ds := MapTags(ts, language);
    ActiveTagsMembers(p);
    forall d | d in ds
      ensures exists t :: t in p.tags && t.definition.row.active && d == MapTagToDto(t.definition, language)
    {
      var i :| 0 <= i < |ds| && ds[i] == d;
      var t := ts[i];
      assert t in ts;
      assert t in p.tags && t.definition.row.active && d == MapTagToDto(t.definition, language);
    }
    forall t | t in p.tags && t.definition.row.active
      ensures MapTagToDto(t.definition, language) in ds
    {
      var i :| 0 <= i < |ts| && ts[i] == t;
      assert ds[i] == MapTagToDto(t.definition, language);
    }
  }

  /** The category fields of a product DTO come from the product's category. */
  lemma ProductDtoCategory(p: ProductNode, language: Option<string>)
    requires MapProductToDto(p, language).Success?
    ensures MapProductToDto(p, language).value.categoryCode == p.category.code
    ensures MapProductToDto(p, language).value.categoryName ==
      (if language in Text.EnglishSpellings then p.category.nameEn else p.category.nameEs)
  {
    ProductDtoParts(p, language);
  }

  /** A category DTO lists its active and available products in display order and counts
      them. */
  lemma CategoryDtoProducts(c: CategoryNode, language: Option<string>)
    requires MapCategoryToDto(c, language, true).Success?
    ensures var d := MapCategoryToDto(c, language, true).value;
      && d.products.Some?
      && d.productCount == |d.products.value| == |Filter(c.products, ProductVisible)|
      && (forall i, j :: 0 <= i < j < |d.products.value| ==>
            d.products.value[i].displayOrder <= d.products.value[j].displayOrder)
      && (forall i :: 0 <= i < |d.products.value| ==>
            exists p :: p in c.products && p.row.active && p.row.available && p.id == d.products.value[i].id)
  {
    var vs := VisibleProducts(c);
    var ps := CategoryProductList(c, language);
    assert |vs| == |Filter(c.products, ProductVisible)| by {
      SelectSorted(c.products, ProductVisible, ProductOrder);
    }
    forall i, j | 0 <= i < j < |ps|
      ensures ps[i].displayOrder <= ps[j].displayOrder
    {
      assert SortedBy(vs, ProductOrder);
    }
    forall i | 0 <= i < |ps|
      ensures exists p :: p in c.products && p.row.active && p.row.available && p.id == ps[i].id
    {
      VisibleProductsSelection(c);
      assert vs[i] in vs;
    }
  }

  /** The products of a category's DTO are its visible products, mapped one by one. */
  function CategoryProductList(c: CategoryNode, language: Option<string>): (ps: seq<ProductDto>)
    requires MapCategoryToDto(c, language, true).Success?
    ensures ps == MapCategoryToDto(c, language, true).value.products.value
    ensures MapCategoryToDto(c, language, true).value.productCount == |ps| == |VisibleProducts(c)|
    ensures forall i :: 0 <= i < |ps| ==>
      ps[i].displayOrder == VisibleProducts(c)[i].row.displayOrder && ps[i].id == VisibleProducts(c)[i].id
  {
    MapProducts(VisibleProducts(c), language).value
  }

  /** An option whose discount can be computed: it has no original price of 0 below
      which its price lies. */
  predicate WellPriced(o: OptionNode) {
    !(o.row.originalPrice == Some(0) && o.row.price < 0)
  }

  /** A product maps whenever all of its options are well priced. */
  lemma ProductMapsWhenWellPriced(p: ProductNode, language: Option<string>)
    requires forall o :: o in p.options ==> WellPriced(o)
    ensures MapProductToDto(p, language).Success?
  {
    var vs := VisibleOptions(p);
    VisibleOptionsSelection(p);
    forall i | 0 <= i < |vs|
      ensures MapOptionToDto(vs[i], language).Success?
    {
      assert vs[i] in vs;
      OptionDtoFaithful(vs[i], language);
    }
  }

  /** Where each list of the menu comes from. */
  lemma FullMenuParts(store: MenuStore, settings: Settings, language: Option<string>)
    requires GetFullMenu(store, settings, language).Success?
    ensures MapCategories(ActiveCategories(store), language).Success?
    ensures MapProducts(FeaturedProducts(store), language).Success?
    ensures MapProducts(CatchOfDayProducts(store), language).Success?
    ensures GetFullMenu(store, settings, language).value.categories == MapCategories(ActiveCategories(store), language).value
    ensures GetFullMenu(store, settings, language).value.featuredProducts == MapProducts(FeaturedProducts(store), language).value
    ensures GetFullMenu(store, settings, language).value.catchOfDay == MapProducts(CatchOfDayProducts(store), language).value
  {
  }

  /** The category DTOs of a list of categories keep each one's id and display order. */
  lemma CategoryDtoList(cs: seq<CategoryNode>, language: Option<string>)
    requires MapCategories(cs, language).Success?
    ensures |MapCategories(cs, language).value| == |cs|
    ensures forall i :: 0 <= i < |cs| ==>
      MapCategories(cs, language).value[i].id == cs[i].id &&
      MapCategories(cs, language).value[i].displayOrder == cs[i].row.displayOrder
  {
    forall i | 0 <= i < |cs|
      ensures MapCategories(cs, language).value[i].id == cs[i].id
      ensures MapCategories(cs, language).value[i].displayOrder == cs[i].row.displayOrder
    {
      assert MapCategoryToDto(cs[i], language, true).Success?;
    }
  }

  /** The menu's categories are active ones, ascending by display order. */
  lemma FullMenuCategories(store: MenuStore, settings: Settings, language: Option<string>)
    requires GetFullMenu(store, settings, language).Success?
    ensures var ds := GetFullMenu(store, settings, language).value.categories;
      forall i, j :: 0 <= i < j < |ds| ==> ds[i].displayOrder <= ds[j].displayOrder
    ensures forall d :: d in GetFullMenu(store, settings, language).value.categories ==>
      exists c :: c in store.categories && c.row.active && c.id == d.id
  {
    FullMenuParts(store, settings, language);
    var cs := ActiveCategories(store);
    var ds := MapCategories(cs, language).value;
    ActiveCategoriesSelection(store);
    CategoryDtoList(cs, language);
    forall d | d in ds
      ensures exists c :: c in store.categories && c.row.active && c.id == d.id
    {
      var i :| 0 <= i < |ds| && ds[i] == d;
      assert cs[i] in cs;
    }
  }

  /** The featured list and the catch of the day carry one DTO per flagged, active and
      available product, and each is flagged. */
  lemma FullMenuHighlights(store: MenuStore, settings: Settings, language: Option<string>)
    requires GetFullMenu(store, settings, language).Success?
    ensures forall d :: d in GetFullMenu(store, settings, language).value.featuredProducts ==> d.featured
    ensures forall d :: d in GetFullMenu(store, settings, language).value.catchOfDay ==> d.catchOfDay
    ensures |GetFullMenu(store, settings, language).value.featuredProducts| ==
      |Filter(store.products, FeaturedVisible)|
    ensures |GetFullMenu(store, settings, language).value.catchOfDay| ==
      |Filter(store.products, CatchOfDayVisible)|
  {
    FullMenuParts(store, settings, language);
    var fs := FeaturedProducts(store);
    var ks := CatchOfDayProducts(store);
    var fd := MapProducts(fs, language).value;
    var kd := MapProducts(ks, language).value;
    forall d | d in fd
      ensures d.featured
    {
      var i :| 0 <= i < |fd| && fd[i] == d;
      ProductDtoParts(fs[i], language);
    }
    forall d | d in kd
      ensures d.catchOfDay
    {
      var i :| 0 <= i < |kd| && kd[i] == d;
      ProductDtoParts(ks[i], language);
    }
  }

  /** With the default settings the menu is headed "El Macho" / "Productos del Mar". */
  lemma DefaultMenuHeading(store: MenuStore, language: Option<string>)
    requires GetFullMenu(store, DefaultSettings, language).Success?
    ensures GetFullMenu(store, DefaultSettings, language).value.restaurantName == "El Macho"
    ensures GetFullMenu(store, DefaultSettings, language).value.slogan == "Productos del Mar"
  {
  }
}
