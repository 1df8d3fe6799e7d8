/** The admin service: create, update, toggle and price operations over the stored
    categories, products, options and tag definitions, keyed by id. */
module AdminService {
  import opened Wrappers
  import opened Entities
  import opened AdminDtos
  import Seqs

  /** A product's link to a tag definition. */
  datatype TagLink = TagLink(tagId: int, displayOrder: Option<int>)
  /** A stored product: its columns, its category, its options' ids in list order and its
      tag links in list order. */
  datatype ProductRecord = ProductRecord(row: ProductRow, categoryId: int, optionIds: seq<int>, tags: seq<TagLink>)
  /** A stored option and the product it belongs to. */
  datatype OptionRecord = OptionRecord(productId: int, row: OptionRow)

  // ---------------------------------------------------------------------------
  // Rows built from requests

  /** The category `createCategory` builds; a missing `active` becomes true. */
  function NewCategoryRow(d: CategoryAdminDto): CategoryRow
    requires ValidCategoryAdminDto(d)
  {
    CategoryRow(d.code.value, d.nameEs.value, d.nameEn.value, d.descriptionEs, d.descriptionEn,
                d.iconUrl, d.imageUrl, d.displayOrder.value, FlagOr(d.active, true), None, None)
  }

  /** `updateCategory`'s setters. The code is not among them; a null `active` reaches a
      NOT NULL column. */
  function UpdatedCategoryRow(row: CategoryRow, d: CategoryAdminDto): (r: Result<CategoryRow, Exception>)
    requires ValidCategoryAdminDto(d)
    ensures r.Failure? <==> d.active.None?
    ensures r.Failure? ==> r.error == NotNullViolation("active")
    ensures r.Success? ==> r.value.code == row.code && r.value.createdAt == row.createdAt
  {
    if d.active.None? then Failure(NotNullViolation("active"))
    else Success(row.(nameEs := d.nameEs.value, nameEn := d.nameEn.value,
                      descriptionEs := d.descriptionEs, descriptionEn := d.descriptionEn,
                      iconUrl := d.iconUrl, imageUrl := d.imageUrl,
                      displayOrder := d.displayOrder.value, active := d.active.value))
  }

  /** The product `createProduct` builds: absent flags become active, available, not
      featured, not recommended and not the catch of the day. */
  function NewProductRow(d: ProductAdminDto): ProductRow
    requires ValidProductAdminDto(d)
  {
    ProductRow(d.code.value, d.nameEs.value, d.nameEn.value, d.descriptionEs, d.descriptionEn,
               d.imageUrl, d.displayOrder.value,
               FlagOr(d.active, true), FlagOr(d.available, true), FlagOr(d.featured, false),
               FlagOr(d.recommended, false), FlagOr(d.catchOfDay, false),
               d.spicyLevel, d.allergensEs, d.allergensEn, None, None)
  }

  /** `updateProduct`'s setters. The code is not among them; the first null flag, in
      column order, reaches a NOT NULL column. */
  function UpdatedProductRow(row: ProductRow, d: ProductAdminDto): (r: Result<ProductRow, Exception>)
    requires ValidProductAdminDto(d)
    ensures r.Failure? <==>
      d.active.None? || d.available.None? || d.featured.None? || d.recommended.None? || d.catchOfDay.None?
    ensures r.Success? ==> r.value.code == row.code && r.value.createdAt == row.createdAt
  {
    if d.active.None? then Failure(NotNullViolation("active"))
    else if d.available.None? then Failure(NotNullViolation("available"))
    else if d.featured.None? then Failure(NotNullViolation("featured"))
    else if d.recommended.None? then Failure(NotNullViolation("recommended"))
    else if d.catchOfDay.None? then Failure(NotNullViolation("catch_of_day"))
    else Success(row.(nameEs := d.nameEs.value, nameEn := d.nameEn.value,
                      descriptionEs := d.descriptionEs, descriptionEn := d.descriptionEn,
                      imageUrl := d.imageUrl, displayOrder := d.displayOrder.value,
                      active := d.active.value, available := d.available.value,
                      featured := d.featured.value, recommended := d.recommended.value,
                      catchOfDay := d.catchOfDay.value, spicyLevel := d.spicyLevel,
                      allergensEs := d.allergensEs, allergensEn := d.allergensEn))
  }

  /** `mapAdminDTOToOption`. The option requests inside a product are not validated, so a
      null in a NOT NULL column surfaces when the product is saved. */
  function OptionFromDto(d: OptionAdminDto): (r: Result<OptionRow, Exception>)
    ensures r.Success? <==>
      d.nameEs.Some? && d.nameEn.Some? && d.price.Some? && d.optionType.Some? && d.displayOrder.Some?
    ensures r.Failure? ==> r.error.NotNullViolation?
  {
    if d.nameEs.None? then Failure(NotNullViolation("name_es"))
    else if d.nameEn.None? then Failure(NotNullViolation("name_en"))
    else if d.price.None? then Failure(NotNullViolation("price"))
    else if d.optionType.None? then Failure(NotNullViolation("option_type"))
    else if d.displayOrder.None? then Failure(NotNullViolation("display_order"))
    else Success(OptionRow(d.nameEs.value, d.nameEn.value, d.descriptionEs, d.descriptionEn,
                           d.price.value, d.originalPrice, d.optionType.value, d.servesPeople,
                           d.sizeCode, d.preparationCode, d.displayOrder.value,
                           FlagOr(d.active, true), FlagOr(d.available, true), FlagOr(d.isDefault, false),
                           None, None))
  }

  // ---------------------------------------------------------------------------
  // Mappers back to DTOs

  function CategoryToDto(id: int, row: CategoryRow): CategoryAdminDto {
    CategoryAdminDto(Some(id), Some(row.code), Some(row.nameEs), Some(row.nameEn), row.descriptionEs,
                     row.descriptionEn, row.iconUrl, row.imageUrl, Some(row.displayOrder), Some(row.active))
  }

  function OptionToDto(id: int, row: OptionRow): OptionAdminDto {
    OptionAdminDto(Some(id), Some(row.nameEs), Some(row.nameEn), row.descriptionEs, row.descriptionEn,
                   Some(row.price), row.originalPrice, Some(row.optionType), row.servesPeople,
                   row.sizeCode, row.preparationCode, Some(row.displayOrder),
                   Some(row.active), Some(row.available), Some(row.isDefault))
  }

  function OptionDtos(ids: seq<int>, options: map<int, OptionRecord>): (r: seq<OptionAdminDto>)
    requires forall i :: 0 <= i < |ids| ==> ids[i] in options
    ensures |r| == |ids|
    ensures forall i :: 0 <= i < |ids| ==> r[i] == OptionToDto(ids[i], options[ids[i]].row)
  {
    seq(|ids|, i requires 0 <= i < |ids| => OptionToDto(ids[i], options[ids[i]].row))
  }

  function TagIds(links: seq<TagLink>): (r: seq<int>)
    ensures |r| == |links|
    ensures forall i :: 0 <= i < |links| ==> r[i] == links[i].tagId
  {
    seq(|links|, i requires 0 <= i < |links| => links[i].tagId)
  }

  function ProductToDto(id: int, p: ProductRecord, options: map<int, OptionRecord>): ProductAdminDto
    requires forall i :: 0 <= i < |p.optionIds| ==> p.optionIds[i] in options
  {
    var r := p.row;
    ProductAdminDto(Some(id), Some(r.code), Some(r.nameEs), Some(r.nameEn), r.descriptionEs, r.descriptionEn,
                    r.imageUrl, Some(p.categoryId), Some(r.displayOrder), Some(r.active), Some(r.available),
                    Some(r.featured), Some(r.recommended), Some(r.catchOfDay), r.spicyLevel,
                    r.allergensEs, r.allergensEn, Some(OptionDtos(p.optionIds, options)), Some(TagIds(p.tags)))
  }

  /** The sort key of an option id: the display order of its row. */
  function OptionOrder(options: map<int, OptionRecord>): int -> int {
    id => if id in options then options[id].row.displayOrder else 0
  }

  /** A product's options as a later request loads them: `Product.options` carries
      `@OrderBy("displayOrder ASC")`, so they come by display order, and options with the
      same display order keep their stored order. */
  function LoadedOptionIds(ids: seq<int>, options: map<int, OptionRecord>): (r: seq<int>)
    requires forall i :: 0 <= i < |ids| ==> ids[i] in options
    ensures multiset(r) == multiset(ids)
    ensures forall i :: 0 <= i < |r| ==> r[i] in options
    ensures forall i, j :: 0 <= i < j < |r| ==> options[r[i]].row.displayOrder <= options[r[j]].row.displayOrder
    ensures forall k :: Seqs.WithKey(r, OptionOrder(options), k) == Seqs.WithKey(ids, OptionOrder(options), k)
  {
    SortedOptionIds(ids, options);
    Seqs.SortBy(ids, OptionOrder(options))
  }

  /** Sorting option ids by display order keeps the ids and, per display order, their order. */
  lemma SortedOptionIds(ids: seq<int>, options: map<int, OptionRecord>)
    requires forall i :: 0 <= i < |ids| ==> ids[i] in options
    ensures forall i :: 0 <= i < |Seqs.SortBy(ids, OptionOrder(options))| ==>
      Seqs.SortBy(ids, OptionOrder(options))[i] in options
    ensures forall k ::
      Seqs.WithKey(Seqs.SortBy(ids, OptionOrder(options)), OptionOrder(options), k) ==
      Seqs.WithKey(ids, OptionOrder(options), k)
  {
    var r := Seqs.SortBy(ids, OptionOrder(options));
    Seqs.SortByMembers(ids, OptionOrder(options));
    forall i | 0 <= i < |r| ensures r[i] in options {
      assert r[i] in ids;
      var j :| 0 <= j < |ids| && ids[j] == r[i];
    }
    forall k ensures Seqs.WithKey(r, OptionOrder(options), k) == Seqs.WithKey(ids, OptionOrder(options), k) {
      Seqs.SortByStable(ids, OptionOrder(options), k);
    }
  }

  /** A stored product as `findById` delivers it, options by display order. */
  function LoadedProductToDto(id: int, p: ProductRecord, options: map<int, OptionRecord>): (r: ProductAdminDto)
    requires forall i :: 0 <= i < |p.optionIds| ==> p.optionIds[i] in options
    ensures r.options.Some? && |r.options.value| == |p.optionIds|
    ensures forall i :: 0 <= i < |r.options.value| ==>
      && r.options.value[i].id.Some? && r.options.value[i].id.value in p.optionIds
      && r.options.value[i].displayOrder.Some?
    ensures forall i, j :: 0 <= i < j < |r.options.value| ==>
      r.options.value[i].displayOrder.value <= r.options.value[j].displayOrder.value
    ensures forall i :: 0 <= i < |p.optionIds| ==>
      exists j :: 0 <= j < |r.options.value| && r.options.value[j].id == Some(p.optionIds[i])
    ensures r == ProductToDto(id, p.(optionIds := LoadedOptionIds(p.optionIds, options)), options)
  {
    LoadedOptionIdsSameIds(p.optionIds, options);
    ProductToDto(id, p.(optionIds := LoadedOptionIds(p.optionIds, options)), options)
  }

  /** When a product's options are already stored by display order, loading it gives the
      same DTO as the one returned at creation. */
  lemma LoadedInStoredOrder(id: int, p: ProductRecord, options: map<int, OptionRecord>)
    requires forall i :: 0 <= i < |p.optionIds| ==> p.optionIds[i] in options
    requires forall i, j :: 0 <= i < j < |p.optionIds| ==>
      options[p.optionIds[i]].row.displayOrder <= options[p.optionIds[j]].row.displayOrder
    ensures LoadedProductToDto(id, p, options) == ProductToDto(id, p, options)
  {
    assert Seqs.SortedBy(p.optionIds, OptionOrder(options));
    Seqs.SortBySorted(p.optionIds, OptionOrder(options));
    assert p.(optionIds := LoadedOptionIds(p.optionIds, options)) == p;
  }

  lemma LoadedOptionIdsSameIds(ids: seq<int>, options: map<int, OptionRecord>)
    requires forall i :: 0 <= i < |ids| ==> ids[i] in options
    ensures |LoadedOptionIds(ids, options)| == |ids|
    ensures forall i :: 0 <= i < |ids| ==> LoadedOptionIds(ids, options)[i] in ids
    ensures forall i :: 0 <= i < |ids| ==>
      exists j :: 0 <= j < |ids| && LoadedOptionIds(ids, options)[j] == ids[i]
  {
    var r := LoadedOptionIds(ids, options);
    assert |r| == |multiset(r)| == |multiset(ids)| == |ids|;
    forall i | 0 <= i < |r| ensures r[i] in ids {
      assert r[i] in multiset(r);
    }
    forall i | 0 <= i < |ids| ensures exists j :: 0 <= j < |r| && r[j] == ids[i] {
      assert ids[i] in multiset(r);
    }
  }

  // ---------------------------------------------------------------------------
  // Round trips and defaults

  /** Reading back a created category gives the request, with its id and with `active`
      defaulted. */
  lemma CategoryRoundTrip(d: CategoryAdminDto, id: int)
    requires ValidCategoryAdminDto(d)
    ensures CategoryToDto(id, NewCategoryRow(d)) == d.(id := Some(id), active := Some(d.active != Some(false)))
  {
  }

  /** Reading back an option built from a request gives the request, with its id and
      with the three flags defaulted. */
  lemma OptionRoundTrip(d: OptionAdminDto, id: int)
    requires OptionFromDto(d).Success?
    ensures OptionToDto(id, OptionFromDto(d).value) ==
      d.(id := Some(id), active := Some(d.active != Some(false)),
         available := Some(d.available != Some(false)), isDefault := Some(d.isDefault == Some(true)))
  {
  }

  /** A created product is active and available unless the request says false, and
      featured, recommended or the catch of the day only when it says true. */
  lemma NewProductFlags(d: ProductAdminDto)
    requires ValidProductAdminDto(d)
    ensures NewProductRow(d).active <==> d.active != Some(false)
    ensures NewProductRow(d).available <==> d.available != Some(false)
    ensures NewProductRow(d).featured <==> d.featured == Some(true)
    ensures NewProductRow(d).recommended <==> d.recommended == Some(true)
    ensures NewProductRow(d).catchOfDay <==> d.catchOfDay == Some(true)
    ensures NewProductRow(d).code == d.code.value
  {
  }

  // ---------------------------------------------------------------------------
  // Pieces of createProduct

  /** The options of a product request, in request order; the first one with a null
      NOT NULL column fails the save. */
  function OptionRows(ds: seq<OptionAdminDto>): (r: Result<seq<OptionRow>, Exception>)
    ensures r.Success? <==> forall i :: 0 <= i < |ds| ==> OptionFromDto(ds[i]).Success?
    ensures r.Success? ==> |r.value| == |ds| && forall i :: 0 <= i < |ds| ==> r.value[i] == OptionFromDto(ds[i]).value
    ensures r.Failure? ==> exists i :: 0 <= i < |ds| && OptionFromDto(ds[i]) == Failure(r.error)
    decreases |ds|
  {
    if |ds| == 0 then Success([])
    else
      var init := OptionRows(ds[..|ds| - 1]);
      var last := OptionFromDto(ds[|ds| - 1]);
      if init.Failure? then Failure(init.error)
      else if last.Failure? then Failure(last.error)
      else Success(init.value + [last.value])
  }

  /** The tag links of a product request, in `tagIds` order, each with display order 0;
      the first unknown id fails with not-found. */
  function TagLinks(tagIds: seq<int>, tags: map<int, TagDefRow>): (r: Result<seq<TagLink>, Exception>)
    ensures r.Success? <==> forall i :: 0 <= i < |tagIds| ==> tagIds[i] in tags
    ensures r.Success? ==> |r.value| == |tagIds| && forall i :: 0 <= i < |tagIds| ==> r.value[i] == TagLink(tagIds[i], Some(0))
    ensures r.Failure? ==> exists i :: 0 <= i < |tagIds| && tagIds[i] !in tags && r.error == ResourceNotFound(TagKind, tagIds[i])
    decreases |tagIds|
  {
    if |tagIds| == 0 then Success([])
    else
      var init := TagLinks(tagIds[..|tagIds| - 1], tags);
      var last := tagIds[|tagIds| - 1];
      if init.Failure? then Failure(init.error)
      else if last !in tags then Failure(ResourceNotFound(TagKind, last))
      else Success(init.value + [TagLink(last, Some(0))])
  }

  /** Ids `first`, `first + 1`, ... for `count` new rows. */
  function IdRange(first: int, count: nat): (r: seq<int>)
    ensures |r| == count
    ensures forall i :: 0 <= i < count ==> r[i] == first + i
  {
    if count == 0 then [] else IdRange(first, count - 1) + [first + count - 1]
  }

  /** The option records a new product brings, under ids `first`, `first + 1`, ... */
  function NewOptionRecords(productId: int, first: int, rows: seq<OptionRow>): (r: map<int, OptionRecord>)
    ensures forall k :: k in r <==> first <= k < first + |rows|
    ensures forall i :: 0 <= i < |rows| ==> first + i in r && r[first + i] == OptionRecord(productId, rows[i])
    decreases |rows|
  {
    if |rows| == 0 then map[]
    else
      var last := first + |rows| - 1;
      NewOptionRecords(productId, first, rows[..|rows| - 1])[last := OptionRecord(productId, rows[|rows| - 1])]
  }

  /** What `createProduct` adds once the code and the category have passed: the product
      under `pid`, its options under the ids after it, and the next free id. */
  datatype Creation = Creation(record: ProductRecord, added: map<int, OptionRecord>, nextId: int)

  /** The tag lookups come first and throw for the first unknown id; then the save meets
      the options in list order and fails at the first null NOT NULL column. */
  function BuildProduct(d: ProductAdminDto, tags: map<int, TagDefRow>, pid: int): (r: Result<Creation, Exception>)
    requires ValidProductAdminDto(d)
    ensures r.Success? ==> r.value.nextId == pid + 1 + |d.options.GetOr([])|
  {
    var links := TagLinks(d.tagIds.GetOr([]), tags);
    if links.Failure? then Failure(links.error)
    else
      var rows := OptionRows(d.options.GetOr([]));
      if rows.Failure? then Failure(rows.error)
      else
        var rec := ProductRecord(NewProductRow(d), d.categoryId.value, IdRange(pid + 1, |rows.value|), links.value);
        Success(Creation(rec, NewOptionRecords(pid, pid + 1, rows.value), pid + 1 + |rows.value|))
  }

  /** A product is built exactly when every tag id is known and every option has its NOT
      NULL columns. */
  lemma BuildProductSucceeds(d: ProductAdminDto, tags: map<int, TagDefRow>, pid: int)
    requires ValidProductAdminDto(d)
    ensures BuildProduct(d, tags, pid).Success? <==>
      && (forall i :: 0 <= i < |d.tagIds.GetOr([])| ==> d.tagIds.GetOr([])[i] in tags)
      && (forall i :: 0 <= i < |d.options.GetOr([])| ==> OptionFromDto(d.options.GetOr([])[i]).Success?)
  {
    var links := TagLinks(d.tagIds.GetOr([]), tags);
    if links.Success? {
      assert BuildProduct(d, tags, pid).Success? == OptionRows(d.options.GetOr([])).Success?;
    }
  }

  /** An unknown tag id is reported before any bad option. */
  lemma BuildProductTagsFirst(d: ProductAdminDto, tags: map<int, TagDefRow>, pid: int, i: int)
    requires ValidProductAdminDto(d)
    requires 0 <= i < |d.tagIds.GetOr([])| && d.tagIds.GetOr([])[i] !in tags
    ensures var r := BuildProduct(d, tags, pid);
      r.Failure? && r.error.ResourceNotFound? && r.error.kind == TagKind && r.error.id !in tags
  {
  }

  /** A built product carries the request's row, category and tags in order, and its
      options under consecutive fresh ids after its own. */
  lemma BuildProductShape(d: ProductAdminDto, tags: map<int, TagDefRow>, pid: int)
    requires ValidProductAdminDto(d) && BuildProduct(d, tags, pid).Success?
    ensures var c := BuildProduct(d, tags, pid).value;
      var ds := d.options.GetOr([]);
      var tagIds := d.tagIds.GetOr([]);
      && c.record.row == NewProductRow(d)
      && c.record.categoryId == d.categoryId.value
      && |c.record.tags| == |tagIds|
      && (forall i :: 0 <= i < |tagIds| ==> c.record.tags[i] == TagLink(tagIds[i], Some(0)))
      && c.record.optionIds == IdRange(pid + 1, |ds|)
      && (forall k :: k in c.added <==> pid < k <= pid + |ds|)
      && (forall i :: 0 <= i < |ds| ==> c.added[pid + 1 + i] == OptionRecord(pid, OptionFromDto(ds[i]).value))
  {
    var links := TagLinks(d.tagIds.GetOr([]), tags);
    var rows := OptionRows(d.options.GetOr([]));
    assert BuildProduct(d, tags, pid).value.record.tags == links.value;
    assert BuildProduct(d, tags, pid).value.added == NewOptionRecords(pid, pid + 1, rows.value);
  }

  // ---------------------------------------------------------------------------
  // Toggles

  datatype ProductFlag = AvailableFlag | FeaturedFlag | CatchOfDayFlag

  function FlagOf(row: ProductRow, f: ProductFlag): bool {
    match f
    case AvailableFlag => row.available
    case FeaturedFlag => row.featured
    case CatchOfDayFlag => row.catchOfDay
  }

  function SetFlag(row: ProductRow, f: ProductFlag, value: bool): (r: ProductRow)
    ensures FlagOf(r, f) == value
    ensures forall g :: g != f ==> FlagOf(r, g) == FlagOf(row, g)
    ensures r.code == row.code && r.active == row.active && r.displayOrder == row.displayOrder
  {
    match f
    case AvailableFlag => row.(available := value)
    case FeaturedFlag => row.(featured := value)
    case CatchOfDayFlag => row.(catchOfDay := value)
  }

  /** A toggle sets its flag to the given value: applying it twice is applying it once,
      setting the current value changes nothing, and the last of two settings wins. */
  lemma SetFlagAlgebra(row: ProductRow, f: ProductFlag, a: bool, b: bool)
    ensures SetFlag(SetFlag(row, f, a), f, a) == SetFlag(row, f, a)
    ensures SetFlag(row, f, FlagOf(row, f)) == row
    ensures SetFlag(SetFlag(row, f, a), f, b) == SetFlag(row, f, b)
  {
  }

  // ---------------------------------------------------------------------------
  // Price updates

  /** `quickUpdatePrice` on the option table: not-found for an unknown option; otherwise
      the new price, and the original price only when one is sent. */
  function ApplyPriceUpdate(options: map<int, OptionRecord>, u: QuickPriceUpdateDto): (r: Result<map<int, OptionRecord>, Exception>)
    requires ValidQuickPriceUpdate(u)
    ensures r.Failure? <==> u.optionId.value !in options
    ensures r.Failure? ==> r.error == ResourceNotFound(OptionKind, u.optionId.value)
    ensures r.Success? ==> r.value.Keys == options.Keys
    ensures r.Success? ==> forall k :: k in options && k != u.optionId.value ==> r.value[k] == options[k]
    ensures r.Success? ==>
      var o := r.value[u.optionId.value];
      && o.row.price == u.newPrice.value
      && o.row.originalPrice == (if u.originalPrice.Some? then u.originalPrice else options[u.optionId.value].row.originalPrice)
      && o.productId == options[u.optionId.value].productId
      && o.row.(price := 0, originalPrice := None) == options[u.optionId.value].row.(price := 0, originalPrice := None)
  {
    var id := u.optionId.value;
    if id !in options then Failure(ResourceNotFound(OptionKind, id))
    else
      var old_ := options[id];
      var withOriginal := if u.originalPrice.Some? then old_.row.(originalPrice := u.originalPrice) else old_.row;
      Success(options[id := old_.(row := withOriginal.(price := u.newPrice.value))])
  }

  /** `bulkUpdatePrices`: the updates in list order; the first failure aborts them all. */
  function ApplyPriceUpdates(options: map<int, OptionRecord>, us: seq<QuickPriceUpdateDto>): (r: Result<map<int, OptionRecord>, Exception>)
    requires forall i :: 0 <= i < |us| ==> ValidQuickPriceUpdate(us[i])
    ensures r.Success? ==> r.value.Keys == options.Keys
    ensures r.Success? ==> forall k :: k in options ==> r.value[k].productId == options[k].productId
    decreases |us|
  {
    if |us| == 0 then Success(options)
    else
      var init := ApplyPriceUpdates(options, us[..|us| - 1]);
      if init.Failure? then init
      else ApplyPriceUpdate(init.value, us[|us| - 1])
  }

  /** The batch goes through exactly when every update names a stored option. */
  lemma {:induction false} PriceUpdatesSucceed(options: map<int, OptionRecord>, us: seq<QuickPriceUpdateDto>)
    requires forall i :: 0 <= i < |us| ==> ValidQuickPriceUpdate(us[i])
    ensures ApplyPriceUpdates(options, us).Success? <==> forall i :: 0 <= i < |us| ==> us[i].optionId.value in options
    decreases |us|
  {
    if |us| > 0 {
      var init := us[..|us| - 1];
      PriceUpdatesSucceed(options, init);
      assert forall i :: 0 <= i < |init| ==> init[i] == us[i];
    }
  }

  /** The last update that names an option decides its price; an option no update names
      keeps its record. */
  lemma {:induction false} LastPriceWins(options: map<int, OptionRecord>, us: seq<QuickPriceUpdateDto>, id: int)
    requires forall i :: 0 <= i < |us| ==> ValidQuickPriceUpdate(us[i])
    requires ApplyPriceUpdates(options, us).Success?
    requires id in options
    ensures (forall i :: 0 <= i < |us| ==> us[i].optionId.value != id) ==>
      ApplyPriceUpdates(options, us).value[id] == options[id]
    ensures forall j :: 0 <= j < |us| && us[j].optionId.value == id &&
                        (forall i :: j < i < |us| ==> us[i].optionId.value != id) ==>
      ApplyPriceUpdates(options, us).value[id].row.price == us[j].newPrice.value
    decreases |us|
  {
    if |us| > 0 {
      var init := us[..|us| - 1];
      var last := us[|us| - 1];
      assert forall i :: 0 <= i < |init| ==> init[i] == us[i];
      LastPriceWins(options, init, id);
      var mid := ApplyPriceUpdates(options, init).value;
      assert ApplyPriceUpdates(options, us) == ApplyPriceUpdate(mid, last);
      forall j | 0 <= j < |us| && us[j].optionId.value == id && (forall i :: j < i < |us| ==> us[i].optionId.value != id)
        ensures ApplyPriceUpdates(options, us).value[id].row.price == us[j].newPrice.value
      {
        if j < |us| - 1 {
          assert forall i :: j < i < |init| ==> init[i].optionId.value != id;
        }
      }
    }
  }

  /** A product's references resolve in the given tables. */
  predicate ProductResolves(p: ProductRecord, id: int, categories: map<int, CategoryRow>,
                            options: map<int, OptionRecord>, tags: map<int, TagDefRow>)
  {
    && p.categoryId in categories
    && (forall i :: 0 <= i < |p.optionIds| ==> p.optionIds[i] in options && options[p.optionIds[i]].productId == id)
    && (forall i :: 0 <= i < |p.tags| ==> p.tags[i].tagId in tags)
  }

  /** Every stored id was issued before `nextId`, the `code` columns are unique, and
      every product's references resolve. */
  predicate ValidTables(categories: map<int, CategoryRow>, products: map<int, ProductRecord>,
                        options: map<int, OptionRecord>, tags: map<int, TagDefRow>, nextId: int)
  {
    && (forall id :: id in categories ==> id < nextId)
    && (forall id :: id in products ==> id < nextId)
    && (forall id :: id in options ==> id < nextId)
    && (forall a, b :: a in categories && b in categories && categories[a].code == categories[b].code ==> a == b)
    && (forall a, b :: a in products && b in products && products[a].row.code == products[b].row.code ==> a == b)
    && (forall p :: p in products ==> ProductResolves(products[p], p, categories, options, tags))
  }

  /** Adding a product whose code is new, whose references resolve once its options are
      added under fresh ids, keeps the tables valid. */
  lemma InsertProductKeepsValid(categories: map<int, CategoryRow>, products: map<int, ProductRecord>,
                                options: map<int, OptionRecord>, tags: map<int, TagDefRow>, nextId: int,
                                rec: ProductRecord, added: map<int, OptionRecord>, newNext: int)
    requires ValidTables(categories, products, options, tags, nextId)
    requires forall p :: p in products ==> products[p].row.code != rec.row.code
    requires forall k :: k in added ==> nextId < k < newNext
    requires nextId < newNext
    requires ProductResolves(rec, nextId, categories, options + added, tags)
    ensures ValidTables(categories, products[nextId := rec], options + added, tags, newNext)
  {
    var products' := products[nextId := rec];
    var options' := options + added;
    forall p | p in products'
      ensures ProductResolves(products'[p], p, categories, options', tags)
    {
      if p == nextId {
        assert products'[p] == rec;
      } else {
        assert products'[p] == products[p];
        KeepsResolving(products[p], p, categories, options, added, tags, nextId);
      }
    }
  }

  /** A built product whose category exists resolves against the option table extended
      with its own options. */
  lemma NewProductResolves(categories: map<int, CategoryRow>, options: map<int, OptionRecord>,
                           tags: map<int, TagDefRow>, d: ProductAdminDto, pid: int)
    requires ValidProductAdminDto(d) && BuildProduct(d, tags, pid).Success?
    requires d.categoryId.value in categories
    ensures ProductResolves(BuildProduct(d, tags, pid).value.record, pid, categories,
                            options + BuildProduct(d, tags, pid).value.added, tags)
  {
    BuildProductShape(d, tags, pid);
    var c := BuildProduct(d, tags, pid).value;
    var rec := c.record;
    var ds := d.options.GetOr([]);
    forall i | 0 <= i < |rec.optionIds|
      ensures rec.optionIds[i] in options + c.added && (options + c.added)[rec.optionIds[i]].productId == pid
    {
      var k := pid + 1 + i;
      assert rec.optionIds[i] == k;
      assert k in c.added && c.added[k] == OptionRecord(pid, OptionFromDto(ds[i]).value);
      assert (options + c.added)[k] == c.added[k];
    }
    forall i | 0 <= i < |rec.tags|
      ensures rec.tags[i].tagId in tags
    {
      assert rec.tags[i] == TagLink(d.tagIds.GetOr([])[i], Some(0));
    }
  }

  /** Storing a built product under the next free id keeps the tables valid. */
  lemma NewProductKeepsValid(categories: map<int, CategoryRow>, products: map<int, ProductRecord>,
                             options: map<int, OptionRecord>, tags: map<int, TagDefRow>, nextId: int,
                             d: ProductAdminDto)
    requires ValidTables(categories, products, options, tags, nextId)
    requires ValidProductAdminDto(d) && BuildProduct(d, tags, nextId).Success?
    requires forall p :: p in products ==> products[p].row.code != d.code.value
    requires d.categoryId.value in categories
    ensures var c := BuildProduct(d, tags, nextId).value;
      ValidTables(categories, products[nextId := c.record], options + c.added, tags, c.nextId)
  {
    var c := BuildProduct(d, tags, nextId).value;
    NewProductResolves(categories, options, tags, d, nextId);
    InsertProductKeepsValid(categories, products, options, tags, nextId, c.record, c.added, c.nextId);
  }

  /** Options added above `nextId` leave an existing product's references resolving. */
  lemma KeepsResolving(q: ProductRecord, p: int, categories: map<int, CategoryRow>,
                       options: map<int, OptionRecord>, added: map<int, OptionRecord>,
                       tags: map<int, TagDefRow>, nextId: int)
    requires ProductResolves(q, p, categories, options, tags)
    requires forall k :: k in options ==> k < nextId
    requires forall k :: k in added ==> nextId < k
    ensures ProductResolves(q, p, categories, options + added, tags)
  {
    forall i | 0 <= i < |q.optionIds|
      ensures q.optionIds[i] in options + added && (options + added)[q.optionIds[i]].productId == p
    {
      var k := q.optionIds[i];
      assert k in options;
      assert k < nextId;
      assert k !in added;
    }
  }

  /** Changing a product's columns and category, keeping its options and tags, keeps the
      tables valid as long as the code stays and the category is stored. */
  lemma ReplaceProductKeepsValid(categories: map<int, CategoryRow>, products: map<int, ProductRecord>,
                                 options: map<int, OptionRecord>, tags: map<int, TagDefRow>, nextId: int,
                                 id: int, rec: ProductRecord)
    requires ValidTables(categories, products, options, tags, nextId)
    requires id in products
    requires rec.row.code == products[id].row.code
    requires rec.optionIds == products[id].optionIds && rec.tags == products[id].tags
    requires rec.categoryId in categories
    ensures ValidTables(categories, products[id := rec], options, tags, nextId)
  {
    assert ProductResolves(products[id], id, categories, options, tags);
  }

  /** Adding a category under a fresh id with a new code, or changing a stored category
      while keeping its code, keeps the tables valid. */
  lemma PutCategoryKeepsValid(categories: map<int, CategoryRow>, products: map<int, ProductRecord>,
                              options: map<int, OptionRecord>, tags: map<int, TagDefRow>, nextId: int,
                              id: int, row: CategoryRow, newNext: int)
    requires ValidTables(categories, products, options, tags, nextId)
    requires (id in categories && row.code == categories[id].code && newNext == nextId) ||
             (id == nextId && newNext == nextId + 1 && forall c :: c in categories ==> categories[c].code != row.code)
    ensures ValidTables(categories[id := row], products, options, tags, newNext)
  {
    forall p | p in products
      ensures ProductResolves(products[p], p, categories[id := row], options, tags)
    {
      assert ProductResolves(products[p], p, categories, options, tags);
    }
  }

  /** Changing an option's columns, keeping its product, keeps the tables valid. */
  lemma ReplaceOptionKeepsValid(categories: map<int, CategoryRow>, products: map<int, ProductRecord>,
                                options: map<int, OptionRecord>, tags: map<int, TagDefRow>, nextId: int,
                                options': map<int, OptionRecord>)
    requires ValidTables(categories, products, options, tags, nextId)
    requires options'.Keys == options.Keys
    requires forall k :: k in options ==> options'[k].productId == options[k].productId
    ensures ValidTables(categories, products, options', tags, nextId)
  {
    forall p | p in products
      ensures ProductResolves(products[p], p, categories, options', tags)
    {
      var q := products[p];
      assert ProductResolves(q, p, categories, options, tags);
      forall i | 0 <= i < |q.optionIds|
        ensures q.optionIds[i] in options' && options'[q.optionIds[i]].productId == p
      {
        var k := q.optionIds[i];
        assert k in options && options[k].productId == p;
        assert k in options'.Keys;
        assert options'[k].productId == options[k].productId;
      }
    }
  }

  // ---------------------------------------------------------------------------
  // The store

  class AdminStore {
    var categories: map<int, CategoryRow>
    var products: map<int, ProductRecord>
    var options: map<int, OptionRecord>
    var tags: map<int, TagDefRow>
    /** The next identity value. */
    var nextId: int

    /** Ids below `nextId`, unique codes, and every reference resolves. */
    predicate Valid()
      reads this
    {
      ValidTables(categories, products, options, tags, nextId)
    }

    predicate CategoryCodeTaken(code: string)
      reads this
    {
      exists id :: id in categories && categories[id].code == code
    }

    predicate ProductCodeTaken(code: string)
      reads this
    {
      exists id :: id in products && products[id].row.code == code
    }

    /** An empty store holding the given tag definitions. */
    constructor (tags: map<int, TagDefRow>, nextId: int)
      requires forall id :: id in tags ==> id < nextId
      ensures Valid()
      ensures categories == map[] && products == map[] && options == map[]
      ensures this.tags == tags && this.nextId == nextId
    {
      categories := map[];
      products := map[];
      options := map[];
      this.tags := tags;
      this.nextId := nextId;
    }

    // ------------------------------------------------------------- categories

    method GetCategoryById(id: int) returns (r: Result<CategoryAdminDto, Exception>)
      ensures r.Success? <==> id in categories
      ensures r.Failure? ==> r.error == ResourceNotFound(CategoryKind, id)
      ensures r.Success? ==> r.value.id == Some(id) && r.value.code == Some(categories[id].code)
      ensures r.Success? ==> r.value == CategoryToDto(id, categories[id])
    {
      if id !in categories {
        return Failure(ResourceNotFound(CategoryKind, id));
      }
      return Success(CategoryToDto(id, categories[id]));
    }

    method CreateCategory(d: CategoryAdminDto) returns (r: Result<CategoryAdminDto, Exception>)
      requires Valid() && ValidCategoryAdminDto(d)
      modifies this
      ensures Valid()
      ensures old(CategoryCodeTaken(d.code.value)) ==>
        r == Failure(DuplicateCode(CategoryKind, d.code.value)) && unchanged(this)
      ensures !old(CategoryCodeTaken(d.code.value)) ==>
        && categories == old(categories)[old(nextId) := NewCategoryRow(d)]
        && old(nextId) !in old(categories)
        && nextId == old(nextId) + 1
        && products == old(products) && options == old(options) && tags == old(tags)
        && r == Success(CategoryToDto(old(nextId), NewCategoryRow(d)))
    {
      if CategoryCodeTaken(d.code.value) {
        return Failure(DuplicateCode(CategoryKind, d.code.value));
      }
      var id := nextId;
      var row := NewCategoryRow(d);
      PutCategoryKeepsValid(categories, products, options, tags, nextId, id, row, nextId + 1);
      categories := categories[id := row];
      nextId := nextId + 1;
      r := Success(CategoryToDto(id, row));
    }

    method UpdateCategory(id: int, d: CategoryAdminDto) returns (r: Result<CategoryAdminDto, Exception>)
      requires Valid() && ValidCategoryAdminDto(d)
      modifies this
      ensures Valid()
      ensures id !in old(categories) ==> r == Failure(ResourceNotFound(CategoryKind, id)) && unchanged(this)
      ensures id in old(categories) && d.active.None? ==> r == Failure(NotNullViolation("active")) && unchanged(this)
      ensures id in old(categories) && d.active.Some? ==>
        && categories == old(categories)[id := UpdatedCategoryRow(old(categories[id]), d).value]
        && categories[id].code == old(categories[id].code)
        && products == old(products) && options == old(options) && tags == old(tags) && nextId == old(nextId)
        && r == Success(CategoryToDto(id, categories[id]))
    {
      if id !in categories {
        return Failure(ResourceNotFound(CategoryKind, id));
      }
      var row := UpdatedCategoryRow(categories[id], d);
      if row.Failure? {
        return Failure(row.error);
      }
      PutCategoryKeepsValid(categories, products, options, tags, nextId, id, row.value, nextId);
      categories := categories[id := row.value];
      r := Success(CategoryToDto(id, row.value));
    }

    method ToggleCategoryActive(id: int, active: bool) returns (r: Result<(), Exception>)
      requires Valid()
      modifies this
      ensures Valid()
      ensures id !in old(categories) ==> r == Failure(ResourceNotFound(CategoryKind, id)) && unchanged(this)
      ensures id in old(categories) ==>
        && r.Success?
        && categories == old(categories)[id := old(categories[id]).(active := active)]
        && products == old(products) && options == old(options) && tags == old(tags) && nextId == old(nextId)
    {
      if id !in categories {
        return Failure(ResourceNotFound(CategoryKind, id));
      }
      PutCategoryKeepsValid(categories, products, options, tags, nextId, id, categories[id].(active := active), nextId);
      categories := categories[id := categories[id].(active := active)];
      r := Success(());
    }

    // --------------------------------------------------------------- products

    method GetProductById(id: int) returns (r: Result<ProductAdminDto, Exception>)
      requires Valid()
      ensures r.Success? <==> id in products
      ensures r.Failure? ==> r.error == ResourceNotFound(ProductKind, id)
      ensures r.Success? ==> r.value == LoadedProductToDto(id, products[id], options)
    {
      if id !in products {
        return Failure(ResourceNotFound(ProductKind, id));
      }
      return Success(LoadedProductToDto(id, products[id], options));
    }

    method CreateProduct(d: ProductAdminDto) returns (r: Result<ProductAdminDto, Exception>)
      requires Valid() && ValidProductAdminDto(d)
      modifies this
      ensures Valid()
      ensures r.Failure? ==> unchanged(this)
      ensures old(ProductCodeTaken(d.code.value)) ==> r == Failure(DuplicateCode(ProductKind, d.code.value))
      ensures !old(ProductCodeTaken(d.code.value)) && d.categoryId.value !in old(categories) ==>
        r == Failure(ResourceNotFound(CategoryKind, d.categoryId.value))
      ensures !old(ProductCodeTaken(d.code.value)) && d.categoryId.value in old(categories) ==>
        var built := BuildProduct(d, old(tags), old(nextId));
        && (built.Failure? ==> r == Failure(built.error))
        && (built.Success? ==>
              && products == old(products)[old(nextId) := built.value.record]
              && options == old(options) + built.value.added
              && nextId == built.value.nextId
              && categories == old(categories) && tags == old(tags)
              && r == Success(ProductToDto(old(nextId), built.value.record, options)))
    {
      var code := d.code.value;
      if ProductCodeTaken(code) {
        return Failure(DuplicateCode(ProductKind, code));
      }
      var categoryId := d.categoryId.value;
      if categoryId !in categories {
        return Failure(ResourceNotFound(CategoryKind, categoryId));
      }
      var pid := nextId;
      var built := PrepareProduct(d, tags, pid);
      if built.Failure? {
        return Failure(built.error);
      }
      var c := built.value;
      NewProductKeepsValid(categories, products, options, tags, pid, d);
      products := products[pid := c.record];
      options := options + c.added;
      nextId := c.nextId;
      r := Success(ProductToDto(pid, c.record, options));
    }

    method UpdateProduct(id: int, d: ProductAdminDto) returns (r: Result<ProductAdminDto, Exception>)
      requires Valid() && ValidProductAdminDto(d)
      modifies this
      ensures Valid()
      ensures r.Failure? ==> unchanged(this)
      ensures id !in old(products) ==> r == Failure(ResourceNotFound(ProductKind, id))
      ensures id in old(products) ==>
        var current := old(products[id]);
        var moves := d.categoryId.Some? && d.categoryId.value != current.categoryId;
        && (moves && d.categoryId.value !in old(categories) ==>
              r == Failure(ResourceNotFound(CategoryKind, d.categoryId.value)))
        && (!(moves && d.categoryId.value !in old(categories)) ==>
              var row := UpdatedProductRow(current.row, d);
              && (row.Failure? ==> r == Failure(row.error))
              && (row.Success? ==>
                    && products == old(products)[id := current.(row := row.value,
                         categoryId := if moves then d.categoryId.value else current.categoryId)]
                    && products[id].row.code == current.row.code
                    && categories == old(categories) && options == old(options) && tags == old(tags)
                    && nextId == old(nextId)
                    && r == Success(LoadedProductToDto(id, products[id], options))))
    {
      if id !in products {
        return Failure(ResourceNotFound(ProductKind, id));
      }
      var current := products[id];
      var categoryId := current.categoryId;
      if d.categoryId.Some? && d.categoryId.value != current.categoryId {
        if d.categoryId.value !in categories {
          return Failure(ResourceNotFound(CategoryKind, d.categoryId.value));
        }
        categoryId := d.categoryId.value;
      }
      var row := UpdatedProductRow(current.row, d);
      if row.Failure? {
        return Failure(row.error);
      }
      var rec := current.(row := row.value, categoryId := categoryId);
      ReplaceProductKeepsValid(categories, products, options, tags, nextId, id, rec);
      products := products[id := rec];
      r := Success(LoadedProductToDto(id, rec, options));
    }

    /** The three product toggles: not-found for an unknown id, otherwise only the flag
        changes. */
    method SetProductFlag(id: int, f: ProductFlag, value: bool) returns (r: Result<(), Exception>)
      requires Valid()
      modifies this
      ensures Valid()
      ensures id !in old(products) ==> r == Failure(ResourceNotFound(ProductKind, id)) && unchanged(this)
      ensures id in old(products) ==>
        && r.Success?
        && products == old(products)[id := old(products[id]).(row := SetFlag(old(products[id]).row, f, value))]
        && categories == old(categories) && options == old(options) && tags == old(tags) && nextId == old(nextId)
    {
      if id !in products {
        return Failure(ResourceNotFound(ProductKind, id));
      }
      var rec := products[id].(row := SetFlag(products[id].row, f, value));
      assert products[id] in products.Values;
      ReplaceProductKeepsValid(categories, products, options, tags, nextId, id, rec);
      products := products[id := rec];
      r := Success(());
    }

    method ToggleProductAvailable(id: int, available: bool) returns (r: Result<(), Exception>)
      requires Valid()
      modifies this
      ensures Valid()
      ensures id !in old(products) ==> r == Failure(ResourceNotFound(ProductKind, id)) && unchanged(this)
      ensures id in old(products) ==>
        && r.Success?
        && products == old(products)[id := old(products[id]).(row := old(products[id]).row.(available := available))]
        && categories == old(categories) && options == old(options) && tags == old(tags) && nextId == old(nextId)
    {
      r := SetProductFlag(id, AvailableFlag, available);
    }

    method ToggleProductFeatured(id: int, featured: bool) returns (r: Result<(), Exception>)
      requires Valid()
      modifies this
      ensures Valid()
      ensures id !in old(products) ==> r == Failure(ResourceNotFound(ProductKind, id)) && unchanged(this)
      ensures id in old(products) ==>
        && r.Success?
        && products == old(products)[id := old(products[id]).(row := old(products[id]).row.(featured := featured))]
        && categories == old(categories) && options == old(options) && tags == old(tags) && nextId == old(nextId)
    {
      r := SetProductFlag(id, FeaturedFlag, featured);
    }

    method ToggleCatchOfDay(id: int, catchOfDay: bool) returns (r: Result<(), Exception>)
      requires Valid()
      modifies this
      ensures Valid()
      ensures id !in old(products) ==> r == Failure(ResourceNotFound(ProductKind, id)) && unchanged(this)
      ensures id in old(products) ==>
        && r.Success?
        && products == old(products)[id := old(products[id]).(row := old(products[id]).row.(catchOfDay := catchOfDay))]
        && categories == old(categories) && options == old(options) && tags == old(tags) && nextId == old(nextId)
    {
      r := SetProductFlag(id, CatchOfDayFlag, catchOfDay);
    }

    // ----------------------------------------------------------------- prices

    method QuickUpdatePrice(u: QuickPriceUpdateDto) returns (r: Result<(), Exception>)
      requires Valid() && ValidQuickPriceUpdate(u)
      modifies this
      ensures Valid()
      ensures ApplyPriceUpdate(old(options), u).Failure? ==>
        r == Failure(ApplyPriceUpdate(old(options), u).error) && unchanged(this)
      ensures ApplyPriceUpdate(old(options), u).Success? ==>
        && r.Success?
        && options == ApplyPriceUpdate(old(options), u).value
        && categories == old(categories) && products == old(products) && tags == old(tags) && nextId == old(nextId)
    {
      var id := u.optionId.value;
      if id !in options {
        return Failure(ResourceNotFound(OptionKind, id));
      }
      var option := options[id];
      if u.originalPrice.Some? {
        option := option.(row := option.row.(originalPrice := u.originalPrice));
      }
      option := option.(row := option.row.(price := u.newPrice.value));
      ReplaceOptionKeepsValid(categories, products, options, tags, nextId, options[id := option]);
      options := options[id := option];
      r := Success(());
    }

    /** The updates run in list order inside one transaction: the first failure rolls all
        of them back. */
    method BulkUpdatePrices(us: seq<QuickPriceUpdateDto>) returns (r: Result<(), Exception>)
      requires Valid() && forall i :: 0 <= i < |us| ==> ValidQuickPriceUpdate(us[i])
      modifies this
      ensures Valid()
      ensures ApplyPriceUpdates(old(options), us).Failure? ==>
        r == Failure(ApplyPriceUpdates(old(options), us).error) && unchanged(this)
      ensures ApplyPriceUpdates(old(options), us).Success? ==>
        && r.Success?
        && options == ApplyPriceUpdates(old(options), us).value
        && categories == old(categories) && products == old(products) && tags == old(tags) && nextId == old(nextId)
    {
      var table := options;
      var i := 0;
      while i < |us|
        invariant 0 <= i <= |us|
        invariant ApplyPriceUpdates(options, us[..i]) == Success(table)
      {
        assert us[..i + 1][..i] == us[..i];
        var step := ApplyPriceUpdate(table, us[i]);
        if step.Failure? {
          PriceUpdatesFailureStays(options, us, i + 1);
          return Failure(step.error);
        }
        table := step.value;
        i := i + 1;
      }
      assert us[..|us|] == us;
      ReplaceOptionKeepsValid(categories, products, options, tags, nextId, table);
      options := table;
      r := Success(());
    }

    /** A direct UPDATE statement: no existence check, so an unknown id changes nothing
        and reports nothing. */
    method ToggleOptionAvailable(optionId: int, available: bool)
      requires Valid()
      modifies this
      ensures Valid()
      ensures optionId in old(options) ==>
        options == old(options)[optionId := old(options[optionId]).(row := old(options[optionId]).row.(available := available))]
      ensures optionId !in old(options) ==> options == old(options)
      ensures categories == old(categories) && products == old(products) && tags == old(tags) && nextId == old(nextId)
    {
      if optionId in options {
        var changed := options[optionId := options[optionId].(row := options[optionId].row.(available := available))];
        ReplaceOptionKeepsValid(categories, products, options, tags, nextId, changed);
        options := changed;
      }
    }
  }

  /** The body of `createProduct` after its checks: the options are mapped in request
      order, the tags looked up in `tagIds` order, and nulls in the options only surface at
      the save. */
  method PrepareProduct(d: ProductAdminDto, tags: map<int, TagDefRow>, pid: int)
    returns (r: Result<Creation, Exception>)
    requires ValidProductAdminDto(d)
    ensures r == BuildProduct(d, tags, pid)
  {
    var optionDtos := d.options.GetOr([]);
    var built := MapOptionRequests(optionDtos);
    var links := LookUpTags(d.tagIds.GetOr([]), tags);
    if links.Failure? {
      return Failure(links.error);
    }
    var rows := CheckOptionRows(optionDtos, built);
    if rows.Failure? {
      return Failure(rows.error);
    }
    assert links == TagLinks(d.tagIds.GetOr([]), tags) && rows == OptionRows(d.options.GetOr([]));
    var rec := ProductRecord(NewProductRow(d), d.categoryId.value, IdRange(pid + 1, |rows.value|), links.value);
    r := Success(Creation(rec, NewOptionRecords(pid, pid + 1, rows.value), pid + 1 + |rows.value|));
  }

  method MapOptionRequests(ds: seq<OptionAdminDto>) returns (built: seq<Result<OptionRow, Exception>>)
    ensures |built| == |ds|
    ensures forall j :: 0 <= j < |ds| ==> built[j] == OptionFromDto(ds[j])
  {
    built := [];
    var i := 0;
    while i < |ds|
      invariant 0 <= i <= |ds|
      invariant |built| == i
      invariant forall j :: 0 <= j < i ==> built[j] == OptionFromDto(ds[j])
    {
      built := built + [OptionFromDto(ds[i])];
      i := i + 1;
    }
  }

  /** The loop of `createProduct` over the tag ids: each is looked up, the first unknown
      one throws. */
  method LookUpTags(tagIds: seq<int>, tags: map<int, TagDefRow>) returns (r: Result<seq<TagLink>, Exception>)
    ensures r == TagLinks(tagIds, tags)
  {
    var links: seq<TagLink> := [];
    var i := 0;
    while i < |tagIds|
      invariant 0 <= i <= |tagIds|
      invariant TagLinks(tagIds[..i], tags) == Success(links)
    {
      assert tagIds[..i + 1][..i] == tagIds[..i];
      if tagIds[i] !in tags {
        TagLinksFailureStays(tagIds, i + 1, tags);
        return Failure(ResourceNotFound(TagKind, tagIds[i]));
      }
      links := links + [TagLink(tagIds[i], Some(0))];
      i := i + 1;
    }
    assert tagIds[..|tagIds|] == tagIds;
    r := Success(links);
  }

  /** The save of `createProduct` meets the options in list order; the first with a null
      NOT NULL column fails it. */
  method CheckOptionRows(ds: seq<OptionAdminDto>, built: seq<Result<OptionRow, Exception>>)
    returns (r: Result<seq<OptionRow>, Exception>)
    requires |built| == |ds|
    requires forall j :: 0 <= j < |ds| ==> built[j] == OptionFromDto(ds[j])
    ensures r == OptionRows(ds)
  {
    var rows: seq<OptionRow> := [];
    var i := 0;
    while i < |built|
      invariant 0 <= i <= |built|
      invariant OptionRows(ds[..i]) == Success(rows)
    {
      assert ds[..i + 1][..i] == ds[..i];
      if built[i].Failure? {
        OptionRowsFailureStays(ds, i + 1);
        return Failure(built[i].error);
      }
      rows := rows + [built[i].value];
      i := i + 1;
    }
    assert ds[..|ds|] == ds;
    r := Success(rows);
  }

  /** Once a prefix of the tag ids fails, every longer prefix fails the same way. */
  lemma {:induction false} TagLinksFailureStays(tagIds: seq<int>, n: nat, tags: map<int, TagDefRow>)
    requires n <= |tagIds|
    requires TagLinks(tagIds[..n], tags).Failure?
    ensures TagLinks(tagIds, tags) == TagLinks(tagIds[..n], tags)
    decreases |tagIds| - n
  {
    if n < |tagIds| {
      assert tagIds[..n + 1][..n] == tagIds[..n];
      TagLinksFailureStays(tagIds, n + 1, tags);
    } else {
      assert tagIds[..n] == tagIds;
    }
  }

  lemma {:induction false} OptionRowsFailureStays(ds: seq<OptionAdminDto>, n: nat)
    requires n <= |ds|
    requires OptionRows(ds[..n]).Failure?
    ensures OptionRows(ds) == OptionRows(ds[..n])
    decreases |ds| - n
  {
    if n < |ds| {
      assert ds[..n + 1][..n] == ds[..n];
      OptionRowsFailureStays(ds, n + 1);
    } else {
      assert ds[..n] == ds;
    }
  }

  lemma {:induction false} PriceUpdatesFailureStays(options: map<int, OptionRecord>, us: seq<QuickPriceUpdateDto>, n: nat)
    requires forall i :: 0 <= i < |us| ==> ValidQuickPriceUpdate(us[i])
    requires n <= |us|
    requires ApplyPriceUpdates(options, us[..n]).Failure?
    ensures ApplyPriceUpdates(options, us) == ApplyPriceUpdates(options, us[..n])
    decreases |us| - n
  {
    if n < |us| {
      assert us[..n + 1][..n] == us[..n];
      PriceUpdatesFailureStays(options, us, n + 1);
    } else {
      assert us[..n] == us;
    }
  }
}
