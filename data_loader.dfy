/** The start-up seeding of `DataLoader.run`: the tags, the five categories and their
    products are built through the entity classes and saved to the repositories. The
    repositories are the fields of a `Loader`; the unique `code` columns are its code sets. */
module DataLoader {
  import opened Wrappers
  import opened Entities
  import opened Seed

  /** The row `createTag` saves: the seed's values, active, display order 0. */
  function TagRowOf(s: TagSeed): TagDefRow {
    TagDefRow(s.code, s.textEs, s.textEn, Some(s.iconName), Some(s.backgroundColor),
      Some(s.textColor), s.tagType, true, Some(0), None, None)
  }

  /** The row `createCategory` saves: no image, active. */
  function CategoryRowOf(s: CategorySeed): CategoryRow {
    CategoryRow(s.code, s.nameEs, s.nameEn, Some(s.descriptionEs), Some(s.descriptionEn),
      Some(s.iconUrl), None, s.displayOrder, true, None, None)
  }

  /** The row `createProduct` builds: active and available, the three flags from the seed,
      no image, spiciness or allergens. */
  function ProductRowOf(s: ProductSeed): ProductRow {
    ProductRow(s.code, s.nameEs, s.nameEn, Some(s.descriptionEs), Some(s.descriptionEn), None,
      s.displayOrder, true, true, s.featured, s.recommended, s.catchOfDay, None, None, None,
      None, None)
  }

  /** The row `addOption` builds as the option numbered `order`: active and available,
      with no description, original price, size or preparation code. */
  function OptionRowOf(o: OptionSeed, order: int): OptionRow {
    OptionRow(o.nameEs, o.nameEn, None, None, o.price, None, o.optionType,
      Some(o.servesPeople), None, None, order, true, true, o.isDefault, None, None)
  }

  /** The tag codes `addTagToProduct` finds, in call order; the others it skips. */
  function FoundCodes(codes: seq<string>, tags: map<string, TagDefinition>): (r: seq<string>)
    ensures |r| <= |codes|
    ensures forall j :: 0 <= j < |r| ==> r[j] in tags && r[j] in codes
  {
    if |codes| == 0 then []
    else if codes[|codes| - 1] in tags then FoundCodes(codes[..|codes| - 1], tags) + [codes[|codes| - 1]]
    else FoundCodes(codes[..|codes| - 1], tags)
  }

  /** No tag is skipped exactly when every code is defined. */
  lemma {:induction false} FoundCodesAllDefined(codes: seq<string>, tags: map<string, TagDefinition>)
    ensures FoundCodes(codes, tags) == codes <==> forall j :: 0 <= j < |codes| ==> codes[j] in tags
  {
    if |codes| > 0 {
      var init := codes[..|codes| - 1];
      FoundCodesAllDefined(init, tags);
      if codes[|codes| - 1] in tags {
        assert codes == init + [codes[|codes| - 1]];
        if FoundCodes(codes, tags) == codes {
          assert FoundCodes(init, tags) == init;
        }
      } else {
        assert FoundCodes(codes, tags) != codes by {
          assert |FoundCodes(init, tags)| <= |init| < |codes|;
        }
      }
    }
  }

  /** The codes of the product seeds. */
  function ProductCodes(seeds: seq<ProductSeed>): set<string>
  {
    if |seeds| == 0 then {} else ProductCodes(seeds[..|seeds| - 1]) + {seeds[|seeds| - 1].code}
  }

  /** The codes of the tag seeds. */
  function TagCodes(seeds: seq<TagSeed>): set<string>
  {
    if |seeds| == 0 then {} else TagCodes(seeds[..|seeds| - 1]) + {seeds[|seeds| - 1].code}
  }

  /** Every seed's code is among the codes of the tag seeds. */
  lemma {:induction false} InTagCodes(seeds: seq<TagSeed>, i: int)
    requires 0 <= i < |seeds|
    ensures seeds[i].code in TagCodes(seeds)
  {
    if i < |seeds| - 1 {
      InTagCodes(seeds[..|seeds| - 1], i);
    }
  }

  /** A code no seed carries is not among their codes. */
  lemma {:induction false} NotInProductCodes(seeds: seq<ProductSeed>, c: string)
    requires forall i :: 0 <= i < |seeds| ==> seeds[i].code != c
    ensures c !in ProductCodes(seeds)
  {
    if |seeds| > 0 {
      NotInProductCodes(seeds[..|seeds| - 1], c);
    }
  }

  /** The codes of the seeds joined are the codes of each part. */
  lemma {:induction false} ProductCodesAppend(a: seq<ProductSeed>, b: seq<ProductSeed>)
    ensures ProductCodes(a + b) == ProductCodes(a) + ProductCodes(b)
  {
    if |b| == 0 {
      assert a + b == a;
    } else {
      var b' := b[..|b| - 1];
      assert (a + b)[..|a + b| - 1] == a + b';
      ProductCodesAppend(a, b');
    }
  }

  /** When the codes of joined seeds are distinct, so are those of each part, and no code
      of the second part is one of the first. */
  lemma DistinctParts(a: seq<ProductSeed>, b: seq<ProductSeed>)
    requires DistinctCodes(a + b)
    ensures DistinctCodes(a) && DistinctCodes(b)
    ensures forall k :: 0 <= k < |b| ==> b[k].code !in ProductCodes(a)
  {
    assert forall i, j :: 0 <= i < j < |a| ==> (a + b)[i] == a[i] && (a + b)[j] == a[j];
    assert forall i, j :: 0 <= i < j < |b| ==> (a + b)[|a| + i] == b[i] && (a + b)[|a| + j] == b[j];
    forall k | 0 <= k < |b|
      ensures b[k].code !in ProductCodes(a)
    {
      assert forall i :: 0 <= i < |a| ==> (a + b)[i] == a[i];
      assert (a + b)[|a| + k] == b[k];
      NotInProductCodes(a, b[k].code);
    }
  }

  /** When the codes of five joined groups are distinct, so are those of every leading run
      of them. */
  lemma PrefixesDistinct(a: seq<ProductSeed>, b: seq<ProductSeed>, c: seq<ProductSeed>,
                         d: seq<ProductSeed>, e: seq<ProductSeed>)
    requires DistinctCodes(a + b + c + d + e)
    ensures DistinctCodes(a + b + c + d) && DistinctCodes(a + b + c) && DistinctCodes(a + b)
    ensures DistinctCodes([] + a)
  {
    assert [] + a == a;
    DistinctParts(a + b + c + d, e);
    DistinctParts(a + b + c, d);
    DistinctParts(a + b, c);
    DistinctParts(a, b);
  }

  /** A product as built by the seed: its row is the seed's, its options are the seed's
      numbered from 0 in call order, its tags are the ones found numbered from 0, and
      every option and tag points back at it. */
  predicate Seeded(p: Product, s: ProductSeed, tags: map<string, TagDefinition>)
    reads p, p.options, p.tags
  {
    && p.row == ProductRowOf(s)
    && |p.options| == |s.options|
    && (forall j :: 0 <= j < |s.options| ==>
          p.options[j].row == OptionRowOf(s.options[j], j) && p.options[j].product == p)
    && var found := FoundCodes(s.tagCodes, tags);
       && |p.tags| == |found|
       && forall j :: 0 <= j < |found| ==>
            && p.tags[j].tagDefinition == tags[found[j]]
            && p.tags[j].displayOrder == Some(j)
            && p.tags[j].product == p
  }

  /** A `product_tags` row: the tag definition it references and its display order. */
  datatype SavedTag = SavedTag(definition: TagDefinition, displayOrder: Option<int>)

  /** What saving a product writes: its row, the code of its category, its option rows
      and its tag rows, in list order. */
  datatype SavedProduct = SavedProduct(
    row: ProductRow,
    categoryCode: Option<string>,
    options: seq<OptionRow>,
    tags: seq<SavedTag>)

  /** The rows `productRepository.save` writes for the product as it stands. */
  function Snapshot(p: Product): SavedProduct
    reads p, p.options, p.tags, p.category
  {
    SavedProduct(
      p.row,
      if p.category == null then None else Some(p.category.row.code),
      seq(|p.options|, j requires 0 <= j < |p.options| reads p, p.options => p.options[j].row),
      seq(|p.tags|, j requires 0 <= j < |p.tags| reads p, p.tags =>
        SavedTag(p.tags[j].tagDefinition, p.tags[j].displayOrder)))
  }

  /** The rows a product block writes for its seed, in the category the seed names. */
  function SavedOf(s: ProductSeed, tags: map<string, TagDefinition>): SavedProduct {
    var found := FoundCodes(s.tagCodes, tags);
    SavedProduct(
      ProductRowOf(s),
      Some(s.categoryCode),
      seq(|s.options|, j requires 0 <= j < |s.options| => OptionRowOf(s.options[j], j)),
      seq(|found|, j requires 0 <= j < |found| => SavedTag(tags[found[j]], Some(j))))
  }

  /** The rows the product blocks of the seeds write, in order. */
  function SavedAll(seeds: seq<ProductSeed>, tags: map<string, TagDefinition>): seq<SavedProduct>
  {
    seq(|seeds|, k requires 0 <= k < |seeds| => SavedOf(seeds[k], tags))
  }

  /** The rows `createTags` writes, in order. */
  function TagRows(seeds: seq<TagSeed>): seq<TagDefRow> {
    if |seeds| == 0 then [] else TagRows(seeds[..|seeds| - 1]) + [TagRowOf(seeds[|seeds| - 1])]
  }

  /** The rows the `createCategory` calls write, in order. */
  function CategoryRows(seeds: seq<CategorySeed>): seq<CategoryRow>
  {
    seq(|seeds|, i requires 0 <= i < |seeds| => CategoryRowOf(seeds[i]))
  }

  /** Saving a product built from its seed, in the seed's category, writes the rows of
      the seed. */
  lemma SnapshotOfSeeded(p: Product, s: ProductSeed, tags: map<string, TagDefinition>)
    requires Seeded(p, s, tags) && p.category != null && p.category.row.code == s.categoryCode
    ensures Snapshot(p) == SavedOf(s, tags)
  {
    var sp, so := Snapshot(p), SavedOf(s, tags);
    assert sp.options == so.options;
    assert sp.tags == so.tags;
  }

  /** The rows of joined seeds are the rows of each part, joined. */
  lemma SavedAllAppend(a: seq<ProductSeed>, b: seq<ProductSeed>, tags: map<string, TagDefinition>)
    ensures SavedAll(a + b, tags) == SavedAll(a, tags) + SavedAll(b, tags)
  {
    assert forall k :: 0 <= k < |b| ==> (a + b)[|a| + k] == b[k];
  }

  /** The saved rows of a product the menu can show: active, available, not catch of the
      day, with options numbered 0, 1, 2, ..., all active and available at a positive
      price, exactly the first one default. */
  predicate Servable(r: SavedProduct) {
    && r.row.active && r.row.available && !r.row.catchOfDay
    && |r.options| > 0
    && forall j :: 0 <= j < |r.options| ==>
         && r.options[j].displayOrder == j
         && r.options[j].active && r.options[j].available
         && r.options[j].price > 0
         && (r.options[j].isDefault <==> j == 0)
  }

  /** A well-formed seed, with every seed tag defined, saves servable rows and keeps every
      one of its tags, in order. */
  lemma SavedFromWellFormed(s: ProductSeed, tags: map<string, TagDefinition>)
    requires WellFormedSeed(s)
    requires forall c :: c in SeedTagCodes ==> c in tags
    ensures Servable(SavedOf(s, tags))
    ensures |SavedOf(s, tags).tags| == |s.tagCodes|
    ensures forall j :: 0 <= j < |s.tagCodes| ==>
      SavedOf(s, tags).tags[j] == SavedTag(tags[s.tagCodes[j]], Some(j))
  {
    FoundCodesAllDefined(s.tagCodes, tags);
  }

  class Loader {
    /** The tag repository: the saved tag rows in save order, and the definitions by
        their unique code, as `findByCode` returns them. */
    var tagTable: seq<TagDefRow>
    var tagsByCode: map<string, TagDefinition>
    /** The category repository: the saved rows in save order and their unique codes. */
    var categoryTable: seq<CategoryRow>
    var categoryCodes: set<string>
    /** The product repository: what each save wrote, in save order, and the unique
        product codes. */
    var productTable: seq<SavedProduct>
    var productCodes: set<string>

    constructor ()
      ensures tagTable == [] && tagsByCode == map[]
      ensures categoryTable == [] && categoryCodes == {}
      ensures productTable == [] && productCodes == {}
    {
      tagTable := [];
      tagsByCode := map[];
      categoryTable := [];
      categoryCodes := {};
      productTable := [];
      productCodes := {};
    }

    /** `createTag`: saves a new tag definition under a code not yet taken. */
    method CreateTag(s: TagSeed) returns (t: TagDefinition)
      requires s.code !in tagsByCode
      modifies this
      ensures fresh(t) && t.row == TagRowOf(s) && t.id == None
      ensures tagTable == old(tagTable) + [TagRowOf(s)]
      ensures tagsByCode == old(tagsByCode)[s.code := t]
      ensures categoryTable == old(categoryTable) && categoryCodes == old(categoryCodes)
      ensures productTable == old(productTable) && productCodes == old(productCodes)
    {
      t := new TagDefinition(TagRowOf(s));
      tagTable := tagTable + [t.row];
      tagsByCode := tagsByCode[s.code := t];
    }

    /** `createTags`: saves the tag definitions in order, under codes that are distinct
        and not yet taken. */
    method CreateTags(seeds: seq<TagSeed>)
      requires forall i, j :: 0 <= i < j < |seeds| ==> seeds[i].code != seeds[j].code
      requires forall i :: 0 <= i < |seeds| ==> seeds[i].code !in tagsByCode
      modifies this
      ensures tagTable == old(tagTable) + TagRows(seeds)
      ensures tagsByCode.Keys == old(tagsByCode).Keys + TagCodes(seeds)
      ensures forall i :: 0 <= i < |seeds| ==> seeds[i].code in tagsByCode && tagsByCode[seeds[i].code].row == TagRowOf(seeds[i])
      ensures categoryTable == old(categoryTable) && categoryCodes == old(categoryCodes)
      ensures productTable == old(productTable) && productCodes == old(productCodes)
    {
      var i := 0;
      while i < |seeds|
        invariant 0 <= i <= |seeds|
        invariant tagTable == old(tagTable) + TagRows(seeds[..i])
        invariant tagsByCode.Keys == old(tagsByCode).Keys + TagCodes(seeds[..i])
        invariant forall k :: i <= k < |seeds| ==> seeds[k].code !in tagsByCode
        invariant forall k :: 0 <= k < i ==> seeds[k].code in tagsByCode
        invariant forall k :: 0 <= k < i ==> tagsByCode[seeds[k].code].row == TagRowOf(seeds[k])
        invariant categoryTable == old(categoryTable) && categoryCodes == old(categoryCodes)
        invariant productTable == old(productTable) && productCodes == old(productCodes)
      {
        assert seeds[..i + 1][..i] == seeds[..i];
        var t := CreateTag(seeds[i]);
        i := i + 1;
      }
      assert seeds[..i] == seeds;
    }

    /** `createCategory`: saves a new category under a code not yet taken. */
    method CreateCategory(s: CategorySeed) returns (c: Category)
      requires s.code !in categoryCodes
      modifies this
      ensures fresh(c) && c.row == CategoryRowOf(s) && c.id == None
      ensures categoryTable == old(categoryTable) + [c.row]
      ensures categoryCodes == old(categoryCodes) + {s.code}
      ensures tagTable == old(tagTable) && tagsByCode == old(tagsByCode)
      ensures productTable == old(productTable) && productCodes == old(productCodes)
    {
      c := new Category(CategoryRowOf(s));
      categoryTable := categoryTable + [c.row];
      categoryCodes := categoryCodes + {s.code};
    }

    /** `createProduct`: builds, without saving, a product of the category with no
        options or tags yet. */
    method CreateProduct(s: ProductSeed, category: Category) returns (p: Product)
      ensures fresh(p) && p.row == ProductRowOf(s) && p.category == category
      ensures p.id == None && p.options == [] && p.tags == []
    {
      p := new Product(ProductRowOf(s), category);
    }

    /** `addOption`: appends a new option numbered by the options already present. */
    method AddOption(product: Product, o: OptionSeed)
      modifies product
      ensures |product.options| == |old(product.options)| + 1
      ensures product.options[..|old(product.options)|] == old(product.options)
      ensures var option := product.options[|old(product.options)|];
        && fresh(option)
        && option.row == OptionRowOf(o, |old(product.options)|)
        && option.product == product && option.id == None
      ensures product.row == old(product.row) && product.id == old(product.id)
      ensures product.category == old(product.category) && product.tags == old(product.tags)
    {
      var option := new ProductOption(OptionRowOf(o, |product.options|));
      product.AddOption(option);
    }

    /** `addTagToProduct`: appends a new tag numbered by the tags already present when the
        code names a saved tag definition, and does nothing otherwise. */
    method AddTagToProduct(product: Product, code: string)
      modifies product
      ensures code !in tagsByCode ==> product.tags == old(product.tags)
      ensures code in tagsByCode ==>
        && |product.tags| == |old(product.tags)| + 1
        && product.tags[..|old(product.tags)|] == old(product.tags)
        && var tag := product.tags[|old(product.tags)|];
           && fresh(tag)
           && tag.tagDefinition == tagsByCode[code]
           && tag.displayOrder == Some(|old(product.tags)|)
           && tag.product == product && tag.id == None
      ensures product.row == old(product.row) && product.id == old(product.id)
      ensures product.category == old(product.category) && product.options == old(product.options)
    {
      if code in tagsByCode {
        var tag := new ProductTag(tagsByCode[code], Some(|product.tags|));
        product.AddTag(tag);
      }
    }

    /** The `addOption` calls of one product block, in order. */
    method AddOptions(product: Product, options: seq<OptionSeed>)
      requires product.options == []
      modifies product
      ensures |product.options| == |options|
      ensures forall j :: 0 <= j < |options| ==>
        product.options[j].row == OptionRowOf(options[j], j) && product.options[j].product == product
      ensures product.row == old(product.row) && product.id == old(product.id)
      ensures product.category == old(product.category) && product.tags == old(product.tags)
    {
      var i := 0;
      while i < |options|
        invariant 0 <= i <= |options|
        invariant product.row == old(product.row) && product.id == old(product.id)
        invariant product.category == old(product.category) && product.tags == old(product.tags)
        invariant |product.options| == i
        invariant forall j :: 0 <= j < i ==>
          product.options[j].row == OptionRowOf(options[j], j) && product.options[j].product == product
      {
        AddOption(product, options[i]);
        i := i + 1;
      }
    }

    /** The `addTagToProduct` calls of one product block, in order. */
    method AddTags(product: Product, codes: seq<string>)
      requires product.tags == []
      modifies product
      ensures var found := FoundCodes(codes, tagsByCode);
        && |product.tags| == |found|
        && forall j :: 0 <= j < |found| ==>
             && product.tags[j].tagDefinition == tagsByCode[found[j]]
             && product.tags[j].displayOrder == Some(j)
             && product.tags[j].product == product
      ensures product.row == old(product.row) && product.id == old(product.id)
      ensures product.category == old(product.category) && product.options == old(product.options)
    {
      var k := 0;
      while k < |codes|
        invariant 0 <= k <= |codes|
        invariant product.row == old(product.row) && product.id == old(product.id)
        invariant product.category == old(product.category) && product.options == old(product.options)
        invariant var found := FoundCodes(codes[..k], tagsByCode);
          && |product.tags| == |found|
          && forall j :: 0 <= j < |found| ==>
               && product.tags[j].tagDefinition == tagsByCode[found[j]]
               && product.tags[j].displayOrder == Some(j)
               && product.tags[j].product == product
      {
        assert codes[..k + 1][..k] == codes[..k];
        AddTagToProduct(product, codes[k]);
        k := k + 1;
      }
      assert codes[..k] == codes;
    }

    /** One product block of a `create*Products` method: `createProduct`, its `addOption`
        calls, its `addTagToProduct` calls, then the save, which writes the seed's rows. */
    method SeedProduct(s: ProductSeed, category: Category) returns (p: Product)
      requires s.code !in productCodes && category.row.code == s.categoryCode
      modifies this
      ensures fresh(p) && Seeded(p, s, tagsByCode) && p.category == category
      ensures productTable == old(productTable) + [SavedOf(s, tagsByCode)]
      ensures productCodes == old(productCodes) + {s.code}
      ensures tagTable == old(tagTable) && tagsByCode == old(tagsByCode)
      ensures categoryTable == old(categoryTable) && categoryCodes == old(categoryCodes)
    {
      p := CreateProduct(s, category);
      AddOptions(p, s.options);
      AddTags(p, s.tagCodes);
      SnapshotOfSeeded(p, s, tagsByCode);
      productTable := productTable + [Snapshot(p)];
      productCodes := productCodes + {s.code};
    }

    /** One `create*Products` method: its product blocks in order, all in the category,
        under codes that are distinct and not yet taken. */
    method CreateCategoryProducts(seeds: seq<ProductSeed>, category: Category)
      requires DistinctCodes(seeds)
      requires forall i :: 0 <= i < |seeds| ==> seeds[i].code !in productCodes
      requires InCategory(seeds, category.row.code)
      modifies this
      ensures productTable == old(productTable) + SavedAll(seeds, tagsByCode)
      ensures productCodes == old(productCodes) + ProductCodes(seeds)
      ensures tagTable == old(tagTable) && tagsByCode == old(tagsByCode)
      ensures categoryTable == old(categoryTable) && categoryCodes == old(categoryCodes)
    {
      var i := 0;
      while i < |seeds|
        invariant 0 <= i <= |seeds|
        invariant productTable == old(productTable) + SavedAll(seeds[..i], tagsByCode)
        invariant productCodes == old(productCodes) + ProductCodes(seeds[..i])
        invariant tagTable == old(tagTable) && tagsByCode == old(tagsByCode)
        invariant categoryTable == old(categoryTable) && categoryCodes == old(categoryCodes)
      {
        assert seeds[..i + 1][..i] == seeds[..i];
        assert SavedAll(seeds[..i + 1], tagsByCode) == SavedAll(seeds[..i], tagsByCode) + [SavedOf(seeds[i], tagsByCode)];
        NotInProductCodes(seeds[..i], seeds[i].code);
        var p := SeedProduct(seeds[i], category);
        i := i + 1;
      }
      assert seeds[..i] == seeds;
    }

    /** The five `createCategory` calls of `run`, in order. */
    method CreateCategories(seeds: seq<CategorySeed>)
        returns (menuDelMar: Category, pescados: Category, bar: Category, bebestibles: Category, menuNino: Category)
      requires |seeds| == 5 && categoryCodes == {}
      requires forall i, j :: 0 <= i < j < 5 ==> seeds[i].code != seeds[j].code
      modifies this
      ensures categoryTable == old(categoryTable) + CategoryRows(seeds)
      ensures menuDelMar.row == CategoryRowOf(seeds[0]) && pescados.row == CategoryRowOf(seeds[1])
      ensures bar.row == CategoryRowOf(seeds[2]) && bebestibles.row == CategoryRowOf(seeds[3])
      ensures menuNino.row == CategoryRowOf(seeds[4])
      ensures tagTable == old(tagTable) && tagsByCode == old(tagsByCode)
      ensures productTable == old(productTable) && productCodes == old(productCodes)
    {
      menuDelMar := CreateCategory(seeds[0]);
      pescados := CreateCategory(seeds[1]);
      bar := CreateCategory(seeds[2]);
      bebestibles := CreateCategory(seeds[3]);
      menuNino := CreateCategory(seeds[4]);
      assert CategoryRows(seeds) == [menuDelMar.row, pescados.row, bar.row, bebestibles.row, menuNino.row];
    }

    /** One `create*Products` call after the groups `done`: the products of `group` are
        saved after theirs. */
    method CreateGroup(done: seq<ProductSeed>, group: seq<ProductSeed>, category: Category)
      requires productTable == SavedAll(done, tagsByCode) && productCodes == ProductCodes(done)
      requires DistinctCodes(done + group) && InCategory(group, category.row.code)
      modifies this
      ensures productTable == SavedAll(done + group, tagsByCode)
      ensures productCodes == ProductCodes(done + group)
      ensures tagTable == old(tagTable) && tagsByCode == old(tagsByCode)
      ensures categoryTable == old(categoryTable) && categoryCodes == old(categoryCodes)
    {
      DistinctParts(done, group);
      CreateCategoryProducts(group, category);
      SavedAllAppend(done, group, tagsByCode);
      ProductCodesAppend(done, group);
    }

    /** The five `create*Products` calls of `run`, each handed its category. */
    method CreateProducts(t: SeedTables, menuDelMar: Category, pescados: Category, bar: Category,
                          bebestibles: Category, menuNino: Category)
      requires |t.groups| == 5 && DistinctCodes(AllProducts(t))
      requires InCategory(t.groups[0], menuDelMar.row.code) && InCategory(t.groups[1], pescados.row.code)
      requires InCategory(t.groups[2], bar.row.code) && InCategory(t.groups[3], bebestibles.row.code)
      requires InCategory(t.groups[4], menuNino.row.code)
      requires productTable == [] && productCodes == {}
      modifies this
      ensures productTable == SavedAll(AllProducts(t), tagsByCode)
      ensures productCodes == ProductCodes(AllProducts(t))
      ensures tagTable == old(tagTable) && tagsByCode == old(tagsByCode)
      ensures categoryTable == old(categoryTable) && categoryCodes == old(categoryCodes)
    {
      var a, b, c, d, e := t.groups[0], t.groups[1], t.groups[2], t.groups[3], t.groups[4];
      PrefixesDistinct(a, b, c, d, e);
      CreateGroup([], a, menuDelMar);
      assert [] + a == a;
      CreateGroup(a, b, pescados);
      CreateGroup(a + b, c, bar);
      CreateGroup(a + b + c, d, bebestibles);
      CreateGroup(a + b + c + d, e, menuNino);
    }

    /** `run`: the tag definitions, then the five categories, then the products of each
        category in turn. The repositories end up holding exactly the rows of the tables,
        in order, every product in the category its seed names. */
    method Run(t: SeedTables)
      requires ValidTables(t)
      requires tagTable == [] && tagsByCode == map[]
      requires categoryTable == [] && categoryCodes == {}
      requires productTable == [] && productCodes == {}
      modifies this
      ensures tagTable == TagRows(t.tags) && tagsByCode.Keys == TagCodes(t.tags)
      ensures categoryTable == CategoryRows(t.categories)
      ensures productTable == SavedAll(AllProducts(t), tagsByCode)
      ensures productCodes == ProductCodes(AllProducts(t))
    {
      CreateTags(t.tags);
      var menuDelMar, pescados, bar, bebestibles, menuNino := CreateCategories(t.categories);
      CreateProducts(t, menuDelMar, pescados, bar, bebestibles, menuNino);
    }
  }
}
