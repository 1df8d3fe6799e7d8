/** What `DataLoader.run` leaves in the repositories for the menu the application ships. */
module SeededMenu {
  import opened Entities
  import opened Seed
  import opened DataLoader

  /** Once the tags of the menu are defined, every product the menu's tables save is
      servable and keeps every one of its tags. */
  lemma MenuProductsServable(tags: map<string, TagDefinition>)
    requires TagCodes(SeedTags) <= tags.Keys
    ensures forall k :: 0 <= k < |SeedProducts| ==>
      && Servable(SavedAll(AllProducts(MenuTables), tags)[k])
      && |SavedAll(AllProducts(MenuTables), tags)[k].tags| == |SeedProducts[k].tagCodes|
  {
    SeedTagCodesMatch();
    forall c | c in SeedTagCodes
      ensures c in tags
    {
      var i :| 0 <= i < |SeedTags| && SeedTags[i].code == c;
      InTagCodes(SeedTags, i);
    }
    SeedProductsWellFormed();
    assert AllProducts(MenuTables) == SeedProducts;
    forall k | 0 <= k < |SeedProducts|
      ensures Servable(SavedOf(SeedProducts[k], tags))
      ensures |SavedOf(SeedProducts[k], tags).tags| == |SeedProducts[k].tagCodes|
    {
      SavedFromWellFormed(SeedProducts[k], tags);
    }
  }
}
