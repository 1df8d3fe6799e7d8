/** The public menu's translation tables and the dotted-key lookup over them
    (frontend/src/utils/translations.js). A JavaScript object is an ordered list of
    entries and an array is an object keyed by its indices. Inherited members (`toString`,
    `length`, ...) are left out: none of them is a string, so a walk that reaches one ends
    in the key just as a missing member does. */
module Translations {
  import opened Wrappers
  import Text

  datatype Value = Str(s: string) | Obj(entries: seq<Entry>)

  datatype Entry = Entry(key: string, value: Value)

  /** The position of the entry named `k`, or -1 when there is none (`k in object`). */
  function Find(entries: seq<Entry>, k: string): (i: int)
    ensures -1 <= i < |entries|
    ensures i >= 0 ==> entries[i].key == k && forall j :: 0 <= j < i ==> entries[j].key != k
    ensures i == -1 ==> forall j :: 0 <= j < |entries| ==> entries[j].key != k
  {
    if |entries| == 0 then -1
    else if entries[0].key == k then 0
    else
      var i := Find(entries[1..], k);
      if i == -1 then -1 else i + 1
  }

  /** The member `k` of `v`, when `v` is an object that has one. */
  function Member(v: Value, k: string): (r: Option<Value>)
    ensures r.Some? <==> v.Obj? && exists j :: 0 <= j < |v.entries| && v.entries[j].key == k
    ensures r.Some? ==> exists j :: 0 <= j < |v.entries| && v.entries[j] == Entry(k, r.value)
  {
    if v.Obj? && Find(v.entries, k) >= 0 then Some(v.entries[Find(v.entries, k)].value) else None
  }

  /** The value reached from `v` by following `keys` one member at a time, or None when
      some step finds no such member. */
  function Walk(v: Value, keys: seq<string>): Option<Value>
    decreases |keys|
  {
    if |keys| == 0 then Some(v)
    else match Member(v, keys[0])
      case None => None
      case Some(w) => Walk(w, keys[1..])
  }

  /** The Spanish table, section by section. */
  const Es: Value := Obj(
    EsGeneral + EsPricing + EsProducts + EsOptions +
    EsServing + EsActions + EsDetails + EsPromos +
    EsTags + EsCategories + EsCategoryDescriptions + EsFish +
    EsFooter + EsAccessibility + EsTime)

  const EsGeneral: seq<Entry> := [
    Entry("loading", Str("Cargando carta...")),
    Entry("error", Str("Error al cargar")),
    Entry("retry", Str("Reintentar")),
    Entry("noConnection", Str("Sin conexi\U{f3}n")),
    Entry("checkConnection", Str("Verifica tu conexi\U{f3}n a internet"))
  ]

  const EsPricing: seq<Entry> := [
    Entry("from", Str("Desde")),
    Entry("price", Str("Precio")),
    Entry("originalPrice", Str("Precio original"))
  ]

  const EsProducts: seq<Entry> := [
    Entry("featured", Str("Destacados")),
    Entry("catchOfDay", Str("Pesca del D\U{ed}a")),
    Entry("mostPopular", Str("Lo M\U{e1}s Pedido")),
    Entry("recommended", Str("Recomendado")),
    Entry("available", Str("Disponible")),
    Entry("unavailable", Str("No disponible"))
  ]

  const EsOptions: seq<Entry> := [
    Entry("options", Str("Opciones")),
    Entry("selectOption", Str("Elige tu opci\U{f3}n")),
    Entry("chooseOption", Str("Elige tu opci\U{f3}n:")),
    Entry("preparation", Str("Preparaci\U{f3}n")),
    Entry("size", Str("Tama\U{f1}o"))
  ]

  const EsServing: seq<Entry> := [
    Entry("serves", Str("Sirve")),
    Entry("people", Str("personas")),
    Entry("person", Str("persona")),
    Entry("ideal", Str("Ideal para"))
  ]

  const EsActions: seq<Entry> := [
    Entry("seeMore", Str("Ver m\U{e1}s")),
    Entry("seeLess", Str("Ver menos")),
    Entry("seeOptions", Str("Ver opciones")),
    Entry("select", Str("Seleccionar"))
  ]

  const EsDetails: seq<Entry> := [
    Entry("allergens", Str("Al\U{e9}rgenos")),
    Entry("spicyLevel", Str("Nivel de picante")),
    Entry("description", Str("Descripci\U{f3}n")),
    Entry("ingredients", Str("Ingredientes"))
  ]

  const EsPromos: seq<Entry> := [
    Entry("discount", Str("descuento")),
    Entry("newPrice", Str("Nuevo precio")),
    Entry("promo", Str("Promoci\U{f3}n")),
    Entry("specialOffer", Str("Oferta especial"))
  ]

  const EsTags: seq<Entry> := [
    Entry("largePortion", Str("Porci\U{f3}n abundante")),
    Entry("machoSize", Str("\U{a1}Tama\U{f1}o Macho!")),
    Entry("forSharing", Str("Para compartir")),
    Entry("houseSpecialty", Str("Especialidad de la casa")),
    Entry("customerFavorite", Str("Favorito del cliente")),
    Entry("freshDaily", Str("Fresco del d\U{ed}a"))
  ]

  const EsCategories: seq<Entry> := [
    Entry("categories", Obj([
      Entry("MENU", Str("Men\U{fa} del Mar")),
      Entry("PESCADOS", Str("Pescados")),
      Entry("BAR", Str("Bar")),
      Entry("BEBESTIBLES", Str("Bebestibles")),
      Entry("MENU_NINO", Str("Men\U{fa} Ni\U{f1}o"))
    ]))
  ]

  const EsCategoryDescriptions: seq<Entry> := [
    Entry("categoryDescriptions", Obj([
      Entry("MENU", Str("Los tesoros del mar de Caldera")),
      Entry("PESCADOS", Str("Pescados frescos con arroz, ensalada, tomate y papas")),
      Entry("BAR", Str("Cervezas, vinos y tragos")),
      Entry("BEBESTIBLES", Str("Bebidas y refrescos")),
      Entry("MENU_NINO", Str("Especial para los peque\U{f1}os marineros"))
    ]))
  ]

  const EsFish: seq<Entry> := [
    Entry("fishNote", Str("Todos nuestros pescados incluyen:")),
    Entry("fishAccompaniments", Obj([Entry("0", Str("Arroz")), Entry("1", Str("Tomate")), Entry("2", Str("Ensalada")), Entry("3", Str("Papas fritas"))]))
  ]

  const EsFooter: seq<Entry> := [
    Entry("location", Str("Caldera, Chile")),
    Entry("pacificCoast", Str("Costa del Pac\U{ed}fico")),
    Entry("hours", Str("Lunes a Domingo")),
    Entry("machoPortions", Str("\U{a1}Porciones de Macho!")),
    Entry("madeWithLove", Str("Hecho con \U{2764}\U{fe0f} en Caldera, Chile"))
  ]

  const EsAccessibility: seq<Entry> := [
    Entry("selectCategory", Str("Selecciona una categor\U{ed}a")),
    Entry("noProducts", Str("No hay productos disponibles en esta categor\U{ed}a")),
    Entry("tapToSelect", Str("Toca para seleccionar tu preparaci\U{f3}n favorita"))
  ]

  const EsTime: seq<Entry> := [
    Entry("today", Str("Hoy")),
    Entry("fresh", Str("Fresco")),
    Entry("daily", Str("Del d\U{ed}a"))
  ]

  /** The English table, section by section. */
  const En: Value := Obj(
    EnGeneral + EnPricing + EnProducts + EnOptions +
    EnServing + EnActions + EnDetails + EnPromos +
    EnTags + EnCategories + EnCategoryDescriptions + EnFish +
    EnFooter + EnAccessibility + EnTime)

  const EnGeneral: seq<Entry> := [
    Entry("loading", Str("Loading menu...")),
    Entry("error", Str("Error loading")),
    Entry("retry", Str("Retry")),
    Entry("noConnection", Str("No connection")),
    Entry("checkConnection", Str("Check your internet connection"))
  ]

  const EnPricing: seq<Entry> := [
    Entry("from", Str("From")),
    Entry("price", Str("Price")),
    Entry("originalPrice", Str("Original price"))
  ]

  const EnProducts: seq<Entry> := [
    Entry("featured", Str("Featured")),
    Entry("catchOfDay", Str("Catch of the Day")),
    Entry("mostPopular", Str("Most Popular")),
    Entry("recommended", Str("Recommended")),
    Entry("available", Str("Available")),
    Entry("unavailable", Str("Unavailable"))
  ]

  const EnOptions: seq<Entry> := [
    Entry("options", Str("Options")),
    Entry("selectOption", Str("Select an option")),
    Entry("chooseOption", Str("Choose your option:")),
    Entry("preparation", Str("Preparation")),
    Entry("size", Str("Size"))
  ]

  const EnServing: seq<Entry> := [
    Entry("serves", Str("Serves")),
    Entry("people", Str("people")),
    Entry("person", Str("person")),
    Entry("ideal", Str("Ideal for"))
  ]

  const EnActions: seq<Entry> := [
    Entry("seeMore", Str("See more")),
    Entry("seeLess", Str("See less")),
    Entry("seeOptions", Str("See options")),
    Entry("select", Str("Select"))
  ]

  const EnDetails: seq<Entry> := [
    Entry("allergens", Str("Allergens")),
    Entry("spicyLevel", Str("Spicy level")),
    Entry("description", Str("Description")),
    Entry("ingredients", Str("Ingredients"))
  ]

  const EnPromos: seq<Entry> := [
    Entry("discount", Str("off")),
    Entry("newPrice", Str("New price")),
    Entry("promo", Str("Promo")),
    Entry("specialOffer", Str("Special offer"))
  ]

  const EnTags: seq<Entry> := [
    Entry("largePortion", Str("Large portion")),
    Entry("machoSize", Str("Macho Size!")),
    Entry("forSharing", Str("For sharing")),
    Entry("houseSpecialty", Str("House specialty")),
    Entry("customerFavorite", Str("Customer favorite")),
    Entry("freshDaily", Str("Fresh daily"))
  ]

  const EnCategories: seq<Entry> := [
    Entry("categories", Obj([
      Entry("MENU", Str("Seafood Menu")),
      Entry("PESCADOS", Str("Fish")),
      Entry("BAR", Str("Bar")),
      Entry("BEBESTIBLES", Str("Beverages")),
      Entry("MENU_NINO", Str("Kids Menu"))
    ]))
  ]

  const EnCategoryDescriptions: seq<Entry> := [
    Entry("categoryDescriptions", Obj([
      Entry("MENU", Str("Treasures from Caldera sea")),
      Entry("PESCADOS", Str("Fresh fish with rice, salad, tomato and fries")),
      Entry("BAR", Str("Beers, wines and cocktails")),
      Entry("BEBESTIBLES", Str("Beverages and soft drinks")),
      Entry("MENU_NINO", Str("Special for little sailors"))
    ]))
  ]

  const EnFish: seq<Entry> := [
    Entry("fishNote", Str("All our fish include:")),
    Entry("fishAccompaniments", Obj([Entry("0", Str("Rice")), Entry("1", Str("Tomato")), Entry("2", Str("Salad")), Entry("3", Str("Fries"))]))
  ]

  const EnFooter: seq<Entry> := [
    Entry("location", Str("Caldera, Chile")),
    Entry("pacificCoast", Str("Pacific Coast")),
    Entry("hours", Str("Monday to Sunday")),
    Entry("machoPortions", Str("Macho Size Portions!")),
    Entry("madeWithLove", Str("Made with \U{2764}\U{fe0f} in Caldera, Chile"))
  ]

  const EnAccessibility: seq<Entry> := [
    Entry("selectCategory", Str("Select a category")),
    Entry("noProducts", Str("No products available in this category")),
    Entry("tapToSelect", Str("Tap to select your favorite preparation"))
  ]

  const EnTime: seq<Entry> := [
    Entry("today", Str("Today")),
    Entry("fresh", Str("Fresh")),
    Entry("daily", Str("Daily"))
  ]

  /** `getTranslations`: the table of the language, the Spanish one for any language other
      than 'es' and 'en'. */
  function GetTranslations(language: string): (r: Value)
    ensures language == "en" ==> r == En
    ensures language != "en" ==> r == Es
  {
    if language == "es" then Es
    else if language == "en" then En
    else Es
  }

  /** The string at the dotted path of `key` in `table`, else the key itself. */
  function LookupIn(table: Value, key: string): string {
    match Walk(table, Text.Split(key, '.'))
    case Some(Str(s)) => s
    case _ => key
  }

  /** The loop of `translate`: one member per segment, giving up at the first missing
      one, then the value when it is a string. */
  method Lookup(table: Value, key: string) returns (r: string)
    ensures r == LookupIn(table, key)
  {
    var keys := Text.Split(key, '.');
    var result := table;
    var i := 0;
    while i < |keys|
      invariant 0 <= i <= |keys|
      invariant Walk(table, keys) == Walk(result, keys[i..])
    {
      assert keys[i..][1..] == keys[i + 1..];
      var j := if result.Obj? then Find(result.entries, keys[i]) else -1;
      if j < 0 {
        return key;
      }
      result := result.entries[j].value;
      i := i + 1;
    }
    r := if result.Str? then result.s else key;
  }

  /** What `translate(key, language)` returns; an absent language is 'es'. */
  function TranslateOf(key: string, language: Option<string>): string {
    LookupIn(GetTranslations(language.GetOr("es")), key)
  }

  /** `translate`. */
  method Translate(key: string, language: Option<string>) returns (r: string)
    ensures r == TranslateOf(key, language)
  {
    r := Lookup(GetTranslations(language.GetOr("es")), key);
  }

  /** A walk along joined paths is a walk along the first, then along the second. */
  lemma {:induction false} WalkAppend(v: Value, a: seq<string>, b: seq<string>)
    ensures Walk(v, a + b) == match Walk(v, a) case None => None case Some(w) => Walk(w, b)
    decreases |a|
  {
    if |a| == 0 {
      assert a + b == b;
    } else {
      assert (a + b)[0] == a[0] && (a + b)[1..] == a[1..] + b;
      match Member(v, a[0])
      case None =>
      case Some(w) => WalkAppend(w, a[1..], b);
    }
  }

  /** When the walk reaches a value without the next segment, the lookup gives back the
      key, whatever follows. */
  lemma LookupStopsAtMissingSegment(table: Value, key: string, i: int)
    requires 0 <= i < |Text.Split(key, '.')|
    requires var w := Walk(table, Text.Split(key, '.')[..i]);
      w.Some? && Member(w.value, Text.Split(key, '.')[i]).None?
    ensures LookupIn(table, key) == key
  {
    var keys := Text.Split(key, '.');
    assert keys == keys[..i] + keys[i..];
    WalkAppend(table, keys[..i], keys[i..]);
  }

  /** Two values with the same members, in the same order, all the way down. */
  predicate SameShape(a: Value, b: Value) {
    match a
    case Str(_) => b.Str?
    case Obj(ea) =>
      && b.Obj? && |ea| == |b.entries|
      && forall i :: 0 <= i < |ea| ==>
           ea[i].key == b.entries[i].key && SameShape(ea[i].value, b.entries[i].value)
  }

  /** Entry lists with the same names in the same order find a name at the same place. */
  lemma {:induction false} FindSameKeys(ea: seq<Entry>, eb: seq<Entry>, k: string)
    requires |ea| == |eb| && forall i :: 0 <= i < |ea| ==> ea[i].key == eb[i].key
    ensures Find(ea, k) == Find(eb, k)
  {
    if |ea| > 0 && ea[0].key != k {
      FindSameKeys(ea[1..], eb[1..], k);
    }
  }

  /** Along any path, values of the same shape both have a member or both lack it, and
      what is reached has the same shape again. */
  lemma {:induction false} WalkSameShape(a: Value, b: Value, keys: seq<string>)
    requires SameShape(a, b)
    ensures Walk(a, keys).Some? <==> Walk(b, keys).Some?
    ensures Walk(a, keys).Some? ==> SameShape(Walk(a, keys).value, Walk(b, keys).value)
    decreases |keys|
  {
    if |keys| > 0 && a.Obj? {
      FindSameKeys(a.entries, b.entries, keys[0]);
      var j := Find(a.entries, keys[0]);
      if j >= 0 {
        WalkSameShape(a.entries[j].value, b.entries[j].value, keys[1..]);
      }
    }
  }

  /** Joining entry lists of the same shape gives entry lists of the same shape. */
  lemma SameShapeAppend(a1: seq<Entry>, a2: seq<Entry>, b1: seq<Entry>, b2: seq<Entry>)
    requires SameShape(Obj(a1), Obj(b1)) && SameShape(Obj(a2), Obj(b2))
    ensures SameShape(Obj(a1 + a2), Obj(b1 + b2))
  {
    forall i | |a1| <= i < |a1| + |a2|
      ensures (a1 + a2)[i].key == (b1 + b2)[i].key
      ensures SameShape((a1 + a2)[i].value, (b1 + b2)[i].value)
    {
      assert (a1 + a2)[i] == a2[i - |a1|] && (b1 + b2)[i] == b2[i - |a1|];
    }
  }

  // Each section of the two tables has the same keys.
  lemma GeneralSameShape() ensures SameShape(Obj(EsGeneral), Obj(EnGeneral)) {}
  lemma PricingSameShape() ensures SameShape(Obj(EsPricing), Obj(EnPricing)) {}
  lemma ProductsSameShape() ensures SameShape(Obj(EsProducts), Obj(EnProducts)) {}
  lemma OptionsSameShape() ensures SameShape(Obj(EsOptions), Obj(EnOptions)) {}
  lemma ServingSameShape() ensures SameShape(Obj(EsServing), Obj(EnServing)) {}
  lemma ActionsSameShape() ensures SameShape(Obj(EsActions), Obj(EnActions)) {}
  lemma DetailsSameShape() ensures SameShape(Obj(EsDetails), Obj(EnDetails)) {}
  lemma PromosSameShape() ensures SameShape(Obj(EsPromos), Obj(EnPromos)) {}
  lemma TagsSameShape() ensures SameShape(Obj(EsTags), Obj(EnTags)) {}
  lemma CategoriesSameShape() ensures SameShape(Obj(EsCategories), Obj(EnCategories)) {}
  lemma CategoryDescriptionsSameShape() ensures SameShape(Obj(EsCategoryDescriptions), Obj(EnCategoryDescriptions)) {}
  lemma FishSameShape() ensures SameShape(Obj(EsFish), Obj(EnFish)) {}
  lemma FooterSameShape() ensures SameShape(Obj(EsFooter), Obj(EnFooter)) {}
  lemma AccessibilitySameShape() ensures SameShape(Obj(EsAccessibility), Obj(EnAccessibility)) {}
  lemma TimeSameShape() ensures SameShape(Obj(EsTime), Obj(EnTime)) {}

  /** The Spanish and English tables have the same keys, nested ones included. */
  lemma TablesSameShape()
    ensures SameShape(Es, En)
  {
    var es, en := EsGeneral, EnGeneral;
    GeneralSameShape();
    PricingSameShape();
    SameShapeAppend(es, EsPricing, en, EnPricing);
    es, en := es + EsPricing, en + EnPricing;
    ProductsSameShape();
    SameShapeAppend(es, EsProducts, en, EnProducts);
    es, en := es + EsProducts, en + EnProducts;
    OptionsSameShape();
    SameShapeAppend(es, EsOptions, en, EnOptions);
    es, en := es + EsOptions, en + EnOptions;
    ServingSameShape();
    SameShapeAppend(es, EsServing, en, EnServing);
    es, en := es + EsServing, en + EnServing;
    ActionsSameShape();
    SameShapeAppend(es, EsActions, en, EnActions);
    es, en := es + EsActions, en + EnActions;
    DetailsSameShape();
    SameShapeAppend(es, EsDetails, en, EnDetails);
    es, en := es + EsDetails, en + EnDetails;
    PromosSameShape();
    SameShapeAppend(es, EsPromos, en, EnPromos);
    es, en := es + EsPromos, en + EnPromos;
    TagsSameShape();
    SameShapeAppend(es, EsTags, en, EnTags);
    es, en := es + EsTags, en + EnTags;
    CategoriesSameShape();
    SameShapeAppend(es, EsCategories, en, EnCategories);
    es, en := es + EsCategories, en + EnCategories;
    CategoryDescriptionsSameShape();
    SameShapeAppend(es, EsCategoryDescriptions, en, EnCategoryDescriptions);
    es, en := es + EsCategoryDescriptions, en + EnCategoryDescriptions;
    FishSameShape();
    SameShapeAppend(es, EsFish, en, EnFish);
    es, en := es + EsFish, en + EnFish;
    FooterSameShape();
    SameShapeAppend(es, EsFooter, en, EnFooter);
    es, en := es + EsFooter, en + EnFooter;
    AccessibilitySameShape();
    SameShapeAppend(es, EsAccessibility, en, EnAccessibility);
    es, en := es + EsAccessibility, en + EnAccessibility;
    TimeSameShape();
    SameShapeAppend(es, EsTime, en, EnTime);
    es, en := es + EsTime, en + EnTime;
  }

  /** A key has a translation in Spanish exactly when it has one in English. */
  lemma TranslatedInBothLanguages(key: string)
    ensures Walk(Es, Text.Split(key, '.')).Some? && Walk(Es, Text.Split(key, '.')).value.Str?
        <==> Walk(En, Text.Split(key, '.')).Some? && Walk(En, Text.Split(key, '.')).value.Str?
  {
    TablesSameShape();
    WalkSameShape(Es, En, Text.Split(key, '.'));
  }

  /** A two-segment key such as 'categories.MENU' descends one member, then another. */
  lemma LookupTwoSegments(table: Value, a: string, b: string)
    requires '.' !in a && '.' !in b
    ensures LookupIn(table, a + "." + b) ==
      match Walk(table, [a, b]) case Some(Str(s)) => s case _ => a + "." + b
  {
    Text.SplitJoin([a, b], '.');
    assert Text.Join([a, b], '.') == a + "." + b;
  }
}
