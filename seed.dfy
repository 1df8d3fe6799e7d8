/** The seed menu `DataLoader.run` writes at start-up, as data: the tag definitions, the
    categories and the products with their options and tag codes, in call order, and the
    facts the seed satisfies. Prices are whole CLP amounts. */
module Seed {
  import opened Entities

  datatype TagSeed = TagSeed(
    code: string, textEs: string, textEn: string, iconName: string,
    backgroundColor: string, textColor: string, tagType: TagType)

  datatype CategorySeed = CategorySeed(
    code: string, nameEs: string, nameEn: string, descriptionEs: string, descriptionEn: string,
    iconUrl: string, displayOrder: int)

  /** What `run` seeds: the tag definitions, the five categories, and the products of
      each category, category by category. */
  datatype SeedTables = SeedTables(
    tags: seq<TagSeed>, categories: seq<CategorySeed>, groups: seq<seq<ProductSeed>>)

  /** The arguments of one `addOption` call after the product. */
  datatype OptionSeed = OptionSeed(
    nameEs: string, nameEn: string, price: int, optionType: OptionType, servesPeople: int,
    isDefault: bool)

  /** The arguments of one `createProduct` call, the category it is created in, and the
      `addOption` and `addTagToProduct` calls that follow it. */
  datatype ProductSeed = ProductSeed(
    categoryCode: string, code: string, nameEs: string, nameEn: string,
    descriptionEs: string, descriptionEn: string,
    displayOrder: int, featured: bool, recommended: bool, catchOfDay: bool,
    options: seq<OptionSeed>, tagCodes: seq<string>)

  // The tag codes of `createTags`, DataLoader.java:56-66.
  const TagPorcionAbundante := "PORCION_ABUNDANTE"
  const TagPlatoGrande := "PLATO_GRANDE"
  const TagTamanoMacho := "TAMANO_MACHO"
  const TagPara2 := "PARA_2"
  const TagPara4a6 := "PARA_4_6"
  const TagParaCompartir := "PARA_COMPARTIR"
  const TagMejorValor := "MEJOR_VALOR"
  const TagRecomendado := "RECOMENDADO"
  const TagEspecialidad := "ESPECIALIDAD"
  const TagMasPedido := "MAS_PEDIDO"
  const TagCuatroPreparaciones := "4_PREPARACIONES"

  /** The tag definitions of `createTags`, in call order. */
  const SeedTags: seq<TagSeed> := [
    TagSeed(TagPorcionAbundante, "Porci\U{f3}n abundante", "Generous portion", "scale", "#10B981", "#FFFFFF", PORTION),
    TagSeed(TagPlatoGrande, "Plato grande", "Large plate", "maximize", "#059669", "#FFFFFF", PORTION),
    TagSeed(TagTamanoMacho, "\U{a1}Tama\U{f1}o Macho!", "Macho Size!", "zap", "#DC2626", "#FFFFFF", PORTION),
    TagSeed(TagPara2, "Ideal para 2", "Ideal for 2", "users", "#7C3AED", "#FFFFFF", SHARING),
    TagSeed(TagPara4a6, "Para 4-6 personas", "For 4-6 people", "users", "#A855F7", "#FFFFFF", SHARING),
    TagSeed(TagParaCompartir, "Para compartir", "To share", "share-2", "#EC4899", "#FFFFFF", SHARING),
    TagSeed(TagMejorValor, "Mejor valor", "Best value", "trending-up", "#F59E0B", "#FFFFFF", VALUE),
    TagSeed(TagRecomendado, "Recomendado", "Recommended", "award", "#F97316", "#FFFFFF", SPECIAL),
    TagSeed(TagEspecialidad, "Especialidad", "Specialty", "home", "#6366F1", "#FFFFFF", SPECIAL),
    TagSeed(TagMasPedido, "El m\U{e1}s pedido", "Most popular", "flame", "#EF4444", "#FFFFFF", SPECIAL),
    TagSeed(TagCuatroPreparaciones, "4 preparaciones", "4 preparations", "chef-hat", "#14B8A6", "#FFFFFF", SPECIAL)
  ]

  /** The codes of `SeedTags`, in the same order. */
  const SeedTagCodes: seq<string> := [
    TagPorcionAbundante, TagPlatoGrande, TagTamanoMacho, TagPara2,
    TagPara4a6, TagParaCompartir, TagMejorValor, TagRecomendado,
    TagEspecialidad, TagMasPedido, TagCuatroPreparaciones
  ]

  // The category codes of `run`, DataLoader.java:29-45.
  const CategoryMenuDelMar := "MENU_DEL_MAR"
  const CategoryPescados := "PESCADOS"
  const CategoryBar := "BAR"
  const CategoryBebestibles := "BEBESTIBLES"
  const CategoryMenuNino := "MENU_NINO"

  /** The categories created by `run`, in call order. */
  const SeedCategories: seq<CategorySeed> := [
    CategorySeed(CategoryMenuDelMar, "Men\U{fa} del Mar", "Seafood Menu",
      "Mariscos preparados con t\U{e9}cnicas tradicionales",
      "Seafood prepared with traditional techniques",
      "\U{1f9aa}", 1),
    CategorySeed(CategoryPescados, "Pescados", "Fish",
      "Pescados frescos del d\U{ed}a - Incluye: arroz, tomate, ensalada surtida, papas mayo o chilena",
      "Fresh fish - Includes: rice, tomato, mixed salad, potatoes",
      "\U{1f41f}", 2),
    CategorySeed(CategoryBar, "Bar", "Bar",
      "C\U{f3}cteles, tragos y cervezas",
      "Cocktails, drinks and beers",
      "\U{1f379}", 3),
    CategorySeed(CategoryBebestibles, "Bebestibles", "Beverages",
      "Bebidas, jugos y aguas",
      "Soft drinks, juices and water",
      "\U{1f964}", 4),
    CategorySeed(CategoryMenuNino, "Men\U{fa} Ni\U{f1}o", "Kids Menu",
      "Especial para los m\U{e1}s peque\U{f1}os",
      "Special for the little ones",
      "\U{1f476}", 5)
  ]

  /** The tables `run` seeds. */
  const MenuTables := SeedTables(SeedTags, SeedCategories,
    [MenuDelMarSeeds, PescadosSeeds, BarSeeds, BebestiblesSeeds, MenuNinoSeeds])

  /** The products of the five `create*Products` methods, in call order, each with the
      options and tag codes added to it before it is saved. */
  const SeedProducts: seq<ProductSeed> :=
    MenuDelMarSeeds + PescadosSeeds + BarSeeds + BebestiblesSeeds + MenuNinoSeeds

  /** The products of `createMenuDelMarProducts`. */
  const MenuDelMarSeeds: seq<ProductSeed> := [
    Ostiones, Machas, Camarones, JardinMar, ChupeMariscos,
    LapaRebosada, PastelJaiba, Ceviche, CevicheMixto, PailaMarina,
    CaldilloCongrio
  ]

  /** The products of `createPescadosProducts`. */
  const PescadosSeeds: seq<ProductSeed> := [
    Jurel, Merluza, PezRoca, Reineta, Dorado,
    Congrio, Albacora, Lenguado, Corvina
  ]

  /** The products of `createBarProducts`. */
  const BarSeeds: seq<ProductSeed> := [
    PiscoSour, Cerveza, VinoBlanco, VinoTinto
  ]

  /** The products of `createBebestiblesProducts`. */
  const BebestiblesSeeds: seq<ProductSeed> := [
    JugoNatural, Limonada, Bebidas, AguaMineral
  ]

  /** The products of `createMenuNinoProducts`. */
  const MenuNinoSeeds: seq<ProductSeed> := [
    PolloAsadoPapas, PapasFritas
  ]

  /** The codes of `SeedProducts`, in the same order. */
  const SeedProductCodes: seq<string> := [
    CodeOstiones, CodeMachas, CodeCamarones, CodeJardinMar, CodeChupeMariscos,
    CodeLapaRebosada, CodePastelJaiba, CodeCeviche, CodeCevicheMixto, CodePailaMarina,
    CodeCaldilloCongrio, CodeJurel, CodeMerluza, CodePezRoca, CodeReineta,
    CodeDorado, CodeCongrio, CodeAlbacora, CodeLenguado, CodeCorvina,
    CodePiscoSour, CodeCerveza, CodeVinoBlanco, CodeVinoTinto, CodeJugoNatural,
    CodeLimonada, CodeBebidas, CodeAguaMineral, CodePolloAsadoPapas, CodePapasFritas
  ]

  // The product codes.
  const CodeOstiones := "OSTIONES"
  const CodeMachas := "MACHAS"
  const CodeCamarones := "CAMARONES"
  const CodeJardinMar := "JARDIN_MAR"
  const CodeChupeMariscos := "CHUPE_MARISCOS"
  const CodeLapaRebosada := "LAPA_REBOSADA"
  const CodePastelJaiba := "PASTEL_JAIBA"
  const CodeCeviche := "CEVICHE"
  const CodeCevicheMixto := "CEVICHE_MIXTO"
  const CodePailaMarina := "PAILA_MARINA"
  const CodeCaldilloCongrio := "CALDILLO_CONGRIO"
  const CodeJurel := "JUREL"
  const CodeMerluza := "MERLUZA"
  const CodePezRoca := "PEZ_ROCA"
  const CodeReineta := "REINETA"
  const CodeDorado := "DORADO"
  const CodeCongrio := "CONGRIO"
  const CodeAlbacora := "ALBACORA"
  const CodeLenguado := "LENGUADO"
  const CodeCorvina := "CORVINA"
  const CodePiscoSour := "PISCO_SOUR"
  const CodeCerveza := "CERVEZA"
  const CodeVinoBlanco := "VINO_BLANCO"
  const CodeVinoTinto := "VINO_TINTO"
  const CodeJugoNatural := "JUGO_NATURAL"
  const CodeLimonada := "LIMONADA"
  const CodeBebidas := "BEBIDAS"
  const CodeAguaMineral := "AGUA_MINERAL"
  const CodePolloAsadoPapas := "POLLO_ASADO_PAPAS"
  const CodePapasFritas := "PAPAS_FRITAS"

  // DataLoader.java:70
  const Ostiones := ProductSeed(CategoryMenuDelMar, CodeOstiones, "Ostiones", "Scallops",
    "Frescos ostiones: pil-pil, parmesano, salsa verde o ajillo",
    "Fresh scallops: pil-pil, parmesan, green sauce or garlic",
    1, true, true, false,
    [OptionSeed("Pil-pil", "Pil-pil style", 21500, PREPARATION, 2, true),
     OptionSeed("Parmesano", "Parmesan", 21500, PREPARATION, 2, false),
     OptionSeed("Salsa verde", "Green sauce", 21500, PREPARATION, 2, false),
     OptionSeed("Ajillo", "Garlic style", 21500, PREPARATION, 2, false)],
    [TagCuatroPreparaciones, TagPara2, TagRecomendado])

  // DataLoader.java:83
  const Machas := ProductSeed(CategoryMenuDelMar, CodeMachas, "Machas", "Razor Clams",
    "Exquisitas machas chilenas: pil-pil, parmesano, salsa verde o ajillo",
    "Chilean razor clams: pil-pil, parmesan, green sauce or garlic",
    2, true, false, false,
    [OptionSeed("Pil-pil", "Pil-pil style", 19500, PREPARATION, 2, true),
     OptionSeed("Parmesano", "Parmesan", 19500, PREPARATION, 2, false),
     OptionSeed("Salsa verde", "Green sauce", 19500, PREPARATION, 2, false),
     OptionSeed("Ajillo", "Garlic style", 19500, PREPARATION, 2, false)],
    [TagCuatroPreparaciones, TagEspecialidad, TagPara2])

  // DataLoader.java:96
  const Camarones := ProductSeed(CategoryMenuDelMar, CodeCamarones, "Camarones", "Shrimp",
    "Camarones premium: pil-pil, parmesano, salsa verde o ajillo",
    "Premium shrimp: pil-pil, parmesan, green sauce or garlic",
    3, true, true, false,
    [OptionSeed("Pil-pil", "Pil-pil style", 19500, PREPARATION, 2, true),
     OptionSeed("Parmesano", "Parmesan", 19500, PREPARATION, 2, false),
     OptionSeed("Salsa verde", "Green sauce", 19500, PREPARATION, 2, false),
     OptionSeed("Ajillo", "Garlic style", 19500, PREPARATION, 2, false)],
    [TagCuatroPreparaciones, TagMasPedido, TagPorcionAbundante])

  // DataLoader.java:109
  const JardinMar := ProductSeed(CategoryMenuDelMar, CodeJardinMar, "Jard\U{ed}n del Mar", "Garden of the Sea",
    "\U{a1}El plato estrella! Surtido espectacular de mariscos frescos",
    "The star dish! Spectacular assortment of fresh seafood",
    4, true, true, false,
    [OptionSeed("Fuente completa", "Full platter", 35000, SIZE, 4, true)],
    [TagTamanoMacho, TagPara4a6, TagEspecialidad])

  // DataLoader.java:119
  const ChupeMariscos := ProductSeed(CategoryMenuDelMar, CodeChupeMariscos, "Chupe de Mariscos", "Seafood Chupe",
    "Cremoso chupe tradicional con mariscos, gratinado con queso",
    "Creamy traditional chupe with seafood, gratinated with cheese",
    5, true, false, false,
    [OptionSeed("Porci\U{f3}n individual", "Individual portion", 17900, SIZE, 1, true)],
    [TagPorcionAbundante, TagRecomendado])

  // DataLoader.java:128
  const LapaRebosada := ProductSeed(CategoryMenuDelMar, CodeLapaRebosada, "Lapa Rebosada", "Breaded Limpet",
    "Lapas frescas rebosadas y fritas, crocantes y doradas",
    "Fresh limpets breaded and fried, crispy and golden",
    6, false, false, false,
    [OptionSeed("Porci\U{f3}n", "Portion", 16900, SIZE, 2, true)],
    [TagParaCompartir])

  // DataLoader.java:136
  const PastelJaiba := ProductSeed(CategoryMenuDelMar, CodePastelJaiba, "Pastel de Jaiba", "Crab Casserole",
    "Delicioso pastel de jaiba gratinado al horno",
    "Delicious crab casserole baked with cheese",
    7, true, false, false,
    [OptionSeed("Porci\U{f3}n", "Portion", 17900, SIZE, 1, true)],
    [TagEspecialidad, TagPorcionAbundante])

  // DataLoader.java:145
  const Ceviche := ProductSeed(CategoryMenuDelMar, CodeCeviche, "Ceviche", "Ceviche",
    "Ceviche de pescado fresco marinado en lim\U{f3}n",
    "Fresh fish ceviche marinated in lime",
    8, false, false, false,
    [OptionSeed("Porci\U{f3}n", "Portion", 11900, SIZE, 1, true)],
    [TagMejorValor])

  // DataLoader.java:153
  const CevicheMixto := ProductSeed(CategoryMenuDelMar, CodeCevicheMixto, "Ceviche Mixto", "Mixed Ceviche",
    "Generoso ceviche con pescado y mariscos",
    "Generous ceviche with fish and seafood",
    9, true, true, false,
    [OptionSeed("Porci\U{f3}n abundante", "Generous portion", 18500, SIZE, 2, true)],
    [TagTamanoMacho, TagPara2, TagMasPedido])

  // DataLoader.java:163
  const PailaMarina := ProductSeed(CategoryMenuDelMar, CodePailaMarina, "Paila Marina", "Seafood Soup",
    "Tradicional sopa con abundantes mariscos en caldo de mar",
    "Traditional soup with abundant seafood in sea broth",
    10, true, true, false,
    [OptionSeed("Paila completa", "Full bowl", 16900, SIZE, 1, true)],
    [TagPorcionAbundante, TagRecomendado, TagEspecialidad])

  // DataLoader.java:173
  const CaldilloCongrio := ProductSeed(CategoryMenuDelMar, CodeCaldilloCongrio, "Caldillo de Congrio", "Conger Eel Soup",
    "Famoso caldillo con trozo de congrio, papas y verduras",
    "Famous soup with conger eel, potatoes and vegetables",
    11, true, false, false,
    [OptionSeed("Caldillo completo", "Full soup", 16900, SIZE, 1, true)],
    [TagPlatoGrande, TagEspecialidad])

  // DataLoader.java:184
  const Jurel := ProductSeed(CategoryPescados, CodeJurel, "Jurel", "Jack Mackerel",
    "Jurel fresco del d\U{ed}a",
    "Fresh jack mackerel",
    1, false, false, false,
    [OptionSeed("A la plancha", "Grilled", 17900, PREPARATION, 1, true),
     OptionSeed("Frito", "Fried", 17900, PREPARATION, 1, false)],
    [TagMejorValor])

  // DataLoader.java:192
  const Merluza := ProductSeed(CategoryPescados, CodeMerluza, "Merluza", "Hake",
    "Filete de merluza fresca",
    "Fresh hake fillet",
    2, false, false, false,
    [OptionSeed("A la plancha", "Grilled", 17500, PREPARATION, 1, true),
     OptionSeed("Frita", "Fried", 17500, PREPARATION, 1, false)],
    [TagMejorValor])

  // DataLoader.java:200
  const PezRoca := ProductSeed(CategoryPescados, CodePezRoca, "Pez de Roca", "Rockfish",
    "Exquisito pez de roca del litoral chileno",
    "Exquisite Chilean rockfish",
    3, false, false, false,
    [OptionSeed("A la plancha", "Grilled", 18500, PREPARATION, 1, true),
     OptionSeed("Frito", "Fried", 18500, PREPARATION, 1, false)],
    [])

  // DataLoader.java:207
  const Reineta := ProductSeed(CategoryPescados, CodeReineta, "Reineta", "Bream",
    "Reineta fresca, uno de los pescados m\U{e1}s apreciados",
    "Fresh bream, most appreciated fish",
    4, true, true, false,
    [OptionSeed("A la plancha", "Grilled", 22500, PREPARATION, 1, true),
     OptionSeed("Frita", "Fried", 22500, PREPARATION, 1, false)],
    [TagPlatoGrande, TagRecomendado])

  // DataLoader.java:216
  const Dorado := ProductSeed(CategoryPescados, CodeDorado, "Dorado", "Mahi-mahi",
    "Dorado fresco de aguas profundas",
    "Fresh deep water mahi-mahi",
    5, false, false, false,
    [OptionSeed("A la plancha", "Grilled", 19500, PREPARATION, 1, true),
     OptionSeed("Frito", "Fried", 19500, PREPARATION, 1, false)],
    [])

  // DataLoader.java:223
  const Congrio := ProductSeed(CategoryPescados, CodeCongrio, "Congrio", "Conger Eel",
    "El rey de los pescados chilenos. Trozo generoso",
    "The king of Chilean fish",
    6, true, true, false,
    [OptionSeed("A la plancha", "Grilled", 22500, PREPARATION, 1, true),
     OptionSeed("Frito", "Fried", 22500, PREPARATION, 1, false)],
    [TagTamanoMacho, TagEspecialidad, TagMasPedido])

  // DataLoader.java:233
  const Albacora := ProductSeed(CategoryPescados, CodeAlbacora, "Albacora", "Swordfish",
    "Albacora fresca, carne firme y sabor intenso",
    "Fresh swordfish, firm meat",
    7, false, false, false,
    [OptionSeed("A la plancha", "Grilled", 17900, PREPARATION, 1, true),
     OptionSeed("Frita", "Fried", 17900, PREPARATION, 1, false)],
    [TagMejorValor])

  // DataLoader.java:241
  const Lenguado := ProductSeed(CategoryPescados, CodeLenguado, "Lenguado", "Sole",
    "Fino lenguado de textura delicada",
    "Fine sole with delicate texture",
    8, true, false, false,
    [OptionSeed("A la plancha", "Grilled", 22500, PREPARATION, 1, true),
     OptionSeed("Frito", "Fried", 22500, PREPARATION, 1, false)],
    [TagPlatoGrande, TagRecomendado])

  // DataLoader.java:250
  const Corvina := ProductSeed(CategoryPescados, CodeCorvina, "Corvina", "Corvina",
    "Corvina fresca de carne blanca y suave",
    "Fresh corvina with white meat",
    9, true, false, false,
    [OptionSeed("A la plancha", "Grilled", 22500, PREPARATION, 1, true),
     OptionSeed("Frita", "Fried", 22500, PREPARATION, 1, false)],
    [TagPlatoGrande, TagPorcionAbundante])

  // DataLoader.java:261
  const PiscoSour := ProductSeed(CategoryBar, CodePiscoSour, "Pisco Sour", "Pisco Sour",
    "El cl\U{e1}sico c\U{f3}ctel chileno",
    "The classic Chilean cocktail",
    1, true, false, false,
    [OptionSeed("Copa", "Glass", 5500, SIZE, 1, true),
     OptionSeed("Jarra (4-6 copas)", "Pitcher (4-6 glasses)", 19900, SIZE, 5, false)],
    [TagPara4a6, TagMasPedido])

  // DataLoader.java:270
  const Cerveza := ProductSeed(CategoryBar, CodeCerveza, "Cervezas", "Beers",
    "Cervezas nacionales e importadas",
    "National and imported beers",
    2, false, false, false,
    [OptionSeed("Schop 500ml", "Draft 500ml", 3500, SIZE, 1, true),
     OptionSeed("Botella nacional", "National bottle", 3000, SIZE, 1, false),
     OptionSeed("Botella importada", "Imported bottle", 4500, SIZE, 1, false)],
    [])

  // DataLoader.java:278
  const VinoBlanco := ProductSeed(CategoryBar, CodeVinoBlanco, "Vino Blanco", "White Wine",
    "Sauvignon Blanc ideal para mariscos",
    "Sauvignon Blanc ideal for seafood",
    3, false, false, false,
    [OptionSeed("Copa", "Glass", 4500, SIZE, 1, true),
     OptionSeed("Botella", "Bottle", 18900, SIZE, 4, false)],
    [TagMejorValor])

  // DataLoader.java:286
  const VinoTinto := ProductSeed(CategoryBar, CodeVinoTinto, "Vino Tinto", "Red Wine",
    "Cabernet Sauvignon o Carmenere",
    "Cabernet Sauvignon or Carmenere",
    4, false, false, false,
    [OptionSeed("Copa", "Glass", 4500, SIZE, 1, true),
     OptionSeed("Botella", "Bottle", 18900, SIZE, 4, false)],
    [])

  // DataLoader.java:295
  const JugoNatural := ProductSeed(CategoryBebestibles, CodeJugoNatural, "Jugo Natural", "Fresh Juice",
    "Jugos reci\U{e9}n exprimidos",
    "Freshly squeezed juices",
    1, false, false, false,
    [OptionSeed("Naranja", "Orange", 3500, PREPARATION, 1, true),
     OptionSeed("Pi\U{f1}a", "Pineapple", 3500, PREPARATION, 1, false)],
    [])

  // DataLoader.java:302
  const Limonada := ProductSeed(CategoryBebestibles, CodeLimonada, "Limonada", "Lemonade",
    "Refrescante limonada natural",
    "Refreshing natural lemonade",
    2, false, false, false,
    [OptionSeed("Vaso", "Glass", 2500, SIZE, 1, true),
     OptionSeed("Jarra 1L", "Pitcher 1L", 6500, SIZE, 4, false)],
    [TagMejorValor])

  // DataLoader.java:310
  const Bebidas := ProductSeed(CategoryBebestibles, CodeBebidas, "Bebidas", "Soft Drinks",
    "Coca-Cola, Sprite, Fanta",
    "Coca-Cola, Sprite, Fanta",
    3, false, false, false,
    [OptionSeed("Lata 350ml", "Can 350ml", 2000, SIZE, 1, true),
     OptionSeed("Botella 500ml", "Bottle 500ml", 2500, SIZE, 1, false)],
    [])

  // DataLoader.java:317
  const AguaMineral := ProductSeed(CategoryBebestibles, CodeAguaMineral, "Agua Mineral", "Mineral Water",
    "Con o sin gas",
    "Sparkling or still",
    4, false, false, false,
    [OptionSeed("Sin gas 500ml", "Still 500ml", 1800, PREPARATION, 1, true),
     OptionSeed("Con gas 500ml", "Sparkling 500ml", 1800, PREPARATION, 1, false)],
    [])

  // DataLoader.java:326
  const PolloAsadoPapas := ProductSeed(CategoryMenuNino, CodePolloAsadoPapas, "Pollo Asado con Papas Fritas", "Roasted Chicken with Fries",
    "Delicioso pollo asado acompa\U{f1}ado de crujientes papas fritas",
    "Delicious roasted chicken with crispy fries",
    1, false, false, false,
    [OptionSeed("Plato", "Plate", 6900, SIZE, 1, true)],
    [])

  // DataLoader.java:333
  const PapasFritas := ProductSeed(CategoryMenuNino, CodePapasFritas, "Porci\U{f3}n de Papas Fritas", "French Fries",
    "Crujientes papas fritas para acompa\U{f1}ar o compartir",
    "Crispy french fries to accompany or share",
    2, false, false, false,
    [OptionSeed("Porci\U{f3}n Chica", "Small Portion", 3500, SIZE, 1, true),
     OptionSeed("Porci\U{f3}n Grande", "Large Portion", 5500, SIZE, 2, false)],
    [TagMejorValor])

  /** Every option of a seeded product costs more than nothing, its first option and no
      other is the default, it is not catch of the day, and each of its tag codes is one
      `createTags` defines, so `addTagToProduct` never skips one. */
  predicate WellFormedSeed(p: ProductSeed) {
    && |p.options| > 0
    && p.options[0].isDefault
    && (forall j :: 0 < j < |p.options| ==> !p.options[j].isDefault)
    && (forall j :: 0 <= j < |p.options| ==> p.options[j].price > 0)
    && !p.catchOfDay
    && (forall j :: 0 <= j < |p.tagCodes| ==> p.tagCodes[j] in SeedTagCodes)
  }

  /** No two of the seeds share a code. */
  predicate DistinctCodes(seeds: seq<ProductSeed>) {
    forall i, j :: 0 <= i < j < |seeds| ==> seeds[i].code != seeds[j].code
  }

  /** Every one of the seeds is created in the category with this code. */
  predicate InCategory(seeds: seq<ProductSeed>, code: string) {
    forall k :: 0 <= k < |seeds| ==> seeds[k].categoryCode == code
  }

  /** Every product of the tables, group after group. */
  function AllProducts(t: SeedTables): (r: seq<ProductSeed>)
    requires |t.groups| == 5
    ensures |r| == |t.groups[0]| + |t.groups[1]| + |t.groups[2]| + |t.groups[3]| + |t.groups[4]|
  {
    t.groups[0] + t.groups[1] + t.groups[2] + t.groups[3] + t.groups[4]
  }

  /** What the loader needs of the tables: distinct tag codes, five categories with
      distinct codes, five product groups whose codes are all distinct, each group in its
      category. These are the unique `code` columns `run` must not violate. */
  predicate ValidTables(t: SeedTables) {
    && (forall i, j :: 0 <= i < j < |t.tags| ==> t.tags[i].code != t.tags[j].code)
    && |t.categories| == 5 && |t.groups| == 5
    && (forall i, j :: 0 <= i < j < 5 ==> t.categories[i].code != t.categories[j].code)
    && DistinctCodes(AllProducts(t))
    && forall g :: 0 <= g < 5 ==> InCategory(t.groups[g], t.categories[g].code)
  }

  lemma MenuDelMarFirstSeedsWellFormed()
    ensures WellFormedSeed(Ostiones) && WellFormedSeed(Machas) && WellFormedSeed(Camarones)
  {
  }

  lemma MenuDelMarMiddleSeedsWellFormed()
    ensures WellFormedSeed(JardinMar) && WellFormedSeed(ChupeMariscos) && WellFormedSeed(LapaRebosada)
  {
  }

  lemma MenuDelMarLastSeedsWellFormed()
    ensures WellFormedSeed(PastelJaiba) && WellFormedSeed(Ceviche) && WellFormedSeed(CevicheMixto)
    ensures WellFormedSeed(PailaMarina) && WellFormedSeed(CaldilloCongrio)
  {
  }

  lemma MenuDelMarSeedsWellFormed()
    ensures forall p :: p in MenuDelMarSeeds ==> WellFormedSeed(p)
  {
    MenuDelMarFirstSeedsWellFormed();
    MenuDelMarMiddleSeedsWellFormed();
    MenuDelMarLastSeedsWellFormed();
  }

  lemma PescadosSeedsWellFormed()
    ensures forall p :: p in PescadosSeeds ==> WellFormedSeed(p)
  {
  }

  lemma BarSeedsWellFormed()
    ensures forall p :: p in BarSeeds ==> WellFormedSeed(p)
  {
  }

  lemma BebestiblesSeedsWellFormed()
    ensures forall p :: p in BebestiblesSeeds ==> WellFormedSeed(p)
  {
  }

  lemma MenuNinoSeedsWellFormed()
    ensures forall p :: p in MenuNinoSeeds ==> WellFormedSeed(p)
  {
  }

  /** Every seeded product is well formed. */
  lemma SeedProductsWellFormed()
    ensures forall p :: p in SeedProducts ==> WellFormedSeed(p)
  {
    MenuDelMarSeedsWellFormed();
    PescadosSeedsWellFormed();
    BarSeedsWellFormed();
    BebestiblesSeedsWellFormed();
    MenuNinoSeedsWellFormed();
  }

  /** `SeedTagCodes` lists the codes of `SeedTags`. */
  lemma SeedTagCodesMatch()
    ensures |SeedTagCodes| == |SeedTags|
    ensures forall i :: 0 <= i < |SeedTags| ==> SeedTags[i].code == SeedTagCodes[i]
  {
  }

  lemma MenuDelMarSeedsCodesMatch()
    ensures forall i :: 0 <= i < |MenuDelMarSeeds| ==> MenuDelMarSeeds[i].code == SeedProductCodes[0 + i]
  {
  }

  lemma PescadosSeedsCodesMatch()
    ensures forall i :: 0 <= i < |PescadosSeeds| ==> PescadosSeeds[i].code == SeedProductCodes[11 + i]
  {
  }

  lemma BarSeedsCodesMatch()
    ensures forall i :: 0 <= i < |BarSeeds| ==> BarSeeds[i].code == SeedProductCodes[20 + i]
  {
  }

  lemma BebestiblesSeedsCodesMatch()
    ensures forall i :: 0 <= i < |BebestiblesSeeds| ==> BebestiblesSeeds[i].code == SeedProductCodes[24 + i]
  {
  }

  lemma MenuNinoSeedsCodesMatch()
    ensures forall i :: 0 <= i < |MenuNinoSeeds| ==> MenuNinoSeeds[i].code == SeedProductCodes[28 + i]
  {
  }

  /** No two seeded tag definitions share a code. */
  lemma SeedTagCodesDistinct()
    ensures forall i, j :: 0 <= i < j < |SeedTagCodes| ==> SeedTagCodes[i] != SeedTagCodes[j]
  {
  }

  /** `SeedProductCodes` lists the codes of `SeedProducts`. */
  lemma SeedProductCodesMatch()
    ensures |SeedProductCodes| == |SeedProducts|
    ensures forall i :: 0 <= i < |SeedProducts| ==> SeedProducts[i].code == SeedProductCodes[i]
  {
    var a := MenuDelMarSeeds;
    var b := PescadosSeeds;
    var c := BarSeeds;
    var d := BebestiblesSeeds;
    var e := MenuNinoSeeds;
    assert SeedProducts == a + b + c + d + e;
    assert |a| == 11 && |b| == 9 && |c| == 4 && |d| == 4 && |e| == 2;
    forall i | 0 <= i < |SeedProducts|
      ensures SeedProducts[i].code == SeedProductCodes[i]
    {
      if i < 11 {
        MenuDelMarSeedsCodesMatch();
        assert SeedProducts[i] == a[i];
      } else if i < 20 {
        PescadosSeedsCodesMatch();
        assert SeedProducts[i] == b[i - 11];
      } else if i < 24 {
        BarSeedsCodesMatch();
        assert SeedProducts[i] == c[i - 20];
      } else if i < 28 {
        BebestiblesSeedsCodesMatch();
        assert SeedProducts[i] == d[i - 24];
      } else {
        MenuNinoSeedsCodesMatch();
        assert SeedProducts[i] == e[i - 28];
      }
    }
  }

  lemma SeedProductCodesDistinct()
    ensures forall i, j :: 0 <= i < j < |SeedProductCodes| ==> SeedProductCodes[i] != SeedProductCodes[j]
  {
  }

  /** No two seeded products share a code. */
  lemma SeedProductsDistinct()
    ensures DistinctCodes(SeedProducts)
  {
    SeedProductCodesMatch();
    SeedProductCodesDistinct();
  }

  // Each `create*Products` method is handed the category `run` created for it.
  lemma MenuDelMarSeedsInCategory()
    ensures |SeedCategories| == 5 && InCategory(MenuDelMarSeeds, SeedCategories[0].code)
  {
  }

  lemma PescadosSeedsInCategory()
    ensures |SeedCategories| == 5 && InCategory(PescadosSeeds, SeedCategories[1].code)
  {
  }

  lemma BarSeedsInCategory()
    ensures |SeedCategories| == 5 && InCategory(BarSeeds, SeedCategories[2].code)
  {
  }

  lemma BebestiblesSeedsInCategory()
    ensures |SeedCategories| == 5 && InCategory(BebestiblesSeeds, SeedCategories[3].code)
  {
  }

  lemma MenuNinoSeedsInCategory()
    ensures |SeedCategories| == 5 && InCategory(MenuNinoSeeds, SeedCategories[4].code)
  {
  }

  lemma SeededTagsDistinct()
    ensures forall i, j :: 0 <= i < j < |MenuTables.tags| ==> MenuTables.tags[i].code != MenuTables.tags[j].code
  {
    SeedTagCodesMatch();
    SeedTagCodesDistinct();
  }

  lemma SeededGroupsDistinct()
    ensures |MenuTables.groups| == 5
    ensures DistinctCodes(MenuTables.groups[0] + MenuTables.groups[1] + MenuTables.groups[2] + MenuTables.groups[3] + MenuTables.groups[4])
  {
    SeedProductsDistinct();
  }

  lemma SeededGroupsInCategories()
    ensures |MenuTables.categories| == 5 && |MenuTables.groups| == 5
    ensures forall g :: 0 <= g < 5 ==> InCategory(MenuTables.groups[g], MenuTables.categories[g].code)
  {
    MenuDelMarSeedsInCategory();
    PescadosSeedsInCategory();
    BarSeedsInCategory();
    BebestiblesSeedsInCategory();
    MenuNinoSeedsInCategory();
  }

  /** The seed tables never violate a unique `code` column. */
  lemma SeedTablesValid()
    ensures ValidTables(MenuTables)
  {
    SeededTagsDistinct();
    SeededGroupsDistinct();
    SeededGroupsInCategories();
  }
}
