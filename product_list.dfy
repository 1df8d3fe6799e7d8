/** The product list of the public menu (`ProductList.jsx`): which of its three states it
    shows for a category, the category's configuration and description, the count badge,
    the staggered card animation and the fish note. */
module ProductList {
  import opened Wrappers
  import opened MenuService
  import Seed

  /** The fixed look of a category: icon, emoji, gradient, light background and the
      Spanish and English fallback descriptions. */
  datatype CategoryConfig = CategoryConfig(
    icon: string, emoji: string, gradient: string, lightBg: string,
    descriptionEs: string, descriptionEn: string)

  const MenuConfig := CategoryConfig("Anchor", "\U{1F990}", "from-cyan-500 to-blue-600", "bg-cyan-50",
    "Los tesoros del mar de Caldera", "Treasures from Caldera sea")
  const PescadosConfig := CategoryConfig("Fish", "\U{1F41F}", "from-blue-500 to-indigo-600", "bg-blue-50",
    "Pescados frescos con arroz, ensalada, tomate y papas", "Fresh fish with rice, salad, tomato and fries")
  const BarConfig := CategoryConfig("Wine", "\U{1F377}", "from-purple-500 to-pink-600", "bg-purple-50",
    "Cervezas, vinos y tragos", "Beers, wines and cocktails")
  const BebestiblesConfig := CategoryConfig("Coffee", "\U{1F964}", "from-amber-500 to-orange-600", "bg-amber-50",
    "Bebidas y refrescos", "Beverages and soft drinks")
  const MenuNinoConfig := CategoryConfig("Baby", "\U{1F476}", "from-pink-500 to-rose-600", "bg-pink-50",
    "Especial para los peque\U{f1}os marineros", "Special for little sailors")

  /** `categoryConfig`, keyed by category code. */
  const CategoryConfigs: map<string, CategoryConfig> := map[
    "MENU" := MenuConfig, "PESCADOS" := PescadosConfig, "BAR" := BarConfig,
    "BEBESTIBLES" := BebestiblesConfig, "MENU_NINO" := MenuNinoConfig]

  /** `categoryConfig[category.code] || categoryConfig.MENU`. */
  function ConfigFor(code: string): (c: CategoryConfig)
    ensures code in CategoryConfigs ==> c == CategoryConfigs[code]
    ensures code !in CategoryConfigs ==> c == MenuConfig
  {
    if code in CategoryConfigs then CategoryConfigs[code] else MenuConfig
  }

  /** `config.description[language]`: undefined for a language other than 'es' and 'en'. */
  function ConfigDescription(c: CategoryConfig, language: string): (r: Option<string>)
    ensures r.Some? <==> language == "es" || language == "en"
    ensures language == "es" ==> r == Some(c.descriptionEs)
    ensures language == "en" ==> r == Some(c.descriptionEn)
  {
    if language == "es" then Some(c.descriptionEs)
    else if language == "en" then Some(c.descriptionEn)
    else None
  }

  /** `category.description || config.description[language]`. */
  function CategoryDescription(category: CategoryDto, language: string): (r: Option<string>)
    ensures category.description.Some? && category.description.value != "" ==> r == category.description
    ensures category.description.None? || category.description.value == "" ==>
      r == ConfigDescription(ConfigFor(category.code), language)
  {
    if category.description.Some? && category.description.value != "" then category.description
    else ConfigDescription(ConfigFor(category.code), language)
  }

  /** `Math.min(index * 50, 300)`: the animation delay of the card at `index`, in ms. */
  function AnimationDelay(index: nat): (d: nat)
    ensures d <= 300 && d <= index * 50
    ensures d == 300 || d == index * 50
  {
    if index * 50 <= 300 then index * 50 else 300
  }

  /** Delays never decrease along the list, reach the cap at the seventh card and stay there. */
  lemma AnimationDelayMonotone(i: nat, j: nat)
    requires i <= j
    ensures AnimationDelay(i) <= AnimationDelay(j)
    ensures i >= 6 ==> AnimationDelay(i) == 300
    ensures i < 6 ==> AnimationDelay(i) < 300
  {
  }

  /** What the list renders. */
  datatype ListView =
    | SelectCategory(message: string)
    | NoProducts(message: string)
    | Listing(config: CategoryConfig, description: Option<string>, count: nat,
              cards: seq<ProductDto>, delays: seq<nat>, fishNote: bool)

  /** `language === 'es' ? es : en`: any language other than 'es' reads English. */
  function Pick(language: string, es: string, en: string): string {
    if language == "es" then es else en
  }

  /** `ProductList({category})`. */
  function Render(category: Option<CategoryDto>, language: string): (v: ListView)
    ensures v.SelectCategory? <==> category.None?
    ensures v.NoProducts? <==>
      category.Some? && (category.value.products.None? || |category.value.products.value| == 0)
    ensures v.Listing? ==>
      && v.config == ConfigFor(category.value.code)
      && v.description == CategoryDescription(category.value, language)
      && v.cards == category.value.products.value
      && v.count == |v.cards| > 0
      && |v.delays| == |v.cards|
      && (forall i :: 0 <= i < |v.delays| ==> v.delays[i] == AnimationDelay(i))
      && (v.fishNote <==> category.value.code == "PESCADOS")
  {
    if category.None? then
      SelectCategory(Pick(language, "Selecciona una categor\U{ed}a", "Select a category"))
    else if category.value.products.None? || |category.value.products.value| == 0 then
      NoProducts(Pick(language, "No hay productos disponibles en esta categor\U{ed}a",
                                "No products available in this category"))
    else
      var c := category.value;
      var ps := c.products.value;
      Listing(ConfigFor(c.code), CategoryDescription(c, language), |ps|, ps,
              seq(|ps|, i requires 0 <= i < |ps| => AnimationDelay(i)), c.code == "PESCADOS")
  }

  /** The menu service's category DTO with its products lists as many cards as its
      `productCount`; one without visible products shows the "no products" state. */
  lemma ServiceCategoryCount(c: CategoryDto, language: string)
    requires c.products.Some? && c.productCount == |c.products.value|
    ensures Render(Some(c), language).Listing? ==> Render(Some(c), language).count == c.productCount
    ensures c.productCount == 0 ==> Render(Some(c), language).NoProducts?
  {
  }

  /** The seed's first category is coded MENU_DEL_MAR, not MENU, so it is shown with the MENU
      configuration by the fallback; the other four seeded codes have their own. */
  lemma SeededCategoryConfigs()
    ensures Seed.CategoryMenuDelMar !in CategoryConfigs
    ensures ConfigFor(Seed.CategoryMenuDelMar) == MenuConfig
    ensures ConfigFor(Seed.CategoryPescados) == PescadosConfig
    ensures ConfigFor(Seed.CategoryBar) == BarConfig
    ensures ConfigFor(Seed.CategoryBebestibles) == BebestiblesConfig
    ensures ConfigFor(Seed.CategoryMenuNino) == MenuNinoConfig
  {
  }
}
