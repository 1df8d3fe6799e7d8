/** The menu's product card (`ProductCard.jsx`): the values it derives from a product of the
    public menu, and its expanded/collapsed state. */
module ProductCard {
  import opened Wrappers
  import opened MenuService
  import Formatters

  /** `product.options.length > 1`. */
  predicate HasMultipleOptions(p: ProductDto) {
    |p.options| > 1
  }

  /** `product.priceFrom || product.options?.[0]?.price`: the product's own "from" price
      unless it is missing or 0, else the first option's price, else undefined. */
  function CardPriceFrom(p: ProductDto): (r: Option<int>)
    ensures Formatters.Truthy(p.priceFrom) ==> r == p.priceFrom
    ensures !Formatters.Truthy(p.priceFrom) && |p.options| > 0 ==> r == Some(p.options[0].price)
    ensures !Formatters.Truthy(p.priceFrom) && |p.options| == 0 ==> r == None
  {
    if Formatters.Truthy(p.priceFrom) then p.priceFrom
    else if |p.options| > 0 then Some(p.options[0].price)
    else None
  }

  /** An option shows a struck-through original price when that price is truthy and above
      the current one. */
  predicate OptionShowsDiscount(o: OptionDto) {
    Formatters.Truthy(o.originalPrice) && o.originalPrice.value > o.price
  }

  /** The card's discount badge looks at the first option only. */
  predicate CardHasDiscount(p: ProductDto) {
    |p.options| > 0 && OptionShowsDiscount(p.options[0])
  }

  /** The "star product" emphasis: the JARDIN_MAR code or a TAMANO_MACHO / IMPERDIBLE tag. */
  function IsStarProduct(p: ProductDto): (r: bool)
    ensures r <==> p.code == "JARDIN_MAR" ||
                   exists i :: 0 <= i < |p.tags| && p.tags[i].code in {"TAMANO_MACHO", "IMPERDIBLE"}
  {
    p.code == "JARDIN_MAR" || HasStarTag(p.tags)
  }

  /** `tags.some(t => t.code === 'TAMANO_MACHO' || t.code === 'IMPERDIBLE')`. */
  function HasStarTag(tags: seq<TagDto>): (r: bool)
    ensures r <==> exists i :: 0 <= i < |tags| && tags[i].code in {"TAMANO_MACHO", "IMPERDIBLE"}
  {
    if |tags| == 0 then false
    else
      var rest := HasStarTag(tags[1..]);
      assert rest <==> exists i :: 1 <= i < |tags| && tags[i].code in {"TAMANO_MACHO", "IMPERDIBLE"} by {
        if rest {
          var j :| 0 <= j < |tags[1..]| && tags[1..][j].code in {"TAMANO_MACHO", "IMPERDIBLE"};
          assert tags[j + 1] == tags[1..][j];
        }
        if exists i :: 1 <= i < |tags| && tags[i].code in {"TAMANO_MACHO", "IMPERDIBLE"} {
          var j :| 1 <= j < |tags| && tags[j].code in {"TAMANO_MACHO", "IMPERDIBLE"};
          assert tags[1..][j - 1] == tags[j];
        }
      }
      tags[0].code in {"TAMANO_MACHO", "IMPERDIBLE"} || rest
  }

  /** The number of flame icons: the spicy level when it is positive, otherwise none. */
  function Flames(p: ProductDto): (n: nat)
    ensures p.spicyLevel.Some? && p.spicyLevel.value > 0 ==> n == p.spicyLevel.value
    ensures p.spicyLevel.None? || p.spicyLevel.value <= 0 ==> n == 0
  {
    if p.spicyLevel.Some? && p.spicyLevel.value > 0 then p.spicyLevel.value else 0
  }

  /** `product.tags.slice(0, 3)`: the tags shown. */
  function ShownTags(p: ProductDto): (r: seq<TagDto>)
    ensures |r| <= 3 && |r| <= |p.tags| && r == p.tags[..|r|]
    ensures |p.tags| <= 3 ==> r == p.tags
  {
    if |p.tags| <= 3 then p.tags else p.tags[..3]
  }

  /** Serving information appears only for a single-option product serving more than one. */
  predicate ShowsServing(p: ProductDto) {
    !HasMultipleOptions(p) && |p.options| > 0 &&
    p.options[0].servesPeople.Some? && p.options[0].servesPeople.value > 1
  }

  /** For a product the menu service mapped, the card's discount badge agrees with the
      service's `hasDiscount` flag on the first option whenever its price is not negative. */
  lemma CardDiscountMatchesService(o: OptionNode, language: Option<string>)
    requires o.row.price >= 0
    requires MapOptionToDto(o, language).Success?
    ensures OptionShowsDiscount(MapOptionToDto(o, language).value) <==> MapOptionToDto(o, language).value.hasDiscount
  {
    OptionDtoFaithful(o, language);
  }

  /** For a product the menu service mapped, the card's "from" price is the service's least
      option price, unless that price is 0, and is absent exactly when there are no options. */
  lemma CardPriceFromIsLeast(p: ProductNode, language: Option<string>)
    requires MapProductToDto(p, language).Success?
    ensures var d := MapProductToDto(p, language).value;
      CardPriceFrom(d).None? <==> |d.options| == 0
    ensures var d := MapProductToDto(p, language).value;
      d.priceFrom != Some(0) ==> CardPriceFrom(d) == d.priceFrom
    ensures var d := MapProductToDto(p, language).value;
      d.priceFrom != Some(0) && |d.options| > 0 ==>
        forall i :: 0 <= i < |d.options| ==> CardPriceFrom(d).value <= d.options[i].price
  {
    ProductDtoPriceFrom(p, language);
    CardPriceFromOfLeast(MapProductToDto(p, language).value);
  }

  /** The card's "from" price of a DTO whose `priceFrom` is its least option price. */
  lemma CardPriceFromOfLeast(d: ProductDto)
    requires d.priceFrom.None? <==> |d.options| == 0
    requires d.priceFrom.Some? ==> forall i :: 0 <= i < |d.options| ==> d.priceFrom.value <= d.options[i].price
    ensures CardPriceFrom(d).None? <==> |d.options| == 0
    ensures d.priceFrom != Some(0) ==> CardPriceFrom(d) == d.priceFrom
    ensures d.priceFrom != Some(0) && |d.options| > 0 ==>
      forall i :: 0 <= i < |d.options| ==> CardPriceFrom(d).value <= d.options[i].price
  {
  }

  class Card {
    const product: ProductDto
    const compact: bool
    var isExpanded: bool

    constructor (product: ProductDto, compact: bool)
      ensures this.product == product && this.compact == compact && !isExpanded
    {
      this.product := product;
      this.compact := compact;
      isExpanded := false;
    }

    /** A click expands or collapses the card, but only a full-size card with several options. */
    method Click()
      modifies this
      ensures !compact && HasMultipleOptions(product) ==> isExpanded == !old(isExpanded)
      ensures compact || !HasMultipleOptions(product) ==> isExpanded == old(isExpanded)
    {
      if !compact && HasMultipleOptions(product) {
        isExpanded := !isExpanded;
      }
    }

    /** The "from" hint under the price: several options and not expanded. */
    predicate ShowsFromHint()
      reads this
    {
      HasMultipleOptions(product) && !isExpanded
    }
  }

  /** A card that cannot expand stays collapsed whatever the clicks. */
  method SingleOptionNeverExpands(product: ProductDto, clicks: nat) returns (expanded: bool)
    requires |product.options| <= 1
    ensures !expanded
  {
    var card := new Card(product, false);
    var i := 0;
    while i < clicks
      invariant 0 <= i <= clicks && !card.isExpanded && card.product == product
    {
      card.Click();
      i := i + 1;
    }
    expanded := card.isExpanded;
  }
}
