/** The menu's hero section (`FeaturedSection.jsx`): the catch of the day and the featured
    ("most ordered") products, each card with its least option price, rank and emoji. */
module FeaturedSection {
  import opened Wrappers
  import opened Text
  import opened MenuService
  import Seed

  /** The section renders nothing when both lists are missing or empty. */
  predicate RendersNothing(featured: Option<seq<ProductDto>>, catchOfDay: Option<seq<ProductDto>>) {
    (featured.None? || |featured.value| == 0) && (catchOfDay.None? || |catchOfDay.value| == 0)
  }

  /** The least price of a non-empty list of options. */
  function LeastOptionPrice(options: seq<OptionDto>): (m: int)
    requires |options| > 0
    ensures forall i :: 0 <= i < |options| ==> m <= options[i].price
    ensures exists i :: 0 <= i < |options| && m == options[i].price
  {
    if |options| == 1 then options[0].price
    else
      var rest := LeastOptionPrice(options[1..]);
      assert forall i :: 1 <= i < |options| ==> options[i] == options[1..][i - 1];
      var k :| 0 <= k < |options[1..]| && rest == options[1..][k].price;
      assert rest == options[k + 1].price;
      if options[0].price <= rest then options[0].price else rest
  }

  /** `getMinPrice`: null without options, else `Math.min` of the option prices. */
  function GetMinPrice(p: ProductDto): (r: Option<int>)
    ensures r.None? <==> |p.options| == 0
    ensures r.Some? ==> forall i :: 0 <= i < |p.options| ==> r.value <= p.options[i].price
    ensures r.Some? ==> exists i :: 0 <= i < |p.options| && r.value == p.options[i].price
  {
    if |p.options| == 0 then None else Some(LeastOptionPrice(p.options))
  }

  /** Two least prices of the same options are the same price. */
  lemma LeastPriceUnique(d: ProductDto, least: Option<int>)
    requires least.None? <==> |d.options| == 0
    requires least.Some? ==> forall i :: 0 <= i < |d.options| ==> least.value <= d.options[i].price
    requires least.Some? ==> exists i :: 0 <= i < |d.options| && least.value == d.options[i].price
    ensures GetMinPrice(d) == least
  {
    var r := GetMinPrice(d);
    if r.Some? {
      var i :| 0 <= i < |d.options| && r.value == d.options[i].price;
      var j :| 0 <= j < |d.options| && least.value == d.options[j].price;
      assert r.value <= d.options[j].price && least.value <= d.options[i].price;
    }
  }

  /** The section's least price is the "from" price the menu service computed for the product. */
  lemma MinPriceMatchesService(p: ProductNode, language: Option<string>)
    requires MapProductToDto(p, language).Success?
    ensures GetMinPrice(MapProductToDto(p, language).value) == MapProductToDto(p, language).value.priceFrom
  {
    ProductDtoPriceFrom(p, language);
    var d := MapProductToDto(p, language).value;
    LeastPriceUnique(d, d.priceFrom);
  }

  /** `catchOfDay.slice(0, 5)`: the catch-of-the-day cards. */
  function CatchCards(catchOfDay: seq<ProductDto>): (r: seq<ProductDto>)
    ensures |r| <= 5 && |r| <= |catchOfDay| && r == catchOfDay[..|r|]
    ensures |catchOfDay| <= 5 ==> r == catchOfDay
  {
    if |catchOfDay| <= 5 then catchOfDay else catchOfDay[..5]
  }

  /** `product.tags.slice(0, 2)`: the tags on a featured card. */
  function FeaturedTags(p: ProductDto): (r: seq<TagDto>)
    ensures |r| <= 2 && |r| <= |p.tags| && r == p.tags[..|r|]
    ensures |p.tags| <= 2 ==> r == p.tags
  {
    if |p.tags| <= 2 then p.tags else p.tags[..2]
  }

  /** The rank badge "#n" of the featured card at `index`. */
  function RankLabel(index: nat): (r: nat)
    ensures r >= 1
  {
    index + 1
  }

  /** Only the first featured card wears the crown. */
  predicate HasCrown(index: nat) {
    index == 0
  }

  /** Rank labels are distinct, and the crowned card is the one labelled #1. */
  lemma RanksDistinct(i: nat, j: nat)
    ensures RankLabel(i) == RankLabel(j) <==> i == j
    ensures HasCrown(i) <==> RankLabel(i) == 1
  {
  }

  /** The tag colours on a featured card, amber when the tag has none of its own. */
  function FeaturedTagColors(t: TagDto): (r: (string, string))
    ensures r.0 != "" && r.1 != ""
    ensures t.backgroundColor.Some? && t.backgroundColor.value != "" ==> r.0 == t.backgroundColor.value
    ensures t.textColor.Some? && t.textColor.value != "" ==> r.1 == t.textColor.value
  {
    (OrElse(t.backgroundColor, "#fef3c7"), OrElse(t.textColor, "#92400e"))
  }

  const Oyster := "\U{1F9AA}"
  const Shell := "\U{1F41A}"
  const Shrimp := "\U{1F990}"
  const Crab := "\U{1F980}"
  /** The ceviche glyph as the file stores it: two replacement characters. */
  const Ceviche := "\U{FFFD}\U{FFFD}"
  const Stew := "\U{1F372}"
  const Lobster := "\U{1F99E}"

  /** The emoji chain of a featured card, tried in order on the lower-cased name, as written:
      it looks for the singular, accented "ostión" and "camarón". */
  function FeaturedEmojiAsWritten(name: string): (r: string)
    ensures r == Lobster <==>
      var l := ToLower(name);
      !Contains(l, "ostión") && !Contains(l, "macha") && !Contains(l, "camarón") &&
      !Contains(l, "jaiba") && !Contains(l, "cangrejo") && !Contains(l, "ceviche") &&
      !Contains(l, "caldillo") && !Contains(l, "paila")
  {
    var l := ToLower(name);
    if Contains(l, "ostión") then Oyster
    else if Contains(l, "macha") then Shell
    else if Contains(l, "camarón") then Shrimp
    else if Contains(l, "jaiba") || Contains(l, "cangrejo") then Crab
    else if Contains(l, "ceviche") then Ceviche
    else if Contains(l, "caldillo") || Contains(l, "paila") then Stew
    else Lobster
  }

  /** The emoji chain with the plural, unaccented stems "ostion" and "camaron" accepted too,
      so that the menu's own "Ostiones" and "Camarones" get their shellfish. */
  function FeaturedEmoji(name: string): (r: string)
    ensures r == Lobster <==>
      var l := ToLower(name);
      !Contains(l, "ostión") && !Contains(l, "ostion") && !Contains(l, "macha") &&
      !Contains(l, "camarón") && !Contains(l, "camaron") &&
      !Contains(l, "jaiba") && !Contains(l, "cangrejo") && !Contains(l, "ceviche") &&
      !Contains(l, "caldillo") && !Contains(l, "paila")
  {
    var l := ToLower(name);
    if Contains(l, "ostión") || Contains(l, "ostion") then Oyster
    else if Contains(l, "macha") then Shell
    else if Contains(l, "camarón") || Contains(l, "camaron") then Shrimp
    else if Contains(l, "jaiba") || Contains(l, "cangrejo") then Crab
    else if Contains(l, "ceviche") then Ceviche
    else if Contains(l, "caldillo") || Contains(l, "paila") then Stew
    else Lobster
  }

  /** The corrected chain only differs from the written one on names with the new stems, and
      there it gives the oyster or the shrimp. */
  lemma CorrectedEmojiOnlyAddsStems(name: string)
    ensures FeaturedEmoji(name) != FeaturedEmojiAsWritten(name) ==>
      FeaturedEmojiAsWritten(name) != Oyster && FeaturedEmoji(name) in {Oyster, Shrimp}
    ensures !Contains(ToLower(name), "ostion") && !Contains(ToLower(name), "camaron") ==>
      FeaturedEmoji(name) == FeaturedEmojiAsWritten(name)
  {
  }

  /** A text lacking one of the characters of `sub` does not contain `sub`. */
  lemma MissingCharNotContained(s: string, sub: string, k: int)
    requires 0 <= k < |sub| && sub[k] !in s
    ensures !Contains(s, sub)
  {
    forall i | 0 <= i && i + |sub| <= |s|
      ensures !OccursAt(s, sub, i)
    {
      assert s[i..i + |sub|][k] == s[i + k];
    }
  }

  /** A lower-cased name without the letters 'ó', 'h', 'j', 'v', 'd' and 'p' holds none of
      the written chain's keys. */
  lemma NoKeyWithoutKeyLetters(l: string)
    requires 'ó' !in l && 'h' !in l && 'j' !in l && 'v' !in l && 'd' !in l && 'p' !in l
    ensures !Contains(l, "ostión") && !Contains(l, "macha")
    ensures !Contains(l, "camarón") && !Contains(l, "jaiba")
    ensures !Contains(l, "cangrejo") && !Contains(l, "ceviche")
    ensures !Contains(l, "caldillo") && !Contains(l, "paila")
  {
    MissingCharNotContained(l, "ostión", 4);
    MissingCharNotContained(l, "macha", 3);
    MissingCharNotContained(l, "camarón", 5);
    MissingCharNotContained(l, "jaiba", 0);
    MissingCharNotContained(l, "cangrejo", 6);
    MissingCharNotContained(l, "ceviche", 2);
    MissingCharNotContained(l, "caldillo", 3);
    MissingCharNotContained(l, "paila", 0);
  }

  /** A name none of whose lower-cased letters is a key letter gets the lobster from the
      written chain. */
  lemma KeylessNameGetsLobster(name: string)
    requires var l := ToLower(name);
      'ó' !in l && 'h' !in l && 'j' !in l && 'v' !in l && 'd' !in l && 'p' !in l
    ensures FeaturedEmojiAsWritten(name) == Lobster
  {
    NoKeyWithoutKeyLetters(ToLower(name));
  }

  /** A name starting with "ostion" gets the oyster from the corrected chain. */
  lemma OstionStemGetsOyster(name: string)
    requires StartsWith(ToLower(name), "ostion")
    ensures FeaturedEmoji(name) == Oyster
  {
    assert OccursAt(ToLower(name), "ostion", 0);
  }

  /** A name starting with "camaron" and without the letters 't' and 'h' gets the shrimp from
      the corrected chain. */
  lemma CamaronStemGetsShrimp(name: string)
    requires StartsWith(ToLower(name), "camaron")
    requires 't' !in ToLower(name) && 'h' !in ToLower(name)
    ensures FeaturedEmoji(name) == Shrimp
  {
    var l := ToLower(name);
    MissingCharNotContained(l, "ostión", 2);
    MissingCharNotContained(l, "ostion", 2);
    MissingCharNotContained(l, "macha", 3);
    assert OccursAt(l, "camaron", 0);
  }

  /** The lower-cased names of the seeded "Ostiones" and "Camarones". */
  lemma SeededShellfishLowerCased(p: Seed.ProductSeed)
    requires p == Seed.Ostiones || p == Seed.Camarones
    ensures p == Seed.Ostiones ==> ToLower(p.nameEs) == "ostiones"
    ensures p == Seed.Camarones ==> ToLower(p.nameEs) == "camarones"
  {
  }

  /** "ostiones" starts with the stem "ostion"; "camarones" starts with "camaron" and has
      neither 't' nor 'h'. */
  lemma ShellfishStems(l: string)
    requires l == "ostiones" || l == "camarones"
    ensures l == "ostiones" ==> StartsWith(l, "ostion")
    ensures l == "camarones" ==> StartsWith(l, "camaron") && 't' !in l && 'h' !in l
  {
  }

  /** "ostiones" and "camarones" hold none of the key letters. */
  lemma ShellfishLackKeyLetters(l: string)
    requires l == "ostiones" || l == "camarones"
    ensures 'ó' !in l && 'h' !in l && 'j' !in l && 'v' !in l && 'd' !in l && 'p' !in l
  {
  }

  /** The seeded "Ostiones" and "Camarones" are featured, yet the written chain gives both
      the lobster. */
  lemma SeededShellfishGetLobster(p: Seed.ProductSeed)
    requires p == Seed.Ostiones || p == Seed.Camarones
    ensures p.featured && FeaturedEmojiAsWritten(p.nameEs) == Lobster
  {
    SeededShellfishLowerCased(p);
    ShellfishLackKeyLetters(ToLower(p.nameEs));
    KeylessNameGetsLobster(p.nameEs);
  }

  /** With the corrected chain the seeded "Ostiones" get the oyster and "Camarones" the shrimp. */
  lemma SeededShellfishCorrected(p: Seed.ProductSeed)
    requires p == Seed.Ostiones || p == Seed.Camarones
    ensures p == Seed.Ostiones ==> FeaturedEmoji(p.nameEs) == Oyster
    ensures p == Seed.Camarones ==> FeaturedEmoji(p.nameEs) == Shrimp
  {
    SeededShellfishLowerCased(p);
    ShellfishStems(ToLower(p.nameEs));
    if p == Seed.Ostiones {
      OstionStemGetsOyster(p.nameEs);
    } else {
      CamaronStemGetsShrimp(p.nameEs);
    }
  }
}
