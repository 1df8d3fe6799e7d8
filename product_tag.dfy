/** The menu's tag badge (`ProductTag.jsx`): its icon lookup with fallback, the choice between
    a gradient and a solid badge, the gradient of each tag type and the size classes. */
module ProductTag {
  import opened Wrappers
  import opened Text
  import opened Entities
  import MenuService
  import Seed

  /** The lucide icons of `iconMap`. */
  datatype Icon = Users | Utensils | Star | TagIcon | Share2 | Flame | Home | Anchor | Leaf
                | TrendingUp | Maximize | Scale | Zap | Award | ChefHat | Heart | ThumbsUp
                | Sparkles | Crown

  /** `iconMap`: icon names as the backend stores them, several names sharing one icon. */
  const IconMap: map<string, Icon> := map[
    "users" := Users, "utensils" := Utensils, "star" := Star, "tag" := TagIcon,
    "share-2" := Share2, "share" := Share2, "flame" := Flame, "fire" := Flame,
    "home" := Home, "anchor" := Anchor, "leaf" := Leaf, "plate" := Utensils,
    "trending-up" := TrendingUp, "maximize" := Maximize, "scale" := Scale, "zap" := Zap,
    "award" := Award, "chef-hat" := ChefHat, "heart" := Heart, "thumbs-up" := ThumbsUp,
    "sparkles" := Sparkles, "crown" := Crown]

  /** `iconMap[tag.iconName] || Tag`: the mapped icon, or the Tag icon for a missing or
      unknown name. */
  function IconFor(iconName: Option<string>): (r: Icon)
    ensures iconName.Some? && iconName.value in IconMap ==> r == IconMap[iconName.value]
    ensures iconName.None? || iconName.value !in IconMap ==> r == TagIcon
  {
    if iconName.Some? && iconName.value in IconMap then IconMap[iconName.value] else TagIcon
  }

  /** The Tag icon appears only for a missing or unknown name, or for the name "tag" itself. */
  lemma TagIconOnlyAsFallback(iconName: Option<string>)
    ensures IconFor(iconName) == TagIcon <==>
      iconName.None? || iconName.value !in IconMap || iconName.value == "tag"
  {
  }

  /** The icon names the seed's tag definitions use. */
  const SeedIconNames: set<string> :=
    {"scale", "maximize", "zap", "users", "share-2", "trending-up", "award", "home", "flame", "chef-hat"}

  /** Each seed icon name is a key of `iconMap` other than "tag". */
  lemma SeedIconNamesMapped(n: string)
    requires n in SeedIconNames
    ensures n in IconMap && IconMap[n] != TagIcon
  {
  }

  /** Every icon name the seed gives a tag definition is in `iconMap`, so no seeded tag falls
      back to the Tag icon. */
  lemma SeededTagIconsKnown()
    ensures forall i :: 0 <= i < |Seed.SeedTags| ==>
      Seed.SeedTags[i].iconName in IconMap && IconFor(Some(Seed.SeedTags[i].iconName)) != TagIcon
  {
    forall i | 0 <= i < |Seed.SeedTags|
      ensures Seed.SeedTags[i].iconName in IconMap && IconFor(Some(Seed.SeedTags[i].iconName)) != TagIcon
    {
      assert Seed.SeedTags[i].iconName in SeedIconNames;
      SeedIconNamesMapped(Seed.SeedTags[i].iconName);
    }
  }

  /** The tag object as the badge reads it: `important` (by truthiness) and `type` are looked
      up on it besides the fields the public DTO carries. */
  datatype TagProps = TagProps(
    text: string,
    iconName: Option<string>,
    important: bool,
    kind: Option<string>,
    backgroundColor: Option<string>,
    textColor: Option<string>)

  /** `useGradient`: an important tag, or one whose type is PORTION or SHARING. */
  predicate UseGradient(p: TagProps) {
    p.important || p.kind == Some("PORTION") || p.kind == Some("SHARING")
  }

  const GradientPortion := "from-emerald-500 to-green-600"
  const GradientSharing := "from-purple-500 to-violet-600"
  const GradientValue := "from-amber-500 to-orange-600"
  const GradientSpecial := "from-rose-500 to-red-600"
  const GradientDietary := "from-lime-500 to-green-600"
  const GradientPromo := "from-cyan-500 to-blue-600"
  const GradientDefault := "from-gray-500 to-slate-600"

  /** The six tag type names the chain tests for. */
  const TagTypeNames: set<Option<string>> :=
    {Some("PORTION"), Some("SHARING"), Some("VALUE"), Some("SPECIAL"), Some("DIETARY"), Some("PROMO")}

  /** `getGradientClass`: the if-chain over the six tag type names, the default otherwise. */
  function GradientClass(kind: Option<string>): (r: string)
    ensures kind !in TagTypeNames ==> r == GradientDefault
  {
    if kind == Some("PORTION") then GradientPortion
    else if kind == Some("SHARING") then GradientSharing
    else if kind == Some("VALUE") then GradientValue
    else if kind == Some("SPECIAL") then GradientSpecial
    else if kind == Some("DIETARY") then GradientDietary
    else if kind == Some("PROMO") then GradientPromo
    else GradientDefault
  }

  /** Each of the six tag types has its own gradient, none of them the default one. */
  lemma GradientPerTagType(s: TagType, t: TagType)
    ensures GradientClass(Some(TagTypeName(s))) != GradientDefault
    ensures GradientClass(Some(TagTypeName(s))) == GradientClass(Some(TagTypeName(t))) <==> s == t
  {
  }

  /** `sizeClasses[size]`: the text classes of a badge size, undefined for any other size. */
  function SizeClasses(size: string): (r: Option<string>)
    ensures r.Some? <==> size in {"small", "normal", "large"}
  {
    if size == "small" then Some("text-[10px] px-1.5 py-0.5 gap-0.5")
    else if size == "normal" then Some("text-xs px-2.5 py-1 gap-1")
    else if size == "large" then Some("text-sm px-3 py-1.5 gap-1.5")
    else None
  }

  /** `iconSizes[size]`: the icon classes of a badge size, undefined for any other size. */
  function IconSizes(size: string): (r: Option<string>)
    ensures r.Some? <==> size in {"small", "normal", "large"}
  {
    if size == "small" then Some("w-2.5 h-2.5")
    else if size == "normal" then Some("w-3.5 h-3.5")
    else if size == "large" then Some("w-4 h-4")
    else None
  }

  /** The three sizes have distinct text and icon classes. */
  lemma SizesDistinct(a: string, b: string)
    requires a in {"small", "normal", "large"} && b in {"small", "normal", "large"}
    ensures SizeClasses(a) == SizeClasses(b) <==> a == b
    ensures IconSizes(a) == IconSizes(b) <==> a == b
  {
  }

  /** What the badge renders. */
  datatype Badge =
    | GradientBadge(gradient: string, sizeClass: Option<string>, iconClass: Option<string>,
                    icon: Icon, text: string)
    | SolidBadge(background: string, foreground: string, sizeClass: Option<string>,
                 iconClass: Option<string>, icon: Icon, text: string)

  /** The default size prop. */
  const DefaultSize := "normal"

  /** `ProductTag({tag, size})`. */
  function Render(p: TagProps, size: string): (b: Badge)
    ensures b.GradientBadge? <==> UseGradient(p)
    ensures b.icon == IconFor(p.iconName) && b.text == p.text
    ensures b.sizeClass == SizeClasses(size) && b.iconClass == IconSizes(size)
    ensures b.GradientBadge? ==> b.gradient == GradientClass(p.kind)
    ensures b.SolidBadge? ==> b.background == OrElse(p.backgroundColor, "#E5E7EB")
    ensures b.SolidBadge? ==> b.foreground == OrElse(p.textColor, "#374151")
  {
    if UseGradient(p) then
      GradientBadge(GradientClass(p.kind), SizeClasses(size), IconSizes(size), IconFor(p.iconName), p.text)
    else
      SolidBadge(OrElse(p.backgroundColor, "#E5E7EB"), OrElse(p.textColor, "#374151"),
                 SizeClasses(size), IconSizes(size), IconFor(p.iconName), p.text)
  }

  /** The badge as the menu card passes it a public tag DTO, as written: the DTO has no
      `important` and no `type` field (its type is `tagType`), so both read as undefined. */
  function PropsOfDtoAsWritten(t: MenuService.TagDto): (p: TagProps)
    ensures !p.important && p.kind.None?
    ensures p.iconName == t.iconName && p.text == t.text
  {
    TagProps(t.text, t.iconName, false, None, t.backgroundColor, t.textColor)
  }

  /** As written, no tag coming from the public menu ever gets a gradient, whatever its type:
      a PORTION or SHARING tag renders as a solid badge. */
  lemma DtoTagsNeverGradientAsWritten(t: MenuService.TagDto, size: string)
    ensures !UseGradient(PropsOfDtoAsWritten(t))
    ensures Render(PropsOfDtoAsWritten(t), size).SolidBadge?
  {
  }

  /** The badge reading the DTO's `tagType` as the tag's type. */
  function PropsOfDto(t: MenuService.TagDto): (p: TagProps)
    ensures p.kind == Some(t.tagType) && !p.important
    ensures p.iconName == t.iconName && p.text == t.text
  {
    TagProps(t.text, t.iconName, false, Some(t.tagType), t.backgroundColor, t.textColor)
  }

  /** Reading `tagType`, a tag of type PORTION or SHARING gets its type's gradient and every
      other type the solid badge in its own colours. */
  lemma DtoTagGradientByType(t: MenuService.TagDto, ty: TagType, size: string)
    requires t.tagType == TagTypeName(ty)
    ensures Render(PropsOfDto(t), size).GradientBadge? <==> ty == PORTION || ty == SHARING
    ensures Render(PropsOfDto(t), size).GradientBadge? ==>
      Render(PropsOfDto(t), size).gradient == GradientClass(Some(TagTypeName(ty))) &&
      Render(PropsOfDto(t), size).gradient != GradientDefault
  {
    GradientPerTagType(ty, ty);
  }
}
