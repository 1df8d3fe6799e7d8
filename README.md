# El Macho menu, modelled in Dafny

El Macho is a digital menu for a seafood restaurant. A Spring Boot backend serves the public menu in Spanish or English and an admin API. A React frontend shows the menu to guests and lets staff edit products. This project models the rules of both halves and proves what they promise.

Backend:

- **Entities** (`entities.dfy`): the column values of categories, products, options and tag definitions. It also covers the language getters every entity shares (English only for a case-insensitive "en"), the discount of an option (`hasDiscount`, `getDiscountPercentage` with `BigDecimal` HALF_UP rounding, in `rounding.dfy`), the timestamp hooks, and `Product.addOption`/`addTag` as methods on classes.
- **Menu service** (`menu_service.dfy`): the public projection from the stored entity graph to the DTOs. It filters to active and available, sorts stably by display order, takes the least option price as `priceFrom`, and covers the by-category lookup and the product-list endpoints. `seqs.dfy` holds the filter, the stable sort and the minimum it is built from.
- **Admin service** (`admin_service.dfy`): a class over tables keyed by id, with create, update, toggle and price operations and their not-found and duplicate-code errors. Table invariants say every product's category, options and tag links resolve.
- **Admin request bodies** (`admin_dtos.dfy`): their Jakarta constraints as predicates, and the field initialisers a body that leaves a field out keeps.
- **Seed loader** (`seed.dfy`, `data_loader.dfy`, `seeded_menu.dfy`): the menu that `DataLoader` writes at start-up, first as data, then as the builder methods that number options and tags and skip unknown tag codes. Facts about the seeded menu are proved over both.

Frontend:

- **Menu helpers**:
  - the price and discount helpers (`formatters.js`);
  - the translation tables and their dotted-key lookup (`translations.js`);
  - the product card, option picker, featured section, tag badge and product list.
- **Admin pages**: the dashboard's filter, counters and handlers; the product editor's form state, `parseInt`-based price parsing and submit flow.
- **Authentication**: the admin client's credential state, with `btoa` and the server's reading of an HTTP Basic credential (`base64.dfy`, section 4 of RFC 4648 and section 2 of RFC 7617). The server decodes the credential's bytes as UTF-8, Spring Security's default for `httpBasic` (`utf8.dfy`), while `btoa` sends Latin-1 bytes, so only 7-bit credentials are read back as typed. Also the authentication context and the route guards of `main.jsx`.
- **Small state machines**: the public page's menu loading, silent refresh, language toggle and waiter-call cooldown; the toast list; the accessibility settings and text-size stepper; pull-to-refresh.

Stateful code (entity hooks, the admin store, the seed loader and the React state holders) is modelled as classes whose methods state the new state. Pure derivations are functions. Fetch results, clock readings, touch coordinates and browser storage are parameters or fields.

Some code-level facts the model follows:

- Both the backend and the frontend compute a discount percentage. In exact arithmetic they agree when 0 < price < original (`Formatters.DiscountAgreesWithBackend`); the frontend's floating-point division can still fall one short at a decimal tie (see "Left out"). They differ for a free option (`Formatters.FreeOptionDiscountDiffers`): the backend says 100 and the frontend 0.
- The seed's first category is coded `MENU_DEL_MAR`. The product list has no configuration for that code, so it falls back to the `MENU` look (`ProductList.SeededCategoryConfigs`).

## Model

| member | source | states |
|---|---|---|
| Entities.Localized | backend/src/main/java/com/elmacho/carta/entity/ProductOption.java:90-96 | the English value exactly for the four spellings of "en" (ignoring case), the Spanish value for any other language, null included |
| Entities.CategoryRow.Name | backend/src/main/java/com/elmacho/carta/entity/Category.java:75-77 | `nameEn` exactly when the language is "en" ignoring case, `nameEs` for "es", any other code and null |
| Entities.CategoryRow.Description | backend/src/main/java/com/elmacho/carta/entity/Category.java:79-81 | same language rule as the name, on the descriptions |
| Entities.ProductRow.Name | backend/src/main/java/com/elmacho/carta/entity/Product.java:101-103 | `nameEn` exactly for a case-insensitive "en", otherwise `nameEs` |
| Entities.ProductRow.Description | backend/src/main/java/com/elmacho/carta/entity/Product.java:105-107 | same rule on the descriptions |
| Entities.ProductRow.Allergens | backend/src/main/java/com/elmacho/carta/entity/Product.java:109-111 | same rule on the allergen texts |
| Entities.TagDefRow.Text | backend/src/main/java/com/elmacho/carta/entity/TagDefinition.java:70-72 | `textEn` exactly when the language equals "en" ignoring case, `textEs` for every other value, null included |
| Entities.OptionRow.Name | backend/src/main/java/com/elmacho/carta/entity/ProductOption.java:90-92 | `nameEn` exactly for a case-insensitive "en", otherwise `nameEs` |
| Entities.OptionRow.Description | backend/src/main/java/com/elmacho/carta/entity/ProductOption.java:94-96 | same rule on the descriptions |
| Entities.OptionRow.DiscountPercentage | backend/src/main/java/com/elmacho/carta/entity/ProductOption.java:98-108 | 0 without a discount (no original price, or one not above the price); a division-by-zero failure exactly when a discount has original price 0; otherwise the whole percent r with 100·(original − price) within half an original of r·original and, at an exact half, r·original the farther from zero (the HALF_UP rounding to 2 decimals times 100) |
| Entities.DiscountWithinPercentRange | backend/src/main/java/com/elmacho/carta/entity/ProductOption.java:103-107 | with price ≥ 0 and a discount, the percentage succeeds and lies in 0..100, and a free option is exactly 100 |
| Entities.Category.OnCreate | backend/src/main/java/com/elmacho/carta/entity/Category.java:63-67 | `createdAt` and `updatedAt` take the two clock readings in order; no other column changes |
| Entities.Category.OnUpdate | backend/src/main/java/com/elmacho/carta/entity/Category.java:69-72 | only `updatedAt` changes |
| Entities.TagDefinition.OnCreate | backend/src/main/java/com/elmacho/carta/entity/TagDefinition.java:58-62 | both timestamps set from the two clock readings; nothing else changes |
| Entities.TagDefinition.OnUpdate | backend/src/main/java/com/elmacho/carta/entity/TagDefinition.java:64-67 | only `updatedAt` changes |
| Entities.ProductOption.OnCreate | backend/src/main/java/com/elmacho/carta/entity/ProductOption.java:78-82 | both timestamps set from the two clock readings; id and product unchanged |
| Entities.ProductOption.OnUpdate | backend/src/main/java/com/elmacho/carta/entity/ProductOption.java:84-87 | only `updatedAt` changes |
| Entities.Product.OnCreate | backend/src/main/java/com/elmacho/carta/entity/Product.java:89-93 | both timestamps set; category, options and tags unchanged |
| Entities.Product.OnUpdate | backend/src/main/java/com/elmacho/carta/entity/Product.java:95-98 | only `updatedAt` changes; `createdAt` and every other field kept |
| Entities.Product.AddOption | backend/src/main/java/com/elmacho/carta/entity/Product.java:114-117 | the option is appended at the end (earlier options unchanged), its `product` is this product, and nothing else changes |
| Entities.Product.AddTag | backend/src/main/java/com/elmacho/carta/entity/Product.java:119-122 | the tag link is appended at the end with the same back-reference; its definition and order and the product's other fields unchanged |
| Entities.Category.constructor | backend/src/main/java/com/elmacho/carta/entity/Category.java:21-61 | a new category holds the given columns and no id until it is saved |
| Entities.TagDefinition.constructor | backend/src/main/java/com/elmacho/carta/entity/TagDefinition.java:20-56 | a new tag definition holds the given columns and no id |
| Entities.ProductOption.constructor | backend/src/main/java/com/elmacho/carta/entity/ProductOption.java:21-76 | a new option holds the given columns, no id and no owning product |
| Entities.ProductTag.constructor | backend/src/main/java/com/elmacho/carta/entity/ProductTag.java:18-31 | a new tag link holds its definition and order, no id and no owning product |
| Entities.Product.constructor | backend/src/main/java/com/elmacho/carta/entity/Product.java:45-54 | a new product has its category, no id, and empty option and tag lists |
| Formatters.FormatOrEmpty | frontend/src/utils/formatters.js:6-29 | `formatPrice`/`formatPriceNumber` give '' for null or undefined and otherwise the number formatter's text, 0 included |
| Formatters.CalculateDiscount | frontend/src/utils/formatters.js:37-40 | 0 when either price is missing or 0 or the original is not above the current price; otherwise the whole percent nearest to 100·(original − current)/original, a half rounded up, taken on the exact quotient |
| Formatters.HalfPriceIsFifty | frontend/src/utils/formatters.js:39 | `calculateDiscount(10000, 5000)` is 50 |
| Formatters.DiscountInPercentRange | frontend/src/utils/formatters.js:37-40 | for positive prices the result lies in 0..100 |
| Formatters.DiscountNonIncreasing | frontend/src/utils/formatters.js:39 | for a fixed original price the discount never grows as the current price grows |
| Formatters.DiscountAgreesWithBackend | frontend/src/utils/formatters.js:39 | in exact arithmetic, for every option with 0 < price < original, the frontend percentage equals the backend's `getDiscountPercentage` (backend/src/main/java/com/elmacho/carta/entity/ProductOption.java:105-107) |
| Formatters.FreeOptionDiscountDiffers | frontend/src/utils/formatters.js:38 | on a discounted option with price 0 the backend says 100 percent and the frontend 0 |
| MenuService.FindCategoryByCode | backend/src/main/java/com/elmacho/carta/service/MenuService.java:75-76 | absent exactly when no stored category has the code; otherwise a stored category with that code |
| MenuService.PriceFrom | backend/src/main/java/com/elmacho/carta/service/MenuService.java:159-163 | null exactly without options; otherwise a price of one of the options that is ≤ every option price |
| MenuService.MapOptionToDto | backend/src/main/java/com/elmacho/carta/service/MenuService.java:185-202 | fails only with the division-by-zero of the discount |
| MenuService.MapOptions | backend/src/main/java/com/elmacho/carta/service/MenuService.java:149-151 | one DTO per option in the same order, failing exactly when one option fails |
| MenuService.MapTags | backend/src/main/java/com/elmacho/carta/service/MenuService.java:153-157 | one tag DTO per link, in the same order, from the link's definition |
| MenuService.MapProductToDto | backend/src/main/java/com/elmacho/carta/service/MenuService.java:143-183 | keeps the product's id and display order; fails only on an option's division by zero |
| MenuService.MapProducts | backend/src/main/java/com/elmacho/carta/service/MenuService.java:50-56 | one DTO per product in the same order, failing exactly when one product fails |
| MenuService.MapCategoryToDto | backend/src/main/java/com/elmacho/carta/service/MenuService.java:113-141 | without `includeProducts` the products are null and the count 0; with it the count is the length of the product list |
| MenuService.MapCategories | backend/src/main/java/com/elmacho/carta/service/MenuService.java:44-48 | one category DTO (with products) per category, in order |
| MenuService.GetFullMenu | backend/src/main/java/com/elmacho/carta/service/MenuService.java:40-66 | echoes the requested language and the configured name and slogan, and lists one DTO per active category |
| MenuService.GetProductsByCategory | backend/src/main/java/com/elmacho/carta/service/MenuService.java:72-79 | fails with "category not found" exactly when no stored category has the code; otherwise returns that category with its products, whatever its `active` flag |
| MenuService.VisibleOptionsSelection | backend/src/main/java/com/elmacho/carta/service/MenuService.java:144-147 | an option is listed exactly when it is one of the product's active and available options; the list ascends by `displayOrder` and is a stable sort of the filtered list |
| MenuService.ActiveTagsSelection | backend/src/main/java/com/elmacho/carta/service/MenuService.java:153-155 | a tag link is listed exactly when its definition is active; ascending by link `displayOrder` with null as 0, stably |
| MenuService.VisibleProductsSelection | backend/src/main/java/com/elmacho/carta/service/MenuService.java:117-121 | a product is listed exactly when it is active and available; ascending by `displayOrder`, stably |
| MenuService.ActiveCategoriesSelection | backend/src/main/java/com/elmacho/carta/service/MenuService.java:44 | the menu's categories are exactly the active ones, ascending by `displayOrder` |
| MenuService.OptionDtoFaithful | backend/src/main/java/com/elmacho/carta/service/MenuService.java:185-193 | the DTO's `hasDiscount` is the entity's (original above price), no discount is 0 percent, the percentage is the entity's `getDiscountPercentage` (HALF_UP), lying in 0..100 for a non-negative price and 100 for a free option; name and description come from the language getters; id, prices, display order, default and availability are copied; mapping fails only for original price 0 above a negative price |
| MenuService.ProductDtoParts | backend/src/main/java/com/elmacho/carta/service/MenuService.java:143-183 | the options, `priceFrom`, tags and category fields of a product DTO are those of its visible options, active tags and own category |
| MenuService.OptionDtoList | backend/src/main/java/com/elmacho/carta/service/MenuService.java:149-151 | the option DTOs keep each option's id, price, display order and availability |
| MenuService.ProductDtoOptions | backend/src/main/java/com/elmacho/carta/service/MenuService.java:144-151 | a product DTO lists one option per active-and-available option, all available, ascending by display order |
| MenuService.ProductDtoPriceFrom | backend/src/main/java/com/elmacho/carta/service/MenuService.java:160-163 | `priceFrom` is null exactly when no option is listed, and otherwise the least listed option price |
| MenuService.ProductDtoTags | backend/src/main/java/com/elmacho/carta/service/MenuService.java:153-157 | one tag DTO per link to an active definition, and every such link appears |
| MenuService.ActiveTagsMembers | backend/src/main/java/com/elmacho/carta/service/MenuService.java:153-155 | the active tags are exactly the links to active definitions, as many as the filter keeps |
| MenuService.TagDtoList | backend/src/main/java/com/elmacho/carta/service/MenuService.java:153-157 | the tag DTOs are exactly the mapped active definitions |
| MenuService.ProductDtoCategory | backend/src/main/java/com/elmacho/carta/service/MenuService.java:171-172 | `categoryCode` and `categoryName` come from the product's category in the requested language |
| MenuService.CategoryDtoProducts | backend/src/main/java/com/elmacho/carta/service/MenuService.java:113-128 | a category DTO lists as many products as are active and available, ascending by display order, each one of the category's visible products, and `productCount` equals the list length |
| MenuService.CategoryProductList | backend/src/main/java/com/elmacho/carta/service/MenuService.java:117-127 | the DTO's products are the visible products mapped one by one and `productCount` is their number |
| MenuService.ProductMapsWhenWellPriced | backend/src/main/java/com/elmacho/carta/service/MenuService.java:143-151 | a product maps without error whenever none of its options has an original price of 0 above a negative price |
| MenuService.FullMenuParts | backend/src/main/java/com/elmacho/carta/service/MenuService.java:44-65 | the menu's categories, featured list and catch of the day are the mapped results of the three repository queries |
| MenuService.CategoryDtoList | backend/src/main/java/com/elmacho/carta/service/MenuService.java:46-48 | category DTOs keep each category's id and display order, in order |
| MenuService.FullMenuCategories | backend/src/main/java/com/elmacho/carta/service/MenuService.java:44-48 | the menu's categories ascend by display order and each is an active stored category |
| MenuService.FullMenuHighlights | backend/src/main/java/com/elmacho/carta/service/MenuService.java:50-56 | featured and catch-of-day lists carry one DTO per flagged, active and available product, each with its flag set |
| MenuService.DefaultMenuHeading | backend/src/main/java/com/elmacho/carta/service/MenuService.java:31-35 | with the default settings the menu is headed "El Macho" / "Productos del Mar" |
| AdminService.UpdatedCategoryRow | backend/src/main/java/com/elmacho/carta/service/AdminService.java:72-79 | the setters never touch `code` or `createdAt`; a null `active` fails on the NOT NULL column |
| AdminService.UpdatedProductRow | backend/src/main/java/com/elmacho/carta/service/AdminService.java:180-193 | the setters never touch `code` or `createdAt`; the save fails exactly when one of the five flags is null |
| AdminService.OptionFromDto | backend/src/main/java/com/elmacho/carta/service/AdminService.java:326-344 | an option request becomes a row exactly when its NOT NULL fields are present; otherwise a not-null violation |
| AdminService.OptionDtos | backend/src/main/java/com/elmacho/carta/service/AdminService.java:275-277 | one option DTO per option id, in list order |
| AdminService.LoadedOptionIds | backend/src/main/java/com/elmacho/carta/entity/Product.java:47-48 | a loaded product's options are the stored ones (same multiset), ascending by display order, and options with equal display order keep their stored order |
| AdminService.SortedOptionIds | backend/src/main/java/com/elmacho/carta/entity/Product.java:47-48 | sorting option ids by display order keeps every id resolvable and the order within each display order |
| AdminService.LoadedOptionIdsSameIds | backend/src/main/java/com/elmacho/carta/entity/Product.java:47-48 | loading neither loses nor invents an option: same count, every loaded id is stored and every stored id is loaded |
| AdminService.LoadedProductToDto | backend/src/main/java/com/elmacho/carta/service/AdminService.java:109-113 | the DTO of a product read back by `findById`: one option DTO per stored option, each naming a stored option, ascending by display order |
| AdminService.LoadedInStoredOrder | backend/src/main/java/com/elmacho/carta/entity/Product.java:47-48 | when the stored options are already by display order, a reload gives the DTO returned at creation |
| AdminService.TagIds | backend/src/main/java/com/elmacho/carta/service/AdminService.java:279-281 | the tag ids of the links, in list order |
| AdminService.CategoryRoundTrip | backend/src/main/java/com/elmacho/carta/service/AdminService.java:50-64 | reading back a created category gives the request with its new id and `active` defaulted to true when null |
| AdminService.OptionRoundTrip | backend/src/main/java/com/elmacho/carta/service/AdminService.java:306-344 | reading back an option built from a request gives the request with its id, `active`/`available` true and `isDefault` false when null |
| AdminService.NewProductFlags | backend/src/main/java/com/elmacho/carta/service/AdminService.java:133-137 | a created product is active and available unless the request says false, and featured, recommended or catch-of-day only when it says true |
| AdminService.OptionRows | backend/src/main/java/com/elmacho/carta/service/AdminService.java:144-149 | the option rows in request order; fails exactly when some request lacks a NOT NULL field, with that request's error |
| AdminService.TagLinks | backend/src/main/java/com/elmacho/carta/service/AdminService.java:152-162 | one link per tag id in `tagIds` order, each with display order 0; fails with not-found exactly when an id is unknown |
| AdminService.IdRange | backend/src/main/java/com/elmacho/carta/service/AdminService.java:164 | the consecutive identity values the save gives the new options |
| AdminService.NewOptionRecords | backend/src/main/java/com/elmacho/carta/service/AdminService.java:144-149 | the new options stored under consecutive ids, in request order, each pointing at the product |
| AdminService.BuildProduct | backend/src/main/java/com/elmacho/carta/service/AdminService.java:124-164 | on success the next free id is past the product and all its options |
| AdminService.BuildProductSucceeds | backend/src/main/java/com/elmacho/carta/service/AdminService.java:144-164 | creation goes through exactly when every tag id is known and every option request has its NOT NULL fields |
| AdminService.BuildProductTagsFirst | backend/src/main/java/com/elmacho/carta/service/AdminService.java:152-164 | an unknown tag id is reported (not-found) before any bad option reaches the save |
| AdminService.BuildProductShape | backend/src/main/java/com/elmacho/carta/service/AdminService.java:124-162 | the built product has the defaulted row and the requested category, its tags in `tagIds` order with order 0, and its options in request order under fresh consecutive ids |
| AdminService.SetFlag | backend/src/main/java/com/elmacho/carta/service/AdminService.java:200-225 | the chosen flag takes the value and the other flags, code, active flag and order are unchanged |
| AdminService.SetFlagAlgebra | backend/src/main/java/com/elmacho/carta/service/AdminService.java:200-225 | toggles are idempotent, setting the current value changes nothing, and the last of two settings wins |
| AdminService.ApplyPriceUpdate | backend/src/main/java/com/elmacho/carta/service/AdminService.java:230-241 | not-found exactly for an unknown option; otherwise only that option changes: its price becomes the new price and its original price is overwritten only when one is sent |
| AdminService.ApplyPriceUpdates | backend/src/main/java/com/elmacho/carta/service/AdminService.java:244-249 | the updates in list order keep the option table's keys and owners |
| AdminService.PriceUpdatesSucceed | backend/src/main/java/com/elmacho/carta/service/AdminService.java:244-247 | the batch succeeds exactly when every update names a stored option |
| AdminService.LastPriceWins | backend/src/main/java/com/elmacho/carta/service/AdminService.java:244-247 | an option's final price is that of the last update naming it; an option no update names keeps its record |
| AdminService.InsertProductKeepsValid | backend/src/main/java/com/elmacho/carta/service/AdminService.java:116-166 | storing a product with a new code whose references resolve keeps ids fresh, codes unique and references resolving |
| AdminService.NewProductResolves | backend/src/main/java/com/elmacho/carta/service/AdminService.java:121-162 | a built product in a stored category resolves its category, options and tags |
| AdminService.NewProductKeepsValid | backend/src/main/java/com/elmacho/carta/service/AdminService.java:116-166 | storing a built product keeps the store's invariant |
| AdminService.KeepsResolving | backend/src/main/java/com/elmacho/carta/service/AdminService.java:164 | options added under fresh ids do not disturb existing products' references |
| AdminService.ReplaceProductKeepsValid | backend/src/main/java/com/elmacho/carta/service/AdminService.java:170-198 | changing a product's columns and category, code kept, keeps the invariant |
| AdminService.PutCategoryKeepsValid | backend/src/main/java/com/elmacho/carta/service/AdminService.java:44-93 | adding a category with a new code, or changing one and keeping its code, keeps the invariant |
| AdminService.ReplaceOptionKeepsValid | backend/src/main/java/com/elmacho/carta/service/AdminService.java:229-255 | changing option columns, owner kept, keeps the invariant |
| AdminService.AdminStore.constructor | backend/src/main/java/com/elmacho/carta/service/AdminService.java:22-28 | an empty store over the given tag definitions satisfies the invariant |
| AdminService.AdminStore.GetCategoryById | backend/src/main/java/com/elmacho/carta/service/AdminService.java:38-42 | not-found exactly for an unknown id; otherwise the mapped category |
| AdminService.AdminStore.CreateCategory | backend/src/main/java/com/elmacho/carta/service/AdminService.java:44-65 | an existing code gives the duplicate-code error and saves nothing; otherwise exactly one category is added under a fresh id with `active` defaulted, nothing else changes |
| AdminService.AdminStore.UpdateCategory | backend/src/main/java/com/elmacho/carta/service/AdminService.java:67-84 | not-found for an unknown id; otherwise only that category changes, its code kept |
| AdminService.AdminStore.ToggleCategoryActive | backend/src/main/java/com/elmacho/carta/service/AdminService.java:86-93 | not-found for an unknown id; otherwise only that category's `active` changes |
| AdminService.AdminStore.GetProductById | backend/src/main/java/com/elmacho/carta/service/AdminService.java:109-113 | not-found exactly for an unknown id; otherwise the mapped product as loaded, with its options by display order and its tag ids |
| AdminService.AdminStore.CreateProduct | backend/src/main/java/com/elmacho/carta/service/AdminService.java:115-167 | a duplicate code fails before the category lookup; an unknown category or tag fails with not-found; any failure saves nothing; success adds the built product and its options and nothing else |
| AdminService.AdminStore.UpdateProduct | backend/src/main/java/com/elmacho/carta/service/AdminService.java:169-198 | not-found for an unknown id; the category is reassigned only when `categoryId` is non-null and differs (not-found if unknown); only this product changes and its code is kept; the answer is the product as reloaded, options by display order |
| AdminService.AdminStore.SetProductFlag | backend/src/main/java/com/elmacho/carta/service/AdminService.java:200-225 | not-found for an unknown id; otherwise only the chosen flag of that product changes |
| AdminService.AdminStore.ToggleProductAvailable | backend/src/main/java/com/elmacho/carta/service/AdminService.java:200-207 | not-found for an unknown id; otherwise `available` set to the value, nothing else changes |
| AdminService.AdminStore.ToggleProductFeatured | backend/src/main/java/com/elmacho/carta/service/AdminService.java:209-216 | not-found for an unknown id; otherwise `featured` set to the value, nothing else changes |
| AdminService.AdminStore.ToggleCatchOfDay | backend/src/main/java/com/elmacho/carta/service/AdminService.java:218-225 | not-found for an unknown id; otherwise `catchOfDay` set to the value, nothing else changes |
| AdminService.AdminStore.QuickUpdatePrice | backend/src/main/java/com/elmacho/carta/service/AdminService.java:229-241 | the option table becomes the single-update result, or on not-found the store is unchanged |
| AdminService.AdminStore.BulkUpdatePrices | backend/src/main/java/com/elmacho/carta/service/AdminService.java:243-249 | the updates apply in list order (last update to an option wins); the first failure leaves the store unchanged |
| AdminService.AdminStore.ToggleOptionAvailable | backend/src/main/java/com/elmacho/carta/service/AdminService.java:251-255 | no existence check: a stored option gets the value, an unknown id changes nothing and reports nothing |
| AdminService.PrepareProduct | backend/src/main/java/com/elmacho/carta/service/AdminService.java:143-164 | the loops of `createProduct` compute exactly the specified creation |
| AdminService.MapOptionRequests | backend/src/main/java/com/elmacho/carta/service/AdminService.java:144-148 | one mapped option per request, in order |
| AdminService.LookUpTags | backend/src/main/java/com/elmacho/carta/service/AdminService.java:152-162 | the tag loop computes exactly `TagLinks`, stopping at the first unknown id |
| AdminService.CheckOptionRows | backend/src/main/java/com/elmacho/carta/service/AdminService.java:164 | the save's pass over the options computes exactly `OptionRows` |
| AdminService.TagLinksFailureStays | backend/src/main/java/com/elmacho/carta/service/AdminService.java:154-155 | once a prefix of the tag ids fails, the whole list fails with the same error |
| AdminService.OptionRowsFailureStays | backend/src/main/java/com/elmacho/carta/service/AdminService.java:164 | once a prefix of the options fails, the whole list fails with the same error |
| AdminService.PriceUpdatesFailureStays | backend/src/main/java/com/elmacho/carta/service/AdminService.java:245-247 | once a prefix of the updates fails, the whole batch fails with the same error |
| DataLoader.FoundCodes | backend/src/main/java/com/elmacho/carta/config/DataLoader.java:360-365 | the codes `addTagToProduct` finds are at most the codes asked for, each of them a saved tag code |
| DataLoader.FoundCodesAllDefined | backend/src/main/java/com/elmacho/carta/config/DataLoader.java:360-365 | no tag is skipped exactly when every code names a saved tag |
| DataLoader.DistinctParts | backend/src/main/java/com/elmacho/carta/config/DataLoader.java:69-341 | distinct product codes across joined blocks are distinct within each block and between them |
| DataLoader.PrefixesDistinct | backend/src/main/java/com/elmacho/carta/config/DataLoader.java:48-52 | distinct codes across the five product groups stay distinct for every leading run of groups |
| DataLoader.SnapshotOfSeeded | backend/src/main/java/com/elmacho/carta/config/DataLoader.java:69-81 | saving a product built from its seed in the seed's category writes exactly the seed's rows |
| DataLoader.SavedAllAppend | backend/src/main/java/com/elmacho/carta/config/DataLoader.java:48-52 | the rows saved by consecutive blocks are the rows of each block, joined |
| DataLoader.SavedFromWellFormed | backend/src/main/java/com/elmacho/carta/config/DataLoader.java:351-365 | a well-formed seed, all of whose tags are defined, saves an active, available product with options numbered 0, 1, 2, ... at positive prices, only the first default, and keeps every tag in order |
| DataLoader.Loader.constructor | backend/src/main/java/com/elmacho/carta/config/DataLoader.java:18-20 | the three repositories start empty |
| DataLoader.Loader.CreateTag | backend/src/main/java/com/elmacho/carta/config/DataLoader.java:343-345 | saves one tag row (active, display order 0) under its code; no other repository changes |
| DataLoader.Loader.CreateTags | backend/src/main/java/com/elmacho/carta/config/DataLoader.java:55-67 | the tag rows are saved in call order and each code finds its own definition |
| DataLoader.Loader.CreateCategory | backend/src/main/java/com/elmacho/carta/config/DataLoader.java:347-349 | saves one active category row with no image under its code; nothing else changes |
| DataLoader.Loader.CreateProduct | backend/src/main/java/com/elmacho/carta/config/DataLoader.java:351-353 | builds, unsaved, an active and available product of the category with the seed's flags and no options or tags |
| DataLoader.Loader.AddOption | backend/src/main/java/com/elmacho/carta/config/DataLoader.java:355-358 | appends one option numbered by the options already present, pointing back at the product; earlier options unchanged |
| DataLoader.Loader.AddTagToProduct | backend/src/main/java/com/elmacho/carta/config/DataLoader.java:360-365 | a known code appends one tag link numbered by the links already present; an unknown code changes nothing |
| DataLoader.Loader.AddOptions | backend/src/main/java/com/elmacho/carta/config/DataLoader.java:72-80 | a block's options end up numbered 0, 1, 2, ... in call order |
| DataLoader.Loader.AddTags | backend/src/main/java/com/elmacho/carta/config/DataLoader.java:72-80 | a block's found tags end up numbered 0, 1, 2, ... in call order, unknown codes skipped |
| DataLoader.Loader.SeedProduct | backend/src/main/java/com/elmacho/carta/config/DataLoader.java:72-81 | one product block saves exactly the rows of its seed and takes its code |
| DataLoader.Loader.CreateCategoryProducts | backend/src/main/java/com/elmacho/carta/config/DataLoader.java:69-181 | a `create*Products` method saves its seeds' rows in order, all in its category |
| DataLoader.Loader.CreateCategories | backend/src/main/java/com/elmacho/carta/config/DataLoader.java:29-46 | the five categories are saved in order with their seeds' rows |
| DataLoader.Loader.CreateGroup | backend/src/main/java/com/elmacho/carta/config/DataLoader.java:48-52 | each group's products are saved after those of the groups before it |
| DataLoader.Loader.CreateProducts | backend/src/main/java/com/elmacho/carta/config/DataLoader.java:48-52 | the five groups' products are saved in group order |
| DataLoader.Loader.Run | backend/src/main/java/com/elmacho/carta/config/DataLoader.java:24-53 | the repositories end up holding exactly the tag, category and product rows of the seed tables, in order |
| Seed.AllProducts | backend/src/main/java/com/elmacho/carta/config/DataLoader.java:48-52 | the products of the five groups, group after group, as many as the groups hold together |
| Seed.MenuDelMarSeedsWellFormed | backend/src/main/java/com/elmacho/carta/config/DataLoader.java:69-181 | every product of the seafood menu has options, all at a positive price, and only its first option is the default |
| Seed.PescadosSeedsWellFormed | backend/src/main/java/com/elmacho/carta/config/DataLoader.java:183-258 | the same for the fish products |
| Seed.BarSeedsWellFormed | backend/src/main/java/com/elmacho/carta/config/DataLoader.java:260-292 | the same for the bar products |
| Seed.BebestiblesSeedsWellFormed | backend/src/main/java/com/elmacho/carta/config/DataLoader.java:294-323 | the same for the beverages |
| Seed.MenuNinoSeedsWellFormed | backend/src/main/java/com/elmacho/carta/config/DataLoader.java:325-341 | the same for the kids' menu |
| Seed.SeedProductsWellFormed | backend/src/main/java/com/elmacho/carta/config/DataLoader.java:69-341 | every seeded product has options at positive prices and exactly its first option is the default |
| Seed.SeedTagCodesDistinct | backend/src/main/java/com/elmacho/carta/config/DataLoader.java:55-67 | no two seeded tag definitions share a code |
| Seed.SeedProductCodesDistinct | backend/src/main/java/com/elmacho/carta/config/DataLoader.java:69-341 | no two seeded products share a code |
| Seed.SeedProductsDistinct | backend/src/main/java/com/elmacho/carta/config/DataLoader.java:69-341 | the seeded products satisfy the unique `code` column |
| Seed.SeededGroupsInCategories | backend/src/main/java/com/elmacho/carta/config/DataLoader.java:48-52 | each group of products is created in the category `run` hands it |
| Seed.SeedTablesValid | backend/src/main/java/com/elmacho/carta/config/DataLoader.java:24-53 | the seed never violates a unique `code` column and every product lands in its category |
| SeededMenu.MenuProductsServable | backend/src/main/java/com/elmacho/carta/config/DataLoader.java:24-53 | once the seed's tags are saved, every product `run` saves is active, available, with options numbered from 0 at positive prices, only the first default, and all its tags |
| Translations.Find | frontend/src/utils/translations.js:229 | the first entry with the name, or -1 exactly when no entry has it |
| Translations.Member | frontend/src/utils/translations.js:229-230 | a member is found exactly when the value is an object with an entry of that name, and it is that entry's value |
| Translations.GetTranslations | frontend/src/utils/translations.js:213-215 | the English table for 'en', the Spanish table for every other language |
| Translations.Lookup | frontend/src/utils/translations.js:224-236 | the segment loop returns the string at the dotted path, or the key itself when a segment is missing or the path ends on an object |
| Translations.Translate | frontend/src/utils/translations.js:223-237 | `translate` is the lookup in the table of the language, Spanish when no language is given |
| Translations.WalkAppend | frontend/src/utils/translations.js:228-234 | following a joined path is following the first part, then the second |
| Translations.LookupStopsAtMissingSegment | frontend/src/utils/translations.js:229-233 | once a segment is missing the key comes back unchanged, whatever segments follow |
| Translations.FindSameKeys | frontend/src/utils/translations.js:229 | entry lists with the same names in the same order find a name at the same position |
| Translations.WalkSameShape | frontend/src/utils/translations.js:228-234 | along any path, tables of the same shape both have a member or both lack it |
| Translations.SameShapeAppend | frontend/src/utils/translations.js:6-206 | joining entry lists of the same shape keeps the same shape |
| Translations.TablesSameShape | frontend/src/utils/translations.js:6-206 | the Spanish and English tables have the same keys in the same order, nested ones included |
| Translations.TranslatedInBothLanguages | frontend/src/utils/translations.js:223-237 | a key has a string translation in Spanish exactly when it has one in English |
| Translations.LookupTwoSegments | frontend/src/utils/translations.js:225-236 | a key `a.b` gives the string at member `b` of member `a`, else the key |
| AdminDashboard.FilteredProducts | frontend/src/pages/admin/AdminDashboard.jsx:96-101 | the shown products keep their order and are exactly those whose Spanish name or description contains the term ignoring case, and that are available unless unavailable ones are shown |
| AdminDashboard.EmptySearchShowsNamed | frontend/src/pages/admin/AdminDashboard.jsx:96-101 | an empty search with unavailable products shown lists every product that has a Spanish name |
| AdminDashboard.StatsOf | frontend/src/pages/admin/AdminDashboard.jsx:103-107 | the total is the number of products, split exactly into available and unavailable ones |
| AdminDashboard.ToggleById | frontend/src/pages/admin/AdminDashboard.jsx:71-73 | the same list with only the products of that id having their availability flipped |
| AdminDashboard.ToggleTwice | frontend/src/pages/admin/AdminDashboard.jsx:68-81 | toggling the same product twice restores the list |
| AdminDashboard.ReplaceById | frontend/src/pages/admin/AdminDashboard.jsx:84-86 | the same list with each product of the saved product's id replaced by it |
| AdminDashboard.ReplaceTwice | frontend/src/pages/admin/AdminDashboard.jsx:83-89 | saving the same product again changes nothing more |
| AdminDashboard.Dashboard.constructor | frontend/src/pages/admin/AdminDashboard.jsx:15-21 | no products, no product being edited and no toast at first |
| AdminDashboard.Dashboard.ShowToast | frontend/src/pages/admin/AdminDashboard.jsx:91-94 | the toast slot holds the message with its type ('info' by default) and one more 3-second timer is pending |
| AdminDashboard.Dashboard.ToastTimerFires | frontend/src/pages/admin/AdminDashboard.jsx:93 | a timer clears whichever toast is showing, a newer one included |
| AdminDashboard.Dashboard.ToggleAvailable | frontend/src/pages/admin/AdminDashboard.jsx:68-81 | on success the list becomes the handler's render-time list with that product toggled (so a change made during the call is lost) and a toast names the product and its new state; on failure the list is kept and an error toast shown |
| AdminDashboard.Dashboard.ProductUpdated | frontend/src/pages/admin/AdminDashboard.jsx:83-89 | the saved product replaces the one with its id in the handler's render-time list (so a change to the list that lands during the editor's save is lost), the editor closes and a success toast is shown |
| ProductEditModal.OptionRecords | frontend/src/pages/admin/ProductEditModal.jsx:20 | one option record per option of the product, in order |
| ProductEditModal.InitialTexts | frontend/src/pages/admin/ProductEditModal.jsx:11-18 | the five text fields, each the product's text or '' when missing |
| ProductEditModal.InitialValues | frontend/src/pages/admin/ProductEditModal.jsx:9-21 | `id`, `categoryId` copied; `basePrice` 0; `available` true unless false; `featured` false unless true; the options' records ([] when null) |
| ProductEditModal.FieldGroups | frontend/src/pages/admin/ProductEditModal.jsx:9-21 | the text fields and the other fields are disjoint and together are the eleven form fields |
| ProductEditModal.InitialForm | frontend/src/pages/admin/ProductEditModal.jsx:9-21 | the form has its eleven fields; `id` and `categoryId` are copied; the missing Spanish and English names and descriptions and the image URL become ''; `basePrice` is always 0; `available` is true unless false, `featured` false unless true; the options are the product's option records, in order (none when null) |
| ProductEditModal.DropSpaces | frontend/src/pages/admin/ProductEditModal.jsx:286 | `parseInt` skips leading white space: what remains is a suffix, everything dropped is white space, and it does not start with white space |
| ProductEditModal.LeadingDigits | frontend/src/pages/admin/ProductEditModal.jsx:286 | the longest prefix of decimal digits |
| ProductEditModal.Unsigned | frontend/src/pages/admin/ProductEditModal.jsx:286 | `parseInt` drops at most one leading '+' or '-' |
| ProductEditModal.ParseInt | frontend/src/pages/admin/ProductEditModal.jsx:286 | NaN exactly when no digit follows the blanks and the optional sign; otherwise the value of the leading digits, negative only after a '-' and never positive after one |
| ProductEditModal.ParsePrice | frontend/src/pages/admin/ProductEditModal.jsx:286 | `parseInt(value) \|\| 0`: 0 when no digit follows the blanks and optional sign ('' and a lone sign included), otherwise the parsed number |
| ProductEditModal.ParsePriceOfEmptyOrSign | frontend/src/pages/admin/ProductEditModal.jsx:232 | an emptied field and a field holding only '-' or '+' parse as 0 |
| ProductEditModal.ParsePriceWithoutDigits | frontend/src/pages/admin/ProductEditModal.jsx:232 | a field with no digit anywhere parses as 0 |
| ProductEditModal.Decimal | frontend/src/pages/admin/ProductEditModal.jsx:286 | the decimal spelling of a number is a non-empty run of digits |
| ProductEditModal.ParsePriceOfDigits | frontend/src/pages/admin/ProductEditModal.jsx:286 | a price typed as digits, whatever non-digit follows, parses to the number those digits spell |
| ProductEditModal.ParsePriceOfText | frontend/src/pages/admin/ProductEditModal.jsx:232 | a field that is blank, or starts with neither a digit nor a sign, parses as 0 |
| ProductEditModal.FindOption | frontend/src/pages/admin/ProductEditModal.jsx:55 | `findIndex`: the first option with the id, or -1 exactly when none has it |
| ProductEditModal.WithOptionField | frontend/src/pages/admin/ProductEditModal.jsx:30-34 | only the option at the index changes, and only in the field; an index of -1 changes no option |
| ProductEditModal.Editor.constructor | frontend/src/pages/admin/ProductEditModal.jsx:9-23 | the form starts from the product, not loading and with no error |
| ProductEditModal.Editor.HandleChange | frontend/src/pages/admin/ProductEditModal.jsx:26-28 | exactly one field takes the new value |
| ProductEditModal.Editor.HandleOptionChange | frontend/src/pages/admin/ProductEditModal.jsx:30-34 | only `options[index]` changes, and only in the field |
| ProductEditModal.Editor.HandleQuickPriceUpdate | frontend/src/pages/admin/ProductEditModal.jsx:51-62 | on success the current form's options become the handler's render-time options with the price set on the first option with that id (so option edits made during the call are lost, other fields keep their current values); on failure only the error is set; no element of the editor calls this handler |
| ProductEditModal.Editor.BeginSubmit | frontend/src/pages/admin/ProductEditModal.jsx:37-39 | submitting starts loading and clears the error |
| ProductEditModal.Editor.FinishSubmit | frontend/src/pages/admin/ProductEditModal.jsx:41-48 | the saved product reaches `onSave` exactly when the server returned it; otherwise the error is set; loading always ends |
| ProductEditModal.Editor.HandleSubmit | frontend/src/pages/admin/ProductEditModal.jsx:36-49 | submitting always ends not loading, with no error exactly when the product was saved |
| AdminAuth.IndexOf | frontend/src/services/adminService.js:9 | the first position of the character, or -1 exactly when it does not occur |
| AdminAuth.ServerReadsCredentials | frontend/src/services/adminService.js:8-10 | for Latin-1 credentials `btoa` succeeds, the server always finds a colon, and it reads back exactly the user name and password if and only if the credentials are 7-bit and the user name has no colon |
| AdminAuth.SplitAtFirstColon | frontend/src/services/adminService.js:9 | splitting a text at its first colon gives back a user name and password exactly when the text is their `user:pass` credential and the user name has no colon |
| AdminAuth.ServerReadsText | backend/src/main/java/com/elmacho/carta/security/SecurityConfig.java:69 | the server reads a `btoa` token as the UTF-8 decoding of the text's Latin-1 bytes, split at the first colon, and that decoding is the text exactly when it is 7-bit |
| AdminAuth.NonAsciiPasswordRejected | frontend/src/services/adminService.js:9 | the password "contraseña" is never read back by the server, whatever the user name |
| Utf8.SequenceLength | backend/src/main/java/com/elmacho/carta/security/SecurityConfig.java:69 | the length of the well-formed UTF-8 sequence at the front: 1 exactly for a 7-bit byte, otherwise a lead byte from 0xC2 followed by continuation bytes, or 0 when malformed |
| Utf8.SequenceChar | backend/src/main/java/com/elmacho/carta/security/SecurityConfig.java:69 | a multi-byte sequence encodes a character from U+0080 up |
| Utf8.Decode | backend/src/main/java/com/elmacho/carta/security/SecurityConfig.java:69 | UTF-8 decoding never yields more characters than bytes |
| Utf8.AsciiDecodes | backend/src/main/java/com/elmacho/carta/security/SecurityConfig.java:69 | 7-bit bytes decode to the characters Latin-1 gives |
| Utf8.NonAsciiReadsOtherwise | backend/src/main/java/com/elmacho/carta/security/SecurityConfig.java:69 | a byte from 0x80 up makes the UTF-8 reading differ from the Latin-1 one |
| Utf8.DecodesAsLatin1IffAscii | backend/src/main/java/com/elmacho/carta/security/SecurityConfig.java:69 | the UTF-8 and Latin-1 readings agree exactly on 7-bit bytes |
| Utf8.AsciiByteKept | backend/src/main/java/com/elmacho/carta/security/SecurityConfig.java:69 | a 7-bit byte, such as the colon, always survives decoding as its character |
| Utf8.EnyeIsReplaced | backend/src/main/java/com/elmacho/carta/security/SecurityConfig.java:69 | the lone Latin-1 byte of 'ñ' decodes to U+FFFD |
| AdminAuth.AdminService.constructor | frontend/src/services/adminService.js:4-6 | a new service holds no credentials |
| AdminAuth.AdminService.SetCredentials | frontend/src/services/adminService.js:8-10 | the credentials become the Base64 of "username:password"; a non-Latin-1 character throws and leaves them as they were |
| AdminAuth.AdminService.ClearCredentials | frontend/src/services/adminService.js:12-14 | the credentials are forgotten |
| AdminAuth.AdminService.AuthHeaders | frontend/src/services/adminService.js:16-24 | throws 'No autenticado' exactly when not authenticated; otherwise the Basic authorization header with the credentials and the JSON content type |
| AdminAuth.AdminService.Login | frontend/src/services/adminService.js:28-45 | on an ok probe the credentials are kept and stored under 'adminAuth'; a non-ok probe ('Credenciales inválidas') or a failed request clears them and stores nothing |
| AdminAuth.AdminService.Logout | frontend/src/services/adminService.js:47-50 | the credentials are forgotten in memory and removed from storage |
| AdminAuth.AdminService.RestoreSession | frontend/src/services/adminService.js:52-59 | a non-empty stored value becomes the credentials and the answer is true; otherwise nothing changes and the answer is false |
| AdminAuth.LoginPersists | frontend/src/services/adminService.js:28-59 | a session saved by a successful login is restored by a fresh service over the same storage, with the same credentials |
| AdminAuth.LogoutForgets | frontend/src/services/adminService.js:47-59 | after logout a fresh service over the same storage restores nothing and is not authenticated |
| Base64.ValueOf | frontend/src/services/adminService.js:9 | the 6-bit value of an alphabet character, -1 otherwise |
| Base64.ValueOfCharOf | frontend/src/services/adminService.js:9 | every 6-bit value has its own character, none of them '=' |
| Base64.Encode | frontend/src/services/adminService.js:9 | the Base64 text of a byte string has a length that is a multiple of four, empty exactly for no bytes |
| Base64.GroupRoundTrip | frontend/src/services/adminService.js:9 | the three bytes of a group come back from its four 6-bit parts |
| Base64.DecodeOne | frontend/src/services/adminService.js:9 | a final group of one byte decodes to that byte |
| Base64.DecodeTwo | frontend/src/services/adminService.js:9 | a final group of two bytes decodes to them |
| Base64.DecodeGroup | frontend/src/services/adminService.js:9 | a full group decodes to its three bytes in front of the rest |
| Base64.DecodeEncode | frontend/src/services/adminService.js:9 | decoding undoes encoding |
| Base64.Latin1Bytes | frontend/src/services/adminService.js:9 | one byte per character, its code |
| Base64.Latin1Chars | frontend/src/services/adminService.js:9 | one character per byte, with that code |
| Base64.Btoa | frontend/src/services/adminService.js:9 | `btoa` succeeds exactly on Latin-1 strings, and its text decodes to the string's bytes |
| Base64.Latin1RoundTrip | frontend/src/services/adminService.js:9 | reading the bytes back as characters gives the string `btoa` was given |
| AuthContext.AuthProvider.constructor | frontend/src/context/AuthContext.jsx:7-8 | the first render is not authenticated and still loading |
| AuthContext.AuthProvider.Mount | frontend/src/context/AuthContext.jsx:10-15 | after mounting loading is over and the provider is authenticated exactly when a non-empty session was stored |
| AuthContext.AuthProvider.Login | frontend/src/context/AuthContext.jsx:17-20 | authenticated exactly when the service's login resolves; a rejection propagates its error and leaves the flag as it was |
| AuthContext.AuthProvider.Logout | frontend/src/context/AuthContext.jsx:22-25 | the service forgets the session and the provider is no longer authenticated |
| AuthContext.UseAuth | frontend/src/context/AuthContext.jsx:34-40 | the context value inside a provider, the error 'useAuth debe usarse dentro de AuthProvider' outside one |
| AuthContext.LoginKeepsConsistency | frontend/src/context/AuthContext.jsx:17-20 | a login attempted while logged out leaves the provider's flag agreeing with the service |
| AuthContext.FailedReloginDiverges | frontend/src/context/AuthContext.jsx:17-20 | a failed login while already authenticated leaves the provider authenticated while the service has forgotten its credentials |
| Routes.ProtectedRoute | frontend/src/main.jsx:11-30 | the spinner exactly while loading, the children exactly when loaded and authenticated, otherwise a redirect to '/admin/login' |
| Routes.PublicRoute | frontend/src/main.jsx:33-52 | the spinner exactly while loading, the children exactly when loaded and not authenticated, otherwise a redirect to '/admin' |
| Routes.GuardsComplement | frontend/src/main.jsx:11-52 | once loading is over exactly one of the two guards lets its children through |
| Routes.StripTrailingSlashes | frontend/src/main.jsx:56-80 | the path without its trailing slashes, which is how the router compares paths |
| Routes.Route | frontend/src/main.jsx:54-82 | the dashboard exactly at '/admin' when loaded and authenticated, the login page exactly at '/admin/login' when loaded and not authenticated, the spinner only while loading, the menu at '/', any other path redirected to '/', and redirects only to the three known paths |
| Routes.RoutesDistinct | frontend/src/main.jsx:56-79 | no location matches two of the three route paths |
| Routes.RedirectSettles | frontend/src/main.jsx:25-79 | redirects never chain: where a redirect leads shows a page or the spinner |
| App.Toggled | frontend/src/App.jsx:81-83 | 'es' becomes 'en' and every other language 'es' |
| App.ToggledTwice | frontend/src/App.jsx:81-83 | toggling twice gives back 'es' or 'en'; any other value ends at 'en' |
| App.CurrentCategory | frontend/src/App.jsx:154 | the first menu category whose code is the active one, none when there is no such category |
| App.FindByCode | frontend/src/App.jsx:154 | `find`: the first category with the code, none exactly when no category has it |
| App.IndexByCode | frontend/src/App.jsx:154 | the position `find` stops at: the first category with the code, or the end |
| App.AppContent.constructor | frontend/src/App.jsx:16-22 | no menu, loading, no error or active category, Spanish, the waiter button enabled |
| App.AppContent.Screen | frontend/src/App.jsx:123-153 | the loading screen exactly while loading, the error screen exactly when loaded with an error, else the menu |
| App.AppContent.LoadMenu | frontend/src/App.jsx:50-66 | loading always ends; success keeps the menu, stamps the time, clears the error and activates the first category only when none is active; failure keeps the old menu and records the message |
| App.AppContent.RefreshMenuSilently | frontend/src/App.jsx:69-79 | success replaces the menu and stamps the time; a failure changes nothing; loading, error and active category are never touched |
| App.AppContent.ToggleLanguage | frontend/src/App.jsx:81-83 | only the language changes |
| App.AppContent.CallWaiter | frontend/src/App.jsx:86-121 | ignored while cooling down; otherwise one toast is added, success only for an ok response and error otherwise, in the page's language, and a cooldown starts |
| App.AppContent.CooldownElapses | frontend/src/App.jsx:119 | the cooldown timer re-enables the button |
| App.CooldownBlocksRepeats | frontend/src/App.jsx:86-121 | a second tap during the cooldown sends nothing; after the cooldown a tap goes through again |
| App.ActiveCategorySurvivesLanguageChange | frontend/src/App.jsx:26-28 | once a category is active, reloading the menu in the other language keeps it |
| Toast.WithoutId | frontend/src/components/ui/Toast.jsx:19 | the toasts without those carrying the id, the others kept in order |
| Toast.WithoutAbsentId | frontend/src/components/ui/Toast.jsx:23-25 | removing an id no toast carries changes nothing |
| Toast.WithoutIdIdempotent | frontend/src/components/ui/Toast.jsx:23-25 | removing the same id twice is removing it once |
| Toast.ToastProvider.constructor | frontend/src/components/ui/Toast.jsx:7 | no toasts and no pending timers |
| Toast.ToastProvider.AddToast | frontend/src/components/ui/Toast.jsx:9-21 | the toast, its id the current time and its type 'info' by default, goes at the end, and a removal is scheduled after the duration (3000 ms by default) |
| Toast.ToastProvider.RemoveToast | frontend/src/components/ui/Toast.jsx:23-25 | every toast with the id is dismissed |
| Toast.ToastProvider.TimerFires | frontend/src/components/ui/Toast.jsx:18-20 | a firing timer removes every toast with its id and is no longer pending |
| Toast.SameMillisecondRemovedTogether | frontend/src/components/ui/Toast.jsx:10-20 | two toasts added in the same millisecond share an id, so the first one's timer removes both |
| Toast.UseToast | frontend/src/components/ui/Toast.jsx:35-41 | the context inside the provider, the error 'useToast must be used within ToastProvider' outside it |
| AccessibilityContext.InitialFontSize | frontend/src/context/AccessibilityContext.jsx:21-23 | the stored size unless it is missing or empty, else 'normal' |
| AccessibilityContext.AppliedClasses | frontend/src/context/AccessibilityContext.jsx:31-54 | after the effect each flag's class is present exactly when the flag is set, exactly one of the four size classes (the current one) remains, and other classes are untouched |
| AccessibilityContext.AccessibilityProvider.constructor | frontend/src/context/AccessibilityContext.jsx:17-28 | high contrast exactly when stored 'true'; reduced motion when stored 'true' or preferred by the system; the size from storage |
| AccessibilityContext.AccessibilityProvider.ApplySettings | frontend/src/context/AccessibilityContext.jsx:31-54 | the root's classes follow the settings and the three settings are written to storage as text |
| AccessibilityContext.AccessibilityProvider.ToggleHighContrast | frontend/src/context/AccessibilityContext.jsx:56 | only high contrast flips |
| AccessibilityContext.AccessibilityProvider.ToggleReducedMotion | frontend/src/context/AccessibilityContext.jsx:58 | only reduced motion flips |
| AccessibilityContext.AccessibilityProvider.SetFontSize | frontend/src/context/AccessibilityContext.jsx:57 | the size becomes the given string, whatever it is |
| AccessibilityContext.SettingsSurviveReload | frontend/src/context/AccessibilityContext.jsx:17-54 | a provider started over the storage the effect wrote has the same high contrast and size, and reduced motion stays on |
| AccessibilityContext.ToggleTwiceRestores | frontend/src/context/AccessibilityContext.jsx:56-58 | toggling a flag twice, the effect after each change, ends where it started |
| AccessibilityContext.StaleSizeClassStays | frontend/src/context/AccessibilityContext.jsx:43-44 | a class for a size outside the four is never cleared by a later run of the effect |
| AccessibilityControls.SizeIndex | frontend/src/components/AccessibilityControls.jsx:34-35 | `indexOf`: the size's position among the four, -1 exactly for any other string |
| AccessibilityControls.Decreased | frontend/src/components/AccessibilityControls.jsx:37-42 | one size smaller exactly when the current size is above 'small'; nothing at 'small' or for an unknown size |
| AccessibilityControls.Increased | frontend/src/components/AccessibilityControls.jsx:44-49 | one size larger exactly below 'xlarge'; an unknown size (index -1) moves to 'small' |
| AccessibilityControls.StepsStayInRange | frontend/src/components/AccessibilityControls.jsx:34-49 | from one of the four sizes any series of presses stays among them; an unknown size stays unless it is increased |
| AccessibilityControls.IncreaseThenDecrease | frontend/src/components/AccessibilityControls.jsx:37-49 | going up a size and back down is the identity below 'xlarge' |
| AccessibilityControls.Texts | frontend/src/components/AccessibilityControls.jsx:51-68 | the English labels exactly for 'en', the Spanish ones for every other language |
| AccessibilityControls.Controls.constructor | frontend/src/components/AccessibilityControls.jsx:22 | the panel starts closed with no haptic taps |
| AccessibilityControls.Controls.DecreaseFont | frontend/src/components/AccessibilityControls.jsx:37-42 | the size steps down with one haptic tap when it changes, and nothing happens otherwise |
| AccessibilityControls.Controls.IncreaseFont | frontend/src/components/AccessibilityControls.jsx:44-49 | the size steps up with one haptic tap when it changes, and nothing happens otherwise |
| PullToRefresh.PullHalves | frontend/src/hooks/usePullToRefresh.js:37-39 | the pulled distance is half the downward movement, never negative, capped at 1.5 times the threshold |
| PullToRefresh.Hook.constructor | frontend/src/hooks/usePullToRefresh.js:6-9 | not pulling, distance 0, not refreshing; the threshold defaults to 80 |
| PullToRefresh.Hook.EffectRuns | frontend/src/hooks/usePullToRefresh.js:23-60 | a re-run of the effect gives the listeners fresh locals (start and current 0) and the current state |
| PullToRefresh.Hook.TouchStart | frontend/src/hooks/usePullToRefresh.js:27-32 | at the top of the page pulling is armed and the start recorded; elsewhere nothing changes |
| PullToRefresh.Hook.TouchMove | frontend/src/hooks/usePullToRefresh.js:34-40 | ignored unless the listeners saw pulling armed and the page is at the top; otherwise the distance is the capped half movement |
| PullToRefresh.Hook.HandleRefresh | frontend/src/hooks/usePullToRefresh.js:11-21 | does nothing while the refresh it saw runs; otherwise marks refreshing and calls `onRefresh` once |
| PullToRefresh.Hook.RefreshSettles | frontend/src/hooks/usePullToRefresh.js:17-20 | a settled refresh clears the flag and the distance, resolved or rejected |
| PullToRefresh.Hook.TouchEnd | frontend/src/hooks/usePullToRefresh.js:42-49 | a distance at or past the threshold calls the refresh, a shorter one resets to 0; pulling always ends |
| PullToRefresh.Hook.EffectRunsKeepingStart | frontend/src/hooks/usePullToRefresh.js:23-60 | the effect re-run with the start point kept across runs |
| PullToRefresh.StillTouchRefreshes | frontend/src/hooks/usePullToRefresh.js:23-49 | as written, a touch resting 160 px or lower on a page at the top refreshes on release without moving |
| PullToRefresh.StillTouchKeepingStart | frontend/src/hooks/usePullToRefresh.js:23-49 | with the start point kept, a still touch does not refresh and a pull of the threshold does |
| PullToRefresh.RefreshNotRepeated | frontend/src/hooks/usePullToRefresh.js:11-21 | while a refresh runs a second release does not call `onRefresh` again, and the distance ends at 0 |
| ProductCard.CardPriceFrom | frontend/src/components/ProductCard.jsx:25 | the product's own "from" price when truthy, else the first option's price, else none |
| ProductCard.IsStarProduct | frontend/src/components/ProductCard.jsx:30-31 | a star product exactly when its code is JARDIN_MAR or one of its tags is TAMANO_MACHO or IMPERDIBLE |
| ProductCard.HasStarTag | frontend/src/components/ProductCard.jsx:31 | true exactly when some tag's code is TAMANO_MACHO or IMPERDIBLE |
| ProductCard.Flames | frontend/src/components/ProductCard.jsx:34-43 | as many flames as a positive spicy level, none otherwise |
| ProductCard.ShownTags | frontend/src/components/ProductCard.jsx:83 | at most the first three tags, in order; all of them when there are three or fewer |
| ProductCard.CardDiscountMatchesService | frontend/src/components/ProductCard.jsx:27 | on an option the menu service mapped, with a price not below 0, the card shows a discount exactly when the service's `hasDiscount` is set |
| ProductCard.CardPriceFromIsLeast | frontend/src/components/ProductCard.jsx:25 | on a product the service mapped, the card's "from" price is absent exactly without options and, unless it is 0, is the service's least option price |
| ProductCard.Card.constructor | frontend/src/components/ProductCard.jsx:20 | a card starts collapsed |
| ProductCard.Card.Click | frontend/src/components/ProductCard.jsx:53 | a click flips the expansion only on a full-size card with several options; otherwise nothing changes |
| ProductCard.SingleOptionNeverExpands | frontend/src/components/ProductCard.jsx:24-53 | a card with at most one option stays collapsed whatever the clicks |
| ProductOptions.FirstKeyIn | frontend/src/components/ProductOptions.jsx:21-23 | the first keyword of the table contained in the text, none exactly when no keyword is |
| ProductOptions.PreparationIcon | frontend/src/components/ProductOptions.jsx:19-25 | the icon of the first keyword in table order contained in the lower-cased name, the plate exactly when none is |
| ProductOptions.ToLowerIdempotent | frontend/src/components/ProductOptions.jsx:20 | lower-casing twice is lower-casing once |
| ProductOptions.IconIgnoresCase | frontend/src/components/ProductOptions.jsx:19-25 | the icon does not depend on the name's capitalisation |
| ProductOptions.HasMultipleTypes | frontend/src/components/ProductOptions.jsx:34 | true exactly when two options have different types |
| ProductOptions.SelectedIndex | frontend/src/components/ProductOptions.jsx:47 | the first option carrying the selected option's id, none exactly when no option does |
| ProductOptions.OnlySelectedIndexMarked | frontend/src/components/ProductOptions.jsx:47 | with distinct ids exactly one option, the selected one, is marked |
| ProductOptions.NothingSelectedInitially | frontend/src/components/ProductOptions.jsx:47 | with no selection no option is marked |
| ProductOptions.DiscountBadge | frontend/src/components/ProductOptions.jsx:48-49 | a badge exactly when the original price is truthy and above the price; its value is `calculateDiscount(originalPrice, price)`: for a positive price the percentage rounded half up (within half a step, in 0..100), and 0 for a free option, whose falsy price stops the calculation |
| ProductOptions.FreeOptionShowsZeroBadge | frontend/src/components/ProductOptions.jsx:48-49 | a free option with an original price shows its struck-through price with a "-0%" badge |
| ProductOptions.MultipleTypesShowTip | frontend/src/components/ProductOptions.jsx:34-142 | several option types imply several options, so the tip shows |
| FeaturedSection.LeastOptionPrice | frontend/src/components/FeaturedSection.jsx:16 | a price of one of the options that is at most every option's price |
| FeaturedSection.GetMinPrice | frontend/src/components/FeaturedSection.jsx:14-17 | none exactly without options; otherwise the least option price |
| FeaturedSection.LeastPriceUnique | frontend/src/components/FeaturedSection.jsx:14-17 | any least price of the options is the one `getMinPrice` gives |
| FeaturedSection.MinPriceMatchesService | frontend/src/components/FeaturedSection.jsx:14-17 | on a product the menu service mapped, the section's least price is the service's `priceFrom` |
| FeaturedSection.CatchCards | frontend/src/components/FeaturedSection.jsx:55 | at most the first five catch-of-the-day products, in order |
| FeaturedSection.FeaturedTags | frontend/src/components/FeaturedSection.jsx:186 | at most the first two tags, in order |
| FeaturedSection.RankLabel | frontend/src/components/FeaturedSection.jsx:152 | the badge of the card at an index is the index plus one |
| FeaturedSection.RanksDistinct | frontend/src/components/FeaturedSection.jsx:141-153 | rank labels are distinct and the crowned card is the one labelled #1 |
| FeaturedSection.FeaturedTagColors | frontend/src/components/FeaturedSection.jsx:190-193 | the tag's own colours when present, amber ones otherwise |
| FeaturedSection.FeaturedEmojiAsWritten | frontend/src/components/FeaturedSection.jsx:161-167 | the lobster exactly when the lower-cased name holds none of the keywords |
| FeaturedSection.FeaturedEmoji | frontend/src/components/FeaturedSection.jsx:161-167 | the corrected chain: the lobster exactly when the name holds none of the keywords nor the stems "ostion" and "camaron" |
| FeaturedSection.CorrectedEmojiOnlyAddsStems | frontend/src/components/FeaturedSection.jsx:161-167 | the corrected chain differs from the written one only on names with the new stems, and there gives the oyster or the shrimp |
| FeaturedSection.NoKeyWithoutKeyLetters | frontend/src/components/FeaturedSection.jsx:161-166 | a name without the letters ó, h, j, v, d and p holds none of the eight keywords |
| FeaturedSection.KeylessNameGetsLobster | frontend/src/components/FeaturedSection.jsx:161-167 | such a name gets the lobster from the written chain |
| FeaturedSection.OstionStemGetsOyster | frontend/src/components/FeaturedSection.jsx:161 | a name starting with "ostion" gets the oyster from the corrected chain |
| FeaturedSection.CamaronStemGetsShrimp | frontend/src/components/FeaturedSection.jsx:163 | a name starting with "camaron" without 't' or 'h' gets the shrimp from the corrected chain |
| FeaturedSection.SeededShellfishGetLobster | frontend/src/components/FeaturedSection.jsx:161-167 | the seeded, featured "Ostiones" and "Camarones" both get the lobster from the written chain |
| FeaturedSection.SeededShellfishCorrected | frontend/src/components/FeaturedSection.jsx:161-167 | with the corrected chain "Ostiones" get the oyster and "Camarones" the shrimp |
| ProductTag.IconFor | frontend/src/components/ProductTag.jsx:60 | the mapped icon for a known name, the Tag icon for a missing or unknown one |
| ProductTag.TagIconOnlyAsFallback | frontend/src/components/ProductTag.jsx:23-60 | the Tag icon appears exactly for a missing or unknown name or the name "tag" |
| ProductTag.SeededTagIconsKnown | frontend/src/components/ProductTag.jsx:23-47 | every icon name the seed gives a tag definition is in the icon map and none falls back to the Tag icon |
| ProductTag.GradientClass | frontend/src/components/ProductTag.jsx:66-74 | the default gradient for anything other than the six tag type names |
| ProductTag.GradientPerTagType | frontend/src/components/ProductTag.jsx:49-74 | each of the six tag types has its own gradient, none of them the default |
| ProductTag.SizeClasses | frontend/src/components/ProductTag.jsx:76-80 | classes exactly for 'small', 'normal' and 'large' |
| ProductTag.IconSizes | frontend/src/components/ProductTag.jsx:82-86 | icon classes exactly for the three sizes |
| ProductTag.SizesDistinct | frontend/src/components/ProductTag.jsx:76-86 | the three sizes have distinct text and icon classes |
| ProductTag.Render | frontend/src/components/ProductTag.jsx:59-123 | a gradient badge exactly when the tag is important or of type PORTION or SHARING; the mapped icon and the text; a solid badge takes the tag's colours or grey defaults |
| ProductTag.PropsOfDtoAsWritten | frontend/src/components/ProductTag.jsx:63 | the public tag as the badge reads it: no `important` and no `type` |
| ProductTag.DtoTagsNeverGradientAsWritten | frontend/src/components/ProductTag.jsx:63-74 | as written, no tag from the public menu gets a gradient, whatever its type |
| ProductTag.PropsOfDto | frontend/src/components/ProductTag.jsx:63 | the public tag read with its `tagType` as the type |
| ProductTag.DtoTagGradientByType | frontend/src/components/ProductTag.jsx:63-74 | reading `tagType`, exactly PORTION and SHARING tags get a gradient, each its type's own |
| ProductList.ConfigFor | frontend/src/components/ProductList.jsx:91 | the configuration of the category's code, the MENU one for any other code |
| ProductList.ConfigDescription | frontend/src/components/ProductList.jsx:93 | the description in 'es' or 'en', none for any other language |
| ProductList.CategoryDescription | frontend/src/components/ProductList.jsx:93 | the category's own non-empty description, else the configuration's in the language |
| ProductList.AnimationDelay | frontend/src/components/ProductList.jsx:131 | `min(index * 50, 300)` ms |
| ProductList.AnimationDelayMonotone | frontend/src/components/ProductList.jsx:131 | delays never decrease along the list, are below 300 for the first six cards and 300 from the seventh |
| ProductList.Render | frontend/src/components/ProductList.jsx:59-160 | "select a category" exactly without a category, "no products" exactly for a missing or empty list, otherwise one card per product with its delay, the count, and the fish note exactly for PESCADOS |
| ProductList.ServiceCategoryCount | frontend/src/components/ProductList.jsx:75-119 | for a category the menu service mapped, the badge count is its `productCount`, and a count of 0 shows "no products" |
| ProductList.SeededCategoryConfigs | frontend/src/components/ProductList.jsx:6-91 | the seed's MENU_DEL_MAR falls back to the MENU configuration; the other four seeded codes have their own |
| Rounding.DivideHalfUp | backend/src/main/java/com/elmacho/carta/entity/ProductOption.java:103-107 | the nearest integer to the quotient, a tie rounded away from zero |
| Rounding.HalfUpNearest | backend/src/main/java/com/elmacho/carta/entity/ProductOption.java:103-107 | the HALF_UP quotient is within half a step of the exact one, ties away from zero |
| Rounding.MathRound | frontend/src/utils/formatters.js:39 | `Math.round` of the quotient: the integer within half below and strictly less than half above it |
| Rounding.MathRoundUnique | frontend/src/utils/formatters.js:39 | those bounds single out one integer |
| Rounding.HalfUpAgreesWithMathRound | frontend/src/utils/formatters.js:39 | for a non-negative quotient HALF_UP and `Math.round` agree |
| Rounding.MathRoundMonotone | frontend/src/utils/formatters.js:39 | `Math.round` never decreases as the numerator grows |
| Formatters.RoundQuotient | frontend/src/utils/formatters.js:39 | `Math.round(n / d)` on the exact quotient: for a positive denominator, at most half below and less than half above it |
| AdminDtos.Received | backend/src/main/java/com/elmacho/carta/dto/admin/ProductAdminDTO.java:45-49 | a field left out of the body keeps its initialiser, an explicit null gives null, a sent value is kept; the result is null exactly for an explicit null or a left-out field without initialiser |
| AdminDtos.FlagOr | backend/src/main/java/com/elmacho/carta/service/AdminService.java:133-137 | a non-null flag is used as sent; a null flag takes the service's fallback |
| AdminDtos.FlagFromBody | backend/src/main/java/com/elmacho/carta/service/AdminService.java:133-137 | a flag left out of the body or sent as null ends up as the fallback (which equals the field initialiser), a sent flag ends up as sent |
| AdminDtos.ValidCategoryAdminDtoFields | backend/src/main/java/com/elmacho/carta/dto/admin/CategoryAdminDTO.java:18-41 | a valid category body has a code of 1 to 50 characters with a visible character, names of at most 100, a non-negative display order; the active flag does not affect validity |
| AdminDtos.ValidOptionAdminDtoFields | backend/src/main/java/com/elmacho/carta/dto/admin/ProductOptionAdminDTO.java:19-45 | a valid option body has a price above zero (zero is refused); the original price and serves-people fields are unconstrained, even an original price below the price |
| AdminDtos.ValidProductAdminDtoFields | backend/src/main/java/com/elmacho/carta/dto/admin/ProductAdminDTO.java:18-59 | a valid product body has a code of 1 to 50 characters, names of at most 150, a category id, a non-negative order and a spicy level in 0..3 when given; dropping the spicy level or changing the options list keeps it valid (options are not validated) |
| AdminDtos.ValidQuickPriceUpdateFields | backend/src/main/java/com/elmacho/carta/dto/admin/QuickPriceUpdateDTO.java:16-23 | a quick price update is valid if and only if it has an option id and a new price above zero; the original price never affects validity |
| MenuService.GetAvailableProducts | backend/src/main/java/com/elmacho/carta/service/MenuService.java:84-90 | one DTO per product of the available-products query, in its order, each with that product's id and display order; only a discount that cannot be computed makes it fail |
| MenuService.AvailableProductsListing | backend/src/main/java/com/elmacho/carta/service/MenuService.java:84-90 | the list holds one DTO per active and available product of any category, each traceable to such a stored product, ascending by display order |
| MenuService.GetFeaturedProducts | backend/src/main/java/com/elmacho/carta/service/MenuService.java:95-100 | lists one DTO per featured, active and available product, each flagged featured |
| MenuService.GetCatchOfDay | backend/src/main/java/com/elmacho/carta/service/MenuService.java:105-109 | lists one DTO per catch-of-the-day, active and available product, each flagged as catch of the day |
| MenuService.HighlightEndpointsMatchMenu | backend/src/main/java/com/elmacho/carta/service/MenuService.java:50-56 | whenever the full menu builds, the featured and catch-of-the-day endpoints return exactly the menu's two lists |

## Left out

- HTTP, `fetch` and the endpoint wrappers of `frontend/src/services/adminService.js` other than the credential state are not modelled. Each server answer the model needs is a parameter: a fetch result, a response status, or whether the server accepted a change.
- The admin listing endpoints `getAllCategories`, `getAllProducts` and `getProductsByCategory` of `AdminService.java` are not modelled. They return the repository's rows in database order through the same mappers that `GetCategoryById` and `GetProductById` use.
- The dashboard's `loadCategories`, `loadAllProducts` and `loadProducts`, and the effect that picks between them on a category change, are not modelled. They copy a server answer into state or show an error toast (`ShowToast` is modelled).
- In `App.jsx`, the effects that reload on a language change, schedule the 30-second refresh interval and listen for visibility changes are not modelled. The handlers they call (`LoadMenu`, `RefreshMenuSilently`) are, with the clock reading as a parameter.
- Timers are not modelled as real time. A scheduled timer is an entry in a list or counter, and its firing is a separate method.
- `Intl.NumberFormat` is not modelled. The number formatter of `formatPrice`/`formatPriceNumber` is a function parameter.
- `localStorage` is a `map<string, string>`. Quota errors and storage events from other tabs are not modelled.
- The reduced-motion media query is a boolean input.
- Formatters.CalculateDiscount: the quotient is taken exactly, not in IEEE doubles as `Math.round(((o - c) / o) * 100)` does. At a decimal tie the double falls just below it, so the frontend can show one less than the backend: original 4000 and price 1700 give 57 in the browser and 58 in the model and the backend. Formatters.DiscountAgreesWithBackend holds only in exact arithmetic for that reason.
- Utf8.Decode: a malformed byte is replaced by one U+FFFD at a time. The JDK's decoder replaces a malformed prefix of a sequence by a single U+FFFD, so the number of replacement characters can differ. Whether the reading equals the sent text does not depend on it.
- Haptic feedback is modelled only in `AccessibilityControls.jsx`, as a counter of taps on font-size changes. The vibrations of `addToast` in `Toast.jsx` (50 ms per toast) and of the waiter button in `App.jsx` after a successful call are not modelled, nor is any vibration itself.
- The asynchronous handlers are modelled as one atomic step taken when the server's answer arrives, over the state at that moment. `handleToggleAvailable`, `handleProductUpdated` (run as the editor's `onSave` after its save) and `handleQuickPriceUpdate` write back a list, or an option list, captured at render time; those three take it as a parameter (`rendered`), so their lost update is modelled. Overlapping calls and answers that arrive out of order are not modelled for the handlers listed below.
- App.AppContent.LoadMenu: atomic at the answer's arrival; a second load started meanwhile, and the order in which two answers land, are not modelled.
- App.AppContent.RefreshMenuSilently: atomic at the answer's arrival, like App.AppContent.LoadMenu.
- App.AppContent.CallWaiter: atomic; the toast's text uses the language of the render that started the call, which the model takes to be the language when the answer arrives. A tap while the request is in flight is ignored in both, since `callingWaiter` is set before the request.
- ProductEditModal.Editor.HandleSubmit: atomic; edits made while the save is in flight are not modelled (`BeginSubmit` and `FinishSubmit` are the two halves).
- AuthContext.AuthProvider.Login: atomic; a second login resolving first is not modelled.
- Markup, styling, animation and icon rendering beyond the class names and icon choices listed above are not modelled.
- The fixed-text badges exported beside the main badge in `ProductTag.jsx` are not modelled: `PortionBadge`, `SharingBadge`, `RecommendedBadge`, `CatchOfDayBadge` and `MachoSizeBadge`. Each only picks between a Spanish and an English label.
- Spring and JPA are not modelled: transactions, caching, lazy loading, the repositories' SQL and database-generated ids. The repositories are maps in a class, and ids come from a counter.
- Insertion order of a query without `ORDER BY` is taken to be storage order.
- Prices are whole CLP amounts as integers. `BigDecimal` scale is not modelled, so a price of 1500.00 and one of 1500 are the same value.
- Java integer overflow is not modelled: display orders and ids are unbounded integers.
- A property lookup in `iconMap` or the translation tables that reaches an inherited member of `Object.prototype` (`constructor`, `toString`, ...) is treated as missing.
- Case mapping covers the Basic Latin and Latin-1 letters, which are all the menu's texts use.
- Entities.Category.OnCreate: `createdAt` and `updatedAt` are equal only when the two clock readings coincide, because the hook reads the clock twice. The same holds for Entities.TagDefinition.OnCreate, Entities.ProductOption.OnCreate and Entities.Product.OnCreate.
- Entities.TagDefinition.OnCreate: see Entities.Category.OnCreate; the two timestamps take the two clock readings.
- Entities.ProductOption.OnCreate: see Entities.Category.OnCreate; the two timestamps take the two clock readings.
- Entities.Product.OnCreate: see Entities.Category.OnCreate; the two timestamps take the two clock readings.

## Findings

| source | as written | input that shows it | evidently intended | confidence | as-written member | corrected member |
|---|---|---|---|---|---|---|
| frontend/src/components/FeaturedSection.jsx:161-167 | the emoji chain looks for the singular accented "ostión" and "camarón" in the lower-cased name | the seeded featured products "Ostiones" and "Camarones" (backend/src/main/java/com/elmacho/carta/config/DataLoader.java:70, 96) contain neither key, so both get the lobster | the oyster for oysters and the shrimp for shrimps, as the chain's own keys name them | not executed | FeaturedSection.SeededShellfishGetLobster | FeaturedSection.SeededShellfishCorrected |
| frontend/src/components/ProductTag.jsx:63-74 | the badge reads `tag.type`, but the menu's tag DTO carries the type as `tagType` | any public tag of type PORTION or SHARING renders as a solid badge | PORTION and SHARING tags shown with their gradients | not executed | ProductTag.DtoTagsNeverGradientAsWritten | ProductTag.DtoTagGradientByType |
| frontend/src/hooks/usePullToRefresh.js:23-49 | `startY` is a local of the effect, so every re-render that re-runs the effect resets it to 0 | a touch held still at pageY 160 or more on a page scrolled to the top: the first move sets a pull past the threshold, and the release refreshes | the pull measured from where the touch started | not executed | PullToRefresh.StillTouchRefreshes | PullToRefresh.StillTouchKeepingStart |
