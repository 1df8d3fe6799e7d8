/** The product list of the admin dashboard (frontend/src/pages/admin/AdminDashboard.jsx):
    the search and availability filter, the counters, and the handlers that replace the
    `products`, `editingProduct` and `toast` state. Products are the admin DTOs the
    backend sends. */
module AdminDashboard {
  import opened Wrappers
  import Text
  import Seqs
  import opened AdminDtos

  /** JavaScript truthiness of a boolean field that may be null. */
  predicate IsTrue(b: Option<bool>) {
    b == Some(true)
  }

  /** `field?.toLowerCase().includes(term.toLowerCase())`; a null field never matches. */
  predicate FieldMatches(field: Option<string>, term: string) {
    field.Some? && Text.Contains(Text.ToLower(field.value), Text.ToLower(term))
  }

  /** The filter's test: the Spanish name or description contains the search term, ignoring
      case, and the product is available unless unavailable ones are shown. */
  predicate Shown(p: ProductAdminDto, searchTerm: string, showUnavailable: bool) {
    && (FieldMatches(p.nameEs, searchTerm) || FieldMatches(p.descriptionEs, searchTerm))
    && (showUnavailable || IsTrue(p.available))
  }

  /** `filteredProducts`. */
  function FilteredProducts(products: seq<ProductAdminDto>, searchTerm: string, showUnavailable: bool)
    : (r: seq<ProductAdminDto>)
    ensures Seqs.Subsequence(r, products)
    ensures forall i :: 0 <= i < |r| ==> Shown(r[i], searchTerm, showUnavailable)
    ensures forall i :: 0 <= i < |products| && Shown(products[i], searchTerm, showUnavailable) ==>
      products[i] in r
    ensures !showUnavailable ==> forall i :: 0 <= i < |r| ==> IsTrue(r[i].available)
  {
    var shown := (p: ProductAdminDto) => Shown(p, searchTerm, showUnavailable);
    Seqs.FilterIsSubsequence(products, shown);
    Seqs.Filter(products, shown)
  }

  /** An empty search shows every product with a Spanish name or description. */
  lemma EmptySearchShowsNamed(products: seq<ProductAdminDto>)
    ensures forall i :: 0 <= i < |products| && products[i].nameEs.Some? ==>
      products[i] in FilteredProducts(products, "", true)
  {
    forall i | 0 <= i < |products| && products[i].nameEs.Some?
      ensures Shown(products[i], "", true)
    {
      Text.ContainsEmpty(Text.ToLower(products[i].nameEs.value));
    }
  }

  datatype Stats = Stats(total: int, available: int, unavailable: int)

  predicate Available(p: ProductAdminDto) {
    IsTrue(p.available)
  }

  predicate Unavailable(p: ProductAdminDto) {
    !IsTrue(p.available)
  }

  /** `stats`: all products, the available ones and the others. */
  function StatsOf(products: seq<ProductAdminDto>): (r: Stats)
    ensures r.total == |products|
    ensures r.available + r.unavailable == r.total
    ensures r.available == |Seqs.Filter(products, Available)|
  {
    Seqs.FilterComplement(products, Available, Unavailable);
    Stats(|products|, |Seqs.Filter(products, Available)|, |Seqs.Filter(products, Unavailable)|)
  }

  /** `{...p, available: !p.available}` for the product with that id. */
  function Toggled(p: ProductAdminDto, id: Option<int>): ProductAdminDto {
    if p.id == id then p.(available := Some(!IsTrue(p.available))) else p
  }

  /** `products.map(p => p.id === id ? {...p, available: !p.available} : p)`. */
  function ToggleById(products: seq<ProductAdminDto>, id: Option<int>): (r: seq<ProductAdminDto>)
    ensures |r| == |products|
    ensures forall i :: 0 <= i < |products| && products[i].id != id ==> r[i] == products[i]
    ensures forall i :: 0 <= i < |products| && products[i].id == id ==>
      r[i] == products[i].(available := Some(!IsTrue(products[i].available)))
  {
    seq(|products|, i requires 0 <= i < |products| => Toggled(products[i], id))
  }

  /** Toggling the same id twice restores every product whose flag was set. */
  lemma ToggleTwice(products: seq<ProductAdminDto>, id: Option<int>)
    requires forall i :: 0 <= i < |products| ==> products[i].available.Some?
    ensures ToggleById(ToggleById(products, id), id) == products
  {
    var once := ToggleById(products, id);
    var twice := ToggleById(once, id);
    forall i | 0 <= i < |products|
      ensures twice[i] == products[i]
    {
      if products[i].id == id {
        var b := products[i].available.value;
        assert once[i] == products[i].(available := Some(!b));
        assert twice[i] == products[i].(available := Some(b));
      }
    }
  }

  /** `products.map(p => p.id === q.id ? q : p)`. */
  function ReplaceById(products: seq<ProductAdminDto>, q: ProductAdminDto): (r: seq<ProductAdminDto>)
    ensures |r| == |products|
    ensures forall i :: 0 <= i < |products| ==> r[i] == (if products[i].id == q.id then q else products[i])
  {
    seq(|products|, i requires 0 <= i < |products| => if products[i].id == q.id then q else products[i])
  }

  /** Replacing with the same product again changes nothing more. */
  lemma ReplaceTwice(products: seq<ProductAdminDto>, q: ProductAdminDto)
    ensures ReplaceById(ReplaceById(products, q), q) == ReplaceById(products, q)
  {
  }

  /** A toast message and its type. */
  datatype Notice = Notice(message: string, kind: string)

  /** The text JavaScript prints for a name that may be null. */
  function NameText(name: Option<string>): string {
    if name.Some? then name.value else "null"
  }

  class Dashboard {
    var products: seq<ProductAdminDto>
    var editingProduct: Option<ProductAdminDto>
    var toast: Option<Notice>
    /** Toast timers scheduled and not yet fired. */
    var pendingTimers: nat

    constructor ()
      ensures products == [] && editingProduct == None && toast == None && pendingTimers == 0
    {
      products := [];
      editingProduct := None;
      toast := None;
      pendingTimers := 0;
    }

    /** `showToast`: the one toast slot gets the new message and a 3 s timer is set. */
    method ShowToast(message: string, kind: Option<string>)
      modifies this
      ensures toast == Some(Notice(message, kind.GetOr("info")))
      ensures pendingTimers == old(pendingTimers) + 1
      ensures products == old(products) && editingProduct == old(editingProduct)
    {
      toast := Some(Notice(message, kind.GetOr("info")));
      pendingTimers := pendingTimers + 1;
    }

    /** A toast timer fires: it clears whichever toast is showing, even a newer one. */
    method ToastTimerFires()
      requires pendingTimers > 0
      modifies this
      ensures toast == None && pendingTimers == old(pendingTimers) - 1
      ensures products == old(products) && editingProduct == old(editingProduct)
    {
      toast := None;
      pendingTimers := pendingTimers - 1;
    }

    /** `handleToggleAvailable`: after the server accepts the change, the products with the
        id have their flag flipped and a toast says so; when the call throws the list is
        left as it was and an error toast is shown. The handler maps the `products` of the
        render that created it, `rendered`, so a list that changed during the call is
        overwritten. */
    method ToggleAvailable(product: ProductAdminDto, serverAccepts: bool, rendered: seq<ProductAdminDto>)
      modifies this
      ensures serverAccepts ==> products == ToggleById(rendered, product.id)
      ensures serverAccepts ==> toast == Some(Notice(
        NameText(product.nameEs) + " ahora está " + (if !IsTrue(product.available) then "disponible" else "no disponible"),
        if !IsTrue(product.available) then "success" else "warning"))
      ensures !serverAccepts ==> products == old(products)
      ensures !serverAccepts ==> toast == Some(Notice("Error al cambiar disponibilidad", "error"))
      ensures editingProduct == old(editingProduct) && pendingTimers == old(pendingTimers) + 1
    {
      if serverAccepts {
        products := ToggleById(rendered, product.id);
        var nowAvailable := !IsTrue(product.available);
        ShowToast(NameText(product.nameEs) + " ahora está " + (if nowAvailable then "disponible" else "no disponible"),
                  Some(if nowAvailable then "success" else "warning"));
      } else {
        ShowToast("Error al cambiar disponibilidad", Some("error"));
      }
    }

    /** `handleProductUpdated`: the saved product takes the place of the one with its id,
        the editor closes and a success toast is shown. The editor calls it as `onSave`
        after awaiting the save, and it maps the `products` of the render that created it,
        `rendered`, so a list that changed during the save is overwritten. */
    method ProductUpdated(updated: ProductAdminDto, rendered: seq<ProductAdminDto>)
      modifies this
      ensures products == ReplaceById(rendered, updated)
      ensures editingProduct == None
      ensures toast == Some(Notice("Producto actualizado correctamente", "success"))
      ensures pendingTimers == old(pendingTimers) + 1
    {
      products := ReplaceById(rendered, updated);
      editingProduct := None;
      ShowToast("Producto actualizado correctamente", Some("success"));
    }
  }
}
