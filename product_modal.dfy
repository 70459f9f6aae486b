/** The product-management modal: a form that creates a product or edits the
    selected one, a six-colour palette, and the list of products with a
    50-word preview of each one's description ("info"). */
module ProductModal {
  import opened Wrappers
  import opened Text

  /** A product as the backend stores it; `id` is kept as the text it has in a URL. */
  datatype Product = Product(id: string, title: string, info: string, color: string)

  /** The values of the form when it creates a product. */
  datatype Draft = Draft(title: string, info: string, color: string)

  /** The inputs of the form. */
  datatype Field = Title | Info | Color

  /** A request the form sends. */
  datatype Request = Request(verb: string, url: string, body: map<string, string>)

  /** The colours the picker offers, in the order it shows them. */
  const Palette: seq<string> := ["red", "purple", "orange", "green", "blue", "white"]

  const ProductsUrl: string := "http://localhost:5000/api/products"

  /** The words of the description that the list shows before cutting it off. */
  const PreviewWords: nat := 50

  /** The palette has six distinct colours and holds the form's default, blue. */
  lemma PaletteFacts()
    ensures |Palette| == 6
    ensures forall i, j :: 0 <= i < j < |Palette| ==> Palette[i] != Palette[j]
    ensures BlankDraft().color in Palette
  {
  }

  /** The form after a successful save: empty title and info, colour blue. */
  function BlankDraft(): (d: Draft)
    ensures d.title == "" && d.info == "" && d.color == Palette[4]
  {
    Draft("", "", "blue")
  }

  /** The value a draft holds for `field`. */
  function DraftField(d: Draft, field: Field): string {
    match field
    case Title => d.title
    case Info => d.info
    case Color => d.color
  }

  /** The value a product holds for `field`. */
  function ProductField(p: Product, field: Field): string {
    match field
    case Title => p.title
    case Info => p.info
    case Color => p.color
  }

  /** `field` of a draft set to `value`, the other two kept. */
  function DraftWith(d: Draft, field: Field, value: string): (r: Draft)
    ensures forall g :: DraftField(r, g) == if g == field then value else DraftField(d, g)
  {
    match field
    case Title => d.(title := value)
    case Info => d.(info := value)
    case Color => d.(color := value)
  }

  /** `field` of a product set to `value`; its id and the other two fields kept. */
  function ProductWith(p: Product, field: Field, value: string): (r: Product)
    ensures r.id == p.id
    ensures forall g :: ProductField(r, g) == if g == field then value else ProductField(p, g)
  {
    match field
    case Title => p.(title := value)
    case Info => p.(info := value)
    case Color => p.(color := value)
  }

  /** What an input of the form shows (`editingProduct?.x || newProduct.x`): the edited
      product's value, or the draft's when no product is being edited or when the
      edited value is empty. */
  function Shown(editing: Option<Product>, draft: Draft, field: Field): (r: string)
    ensures editing.Some? && ProductField(editing.value, field) != "" ==> r == ProductField(editing.value, field)
    ensures editing.None? || ProductField(editing.value, field) == "" ==> r == DraftField(draft, field)
  {
    if editing.Some? && ProductField(editing.value, field) != "" then ProductField(editing.value, field)
    else DraftField(draft, field)
  }

  /** The request a save sends: PUT to the product's own address when one is being
      edited, else POST to the collection; the body carries exactly the title, info
      and colour of the product being saved. */
  function SaveRequest(editing: Option<Product>, draft: Draft): (r: Request)
    ensures editing.Some? ==> r.verb == "PUT" && r.url == ProductsUrl + "/" + editing.value.id
    ensures editing.None? ==> r.verb == "POST" && r.url == ProductsUrl
    ensures r.body.Keys == {"title", "info", "color"}
    ensures editing.Some? ==>
      (r.body["title"] == editing.value.title && r.body["info"] == editing.value.info
       && r.body["color"] == editing.value.color)
    ensures editing.None? ==>
      (r.body["title"] == draft.title && r.body["info"] == draft.info && r.body["color"] == draft.color)
  {
    var (title, info, color) :=
      if editing.Some? then (editing.value.title, editing.value.info, editing.value.color)
      else (draft.title, draft.info, draft.color);
    Request(
      if editing.Some? then "PUT" else "POST",
      if editing.Some? then ProductsUrl + "/" + editing.value.id else ProductsUrl,
      map["title" := title, "info" := info, "color" := color])
  }

  /** The preview of a description: its first 50 white-space-separated pieces joined
      by single spaces, followed by "..." when there are more. A description of at
      most 50 pieces is shown whole, with each run of white space shown as one space. */
  function InfoPreview(info: string): (r: string)
    ensures |SplitWords(info)| <= PreviewWords ==> r == CollapseSpaces(info)
    ensures |SplitWords(info)| > PreviewWords ==>
      r == Join(SplitWords(info)[..PreviewWords], " ") + "..."
  {
    var words := SplitWords(info);
    JoinSplitWords(info);
    if |words| > PreviewWords then Join(words[..PreviewWords], " ") + "..."
    else
      assert words[..|words|] == words;
      Join(words, " ")
  }

  /** What the modal renders: nothing while it is closed; otherwise, for each product
      in order, the preview of its description. */
  function Rendered(isOpen: bool, products: seq<Product>): (r: Option<seq<string>>)
    ensures !isOpen ==> r == None
    ensures isOpen ==>
      (r.Some? && |r.value| == |products|
       && forall i :: 0 <= i < |products| ==> r.value[i] == InfoPreview(products[i].info))
  {
    if !isOpen then None
    else Some(seq(|products|, i requires 0 <= i < |products| => InfoPreview(products[i].info)))
  }

  /** The modal's state. */
  class ProductForm {
    var products: seq<Product>
    var newProduct: Draft
    var editingProduct: Option<Product>
    var showColorPicker: bool

    /** The draft's colour is always one the palette offers. */
    ghost predicate Valid()
      reads this
    {
      newProduct.color in Palette
    }

    constructor ()
      ensures Valid()
      ensures products == [] && newProduct == BlankDraft() && editingProduct == None && !showColorPicker
    {
      products := [];
      newProduct := Draft("", "", "blue");
      editingProduct := None;
      showColorPicker := false;
    }

    /** Applies a product-list fetch: the list is replaced when it could be read. */
    method FetchProducts(fetched: Option<seq<Product>>)
      modifies this
      ensures products == if fetched.Some? then fetched.value else old(products)
      ensures newProduct == old(newProduct) && editingProduct == old(editingProduct)
      ensures showColorPicker == old(showColorPicker)
    {
      if fetched.Some? {
        products := fetched.value;
      }
    }

    /** Saves the edited product or creates the drafted one. `ok` is whether the
        response was ok (a thrown request counts as not ok); `fetched` is what the
        product-list refetch then returns. */
    method HandleSubmit(ok: bool, fetched: Option<seq<Product>>) returns (request: Request)
      requires Valid()
      modifies this
      ensures Valid()
      ensures request == SaveRequest(old(editingProduct), old(newProduct))
      ensures ok ==>
        (newProduct == BlankDraft() && editingProduct == None && !showColorPicker
         && products == (if fetched.Some? then fetched.value else old(products)))
      ensures !ok ==>
        (newProduct == old(newProduct) && editingProduct == old(editingProduct)
         && showColorPicker == old(showColorPicker) && products == old(products))
    {
      request := SaveRequest(editingProduct, newProduct);
      if ok {
        FetchProducts(fetched);
        newProduct := Draft("", "", "blue");
        editingProduct := None;
        showColorPicker := false;
      }
    }

    /** An input changes: the edited product takes the value when one is being edited,
        otherwise the draft does; nothing else changes. The colour picker only offers
        palette colours. */
    method EditField(field: Field, value: string)
      requires Valid()
      requires field == Color ==> value in Palette
      modifies this
      ensures Valid()
      ensures old(editingProduct).Some? ==>
        editingProduct == Some(ProductWith(old(editingProduct).value, field, value)) && newProduct == old(newProduct)
      ensures old(editingProduct).None? ==>
        newProduct == DraftWith(old(newProduct), field, value) && editingProduct == None
      ensures products == old(products) && showColorPicker == old(showColorPicker)
    {
      if editingProduct.Some? {
        editingProduct := Some(ProductWith(editingProduct.value, field, value));
      } else {
        newProduct := DraftWith(newProduct, field, value);
      }
    }

    /** A colour of the picker is clicked: it is written like any field edit, and the
        picker closes. */
    method PickColor(color: string)
      requires Valid()
      requires color in Palette
      modifies this
      ensures Valid()
      ensures old(editingProduct).Some? ==>
        editingProduct == Some(ProductWith(old(editingProduct).value, Color, color)) && newProduct == old(newProduct)
      ensures old(editingProduct).None? ==>
        newProduct == DraftWith(old(newProduct), Color, color) && editingProduct == None
      ensures products == old(products) && !showColorPicker
    {
      EditField(Color, color);
      showColorPicker := false;
    }

    /** The colour swatch is clicked: the picker opens or closes. */
    method ToggleColorPicker()
      modifies this
      ensures showColorPicker == !old(showColorPicker)
      ensures products == old(products) && newProduct == old(newProduct) && editingProduct == old(editingProduct)
    {
      showColorPicker := !showColorPicker;
    }

    /** The edit button of a product is clicked: the form now edits that product. */
    method StartEditing(p: Product)
      modifies this
      ensures editingProduct == Some(p)
      ensures products == old(products) && newProduct == old(newProduct) && showColorPicker == old(showColorPicker)
    {
      editingProduct := Some(p);
    }

    /** A product is deleted; whatever the server answered, the list is refetched. */
    method DeleteProduct(fetched: Option<seq<Product>>)
      modifies this
      ensures products == if fetched.Some? then fetched.value else old(products)
      ensures newProduct == old(newProduct) && editingProduct == old(editingProduct)
      ensures showColorPicker == old(showColorPicker)
    {
      FetchProducts(fetched);
    }
  }
}
