/**
 * The product detail page: it fetches one product by id, shows a skeleton
 * while loading, an error card when the fetch failed, and otherwise the
 * product with a main image, up to five thumbnails and a quantity stepper.
 */
module ProductDetail {
  import opened Wrappers
  import opened Types
  import opened Collections

  /** The message stored when the product could not be fetched. */
  const FETCH_ERROR: string := "Terjadi kesalahan saat mengambil data produk"

  /** The message shown when loading ended without a product and without an error. */
  const NOT_FOUND: string := "Product not found"

  /** The image shown in place of an empty image URL. */
  const PLACEHOLDER: string := "/placeholder.png"

  /** How many thumbnails are offered at most. */
  const THUMBNAIL_LIMIT: nat := 5

  // ---------------------------------------------------------------------
  // Pure pieces
  // ---------------------------------------------------------------------

  /** JavaScript's `s || fallback` on strings: the empty string is falsy. */
  function OrElse(s: string, fallback: string): (r: string)
    ensures r == s || r == fallback
    ensures r == fallback <==> s == "" || s == fallback
  {
    if s != "" then s else fallback
  }

  /** `images.slice(0, 5)`: the images offered as thumbnails. */
  function Thumbnails(images: seq<string>): (t: seq<string>)
    ensures |t| <= THUMBNAIL_LIMIT && |t| <= |images|
    ensures forall k :: 0 <= k < |t| ==> t[k] == images[k]
    ensures |images| <= THUMBNAIL_LIMIT ==> t == images
    ensures |images| >= THUMBNAIL_LIMIT ==> |t| == THUMBNAIL_LIMIT
  {
    if |images| <= THUMBNAIL_LIMIT then images else images[..THUMBNAIL_LIMIT]
  }

  /** `images[0] || ""`: the image selected once the product arrives. */
  function DefaultImage(images: seq<string>): (img: string)
    ensures img == "" || (|images| > 0 && img == images[0])
    ensures |images| > 0 ==> img == images[0]
    ensures img != "" ==> img in Thumbnails(images)
  {
    if |images| > 0 then OrElse(images[0], "") else ""
  }

  /** `prev => prev + 1`. */
  function Incremented(q: int): (r: int)
    ensures r > q
  {
    q + 1
  }

  /** `prev => prev > 1 ? prev - 1 : 1`: one step down, but never below 1. */
  function Decremented(q: int): (r: int)
    ensures r >= 1
    ensures r <= q || q < 1
    ensures q >= 1 ==> q - r <= 1
  {
    if q > 1 then q - 1 else 1
  }

  /** The minus button's `disabled={quantity <= 1}`. */
  predicate DecrementDisabled(q: int) {
    q <= 1
  }

  /** Stepping down undoes stepping up, from any valid quantity. */
  lemma StepperRoundTrip(q: int)
    requires q >= 1
    ensures Decremented(Incremented(q)) == q
  {
  }

  /**
   * On a valid quantity the minus button is disabled exactly when pressing
   * it would change nothing.
   */
  lemma DisabledExactlyAtFloor(q: int)
    requires q >= 1
    ensures DecrementDisabled(q) <==> Decremented(q) == q
    ensures !DecrementDisabled(q) ==> Decremented(q) == q - 1
  {
  }

  /** A stepper press: `true` is the plus button, `false` the minus button. */
  function Press(q: int, up: bool): int {
    if up then Incremented(q) else Decremented(q)
  }

  /** The quantity after a series of presses. */
  function PressAll(q: int, presses: seq<bool>): int
    decreases |presses|
  {
    if presses == [] then q else PressAll(Press(q, presses[0]), presses[1..])
  }

  /**
   * Starting from a valid quantity, any series of presses ends on a valid
   * quantity, never above the start plus the number of plus presses, and
   * exactly there when no minus press was made.
   */
  lemma {:induction false} PressesStayAboveFloor(q: int, presses: seq<bool>)
    requires q >= 1
    ensures PressAll(q, presses) >= 1
    ensures PressAll(q, presses) <= q + CountTrue(presses)
    ensures CountTrue(presses) == |presses| ==> PressAll(q, presses) == q + |presses|
    decreases |presses|
  {
    if presses != [] {
      var next := Press(q, presses[0]);
      PressesStayAboveFloor(next, presses[1..]);
    }
  }

  // ---------------------------------------------------------------------
  // The page state
  // ---------------------------------------------------------------------

  /** One thumbnail as drawn: its image (or the placeholder) and whether it is ringed. */
  datatype Thumbnail = Thumbnail(src: string, selected: bool)

  /** What the page renders. */
  datatype DetailView =
    | Skeleton
    | ErrorCard(message: string)
    | Panel(product: Product, mainImage: string, thumbnails: seq<Thumbnail>,
            quantity: int, decrementDisabled: bool)

  /** The thumbnails row for a product, given the selected image. */
  function ThumbnailRow(images: seq<string>, selectedImage: string): (row: seq<Thumbnail>)
    ensures |row| == |Thumbnails(images)|
    ensures forall k :: 0 <= k < |row| ==>
      && row[k].selected == (images[k] == selectedImage)
      && (images[k] != "" ==> row[k].src == images[k])
      && (images[k] == "" ==> row[k].src == PLACEHOLDER)
  {
    var t := Thumbnails(images);
    seq(|t|, k requires 0 <= k < |t| => Thumbnail(OrElse(t[k], PLACEHOLDER), selectedImage == t[k]))
  }

  class ProductDetailView {
    const productId: string
    var product: Option<Product>
    var loading: bool
    var error: Option<string>
    var selectedImage: string
    var quantity: int
    /** Whether the fetch started on mount has yet to settle. */
    var fetchPending: bool

    ghost predicate Valid()
      reads this
    {
      && quantity >= 1
      && (fetchPending ==> productId != "" && loading)
      && (productId == "" ==> loading && !fetchPending)
      && (loading ==> product == None && error == None)
      && (!loading ==> !fetchPending && (product.Some? || error.Some?))
      && (error.Some? ==> error.value == FETCH_ERROR && product == None)
    }

    /** The error text as JavaScript sees it: `null` reads as the (falsy) empty string. */
    function ErrorText(): string
      reads this
    {
      if error.Some? then error.value else ""
    }

    /** Skeleton while loading; `error || !product` picks the error card; otherwise the panel. */
    function View(): (v: DetailView)
      reads this
      ensures loading <==> v == Skeleton
      ensures v.ErrorCard? <==> !loading && (ErrorText() != "" || product.None?)
      ensures v.ErrorCard? ==> v.message == (if ErrorText() != "" then ErrorText() else NOT_FOUND)
      ensures v.Panel? ==> Some(v.product) == product
      ensures v.Panel? ==> v.quantity == quantity && (v.decrementDisabled <==> quantity <= 1)
    {
      if loading then Skeleton
      else if ErrorText() != "" || product.None? then ErrorCard(OrElse(ErrorText(), NOT_FOUND))
      else
        Panel(product.value, OrElse(selectedImage, PLACEHOLDER),
              ThumbnailRow(product.value.images, selectedImage),
              quantity, DecrementDisabled(quantity))
    }

    /** Mounting: nothing loaded yet; the fetch starts only for a non-empty id. */
    constructor (productId: string)
      ensures Valid()
      ensures this.productId == productId
      ensures product == None && loading && error == None
      ensures selectedImage == "" && quantity == 1
      ensures fetchPending <==> productId != ""
      ensures View() == Skeleton
    {
      this.productId := productId;
      product, loading, error := None, true, None;
      selectedImage, quantity := "", 1;
      fetchPending := productId != "";
    }

    /** The fetch delivered a product: it is shown with its first image selected. */
    method FetchSucceeded(data: Product)
      requires Valid() && fetchPending
      modifies this
      ensures Valid()
      ensures product == Some(data) && selectedImage == DefaultImage(data.images)
      ensures !loading && !fetchPending && error == None
      ensures quantity == old(quantity)
      ensures View().Panel? && View().product == data
    {
      product := Some(data);
      selectedImage := DefaultImage(data.images);
      loading := false;
      fetchPending := false;
    }

    /** The fetch failed: a fixed message, loading ends, and there is no product. */
    method FetchFailed()
      requires Valid() && fetchPending
      modifies this
      ensures Valid()
      ensures error == Some(FETCH_ERROR) && !loading && !fetchPending
      ensures product == None
      ensures selectedImage == old(selectedImage) && quantity == old(quantity)
      ensures View() == ErrorCard(FETCH_ERROR)
    {
      error := Some(FETCH_ERROR);
      loading := false;
      fetchPending := false;
    }

    /** `handleImageClick`: the clicked image becomes the selected one. */
    method HandleImageClick(image: string)
      requires Valid()
      modifies this
      ensures Valid()
      ensures selectedImage == image
      ensures product == old(product) && loading == old(loading) && error == old(error)
      ensures quantity == old(quantity) && fetchPending == old(fetchPending)
    {
      selectedImage := image;
    }

    /** A click on the k-th thumbnail of the shown product selects that image. */
    method SelectThumbnail(k: nat)
      requires Valid() && View().Panel?
      requires k < |View().thumbnails|
      modifies this
      ensures Valid()
      ensures product == old(product) && loading == old(loading) && error == old(error)
      ensures k < THUMBNAIL_LIMIT && product.Some? && k < |product.value.images|
      ensures selectedImage == product.value.images[k]
      ensures View().Panel? && View().thumbnails[k].selected
      ensures quantity == old(quantity) && fetchPending == old(fetchPending)
    {
      HandleImageClick(product.value.images[k]);
    }

    /** `incrementQuantity`. */
    method IncrementQuantity()
      requires Valid()
      modifies this
      ensures Valid()
      ensures quantity == old(quantity) + 1
      ensures product == old(product) && loading == old(loading) && error == old(error)
      ensures selectedImage == old(selectedImage) && fetchPending == old(fetchPending)
    {
      quantity := Incremented(quantity);
    }

    /** `decrementQuantity`: one less, but never below 1. */
    method DecrementQuantity()
      requires Valid()
      modifies this
      ensures Valid()
      ensures quantity == if old(quantity) > 1 then old(quantity) - 1 else 1
      ensures DecrementDisabled(old(quantity)) ==> quantity == old(quantity)
      ensures product == old(product) && loading == old(loading) && error == old(error)
      ensures selectedImage == old(selectedImage) && fetchPending == old(fetchPending)
    {
      quantity := Decremented(quantity);
    }
  }
}
