/**
 * The product list: it loads the catalogue once, derives the category list,
 * keeps the three filter inputs reported by the filter form, and recomputes
 * the filtered products through a debounced callback.
 */
module ProductList {
  import opened Wrappers
  import opened Text
  import opened Collections
  import opened Types
  import opened ProductFilters

  /** The price-range value that stands for "no price filter". */
  const ANY_PRICE: string := "all"

  /** The message shown when the catalogue could not be loaded. */
  const LOAD_ERROR: string := "Terjadi kesalahan saat mengambil data produk"

  /** How many placeholder cards are shown while loading. */
  const SKELETON_COUNT: nat := 8

  // ---------------------------------------------------------------------
  // The debounce helper
  // ---------------------------------------------------------------------

  /** What can happen to a debounced function: a call, or its timer running out. */
  datatype DebounceEvent<A> = Invoke(args: A) | Elapse

  /** The pending invocation, and the arguments of every run of the wrapped function so far. */
  datatype DebounceState<A> = DebounceState(pending: Option<A>, ran: seq<A>)

  /**
   * The behaviour of one debounced closure over a history of events: a call
   * replaces whatever was pending; when the timer runs out the pending call,
   * if any, runs.
   */
  function Replay<A>(events: seq<DebounceEvent<A>>): DebounceState<A>
    decreases |events|
  {
    if events == [] then DebounceState(None, [])
    else
      var before := Replay(events[..|events| - 1]);
      match events[|events| - 1]
      case Invoke(a) => DebounceState(Some(a), before.ran)
      case Elapse =>
        DebounceState(None, if before.pending.Some? then before.ran + [before.pending.value] else before.ran)
  }

  function Invokes<A>(args: seq<A>): (events: seq<DebounceEvent<A>>)
    ensures |events| == |args|
    ensures forall k :: 0 <= k < |args| ==> events[k] == Invoke(args[k])
  {
    seq(|args|, k requires 0 <= k < |args| => Invoke(args[k]))
  }

  /** Calls never run the wrapped function; the pending call is the latest one. */
  lemma {:induction false} CallsOnlyReplacePending<A>(prefix: seq<DebounceEvent<A>>, args: seq<A>)
    requires args != []
    ensures Replay(prefix + Invokes(args)) == DebounceState(Some(args[|args| - 1]), Replay(prefix).ran)
    decreases |args|
  {
    var events := prefix + Invokes(args);
    assert events[..|events| - 1] == prefix + Invokes(args[..|args| - 1]);
    if |args| > 1 {
      CallsOnlyReplacePending(prefix, args[..|args| - 1]);
    } else {
      assert Invokes(args[..0]) == [];
      assert events[..|events| - 1] == prefix;
    }
  }

  /**
   * A burst of calls on one debounced closure followed by one quiet period
   * runs the wrapped function exactly once, with the last call's arguments.
   */
  lemma BurstRunsOnceWithLastArgs<A>(prefix: seq<DebounceEvent<A>>, args: seq<A>)
    requires args != []
    ensures Replay(prefix + Invokes(args) + [Elapse]) == DebounceState(None, Replay(prefix).ran + [args[|args| - 1]])
  {
    CallsOnlyReplacePending(prefix, args);
    assert (prefix + Invokes(args) + [Elapse])[..|prefix| + |args|] == prefix + Invokes(args);
  }

  /** Every run of the wrapped function uses the arguments of some call. */
  lemma {:induction false} RunsUseCalledArgs<A>(events: seq<DebounceEvent<A>>)
    ensures Replay(events).pending.Some? ==> Invoke(Replay(events).pending.value) in events
    ensures forall a :: a in Replay(events).ran ==> Invoke(a) in events
    decreases |events|
  {
    if events != [] {
      var earlier := events[..|events| - 1];
      RunsUseCalledArgs(earlier);
      assert forall e :: e in earlier ==> e in events;
    }
  }

  /** `debounce(func, wait)`: one closure and the `timeout` variable it captures. */
  class Debouncer<A> {
    /** The arguments the pending timer will use; None when no timer is pending. */
    var timeout: Option<A>
    /** The arguments of every run of the wrapped function, oldest first. */
    var ran: seq<A>
    ghost var events: seq<DebounceEvent<A>>

    ghost predicate Valid()
      reads this
    {
      Replay(events) == DebounceState(timeout, ran)
    }

    constructor ()
      ensures Valid()
      ensures timeout == None && ran == [] && events == []
    {
      timeout := None;
      ran := [];
      events := [];
    }

    /** A call: the pending timer, if any, is cleared and a new one is set for `args`. */
    method Call(args: A) returns (cleared: Option<A>)
      requires Valid()
      modifies this
      ensures Valid()
      ensures cleared == old(timeout)
      ensures timeout == Some(args) && ran == old(ran)
      ensures events == old(events) + [Invoke(args)]
    {
      cleared := timeout;
      timeout := Some(args);
      events := events + [Invoke(args)];
      assert events[..|events| - 1] == old(events);
    }

    /** The quiet period runs out: the pending call, if any, runs. */
    method Fire()
      requires Valid()
      modifies this
      ensures Valid()
      ensures timeout == None
      ensures ran == if old(timeout).Some? then old(ran) + [old(timeout).value] else old(ran)
      ensures events == old(events) + [Elapse]
    {
      if timeout.Some? {
        ran := ran + [timeout.value];
      }
      timeout := None;
      events := events + [Elapse];
      assert events[..|events| - 1] == old(events);
    }
  }

  // ---------------------------------------------------------------------
  // The filter pipeline
  // ---------------------------------------------------------------------

  /** The list's three filter inputs. */
  datatype FilterState = FilterState(searchQuery: string, selectedCategory: string, priceRange: string)

  /** The inputs before the form reports anything: no filter at all. */
  const INITIAL_FILTERS := FilterState("", ALL_CATEGORIES, ANY_PRICE)

  /**
   * `const [minStr, maxStr] = priceRange.split("-")` followed by `Number` on
   * each part; a missing second part is `undefined`, which is NaN.
   */
  function ParseRange(range: string): (bounds: (Number, Number))
  {
    var parts := Split(range, '-');
    (ToNumber(parts[0]), if |parts| >= 2 then ToNumber(parts[1]) else NaN)
  }

  /** `price >= min && price <= max`: every comparison with NaN is false. */
  predicate InPriceRange(price: real, min: Number, max: Number) {
    && min.Finite? && max.Finite?
    && min.value as real <= price
    && price <= max.value as real
  }

  /** The lower-cased title or description contains the lower-cased query. */
  predicate TextMatches(p: Product, loweredQuery: string) {
    Includes(ToLower(p.title), loweredQuery) || Includes(ToLower(p.description), loweredQuery)
  }

  predicate MatchesSearch(p: Product, searchQuery: string) {
    searchQuery == "" || TextMatches(p, ToLower(searchQuery))
  }

  predicate MatchesCategory(p: Product, selectedCategory: string) {
    selectedCategory == ALL_CATEGORIES || p.category.name == selectedCategory
  }

  predicate MatchesPrice(p: Product, priceRange: string) {
    priceRange == ANY_PRICE || InPriceRange(p.price, ParseRange(priceRange).0, ParseRange(priceRange).1)
  }

  /** A product passes all three filters. */
  predicate Matches(st: FilterState, p: Product) {
    && MatchesSearch(p, st.searchQuery)
    && MatchesCategory(p, st.selectedCategory)
    && MatchesPrice(p, st.priceRange)
  }

  /**
   * The body of the debounced filter: copy the products, then apply the
   * search, category and price filters in that order, each only when its
   * input is not the "no filter" value.
   */
  function Filter(products: seq<Product>, st: FilterState): seq<Product> {
    var afterSearch :=
      if st.searchQuery != "" then
        var query := ToLower(st.searchQuery);
        Select(products, p => TextMatches(p, query))
      else products;
    var afterCategory :=
      if st.selectedCategory != ALL_CATEGORIES then
        Select(afterSearch, (p: Product) => p.category.name == st.selectedCategory)
      else afterSearch;
    if st.priceRange != ANY_PRICE then
      var bounds := ParseRange(st.priceRange);
      Select(afterCategory, (p: Product) => InPriceRange(p.price, bounds.0, bounds.1))
    else afterCategory
  }

  /** The three filters in a row keep exactly the products that pass all three. */
  lemma FilterSelectsMatches(products: seq<Product>, st: FilterState)
    ensures Filter(products, st) == Select(products, p => Matches(st, p))
  {
    var search := p => MatchesSearch(p, st.searchQuery);
    var category := p => MatchesCategory(p, st.selectedCategory);
    var price := p => MatchesPrice(p, st.priceRange);
    var searchAndCategory := p => MatchesSearch(p, st.searchQuery) && MatchesCategory(p, st.selectedCategory);
    var afterSearch := Select(products, search);
    if st.searchQuery != "" {
      SelectAgreeing(products, p => TextMatches(p, ToLower(st.searchQuery)), search);
    } else {
      SelectKeepsAll(products, search);
    }
    var afterCategory := Select(afterSearch, category);
    if st.selectedCategory != ALL_CATEGORIES {
      SelectAgreeing(afterSearch, (p: Product) => p.category.name == st.selectedCategory, category);
    } else {
      SelectKeepsAll(afterSearch, category);
    }
    SelectTwice(products, search, category, searchAndCategory);
    if st.priceRange != ANY_PRICE {
      var bounds := ParseRange(st.priceRange);
      SelectAgreeing(afterCategory, (p: Product) => InPriceRange(p.price, bounds.0, bounds.1), price);
    } else {
      SelectKeepsAll(afterCategory, price);
    }
    SelectTwice(products, searchAndCategory, price, p => Matches(st, p));
  }

  /**
   * The filtered list is the products that pass all three filters, in their
   * original order, each as often as in the input; nothing else.
   */
  lemma FilterKeepsExactlyMatches(products: seq<Product>, st: FilterState)
    ensures IsSubsequence(Filter(products, st), products)
    ensures forall p :: p in Filter(products, st) <==> p in products && Matches(st, p)
    ensures forall p :: multiset(Filter(products, st))[p] == if Matches(st, p) then multiset(products)[p] else 0
  {
    FilterSelectsMatches(products, st);
  }

  /** With the "no filter" inputs the list is returned unchanged. */
  lemma FilterWithoutInputsIsIdentity(products: seq<Product>)
    ensures Filter(products, INITIAL_FILTERS) == products
  {
  }

  /** Filtering the filtered list again with the same inputs changes nothing. */
  lemma FilterIdempotent(products: seq<Product>, st: FilterState)
    ensures Filter(Filter(products, st), st) == Filter(products, st)
  {
    FilterSelectsMatches(products, st);
    FilterSelectsMatches(Filter(products, st), st);
    SelectIdempotent(products, p => Matches(st, p));
  }

  /** A search for an upper-case query finds the same products as the lower-case one. */
  lemma SearchIgnoresCase(p: Product, query: string)
    ensures MatchesSearch(p, query) == MatchesSearch(p, ToLower(query))
  {
    ToLowerIdempotent(query);
  }

  lemma {:induction false} ToLowerIdempotent(s: string)
    ensures ToLower(ToLower(s)) == ToLower(s)
    decreases |s|
  {
    if s != [] {
      ToLowerIdempotent(s[1..]);
    }
  }

  /** An inverted price range empties the list, without any error. */
  lemma InvertedRangeIsEmpty(products: seq<Product>, st: FilterState, min: int, max: int)
    requires st.priceRange != ANY_PRICE
    requires ParseRange(st.priceRange) == (Finite(min), Finite(max)) && min > max
    ensures Filter(products, st) == []
  {
    FilterKeepsExactlyMatches(products, st);
  }

  /** The string the form sends is read back by the list as the slider's two values. */
  lemma RangeRoundTrip(lo: nat, hi: nat)
    ensures ParseRange(RangeString(lo, hi)) == (Finite(lo), Finite(hi))
  {
    FormatNatRoundTrip(lo);
    FormatNatRoundTrip(hi);
  }

  /**
   * The range the form reports when it mounts ("0-1000") hides every product
   * priced above MAX_PRICE, although no user touched the slider.
   */
  lemma MountedFormHidesExpensiveProducts(products: seq<Product>)
    ensures Filter(products, FilterState("", ALL_CATEGORIES, RangeString(0, MAX_PRICE)))
         == Select(products, (p: Product) => 0.0 <= p.price <= MAX_PRICE as real)
  {
    var st := FilterState("", ALL_CATEGORIES, RangeString(0, MAX_PRICE));
    RangeRoundTrip(0, MAX_PRICE);
    assert st.priceRange != ANY_PRICE;
    FilterSelectsMatches(products, st);
    SelectAgreeing(products, p => Matches(st, p), (p: Product) => 0.0 <= p.price <= MAX_PRICE as real);
  }

  /** An upper-case query finds a lower-case title. */
  lemma UpperCaseQueryFindsTitle(p: Product)
    requires p.title == "running shoes"
    ensures MatchesSearch(p, "SHOE")
  {
    var title := ToLower(p.title);
    assert title[8] == 's' && title[9] == 'h' && title[10] == 'o' && title[11] == 'e';
    assert title[8..12] == "shoe";
    OccurrenceIsIncluded(title, "shoe", 8);
    LowerCaseShoe();
  }

  lemma LowerCaseShoe()
    ensures ToLower("SHOE") == "shoe"
  {
    var t := ToLower("SHOE");
    assert t[0] == 's' && t[1] == 'h' && t[2] == 'o' && t[3] == 'e';
  }

  /** The sample catalogue: a red shirt, a blue shirt and a red mug (no descriptions). */
  ghost predicate IsSampleCatalogue(redShirt: Product, blueShirt: Product, redMug: Product) {
    && redShirt.id == 1 && redShirt.title == "Red Shirt" && redShirt.description == ""
    && redShirt.category.name == "Apparel" && redShirt.price == 20.0
    && blueShirt.id == 2 && blueShirt.title == "Blue Shirt" && blueShirt.description == ""
    && blueShirt.category.name == "Apparel" && blueShirt.price == 80.0
    && redMug.id == 3 && redMug.title == "Red Mug" && redMug.description == ""
    && redMug.category.name == "Home" && redMug.price == 15.0
  }

  /** The filter inputs of the first sample search: "red", any category, the full slider range. */
  const RED_SEARCH := FilterState("red", ALL_CATEGORIES, RangeString(0, MAX_PRICE))

  lemma LowerCaseRed()
    ensures ToLower("red") == "red"
  {
    ToLowerOfLowerCase("red");
  }

  /** A title that starts with "Red" (any case of the first letter) matches the red search. */
  lemma RedSearchKeeps(p: Product)
    requires |p.title| >= 3 && (p.title[0] == 'R' || p.title[0] == 'r') && p.title[1] == 'e' && p.title[2] == 'd'
    requires 0.0 <= p.price <= 1000.0
    ensures Matches(RED_SEARCH, p)
  {
    RangeRoundTrip(0, MAX_PRICE);
    LowerCaseRed();
    var t := ToLower(p.title);
    assert t[..3] == "red";
    OccurrenceIsIncluded(t, "red", 0);
  }

  /** A product whose title and description have no letter d, in either case, fails the red search. */
  lemma RedSearchDrops(p: Product)
    requires 'd' !in p.title && 'D' !in p.title
    requires 'd' !in p.description && 'D' !in p.description
    ensures !Matches(RED_SEARCH, p)
  {
    LowerCaseRed();
    NoLowerD(p.title);
    NoLowerD(p.description);
    MissingCharacterExcludes(ToLower(p.title), "red", 'd');
    MissingCharacterExcludes(ToLower(p.description), "red", 'd');
  }

  lemma NoLowerD(s: string)
    requires 'd' !in s && 'D' !in s
    ensures 'd' !in ToLower(s)
  {
    var t := ToLower(s);
    forall i | 0 <= i < |t|
      ensures t[i] != 'd'
    {
      assert t[i] == LowerChar(s[i]);
    }
  }

  /** The red search's verdicts on the sample catalogue. */
  lemma RedSearchVerdicts(redShirt: Product, blueShirt: Product, redMug: Product)
    requires IsSampleCatalogue(redShirt, blueShirt, redMug)
    ensures Matches(RED_SEARCH, redShirt) && !Matches(RED_SEARCH, blueShirt) && Matches(RED_SEARCH, redMug)
  {
    RedSearchKeeps(redShirt);
    assert 'd' !in blueShirt.title && 'D' !in blueShirt.title;
    RedSearchDrops(blueShirt);
    RedSearchKeeps(redMug);
  }

  /** Searching "red" over the full price range keeps the red shirt and the red mug, in order. */
  lemma SampleSearchScenario(redShirt: Product, blueShirt: Product, redMug: Product)
    requires IsSampleCatalogue(redShirt, blueShirt, redMug)
    ensures Filter([redShirt, blueShirt, redMug], RED_SEARCH) == [redShirt, redMug]
  {
    RedSearchVerdicts(redShirt, blueShirt, redMug);
    FilterSelectsMatches([redShirt, blueShirt, redMug], RED_SEARCH);
    SelectThree(redShirt, blueShirt, redMug, p => Matches(RED_SEARCH, p));
  }

  /** Apparel up to 50 keeps only the red shirt. */
  lemma SampleCategoryPriceScenario(redShirt: Product, blueShirt: Product, redMug: Product)
    requires IsSampleCatalogue(redShirt, blueShirt, redMug)
    ensures Filter([redShirt, blueShirt, redMug], FilterState("", "Apparel", RangeString(0, 50))) == [redShirt]
  {
    var st := FilterState("", "Apparel", RangeString(0, 50));
    RangeRoundTrip(0, 50);
    assert Matches(st, redShirt) && !Matches(st, blueShirt) && !Matches(st, redMug);
    FilterSelectsMatches([redShirt, blueShirt, redMug], st);
    SelectThree(redShirt, blueShirt, redMug, p => Matches(st, p));
  }

  // ---------------------------------------------------------------------
  // Categories
  // ---------------------------------------------------------------------

  /** `[...new Set(data.map(product => product.category.name))]`. */
  function UniqueCategories(products: seq<Product>): seq<string> {
    Distinct(seq(|products|, k requires 0 <= k < |products| => products[k].category.name))
  }

  /**
   * The category list names every product's category, names nothing else,
   * holds no duplicate and lists the names in order of first appearance.
   */
  lemma UniqueCategoriesContract(products: seq<Product>)
    ensures NoDuplicates(UniqueCategories(products))
    ensures forall p :: p in products ==> p.category.name in UniqueCategories(products)
    ensures forall c :: c in UniqueCategories(products) <==> exists p :: p in products && p.category.name == c
    ensures
      var names := seq(|products|, k requires 0 <= k < |products| => products[k].category.name);
      var cats := UniqueCategories(products);
      forall i, j :: 0 <= i < j < |cats| ==> FirstIndex(names, cats[i]) < FirstIndex(names, cats[j])
  {
    var names := seq(|products|, k requires 0 <= k < |products| => products[k].category.name);
    DistinctFirstOccurrenceOrder(names);
    forall p | p in products
      ensures p.category.name in names
    {
      var k :| 0 <= k < |products| && products[k] == p;
      assert names[k] == p.category.name;
    }
    forall c | c in names
      ensures exists p :: p in products && p.category.name == c
    {
      var k :| 0 <= k < |names| && names[k] == c;
      assert products[k] in products;
    }
  }

  /**
   * The list hands its category list to the form, which offers "all" and
   * those categories. Over a non-empty catalogue, choosing any offered
   * option, with no other filter, shows at least one product.
   */
  lemma OfferedOptionIsNeverEmpty(products: seq<Product>, c: string)
    requires products != []
    requires c in CategoryOptions(UniqueCategories(products))
    ensures Filter(products, FilterState("", c, ANY_PRICE)) != []
  {
    var st := FilterState("", c, ANY_PRICE);
    if c == ALL_CATEGORIES {
      FilterWithoutInputsIsIdentity(products);
    } else {
      assert c in UniqueCategories(products);
      UniqueCategoriesContract(products);
      var p :| p in products && p.category.name == c;
      FilterKeepsExactlyMatches(products, st);
      assert p in Filter(products, st);
    }
  }

  // ---------------------------------------------------------------------
  // The list component's state
  // ---------------------------------------------------------------------

  /** How the list's inputs change when the form calls one of its callbacks. */
  function ApplyNotice(st: FilterState, n: Notice): FilterState {
    match n.callback
    case OnSearchChange => st.(searchQuery := n.value)
    case OnCategoryChange => st.(selectedCategory := n.value)
    case OnPriceRangeChange => st.(priceRange := n.value)
  }

  function ReceiveAll(st: FilterState, notices: seq<Notice>): FilterState
    decreases |notices|
  {
    if notices == [] then st
    else ApplyNotice(ReceiveAll(st, notices[..|notices| - 1]), notices[|notices| - 1])
  }

  /** After a series of callbacks each input holds the value last sent for it. */
  lemma {:induction false} ReceiveAllKeepsLatest(notices: seq<Notice>)
    ensures ReceiveAll(INITIAL_FILTERS, notices) == FilterState(
      LastSent(notices, OnSearchChange).GetOr(""),
      LastSent(notices, OnCategoryChange).GetOr(ALL_CATEGORIES),
      LastSent(notices, OnPriceRangeChange).GetOr(ANY_PRICE))
    decreases |notices|
  {
    if notices != [] {
      ReceiveAllKeepsLatest(notices[..|notices| - 1]);
    }
  }

  /** While the form's invariant holds, the list's inputs are the form's values. */
  lemma ListMirrorsForm(sent: seq<Notice>, search: string, category: string, lo: nat, hi: nat)
    requires Mirrors(sent, search, category, lo, hi)
    ensures ReceiveAll(INITIAL_FILTERS, sent) == FilterState(search, category, RangeString(lo, hi))
  {
    ReceiveAllKeepsLatest(sent);
  }

  /** The values one debounced closure captured: the products and the three inputs. */
  datatype Snapshot = Snapshot(products: seq<Product>, filters: FilterState)

  /** What the list renders. */
  datatype ListView = Skeletons(count: nat) | ErrorCard(message: string) | NoMatches | Grid(items: seq<Product>)

  /**
   * The list component. Every change of the products or of a filter input
   * builds a new debounced closure, whose fresh `timeout` starts empty, and
   * the effect calls it once; so nothing is cancelled across changes and each
   * change leaves its own timer. `timers` holds them, oldest first; they all
   * wait the same time and so run in that order.
   */
  class ProductListView {
    var products: seq<Product>
    var filteredProducts: seq<Product>
    var categories: seq<string>
    var loading: bool
    var error: Option<string>
    var filters: FilterState
    var timers: seq<Snapshot>

    ghost predicate Valid()
      reads this
    {
      && (timers == [] ==> filteredProducts == Filter(products, filters))
      && (timers != [] ==> timers[|timers| - 1] == Snapshot(products, filters))
      && (loading ==> products == [] && error == None)
      && (error.Some? ==> !loading && products == [] && error.value == LOAD_ERROR)
      && categories == UniqueCategories(products)
    }

    /**
     * Eight skeletons while loading; the error card when `error` is set (an
     * empty message is falsy); the "no matching products" message for an
     * empty filtered list; otherwise the grid of the filtered products.
     */
    function View(): (v: ListView)
      reads this
      ensures loading <==> v == Skeletons(SKELETON_COUNT)
      ensures v.ErrorCard? <==> !loading && error.Some? && error.value != ""
      ensures v.ErrorCard? ==> v.message == error.value
      ensures v == NoMatches <==> !loading && (error.None? || error.value == "") && filteredProducts == []
      ensures v.Grid? <==> !loading && (error.None? || error.value == "") && filteredProducts != []
      ensures v.Grid? ==> v.items == filteredProducts
    {
      if loading then Skeletons(SKELETON_COUNT)
      else if error.Some? && error.value != "" then ErrorCard(error.value)
      else if filteredProducts == [] then NoMatches
      else Grid(filteredProducts)
    }

    /** Mounting: empty lists, loading, default inputs, and the first closure's timer. */
    constructor ()
      ensures Valid()
      ensures products == [] && filteredProducts == [] && categories == []
      ensures loading && error == None && filters == INITIAL_FILTERS
      ensures timers == [Snapshot([], INITIAL_FILTERS)]
      ensures View() == Skeletons(SKELETON_COUNT)
    {
      products, filteredProducts, categories := [], [], [];
      loading, error := true, None;
      filters := INITIAL_FILTERS;
      timers := [Snapshot([], INITIAL_FILTERS)];
    }

    /**
     * The catalogue arrived: both lists take the data, the categories are
     * derived from it and loading ends. The new products build a new closure.
     */
    method LoadSucceeded(data: seq<Product>)
      requires Valid() && loading
      modifies this
      ensures Valid()
      ensures products == data && filteredProducts == data
      ensures categories == UniqueCategories(data)
      ensures !loading && error == None && filters == old(filters)
      ensures timers == old(timers) + [Snapshot(data, filters)]
    {
      products := data;
      filteredProducts := data;
      categories := UniqueCategories(data);
      loading := false;
      timers := timers + [Snapshot(products, filters)];
    }

    /** The fetch failed: a fixed message, loading ends, and there are no products. */
    method LoadFailed()
      requires Valid() && loading
      modifies this
      ensures Valid()
      ensures error == Some(LOAD_ERROR) && !loading
      ensures products == [] && filteredProducts == old(filteredProducts) && categories == []
      ensures filters == old(filters) && timers == old(timers)
      ensures View() == ErrorCard(LOAD_ERROR)
    {
      error := Some(LOAD_ERROR);
      loading := false;
    }

    /** A changed input builds a new closure, whose call sets a new timer. */
    method Receive(n: Notice)
      requires Valid()
      modifies this
      ensures Valid()
      ensures filters == ApplyNotice(old(filters), n)
      ensures timers == if filters == old(filters) then old(timers) else old(timers) + [Snapshot(products, filters)]
      ensures products == old(products) && filteredProducts == old(filteredProducts)
      ensures categories == old(categories) && loading == old(loading) && error == old(error)
    {
      var next := ApplyNotice(filters, n);
      if next != filters {
        filters := next;
        timers := timers + [Snapshot(products, filters)];
      }
    }

    method HandleSearchChange(search: string)
      requires Valid()
      modifies this
      ensures Valid()
      ensures filters == old(filters).(searchQuery := search)
      ensures timers == if search == old(filters).searchQuery then old(timers) else old(timers) + [Snapshot(products, filters)]
      ensures products == old(products) && filteredProducts == old(filteredProducts)
      ensures categories == old(categories) && loading == old(loading) && error == old(error)
    {
      Receive(Notice(OnSearchChange, search));
    }

    method HandleCategoryChange(category: string)
      requires Valid()
      modifies this
      ensures Valid()
      ensures filters == old(filters).(selectedCategory := category)
      ensures timers == if category == old(filters).selectedCategory then old(timers) else old(timers) + [Snapshot(products, filters)]
      ensures products == old(products) && filteredProducts == old(filteredProducts)
      ensures categories == old(categories) && loading == old(loading) && error == old(error)
    {
      Receive(Notice(OnCategoryChange, category));
    }

    method HandlePriceRangeChange(range: string)
      requires Valid()
      modifies this
      ensures Valid()
      ensures filters == old(filters).(priceRange := range)
      ensures timers == if range == old(filters).priceRange then old(timers) else old(timers) + [Snapshot(products, filters)]
      ensures products == old(products) && filteredProducts == old(filteredProducts)
      ensures categories == old(categories) && loading == old(loading) && error == old(error)
    {
      Receive(Notice(OnPriceRangeChange, range));
    }

    /**
     * The oldest timer runs out: the filtered list is recomputed from the
     * values its closure captured. Once no timer is left, the filtered list is
     * the current products filtered by the current inputs.
     */
    method FireNextTimer()
      requires Valid()
      modifies this
      ensures Valid()
      ensures old(timers) == [] ==> filteredProducts == old(filteredProducts) && timers == []
      ensures old(timers) != [] ==>
        && timers == old(timers)[1..]
        && filteredProducts == Filter(old(timers)[0].products, old(timers)[0].filters)
      ensures timers == [] ==> filteredProducts == Filter(products, filters)
      ensures products == old(products) && filters == old(filters) && categories == old(categories)
      ensures loading == old(loading) && error == old(error)
    {
      if timers != [] {
        var t := timers[0];
        ghost var newest := Snapshot(products, filters);
        assert |timers| == 1 ==> t == newest;
        assert |timers| > 1 ==> timers[1..][|timers| - 2] == newest;
        timers := timers[1..];
        filteredProducts := Filter(t.products, t.filters);
      }
    }
  }

  /**
   * Once the catalogue has loaded and every timer has run, the list shows the
   * products that match the current inputs, in catalogue order, or the
   * "no matching products" message when none does.
   */
  lemma SettledListShowsMatches(view: ProductListView)
    requires view.Valid() && view.timers == [] && !view.loading && view.error == None
    ensures view.View() == NoMatches <==> forall p :: p in view.products ==> !Matches(view.filters, p)
    ensures view.View().Grid? ==> view.View().items == Filter(view.products, view.filters)
    ensures view.View().Grid? ==> forall p :: p in view.View().items <==> p in view.products && Matches(view.filters, p)
  {
    FilterKeepsExactlyMatches(view.products, view.filters);
    var f := Filter(view.products, view.filters);
    if f != [] {
      assert f[0] in f;
    }
  }
}
