/**
 * The filter form beside the product list: a search box, a category radio
 * group and a two-thumb price slider. It keeps its own copy of each value and
 * reports changes to the list through three callbacks.
 */
module ProductFilters {
  import opened Wrappers
  import opened Text

  /** The slider's upper end, in dollars. */
  const MAX_PRICE: nat := 1000

  /** The radio value that stands for "no category filter". */
  const ALL_CATEGORIES: string := "all"

  /** The three callbacks the list passes to the form. */
  datatype Callback = OnSearchChange | OnCategoryChange | OnPriceRangeChange

  /** One call of `onSearchChange`, `onCategoryChange` or `onPriceRangeChange`. */
  datatype Notice = Notice(callback: Callback, value: string)

  /**
   * The form `${lo}-${hi}` in which the slider's pair is sent to the list.
   * Splitting it on '-' gives exactly the two decimal forms.
   */
  function RangeString(lo: nat, hi: nat): (s: string)
    ensures Split(s, '-') == [FormatNat(lo), FormatNat(hi)]
  {
    var a, b := FormatNat(lo), FormatNat(hi);
    assert '-' !in a && '-' !in b by {
      assert !IsDigit('-');
    }
    SplitAtSeparator(a, b, '-');
    SplitWithoutSeparator(b, '-');
    a + "-" + b
  }

  /** The radio options: "all" first, then the given categories in their order. */
  function CategoryOptions(categories: seq<string>): (options: seq<string>)
    ensures |options| == |categories| + 1
    ensures options[0] == ALL_CATEGORIES
    ensures forall k :: 0 <= k < |categories| ==> options[k + 1] == categories[k]
  {
    [ALL_CATEGORIES] + categories
  }

  /** `sent[k]` went through `callback`, and no later notice did. */
  ghost predicate LatestThrough(sent: seq<Notice>, callback: Callback, k: int) {
    && 0 <= k < |sent|
    && sent[k].callback == callback
    && forall j :: k < j < |sent| ==> sent[j].callback != callback
  }

  /** The value most recently sent through `callback`, if any. */
  function LastSent(sent: seq<Notice>, callback: Callback): (v: Option<string>)
    ensures v.Some? <==> exists k :: 0 <= k < |sent| && sent[k].callback == callback
    ensures v.Some? ==> exists k :: LatestThrough(sent, callback, k) && sent[k].value == v.value
    decreases |sent|
  {
    if sent == [] then None
    else
      var last := sent[|sent| - 1];
      var earlier := sent[..|sent| - 1];
      var before := LastSent(earlier, callback);
      assert forall k :: 0 <= k < |earlier| ==> earlier[k] == sent[k];
      if last.callback == callback then
        assert LatestThrough(sent, callback, |sent| - 1);
        Some(last.value)
      else
        assert before.Some? ==> exists k :: LatestThrough(sent, callback, k) && sent[k].value == before.value by {
          if before.Some? {
            var k :| LatestThrough(earlier, callback, k) && earlier[k].value == before.value;
            assert LatestThrough(sent, callback, k);
          }
        }
        before
  }

  /**
   * What the form has told the list agrees with the form's own state: the
   * latest search text and range string sent are the current ones, and the
   * latest category sent (the list starts from "all") is the current one.
   */
  ghost predicate Mirrors(sent: seq<Notice>, search: string, category: string, lo: nat, hi: nat) {
    && LastSent(sent, OnSearchChange) == Some(search)
    && LastSent(sent, OnCategoryChange).GetOr(ALL_CATEGORIES) == category
    && LastSent(sent, OnPriceRangeChange) == Some(RangeString(lo, hi))
  }

  /** The mounted form. `sent` records every callback call, oldest first. */
  class FiltersForm {
    const categories: seq<string>
    var search: string
    var selectedCategory: string
    var lo: nat
    var hi: nat
    var sent: seq<Notice>

    ghost predicate Valid()
      reads this
    {
      Mirrors(sent, search, selectedCategory, lo, hi)
    }

    /**
     * Mounting: the defaults, then the two effects run once each and report
     * the search text and the range string.
     */
    constructor (categories: seq<string>)
      ensures Valid()
      ensures this.categories == categories
      ensures search == "" && selectedCategory == ALL_CATEGORIES && lo == 0 && hi == MAX_PRICE
      ensures sent == [Notice(OnSearchChange, ""), Notice(OnPriceRangeChange, RangeString(0, MAX_PRICE))]
    {
      this.categories := categories;
      search := "";
      selectedCategory := ALL_CATEGORIES;
      lo, hi := 0, MAX_PRICE;
      sent := [Notice(OnSearchChange, ""), Notice(OnPriceRangeChange, RangeString(0, MAX_PRICE))];
    }

    /**
     * Typing in the search box. The search effect runs only when the text
     * really changed, and then forwards the new text.
     */
    method SetSearch(text: string)
      requires Valid()
      modifies this
      ensures Valid()
      ensures search == text
      ensures sent == if text == old(search) then old(sent) else old(sent) + [Notice(OnSearchChange, text)]
      ensures selectedCategory == old(selectedCategory) && lo == old(lo) && hi == old(hi)
    {
      var changed := text != search;
      search := text;
      if changed {
        sent := sent + [Notice(OnSearchChange, text)];
      }
    }

    /** Choosing a radio option: kept locally and forwarded as it is. */
    method HandleCategoryChange(value: string)
      requires Valid()
      modifies this
      ensures Valid()
      ensures selectedCategory == value
      ensures sent == old(sent) + [Notice(OnCategoryChange, value)]
      ensures search == old(search) && lo == old(lo) && hi == old(hi)
    {
      selectedCategory := value;
      sent := sent + [Notice(OnCategoryChange, value)];
    }

    /** Clicking the k-th radio option: "all" first, then the categories in their order. */
    method ChooseOption(k: nat)
      requires Valid()
      requires k < |CategoryOptions(categories)|
      modifies this
      ensures Valid()
      ensures selectedCategory == (if k == 0 then ALL_CATEGORIES else categories[k - 1])
      ensures sent == old(sent) + [Notice(OnCategoryChange, selectedCategory)]
      ensures search == old(search) && lo == old(lo) && hi == old(hi)
    {
      HandleCategoryChange(CategoryOptions(categories)[k]);
    }

    /**
     * Moving the slider: the whole pair is replaced. The slider hands over a
     * fresh array every time, so the range effect always runs and forwards
     * the range string, even for an unchanged pair.
     */
    method HandlePriceChange(newLo: nat, newHi: nat)
      requires Valid()
      modifies this
      ensures Valid()
      ensures lo == newLo && hi == newHi
      ensures sent == old(sent) + [Notice(OnPriceRangeChange, RangeString(newLo, newHi))]
      ensures search == old(search) && selectedCategory == old(selectedCategory)
    {
      lo, hi := newLo, newHi;
      sent := sent + [Notice(OnPriceRangeChange, RangeString(lo, hi))];
    }
  }
}
