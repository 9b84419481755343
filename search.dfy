/**
 * The client search page: the verified and tag filters over the fetched
 * list, fixed-size pagination, the sidebar's list of selectable tags, and the
 * page state (selected tags, current page, mode) that is mirrored into the
 * browser's session storage under the key `searchState`.
 */
module Search {
  import opened Wrappers
  import Lists

  const CardsPerPage: int := 4
  const StorageKey: string := "searchState"

  /** A fetched NGO or opportunity; `verified` is absent on opportunities. */
  datatype Item = Item(key: int, verified: Option<bool>, tags: seq<string>)

  /** `it.verified === true || it.verified === undefined`. */
  predicate IsShownStatus(it: Item) {
    it.verified == Some(true) || it.verified == None
  }

  /** `it => selected.every(tag => it.tags.includes(tag))`. */
  function HasAll(selected: seq<string>): Item -> bool {
    (it: Item) => forall t :: t in selected ==> t in it.tags
  }

  /** The verified items, then, if any tag is selected, those carrying every selected tag. */
  function Filtered(items: seq<Item>, selected: seq<string>): (r: seq<Item>)
    ensures forall it :: it in r <==>
      it in items && IsShownStatus(it) && forall t :: t in selected ==> t in it.tags
  {
    var verified := Lists.Filter(items, IsShownStatus);
    if |selected| > 0 then Lists.Filter(verified, HasAll(selected)) else verified
  }

  /** Both filters as one predicate. */
  function Shown(selected: seq<string>): Item -> bool {
    (it: Item) => IsShownStatus(it) && HasAll(selected)(it)
  }

  lemma FilteredIsOneFilter(items: seq<Item>, selected: seq<string>)
    ensures Filtered(items, selected) == Lists.Filter(items, Shown(selected))
  {
    var verified := Lists.Filter(items, IsShownStatus);
    if |selected| > 0 {
      Lists.FilterFilter(items, IsShownStatus, HasAll(selected), Shown(selected));
    } else {
      forall x | x in items ensures IsShownStatus(x) == Shown(selected)(x) {
        assert HasAll(selected)(x) == (forall t :: t in selected ==> t in x.tags);
        assert Shown(selected)(x) == (IsShownStatus(x) && HasAll(selected)(x));
      }
      Lists.FilterExtensional(items, IsShownStatus, Shown(selected));
    }
  }

  /** The shown list is an order-preserving subsequence of the fetched list. */
  lemma FilteredIsSubsequence(items: seq<Item>, selected: seq<string>)
    ensures Lists.IsSubsequence(Filtered(items, selected), items)
  {
    FilteredIsOneFilter(items, selected);
    Lists.FilterIsSubsequence(items, Shown(selected));
  }

  /** Selecting more tags keeps a subsequence of what fewer tags show (AND semantics). */
  lemma FilteredAntitone(items: seq<Item>, fewer: seq<string>, more: seq<string>)
    requires forall t :: t in fewer ==> t in more
    ensures Lists.IsSubsequence(Filtered(items, more), Filtered(items, fewer))
  {
    FilteredIsOneFilter(items, fewer);
    FilteredIsOneFilter(items, more);
    forall x ensures Shown(more)(x) ==> Shown(fewer)(x) {
      assert HasAll(more)(x) == (forall t :: t in more ==> t in x.tags);
      assert HasAll(fewer)(x) == (forall t :: t in fewer ==> t in x.tags);
      assert Shown(more)(x) == (IsShownStatus(x) && HasAll(more)(x));
      assert Shown(fewer)(x) == (IsShownStatus(x) && HasAll(fewer)(x));
    }
    Lists.FilterMonotone(items, Shown(more), Shown(fewer));
  }

  /** `prev.includes(tag) ? prev : [...prev, tag]`. */
  function WithTag(selected: seq<string>, tag: string): (r: seq<string>)
    ensures tag in r
    ensures forall t :: t in r <==> t in selected || t == tag
    ensures tag in selected ==> r == selected
    ensures tag !in selected ==> |r| == |selected| + 1 && r[..|selected|] == selected
  {
    if tag in selected then selected else selected + [tag]
  }

  /** No tag occurs twice. */
  predicate NoDuplicates(s: seq<string>) {
    forall i, j :: 0 <= i < j < |s| ==> s[i] != s[j]
  }

  lemma WithTagKeepsNoDuplicates(selected: seq<string>, tag: string)
    requires NoDuplicates(selected)
    ensures NoDuplicates(WithTag(selected, tag))
  {
  }

  /** Selecting a tag never enlarges the shown list; removing one never shrinks it. */
  lemma SelectionMonotone(items: seq<Item>, selected: seq<string>, tag: string)
    ensures Lists.IsSubsequence(Filtered(items, WithTag(selected, tag)), Filtered(items, selected))
    ensures Lists.IsSubsequence(Filtered(items, selected), Filtered(items, Lists.Without(selected, tag)))
  {
    FilteredAntitone(items, selected, WithTag(selected, tag));
    FilteredAntitone(items, Lists.Without(selected, tag), selected);
  }

  function Min(a: int, b: int): int { if a <= b then a else b }
  function Max(a: int, b: int): int { if a >= b then a else b }

  /** `Array.prototype.slice(start, end)`, negative positions counting from the end. */
  function Slice<T>(s: seq<T>, start: int, end: int): seq<T> {
    var n := |s|;
    var from := if start < 0 then Max(n + start, 0) else Min(start, n);
    var to := if end < 0 then Max(n + end, 0) else Min(end, n);
    if from < to then s[from..to] else []
  }

  /** `TileBox`: page `page` shows `items.slice((page - 1) * 4, (page - 1) * 4 + 4)`. */
  function Page<T>(items: seq<T>, page: int): (r: seq<T>)
    ensures |r| <= CardsPerPage
    ensures page >= 1 ==>
      r == items[Min((page - 1) * CardsPerPage, |items|)..Min(page * CardsPerPage, |items|)]
  {
    Slice(items, (page - 1) * CardsPerPage, (page - 1) * CardsPerPage + CardsPerPage)
  }

  /** `Math.ceil(items.length / 4)`. */
  function PageCount(n: nat): (r: nat)
    ensures (r - 1) * CardsPerPage < n <= r * CardsPerPage || (n == 0 && r == 0)
  {
    (n + CardsPerPage - 1) / CardsPerPage
  }

  /** The page buttons, numbered `1..PageCount(n)`. */
  function PageButtons(n: nat): (r: seq<int>)
    ensures |r| == PageCount(n)
    ensures forall i :: 0 <= i < |r| ==> r[i] == i + 1
  {
    seq(PageCount(n), i requires 0 <= i < PageCount(n) => i + 1)
  }

  /** Pages `1..k` laid end to end. */
  function FirstPages<T>(items: seq<T>, k: nat): seq<T> {
    if k == 0 then [] else FirstPages(items, k - 1) + Page(items, k)
  }

  lemma {:induction false} FirstPagesPrefix<T>(items: seq<T>, k: nat)
    ensures FirstPages(items, k) == items[..Min(k * CardsPerPage, |items|)]
  {
    if k > 0 {
      FirstPagesPrefix(items, k - 1);
      var a, b := Min((k - 1) * CardsPerPage, |items|), Min(k * CardsPerPage, |items|);
      assert items[..a] + items[a..b] == items[..b];
    }
  }

  /** The numbered pages show every item exactly once, in order, and none of them is empty. */
  lemma PagesCoverItems<T>(items: seq<T>)
    ensures FirstPages(items, PageCount(|items|)) == items
    ensures forall p :: 1 <= p <= PageCount(|items|) ==> |Page(items, p)| > 0
    ensures forall p :: p > PageCount(|items|) ==> Page(items, p) == []
  {
    FirstPagesPrefix(items, PageCount(|items|));
  }

  /** Insert `x` before the first element at least as long, so equal lengths keep their order. */
  function InsertByLength(x: string, s: seq<string>): (r: seq<string>)
    ensures multiset(r) == multiset(s) + multiset{x}
  {
    if s == [] || |x| <= |s[0]| then [x] + s
    else
      assert s == [s[0]] + s[1..];
      [s[0]] + InsertByLength(x, s[1..])
  }

  predicate SortedByLength(s: seq<string>) {
    forall i, j :: 0 <= i < j < |s| ==> |s[i]| <= |s[j]|
  }

  predicate AllAtLeast(s: seq<string>, n: int) {
    forall i :: 0 <= i < |s| ==> n <= |s[i]|
  }

  /** Inserting an element no shorter than a bound keeps every element at or above it. */
  lemma {:induction false} InsertByLengthBound(x: string, s: seq<string>, n: int)
    requires n <= |x| && AllAtLeast(s, n)
    ensures AllAtLeast(InsertByLength(x, s), n)
  {
    if s != [] && |x| > |s[0]| {
      InsertByLengthBound(x, s[1..], n);
    }
  }

  lemma {:induction false} InsertByLengthSorted(x: string, s: seq<string>)
    requires SortedByLength(s)
    ensures SortedByLength(InsertByLength(x, s))
  {
    if s != [] && |x| > |s[0]| {
      InsertByLengthSorted(x, s[1..]);
      assert AllAtLeast(s[1..], |s[0]|);
      InsertByLengthBound(x, s[1..], |s[0]|);
    } else {
      assert AllAtLeast(s, |x|);
    }
  }

  /** `.sort((a, b) => a.length - b.length)`, a stable sort by length. */
  function SortByLength(s: seq<string>): (r: seq<string>)
    ensures SortedByLength(r)
    ensures multiset(r) == multiset(s)
  {
    if s == [] then []
    else
      assert s == [s[0]] + s[1..];
      var rest := SortByLength(s[1..]);
      InsertByLengthSorted(s[0], rest);
      InsertByLength(s[0], rest)
  }

  /** `TagSidebar`: the unselected tags, shortest first. */
  function AvailableTags(tags: seq<string>, selected: seq<string>): (r: seq<string>)
    ensures forall t :: t in r <==> t in tags && t !in selected
    ensures SortedByLength(r)
    ensures multiset(r) == multiset(Lists.Filter(tags, (t: string) => t !in selected))
  {
    var unselected := Lists.Filter(tags, (t: string) => t !in selected);
    var r := SortByLength(unselected);
    assert forall t :: t in r <==> t in multiset(r);
    r
  }

  /** The three persisted fields. */
  datatype ViewState = ViewState(selectedTags: seq<string>, currentPage: int, mode: string)

  const Initial: ViewState := ViewState([], 1, "ngos")

  /** What `JSON.parse` of the stored entry yields; a field may be missing. */
  datatype SavedState = SavedState(selectedTags: Option<seq<string>>, currentPage: Option<int>, mode: Option<string>)

  /** `JSON.stringify({selectedTags, currentPage, mode})`. */
  function Save(v: ViewState): SavedState {
    SavedState(Some(v.selectedTags), Some(v.currentPage), Some(v.mode))
  }

  /**
   * The mount effect: each saved field overwrites the current one only when
   * present and truthy (an array always is; a page must be non-zero, a mode
   * non-empty).
   */
  function Restore(current: ViewState, saved: SavedState): (r: ViewState)
    ensures saved.selectedTags.None? ==> r.selectedTags == current.selectedTags
    ensures saved.currentPage.None? || saved.currentPage == Some(0) ==> r.currentPage == current.currentPage
    ensures saved.mode.None? || saved.mode == Some("") ==> r.mode == current.mode
    ensures saved.selectedTags.Some? ==> r.selectedTags == saved.selectedTags.value
    ensures saved.currentPage.Some? && saved.currentPage != Some(0) ==> r.currentPage == saved.currentPage.value
    ensures saved.mode.Some? && saved.mode != Some("") ==> r.mode == saved.mode.value
  {
    ViewState(
      if saved.selectedTags.Some? then saved.selectedTags.value else current.selectedTags,
      if saved.currentPage.Some? && saved.currentPage.value != 0 then saved.currentPage.value else current.currentPage,
      if saved.mode.Some? && saved.mode.value != "" then saved.mode.value else current.mode)
  }

  /** Saving then restoring gives the saved state back, whenever page and mode are truthy. */
  lemma RestoreAfterSave(current: ViewState, v: ViewState)
    requires v.currentPage != 0 && v.mode != ""
    ensures Restore(current, Save(v)) == v
  {
  }

  /** The page component: its state fields and the session storage it mirrors them into. */
  class SearchPage {
    var items: seq<Item>
    var tags: seq<string>
    var selectedTags: seq<string>
    var currentPage: int
    var mode: string
    var storage: map<string, SavedState>

    function State(): ViewState
      reads this
    {
      ViewState(selectedTags, currentPage, mode)
    }

    /** The storage entry always mirrors the current state. */
    ghost predicate Valid()
      reads this
    {
      StorageKey in storage && storage[StorageKey] == Save(State())
    }

    /** The cards on screen. */
    function Visible(): seq<Item>
      reads this
    {
      Page(Filtered(items, selectedTags), currentPage)
    }

    /** The tag buttons in the sidebar. */
    function Offered(): seq<string>
      reads this
    {
      AvailableTags(tags, selectedTags)
    }

    /** Mounting: restore from storage if an entry exists, then save. */
    constructor Mount(stored: map<string, SavedState>)
      ensures State() == (if StorageKey in stored then Restore(Initial, stored[StorageKey]) else Initial)
      ensures storage == stored[StorageKey := Save(State())]
      ensures items == [] && tags == []
      ensures Valid()
    {
      var v := if StorageKey in stored then Restore(Initial, stored[StorageKey]) else Initial;
      items, tags := [], [];
      selectedTags, currentPage, mode := v.selectedTags, v.currentPage, v.mode;
      storage := stored[StorageKey := Save(v)];
    }

    /** The list fetch for the current mode has answered. */
    method Receive(fetched: seq<Item>, allTags: seq<string>)
      requires Valid()
      modifies this
      ensures Valid()
      ensures items == fetched && tags == allTags
      ensures State() == old(State()) && storage == old(storage)
    {
      items, tags := fetched, allTags;
    }

    /** `handleTagClick`: select the tag if new, back to page 1. */
    method HandleTagClick(tag: string)
      requires Valid()
      modifies this
      ensures Valid()
      ensures selectedTags == WithTag(old(selectedTags), tag)
      ensures currentPage == 1 && mode == old(mode)
      ensures items == old(items) && tags == old(tags)
      ensures storage == old(storage)[StorageKey := Save(State())]
    {
      selectedTags := WithTag(selectedTags, tag);
      currentPage := 1;
      storage := storage[StorageKey := Save(State())];
    }

    /** `removeTag`: deselect the tag; the page is kept. */
    method RemoveTag(tag: string)
      requires Valid()
      modifies this
      ensures Valid()
      ensures selectedTags == Lists.Without(old(selectedTags), tag)
      ensures currentPage == old(currentPage) && mode == old(mode)
      ensures items == old(items) && tags == old(tags)
      ensures storage == old(storage)[StorageKey := Save(State())]
    {
      selectedTags := Lists.Without(selectedTags, tag);
      storage := storage[StorageKey := Save(State())];
    }

    /** `onModeChange`: switch mode, clear the selection, back to page 1. */
    method ChangeMode(value: string)
      requires Valid()
      modifies this
      ensures Valid()
      ensures State() == ViewState([], 1, value)
      ensures items == old(items) && tags == old(tags)
      ensures storage == old(storage)[StorageKey := Save(State())]
    {
      mode, selectedTags, currentPage := value, [], 1;
      storage := storage[StorageKey := Save(State())];
    }

    /** A page button was pressed. */
    method SetCurrentPage(page: int)
      requires Valid()
      modifies this
      ensures Valid()
      ensures State() == old(State()).(currentPage := page)
      ensures items == old(items) && tags == old(tags)
      ensures storage == old(storage)[StorageKey := Save(State())]
    {
      currentPage := page;
      storage := storage[StorageKey := Save(State())];
    }
  }
}
