/**
 * The administrator's page: an accordion of lists (subscriptions, donations,
 * verifications, tags, actions), three filters over the subscription list, a
 * status switch per subscription, and adding and removing tags.
 *
 * The page keeps its fetched profile together with the filter inputs in one
 * state object; here that object is the class `AdminPage`, whose fields are
 * the parts of it the handlers read or write.
 */
module Admin {
  import opened Wrappers
  import Lists
  import Sections
  import JsText
  import TagModel

  /** A subscription row of `allSubscriptions`; the amount is the number `parseFloat` reads from it. */
  datatype Subscription = Subscription(
    subscriptionId: int, userId: int, ngoId: int, ngoName: string, amount: real, status: string)

  // ---------------------------------------------------------------------
  // Subscription status
  // ---------------------------------------------------------------------

  /** The status a click asks for: "canceled" for an active subscription, "active" for any other. */
  function Flip(status: string): (r: string)
    ensures r == "canceled" <==> status == "active"
    ensures r == "active" <==> status != "active"
    ensures r != status
  {
    if status == "active" then "canceled" else "active"
  }

  /** Flipping twice gives back a status that was one of the two known ones. */
  lemma FlipTwice(status: string)
    requires status == "active" || status == "canceled"
    ensures Flip(Flip(status)) == status
  {
  }

  /** The local update after an ok response: the rows with that id take the new status. */
  function SetStatus(subs: seq<Subscription>, id: int, status: string): (r: seq<Subscription>)
    ensures |r| == |subs|
    ensures forall i :: 0 <= i < |subs| ==> r[i].(status := subs[i].status) == subs[i]
    ensures forall i :: 0 <= i < |subs| && subs[i].subscriptionId == id ==> r[i].status == status
    ensures forall i :: 0 <= i < |subs| && subs[i].subscriptionId != id ==> r[i] == subs[i]
  {
    if subs == [] then []
    else
      var head := if subs[0].subscriptionId == id then subs[0].(status := status) else subs[0];
      [head] + SetStatus(subs[1..], id, status)
  }

  /** Every row carrying that id has the given status. */
  predicate StatusOf(subs: seq<Subscription>, id: int, status: string) {
    forall i :: 0 <= i < |subs| && subs[i].subscriptionId == id ==> subs[i].status == status
  }

  /** Switching a subscription and switching it back restores the list exactly. */
  lemma {:induction false} SwitchBack(subs: seq<Subscription>, id: int, status: string)
    requires status == "active" || status == "canceled"
    requires StatusOf(subs, id, status)
    ensures SetStatus(SetStatus(subs, id, Flip(status)), id, Flip(Flip(status))) == subs
  {
    if subs != [] {
      assert StatusOf(subs[1..], id, status) by {
        forall i | 0 <= i < |subs[1..]| && subs[1..][i].subscriptionId == id
          ensures subs[1..][i].status == status
        {
          assert subs[1..][i] == subs[i + 1];
        }
      }
      SwitchBack(subs[1..], id, status);
    }
  }

  // ---------------------------------------------------------------------
  // Subscription filters
  // ---------------------------------------------------------------------

  /**
   * The filter inputs: a selected user and NGO (the select holds the id's
   * text, so comparing `String(...)` values compares ids), and the minimum
   * and maximum amounts. `None` is the empty input, which JavaScript treats
   * as false; any other text, "0" included, is an active criterion.
   */
  datatype Criteria = Criteria(user: Option<int>, ngo: Option<int>, min: Option<real>, max: Option<real>)

  const NoCriteria := Criteria(None, None, None, None)

  function UserIs(u: int): Criteria { NoCriteria.(user := Some(u)) }
  function NgoIs(n: int): Criteria { NoCriteria.(ngo := Some(n)) }
  function AtLeast(m: real): Criteria { NoCriteria.(min := Some(m)) }
  function AtMost(m: real): Criteria { NoCriteria.(max := Some(m)) }

  predicate AnyActive(c: Criteria) {
    c.user.Some? || c.ngo.Some? || c.min.Some? || c.max.Some?
  }

  /** A subscription meets every active criterion. */
  predicate Meets(c: Criteria, s: Subscription) {
    && (c.user.None? || s.userId == c.user.value)
    && (c.ngo.None? || s.ngoId == c.ngo.value)
    && (c.min.None? || s.amount >= c.min.value)
    && (c.max.None? || s.amount <= c.max.value)
  }

  function Matching(c: Criteria): Subscription -> bool {
    (s: Subscription) => Meets(c, s)
  }

  /** The subscriptions meeting every active criterion, in their original order. */
  function Selected(subs: seq<Subscription>, c: Criteria): (r: seq<Subscription>)
    ensures forall s :: s in r <==> s in subs && Meets(c, s)
    ensures forall s :: multiset(r)[s] == if Meets(c, s) then multiset(subs)[s] else 0
    ensures Lists.IsSubsequence(r, subs)
  {
    Lists.FilterIsSubsequence(subs, Matching(c));
    Lists.Filter(subs, Matching(c))
  }

  /** Two criteria that constrain different inputs. */
  predicate Disjoint(c: Criteria, d: Criteria) {
    (c.user.None? || d.user.None?) && (c.ngo.None? || d.ngo.None?)
    && (c.min.None? || d.min.None?) && (c.max.None? || d.max.None?)
  }

  /** Both sets of criteria at once. */
  function Both(c: Criteria, d: Criteria): (r: Criteria)
    requires Disjoint(c, d)
    ensures forall s :: Meets(r, s) <==> Meets(c, s) && Meets(d, s)
  {
    Criteria(
      if c.user.Some? then c.user else d.user,
      if c.ngo.Some? then c.ngo else d.ngo,
      if c.min.Some? then c.min else d.min,
      if c.max.Some? then c.max else d.max)
  }

  /** No criterion keeps every subscription. */
  lemma SelectedNothing(subs: seq<Subscription>)
    ensures Selected(subs, NoCriteria) == subs
  {
    Lists.FilterKeepsAll(subs, Matching(NoCriteria));
  }

  /** Filtering a filtered list by a further criterion is filtering once by both. */
  lemma Narrow(subs: seq<Subscription>, c: Criteria, d: Criteria)
    requires Disjoint(c, d)
    ensures Lists.Filter(Selected(subs, c), Matching(d)) == Selected(subs, Both(c, d))
  {
    Lists.FilterFilter(subs, Matching(c), Matching(d), Matching(Both(c, d)));
  }

  /** Stricter criteria never keep more: the result is a subsequence of the looser one. */
  lemma SelectedAntitone(subs: seq<Subscription>, c: Criteria, d: Criteria)
    requires Disjoint(c, d)
    ensures Lists.IsSubsequence(Selected(subs, Both(c, d)), Selected(subs, c))
  {
    Narrow(subs, c, d);
    Lists.FilterIsSubsequence(Selected(subs, c), Matching(d));
  }

  // ---------------------------------------------------------------------
  // Tags
  // ---------------------------------------------------------------------

  /**
   * An entry of the tag list: rows loaded with the profile carry `tag_id`;
   * an entry added on the page carries the `id` of the insert reply instead.
   * `_id` is read by the removal filter but never set by the server.
   */
  datatype TagEntry = TagEntry(id: Option<int>, underscoreId: Option<int>, tagId: Option<int>, tag: string)

  /** A number field is truthy when present and not 0. */
  predicate Present(n: Option<int>) { n.Some? && n.value != 0 }

  /** `tag.id || tag._id || tag.tag_id`. */
  function Identifier(t: TagEntry): Option<int> {
    if Present(t.id) then t.id else if Present(t.underscoreId) then t.underscoreId else t.tagId
  }

  /** A tag loaded with the profile. */
  function LoadedEntry(tagId: int, tag: string): TagEntry {
    TagEntry(None, None, Some(tagId), tag)
  }

  /** `{tag: newTag, ...data}` for the reply of a successful insert: the new id lands in `id`. */
  function AddedEntry(id: int, tag: string): TagEntry {
    TagEntry(Some(id), None, None, tag)
  }

  /** A loaded tag is identified by its tag_id, an added one by a non-zero insert id. */
  lemma IdentifierOfEntries(tagId: int, id: int, tag: string)
    ensures Identifier(LoadedEntry(tagId, tag)) == Some(tagId)
    ensures id != 0 ==> Identifier(AddedEntry(id, tag)) == Some(id)
  {
  }

  function KeepsTag(tagId: Option<int>): TagEntry -> bool {
    (t: TagEntry) => Identifier(t) != tagId
  }

  function KeepsUnlessId(tagId: Option<int>): TagEntry -> bool {
    (t: TagEntry) => t.id != tagId
  }

  /** The list after a successful removal: every entry identified by the id goes, the rest stay in order. */
  function AfterRemoval(tags: seq<TagEntry>, tagId: Option<int>): (r: seq<TagEntry>)
    ensures forall t :: t in r <==> t in tags && Identifier(t) != tagId
    ensures forall t :: multiset(r)[t] == if Identifier(t) != tagId then multiset(tags)[t] else 0
    ensures Lists.IsSubsequence(r, tags)
  {
    Lists.FilterIsSubsequence(tags, KeepsTag(tagId));
    Lists.Filter(tags, KeepsTag(tagId))
  }

  /** The list after a 404: only entries whose `id` field equals the id go. */
  function AfterNotFound(tags: seq<TagEntry>, tagId: Option<int>): (r: seq<TagEntry>)
    ensures forall t :: t in r <==> t in tags && t.id != tagId
    ensures forall t :: multiset(r)[t] == if t.id != tagId then multiset(tags)[t] else 0
    ensures Lists.IsSubsequence(r, tags)
  {
    Lists.FilterIsSubsequence(tags, KeepsUnlessId(tagId));
    Lists.Filter(tags, KeepsUnlessId(tagId))
  }

  /** Tags loaded with the profile have no `id`, so the 404 clean-up removes none of them. */
  lemma NotFoundKeepsLoadedTags(tags: seq<TagEntry>, tagId: int)
    requires forall t :: t in tags ==> t.id.None?
    ensures AfterNotFound(tags, Some(tagId)) == tags
  {
    Lists.FilterKeepsAll(tags, KeepsUnlessId(Some(tagId)));
  }

  /** The `tag_id` field as it reaches the server: `JSON.stringify` drops an undefined one. */
  function WireId(tagId: Option<int>): (f: TagModel.TagIdField)
    ensures tagId.None? <==> f.Missing?
    ensures tagId.Some? ==> f == TagModel.Number(tagId.value)
  {
    if tagId.Some? then TagModel.Number(tagId.value) else TagModel.Missing
  }

  /**
   * The Remove button sends the entry's `tag_id`. An entry added on the page
   * has none, so whatever the tables hold the server answers 400 and the entry
   * stays until the profile is loaded again.
   */
  lemma AddedTagCannotBeRemoved(
    id: int, tag: string, rows: seq<TagModel.TagRow>, pairs: seq<TagModel.TagPair>, fault: bool)
    ensures TagModel.DeleteReply(rows, pairs, WireId(AddedEntry(id, tag).tagId), fault) == TagModel.InvalidId
    ensures TagModel.DeleteReply(rows, pairs, WireId(AddedEntry(id, tag).tagId), fault).Status() == 400
  {
  }

  /** `newTag.trim()` is non-empty. */
  predicate HasText(s: string) {
    JsText.TrimStart(s) != ""
  }

  /** The input has text exactly when some character of it is not white space. */
  lemma {:induction false} HasTextIffNotBlank(s: string)
    ensures HasText(s) <==> exists i :: 0 <= i < |s| && !JsText.IsSpace(s[i])
  {
    if s != [] {
      HasTextIffNotBlank(s[1..]);
      if JsText.IsSpace(s[0]) {
        if exists i :: 0 <= i < |s| && !JsText.IsSpace(s[i]) {
          var i :| 0 <= i < |s| && !JsText.IsSpace(s[i]);
          assert s[1..][i - 1] == s[i];
        }
        if exists i :: 0 <= i < |s[1..]| && !JsText.IsSpace(s[1..][i]) {
          var i :| 0 <= i < |s[1..]| && !JsText.IsSpace(s[1..][i]);
          assert s[i + 1] == s[1..][i];
        }
      } else {
        assert !JsText.IsSpace(s[0]);
      }
    }
  }

  /** One step of a filter handler: `filtered = filtered.filter(...)` for one further criterion. */
  method Refine(all: seq<Subscription>, filtered: seq<Subscription>, ghost applied: Criteria, d: Criteria)
    returns (r: seq<Subscription>)
    requires filtered == Selected(all, applied) && Disjoint(applied, d)
    ensures r == Selected(all, Both(applied, d))
  {
    Narrow(all, applied, d);
    r := Lists.Filter(filtered, Matching(d));
  }

  /** The steps of the user filter: user, then minimum, maximum and NGO, each only when active. */
  method UserFilterSteps(all: seq<Subscription>, c: Criteria) returns (filtered: seq<Subscription>)
    ensures filtered == Selected(all, c)
  {
    filtered := all;
    ghost var applied := NoCriteria;
    SelectedNothing(all);
    if c.user.Some? {
      filtered := Refine(all, filtered, applied, UserIs(c.user.value));
      applied := Both(applied, UserIs(c.user.value));
    }
    if c.min.Some? {
      filtered := Refine(all, filtered, applied, AtLeast(c.min.value));
      applied := Both(applied, AtLeast(c.min.value));
    }
    if c.max.Some? {
      filtered := Refine(all, filtered, applied, AtMost(c.max.value));
      applied := Both(applied, AtMost(c.max.value));
    }
    if c.ngo.Some? {
      filtered := Refine(all, filtered, applied, NgoIs(c.ngo.value));
      applied := Both(applied, NgoIs(c.ngo.value));
    }
    assert applied == c;
  }

  /** The steps of the value filter: user, NGO, minimum and maximum, each only when active. */
  method ValueFilterSteps(all: seq<Subscription>, c: Criteria) returns (filtered: seq<Subscription>)
    ensures filtered == Selected(all, c)
  {
    filtered := all;
    ghost var applied := NoCriteria;
    SelectedNothing(all);
    if c.user.Some? {
      filtered := Refine(all, filtered, applied, UserIs(c.user.value));
      applied := Both(applied, UserIs(c.user.value));
    }
    if c.ngo.Some? {
      filtered := Refine(all, filtered, applied, NgoIs(c.ngo.value));
      applied := Both(applied, NgoIs(c.ngo.value));
    }
    if c.min.Some? {
      filtered := Refine(all, filtered, applied, AtLeast(c.min.value));
      applied := Both(applied, AtLeast(c.min.value));
    }
    if c.max.Some? {
      filtered := Refine(all, filtered, applied, AtMost(c.max.value));
      applied := Both(applied, AtMost(c.max.value));
    }
    assert applied == c;
  }

  // ---------------------------------------------------------------------
  // The page
  // ---------------------------------------------------------------------

  /** How a request ended. */
  datatype Outcome = Responded(status: int) | NetworkError {
    predicate Ok() { Responded? && 200 <= status < 300 }
  }

  /** How the add-tag request ended; an ok reply carries the new id. */
  datatype AddOutcome = Created(id: int) | Refused(status: int) | AddFailed

  class AdminPage {
    var openSections: seq<int>
    var allSubscriptions: seq<Subscription>
    var filteredSubscriptions: Option<seq<Subscription>>  // null or never set: None
    var isFiltered: bool                  // read by the status switch, set by no handler
    var subscriptionsFiltered: bool       // decides which list the accordion shows
    var userFilterApplied: bool
    var amountFilterApplied: bool
    var selectedUser: Option<int>
    var selectedNgo: Option<int>
    var minAmount: Option<real>
    var maxAmount: Option<real>
    var tags: seq<TagEntry>               // `PersonalInfo.tags[0]`
    var newTag: string

    /** A filtered display always has a list to show. */
    predicate Valid()
      reads this
    {
      subscriptionsFiltered ==> filteredSubscriptions.Some?
    }

    /** The subscriptions the accordion lists. */
    function Shown(): (r: seq<Subscription>)
      reads this
      requires Valid()
      ensures !subscriptionsFiltered ==> r == allSubscriptions
      ensures subscriptionsFiltered ==> r == filteredSubscriptions.value
    {
      if subscriptionsFiltered then filteredSubscriptions.value else allSubscriptions
    }

    function Current(): Criteria
      reads this
    {
      Criteria(selectedUser, selectedNgo, minAmount, maxAmount)
    }

    /** The page once the profile has arrived; none of the page's own fields is set yet. */
    constructor Loaded(subscriptions: seq<Subscription>, loadedTags: seq<TagEntry>)
      ensures Valid()
      ensures allSubscriptions == subscriptions && tags == loadedTags
      ensures openSections == [] && newTag == ""
      ensures filteredSubscriptions.None? && !isFiltered && !subscriptionsFiltered
      ensures !userFilterApplied && !amountFilterApplied
      ensures Current() == NoCriteria
      ensures Shown() == subscriptions
    {
      openSections := [];
      allSubscriptions := subscriptions;
      filteredSubscriptions := None;
      isFiltered := false;
      subscriptionsFiltered := false;
      userFilterApplied := false;
      amountFilterApplied := false;
      selectedUser := None;
      selectedNgo := None;
      minAmount := None;
      maxAmount := None;
      tags := loadedTags;
      newTag := "";
    }

    method ToggleSection(index: int)
      modifies this
      ensures openSections == Sections.Toggled(old(openSections), index)
      ensures allSubscriptions == old(allSubscriptions) && filteredSubscriptions == old(filteredSubscriptions)
      ensures subscriptionsFiltered == old(subscriptionsFiltered) && tags == old(tags)
      ensures isFiltered == old(isFiltered) && Current() == old(Current())
    {
      openSections := Sections.Toggled(openSections, index);
    }

    /**
     * `handleStatusChange`: after confirmation the new status is sent; an ok
     * reply switches the rows with that id in `allSubscriptions`, and in the
     * filtered list only when `isFiltered` is set.
     */
    method HandleStatusChange(subscriptionId: int, currentStatus: string, confirmed: bool, outcome: Outcome)
      returns (sent: Option<string>)
      requires Valid()
      modifies this
      ensures Valid()
      ensures sent == (if confirmed then Some(Flip(currentStatus)) else None)
      ensures confirmed && outcome.Ok() ==>
        allSubscriptions == SetStatus(old(allSubscriptions), subscriptionId, Flip(currentStatus))
      ensures !(confirmed && outcome.Ok()) ==> allSubscriptions == old(allSubscriptions)
      ensures confirmed && outcome.Ok() && old(isFiltered) && old(filteredSubscriptions).Some? ==>
        filteredSubscriptions == Some(SetStatus(old(filteredSubscriptions).value, subscriptionId, Flip(currentStatus)))
      ensures !(confirmed && outcome.Ok() && old(isFiltered)) ==> filteredSubscriptions == old(filteredSubscriptions)
      ensures old(filteredSubscriptions).None? ==> filteredSubscriptions.None?
      ensures isFiltered == old(isFiltered) && subscriptionsFiltered == old(subscriptionsFiltered)
      ensures Current() == old(Current()) && tags == old(tags) && openSections == old(openSections)
    {
      var newStatus := Flip(currentStatus);
      if !confirmed {
        return None;
      }
      sent := Some(newStatus);
      if outcome.Ok() {
        allSubscriptions := SetStatus(allSubscriptions, subscriptionId, newStatus);
        if isFiltered && filteredSubscriptions.Some? {
          filteredSubscriptions := Some(SetStatus(filteredSubscriptions.value, subscriptionId, newStatus));
        }
      }
    }

    /** The NGO filter: only the selected NGO counts; without one, everything is shown unfiltered. */
    method FilterByNgo()
      requires Valid()
      modifies this
      ensures Valid()
      ensures old(selectedNgo).Some? ==>
        filteredSubscriptions == Some(Selected(allSubscriptions, NgoIs(old(selectedNgo).value)))
        && subscriptionsFiltered
      ensures old(selectedNgo).None? ==> filteredSubscriptions == Some(allSubscriptions) && !subscriptionsFiltered
      ensures Shown() == Selected(allSubscriptions, NoCriteria.(ngo := old(selectedNgo)))
      ensures allSubscriptions == old(allSubscriptions) && Current() == old(Current())
      ensures userFilterApplied == old(userFilterApplied) && amountFilterApplied == old(amountFilterApplied)
      ensures isFiltered == old(isFiltered) && tags == old(tags) && openSections == old(openSections)
    {
      if selectedNgo.Some? {
        filteredSubscriptions := Some(Lists.Filter(allSubscriptions, Matching(NgoIs(selectedNgo.value))));
        subscriptionsFiltered := true;
      } else {
        filteredSubscriptions := Some(allSubscriptions);
        subscriptionsFiltered := false;
        SelectedNothing(allSubscriptions);
      }
    }

    /**
     * The user filter: by user, then minimum, maximum and NGO. Without a
     * selected user the other criteria still apply, and the list is null
     * when none of them is active.
     */
    method FilterByUser()
      requires Valid()
      modifies this
      ensures Valid()
      ensures old(AnyActive(Current())) ==> filteredSubscriptions == Some(Selected(allSubscriptions, Current()))
      ensures !old(AnyActive(Current())) ==> filteredSubscriptions.None?
      ensures subscriptionsFiltered == AnyActive(Current())
      ensures userFilterApplied == selectedUser.Some?
      ensures Shown() == Selected(allSubscriptions, Current())
      ensures allSubscriptions == old(allSubscriptions) && Current() == old(Current())
      ensures amountFilterApplied == old(amountFilterApplied)
      ensures isFiltered == old(isFiltered) && tags == old(tags) && openSections == old(openSections)
    {
      var c := Current();
      var filtered := UserFilterSteps(allSubscriptions, c);
      if !AnyActive(c) {
        assert c == NoCriteria;
        SelectedNothing(allSubscriptions);
      }
      if selectedUser.Some? {
        filteredSubscriptions := Some(filtered);
        subscriptionsFiltered := true;
        userFilterApplied := true;
      } else {
        var stillFiltered := minAmount.Some? || maxAmount.Some? || selectedNgo.Some?;
        filteredSubscriptions := if stillFiltered then Some(filtered) else None;
        subscriptionsFiltered := stillFiltered;
        userFilterApplied := false;
      }
    }

    /**
     * The value filter: by user, NGO, minimum and maximum, in that order; the
     * list is null when no criterion is active.
     */
    method FilterByValue()
      requires Valid()
      modifies this
      ensures Valid()
      ensures old(AnyActive(Current())) ==> filteredSubscriptions == Some(Selected(allSubscriptions, Current()))
      ensures !old(AnyActive(Current())) ==> filteredSubscriptions.None?
      ensures subscriptionsFiltered == AnyActive(Current())
      ensures amountFilterApplied == (minAmount.Some? || maxAmount.Some?)
      ensures Shown() == Selected(allSubscriptions, Current())
      ensures allSubscriptions == old(allSubscriptions) && Current() == old(Current())
      ensures userFilterApplied == old(userFilterApplied)
      ensures isFiltered == old(isFiltered) && tags == old(tags) && openSections == old(openSections)
    {
      var c := Current();
      var filtered := ValueFilterSteps(allSubscriptions, c);
      if !AnyActive(c) {
        assert c == NoCriteria;
        SelectedNothing(allSubscriptions);
      }
      var anyFilter := AnyActive(c);
      filteredSubscriptions := if anyFilter then Some(filtered) else None;
      subscriptionsFiltered := anyFilter;
      amountFilterApplied := minAmount.Some? || maxAmount.Some?;
    }

    /** "Clean filters": clears the NGO and amounts and the filtered list; the selected user stays. */
    method CleanFilters()
      modifies this
      ensures Valid()
      ensures selectedNgo.None? && minAmount.None? && maxAmount.None?
      ensures filteredSubscriptions.None? && !subscriptionsFiltered && !amountFilterApplied
      ensures selectedUser == old(selectedUser) && userFilterApplied == old(userFilterApplied)
      ensures Shown() == allSubscriptions
      ensures allSubscriptions == old(allSubscriptions) && isFiltered == old(isFiltered)
      ensures tags == old(tags) && openSections == old(openSections)
    {
      selectedNgo := None;
      minAmount := None;
      maxAmount := None;
      filteredSubscriptions := None;
      subscriptionsFiltered := false;
      amountFilterApplied := false;
    }

    /**
     * `handleAddTag`: nothing is sent unless the trimmed input has text; a
     * created tag is appended with its new id and the input is cleared.
     */
    method HandleAddTag(outcome: AddOutcome) returns (sent: Option<string>)
      modifies this
      ensures sent == (if HasText(old(newTag)) then Some(old(newTag)) else None)
      ensures sent.Some? && outcome.Created? ==>
        tags == old(tags) + [AddedEntry(outcome.id, old(newTag))] && newTag == ""
      ensures !(sent.Some? && outcome.Created?) ==> tags == old(tags) && newTag == old(newTag)
      ensures allSubscriptions == old(allSubscriptions) && filteredSubscriptions == old(filteredSubscriptions)
      ensures subscriptionsFiltered == old(subscriptionsFiltered) && isFiltered == old(isFiltered)
      ensures Current() == old(Current()) && openSections == old(openSections)
    {
      if !HasText(newTag) {
        return None;
      }
      sent := Some(newTag);
      if outcome.Created? {
        tags := tags + [AddedEntry(outcome.id, newTag)];
        newTag := "";
      }
    }

    /**
     * `handleRemoveTag`: after confirmation the id is sent; an ok reply drops
     * the entries it identifies, a 404 those whose `id` equals it, and any
     * other reply changes nothing.
     */
    method HandleRemoveTag(tagId: Option<int>, confirmed: bool, outcome: Outcome) returns (sent: Option<TagModel.TagIdField>)
      modifies this
      ensures sent == (if confirmed then Some(WireId(tagId)) else None)
      ensures confirmed && outcome.Ok() ==> tags == AfterRemoval(old(tags), tagId)
      ensures confirmed && outcome == Responded(404) ==> tags == AfterNotFound(old(tags), tagId)
      ensures !(confirmed && (outcome.Ok() || outcome == Responded(404))) ==> tags == old(tags)
      ensures allSubscriptions == old(allSubscriptions) && filteredSubscriptions == old(filteredSubscriptions)
      ensures subscriptionsFiltered == old(subscriptionsFiltered) && isFiltered == old(isFiltered)
      ensures Current() == old(Current()) && newTag == old(newTag) && openSections == old(openSections)
    {
      if !confirmed {
        return None;
      }
      sent := Some(WireId(tagId));
      if outcome.Ok() {
        tags := Lists.Filter(tags, KeepsTag(tagId));
      } else if outcome == Responded(404) {
        tags := Lists.Filter(tags, KeepsUnlessId(tagId));
      }
    }
  }
}
