/**
 * The search controller of the backend: it joins the flat tag table and the
 * flat (entity, tag) pair table into one list of tag names per NGO or per
 * volunteering opportunity, normalises the `verified` bit of an NGO to a
 * boolean, and validates the id of the single-NGO endpoint.
 *
 * Database queries are parameters: each is either the rows it returned or the
 * error it raised.
 */
module SearchController {
  import opened Wrappers
  import opened Backend
  import Lists

  /** A row of the tag table `tags_cause`. */
  datatype TagRow = TagRow(tagId: int, tag: string)

  /**
   * A row of a pair table: `ngo_tags` (entityId is `ngo_id`) or
   * `volunteering_tags` (entityId is `volunteering_id`).
   */
  datatype TagPair = TagPair(entityId: int, tagId: int)

  /** The remaining columns of a row, which the controller copies unread. */
  type Columns = map<string, string>

  /** An NGO row; `verified` is the BIT column, fetched as a byte buffer, or absent. */
  datatype NgoRow = NgoRow(ngoId: int, columns: Columns, verified: Option<seq<byte>>)

  /** An NGO as sent to the search page. */
  datatype SearchNgo = SearchNgo(ngoId: int, columns: Columns, verified: bool, tags: seq<string>)

  datatype OpportunityRow = OpportunityRow(opportunityId: int, columns: Columns)

  /** An opportunity as sent to the search page: the row plus its tag names. */
  datatype SearchOpportunity = SearchOpportunity(opportunityId: int, columns: Columns, tags: seq<string>)

  /** A list endpoint either answers with a JSON body or hands the error to `next`. */
  datatype Reply<B> = Json(body: B) | Next(error: string)

  datatype NgoListBody = NgoListBody(ngos: seq<SearchNgo>, tags: seq<string>)
  datatype OpportunityListBody = OpportunityListBody(opportunities: seq<SearchOpportunity>, tags: seq<string>)

  /**
   * `new Map(tags.map(t => [t.tag_id, t.tag]))`: entries are inserted in
   * table order, so the last row with a given id wins.
   */
  function TagMap(tags: seq<TagRow>): (m: map<int, string>)
    ensures forall id :: id in m <==> exists i :: 0 <= i < |tags| && tags[i].tagId == id
  {
    if tags == [] then map[]
    else
      var last := tags[|tags| - 1];
      TagMap(tags[..|tags| - 1])[last.tagId := last.tag]
  }

  /** The entry of an id is the name of the last row carrying that id. */
  lemma {:induction false} TagMapLastWins(tags: seq<TagRow>, i: nat)
    requires i < |tags|
    requires forall j :: i < j < |tags| ==> tags[j].tagId != tags[i].tagId
    ensures tags[i].tagId in TagMap(tags) && TagMap(tags)[tags[i].tagId] == tags[i].tag
  {
    if i < |tags| - 1 {
      TagMapLastWins(tags[..|tags| - 1], i);
    }
  }

  /** The pair names a tag of entity `id` that resolves to a non-empty name. */
  predicate Resolves(p: TagPair, m: map<int, string>, id: int) {
    p.entityId == id && p.tagId in m && m[p.tagId] != ""
  }

  /**
   * The chain `pairs.filter(p => p.entityId === id).map(p => p.tag_id)
   * .map(id => tagMap.get(id)).filter(Boolean)`: one name per matching pair,
   * in pair order; an unknown tag id (`undefined`) or an empty name is dropped.
   */
  function NamesFor(pairs: seq<TagPair>, m: map<int, string>, id: int): (r: seq<string>)
    ensures |r| <= |pairs|
    ensures forall name :: name in r <==>
      exists p :: p in pairs && Resolves(p, m, id) && m[p.tagId] == name
  {
    if pairs == [] then []
    else
      var rest := NamesFor(pairs[1..], m, id);
      assert forall p :: p in pairs[1..] ==> p in pairs;
      if Resolves(pairs[0], m, id) then [m[pairs[0].tagId]] + rest else rest
  }

  /** `processTags(pairs, tags, ngoId)`, the helper also used for the single-NGO page. */
  function ProcessTags(pairs: seq<TagPair>, tags: seq<TagRow>, id: int): (r: seq<string>)
    ensures "" !in r
    ensures (forall p :: p in pairs ==> p.entityId != id) ==> r == []
  {
    var r := NamesFor(pairs, TagMap(tags), id);
    assert r != [] ==> r[0] in r;
    r
  }

  /** `ngo.verified?.[0] === 1`. */
  predicate VerifiedBit(bits: Option<seq<byte>>) {
    bits.Some? && |bits.value| > 0 && bits.value[0] == 1
  }

  /** The list of all tag names, in table order and regardless of use. */
  function TagNames(tags: seq<TagRow>): (r: seq<string>)
    ensures |r| == |tags| && forall i :: 0 <= i < |tags| ==> r[i] == tags[i].tag
  {
    seq(|tags|, i requires 0 <= i < |tags| => tags[i].tag)
  }

  /** `populateSearchNgos`: the three queries run in turn; the first failure goes to `next`. */
  function PopulateSearchNgos(ngosQ: Query<seq<NgoRow>>, tagsQ: Query<seq<TagRow>>, pairsQ: Query<seq<TagPair>>)
    : (r: Reply<NgoListBody>)
    ensures r.Next? <==> ngosQ.DbError? || tagsQ.DbError? || pairsQ.DbError?
    ensures ngosQ.DbError? ==> r == Next(ngosQ.message)
    ensures ngosQ.Rows? && tagsQ.DbError? ==> r == Next(tagsQ.message)
    ensures ngosQ.Rows? && tagsQ.Rows? && pairsQ.DbError? ==> r == Next(pairsQ.message)
    ensures r.Json? ==>
      var ngos, tags, pairs := ngosQ.rows, tagsQ.rows, pairsQ.rows;
      && |r.body.ngos| == |ngos|
      && (forall i :: 0 <= i < |ngos| ==>
            && r.body.ngos[i].ngoId == ngos[i].ngoId
            && r.body.ngos[i].columns == ngos[i].columns
            && r.body.ngos[i].verified == VerifiedBit(ngos[i].verified)
            && r.body.ngos[i].tags == ProcessTags(pairs, tags, ngos[i].ngoId))
      && r.body.tags == TagNames(tags)
  {
    match (ngosQ, tagsQ, pairsQ)
    case (DbError(e), _, _) => Next(e)
    case (Rows(_), DbError(e), _) => Next(e)
    case (Rows(_), Rows(_), DbError(e)) => Next(e)
    case (Rows(ngos), Rows(tags), Rows(pairs)) =>
      var out := seq(|ngos|, i requires 0 <= i < |ngos| =>
        SearchNgo(ngos[i].ngoId, ngos[i].columns, VerifiedBit(ngos[i].verified),
                  ProcessTags(pairs, tags, ngos[i].ngoId)));
      Json(NgoListBody(out, TagNames(tags)))
  }

  /** `populateSearchOpportunities`: as for NGOs, matching `volunteering_id` against `opportunity_id`. */
  function PopulateSearchOpportunities(oppsQ: Query<seq<OpportunityRow>>, tagsQ: Query<seq<TagRow>>, pairsQ: Query<seq<TagPair>>)
    : (r: Reply<OpportunityListBody>)
    ensures r.Next? <==> oppsQ.DbError? || tagsQ.DbError? || pairsQ.DbError?
    ensures oppsQ.DbError? ==> r == Next(oppsQ.message)
    ensures oppsQ.Rows? && tagsQ.DbError? ==> r == Next(tagsQ.message)
    ensures oppsQ.Rows? && tagsQ.Rows? && pairsQ.DbError? ==> r == Next(pairsQ.message)
    ensures r.Json? ==>
      var opps, tags, pairs := oppsQ.rows, tagsQ.rows, pairsQ.rows;
      && |r.body.opportunities| == |opps|
      && (forall i :: 0 <= i < |opps| ==>
            && r.body.opportunities[i].opportunityId == opps[i].opportunityId
            && r.body.opportunities[i].columns == opps[i].columns
            && r.body.opportunities[i].tags == ProcessTags(pairs, tags, opps[i].opportunityId))
      && r.body.tags == TagNames(tags)
  {
    match (oppsQ, tagsQ, pairsQ)
    case (DbError(e), _, _) => Next(e)
    case (Rows(_), DbError(e), _) => Next(e)
    case (Rows(_), Rows(_), DbError(e)) => Next(e)
    case (Rows(opps), Rows(tags), Rows(pairs)) =>
      var out := seq(|opps|, i requires 0 <= i < |opps| =>
        SearchOpportunity(opps[i].opportunityId, opps[i].columns,
                          ProcessTags(pairs, tags, opps[i].opportunityId)));
      Json(OpportunityListBody(out, TagNames(tags)))
  }

  /** `/^\d+$/.test(id)`: one or more ASCII digits and nothing else. */
  predicate IsDigits(id: string) {
    |id| > 0 && forall i :: 0 <= i < |id| ==> '0' <= id[i] <= '9'
  }

  /** A row of the NGO display query. */
  datatype NgoInfoRow = NgoInfoRow(ngoId: int, columns: Columns)

  datatype NgoDetail = NgoDetail(ngoId: int, columns: Columns, tags: seq<string>)

  datatype NgoByIdReply =
    | InvalidId        // 400 "Invalid NGO ID format"
    | NgoNotFound      // 404 "NGO not found"
    | Found(ngo: NgoDetail)
    | InternalError    // 500 "Internal server error"
  {
    function Status(): int {
      match this
      case InvalidId => 400
      case NgoNotFound => 404
      case Found(_) => 200
      case InternalError => 500
    }
  }

  /** The whole result of `db.promise().query(...)`: the pair `[rows, fields]`. */
  datatype QueryPair<T> = QueryPair(rows: seq<T>, fields: seq<string>)

  /**
   * `getNGOById` as written: the id is checked before any query; an empty
   * display query is a 404; otherwise tags, pairs and followers are fetched
   * together (any failure is a 500) and the first row is returned with tags
   * computed by `processTags`. The tag and pair queries are passed to
   * `processTags` without destructuring `[rows]`, so it walks the two-element
   * arrays `[rows, fields]` and finds no tag at all. The followers are
   * fetched but not part of the reply.
   */
  function GetNgoByIdAsWritten(id: string, infoQ: Query<seq<NgoInfoRow>>, tagsQ: Query<QueryPair<TagRow>>,
                               pairsQ: Query<QueryPair<TagPair>>, followersQ: Query<seq<Columns>>): (r: NgoByIdReply)
    ensures !IsDigits(id) <==> r == InvalidId
    ensures r == NgoNotFound <==> IsDigits(id) && infoQ == Rows([])
    ensures r.Found? ==>
      && infoQ.Rows? && |infoQ.rows| > 0 && tagsQ.Rows? && pairsQ.Rows? && followersQ.Rows?
      && r.ngo == NgoDetail(infoQ.rows[0].ngoId, infoQ.rows[0].columns, [])
    ensures (IsDigits(id) && infoQ.Rows? && |infoQ.rows| > 0
             && tagsQ.Rows? && pairsQ.Rows? && followersQ.Rows?) ==> r.Found?
  {
    if !IsDigits(id) then InvalidId
    else match infoQ
      case DbError(_) => InternalError
      case Rows(info) =>
        if |info| == 0 then NgoNotFound
        else if tagsQ.DbError? || pairsQ.DbError? || followersQ.DbError? then InternalError
        else Found(NgoDetail(info[0].ngoId, info[0].columns,
                             ProcessTagsAsCalled(PairElements(pairsQ.rows), PairElements(tagsQ.rows), info[0].ngoId)))
  }

  /**
   * `getNGOById` as evidently intended: the same replies, with the rows of
   * the tag and pair queries destructured as `populateSearchNgos` does, so
   * the NGO carries the names of its tags.
   */
  function GetNgoById(id: string, infoQ: Query<seq<NgoInfoRow>>, tagsQ: Query<QueryPair<TagRow>>,
                      pairsQ: Query<QueryPair<TagPair>>, followersQ: Query<seq<Columns>>): (r: NgoByIdReply)
    ensures !IsDigits(id) <==> r == InvalidId
    ensures r == NgoNotFound <==> IsDigits(id) && infoQ == Rows([])
    ensures r.Found? ==>
      && infoQ.Rows? && |infoQ.rows| > 0 && tagsQ.Rows? && pairsQ.Rows? && followersQ.Rows?
      && r.ngo == NgoDetail(infoQ.rows[0].ngoId, infoQ.rows[0].columns,
                            ProcessTags(pairsQ.rows.rows, tagsQ.rows.rows, infoQ.rows[0].ngoId))
    ensures (IsDigits(id) && infoQ.Rows? && |infoQ.rows| > 0
             && tagsQ.Rows? && pairsQ.Rows? && followersQ.Rows?) ==> r.Found?
  {
    if !IsDigits(id) then InvalidId
    else match infoQ
      case DbError(_) => InternalError
      case Rows(info) =>
        if |info| == 0 then NgoNotFound
        else if tagsQ.DbError? || pairsQ.DbError? || followersQ.DbError? then InternalError
        else Found(NgoDetail(info[0].ngoId, info[0].columns,
                             ProcessTags(pairsQ.rows.rows, tagsQ.rows.rows, info[0].ngoId)))
  }

  /** The two versions give the same reply, except that the one as written never lists a tag. */
  lemma GetNgoByIdOnlyTagsDiffer(id: string, infoQ: Query<seq<NgoInfoRow>>, tagsQ: Query<QueryPair<TagRow>>,
                                 pairsQ: Query<QueryPair<TagPair>>, followersQ: Query<seq<Columns>>)
    ensures var intended := GetNgoById(id, infoQ, tagsQ, pairsQ, followersQ);
      GetNgoByIdAsWritten(id, infoQ, tagsQ, pairsQ, followersQ)
        == if intended.Found? then Found(intended.ngo.(tags := [])) else intended
  {
  }

  /** An NGO with one tag: as written the reply lists no tag, as intended it lists that tag. */
  lemma GetNgoByIdDropsTags()
    ensures
      var infoQ := Rows([NgoInfoRow(1, map[])]);
      var tagsQ := Rows(QueryPair([TagRow(10, "A")], ["tag_id", "tag"]));
      var pairsQ := Rows(QueryPair([TagPair(1, 10)], ["ngo_id", "tag_id"]));
      && GetNgoByIdAsWritten("1", infoQ, tagsQ, pairsQ, Rows([])) == Found(NgoDetail(1, map[], []))
      && GetNgoById("1", infoQ, tagsQ, pairsQ, Rows([])) == Found(NgoDetail(1, map[], ["A"]))
  {
    var tags := [TagRow(10, "A")];
    var pairs := [TagPair(1, 10)];
    assert TagMap(tags) == map[10 := "A"];
    assert NamesFor(pairs, TagMap(tags), 1) == ["A"];
  }

  // ---------------------------------------------------------------------
  // `processTags` on whatever arrays it is handed

  /**
   * An element of an array handed to `processTags`: a row, or an array where
   * a row was expected. Reading `ngo_id`, `tag_id` or `tag` of an array gives
   * `undefined`.
   */
  datatype Element<T> = Row(row: T) | NestedArray

  /** The elements of a destructured query: its rows. */
  function RowElements<T>(rows: seq<T>): (r: seq<Element<T>>)
    ensures |r| == |rows| && forall i :: 0 <= i < |rows| ==> r[i] == Row(rows[i])
  {
    seq(|rows|, i requires 0 <= i < |rows| => Row(rows[i]))
  }

  /** The elements of a query result that was not destructured: `rows` and `fields`, two arrays. */
  function PairElements<T>(q: QueryPair<T>): seq<Element<T>> {
    [NestedArray, NestedArray]
  }

  function NgoIdOf(p: Element<TagPair>): Option<int> {
    if p.Row? then Some(p.row.entityId) else None
  }

  function PairTagIdOf(p: Element<TagPair>): Option<int> {
    if p.Row? then Some(p.row.tagId) else None
  }

  /** `new Map(tags.map(t => [t.tag_id, t.tag]))` over elements: `undefined` is a key like any other. */
  function ElementTagMap(tags: seq<Element<TagRow>>): map<Option<int>, Option<string>> {
    if tags == [] then map[]
    else
      var last := tags[|tags| - 1];
      var key := if last.Row? then Some(last.row.tagId) else None;
      var name := if last.Row? then Some(last.row.tag) else None;
      ElementTagMap(tags[..|tags| - 1])[key := name]
  }

  /** `tagMap.get(key)`: `undefined` for a missing key. */
  function Get(m: map<Option<int>, Option<string>>, key: Option<int>): Option<string> {
    if key in m then m[key] else None
  }

  /**
   * The chain of `processTags` over elements: `p.ngo_id === ngoId` holds only
   * for a row of that NGO, since `ngoId` is a number and never `undefined`.
   */
  function ElementNames(pairs: seq<Element<TagPair>>, m: map<Option<int>, Option<string>>, id: int): (r: seq<string>)
    ensures "" !in r
    ensures (forall p :: p in pairs ==> NgoIdOf(p) != Some(id)) ==> r == []
  {
    if pairs == [] then []
    else
      var rest := ElementNames(pairs[1..], m, id);
      assert forall p :: p in pairs[1..] ==> p in pairs;
      var name := Get(m, PairTagIdOf(pairs[0]));
      if NgoIdOf(pairs[0]) == Some(id) && name.Some? && name.value != "" then [name.value] + rest else rest
  }

  /** `processTags(pairs, tags, ngoId)` on the arrays exactly as it receives them. */
  function ProcessTagsAsCalled(pairs: seq<Element<TagPair>>, tags: seq<Element<TagRow>>, id: int): seq<string> {
    ElementNames(pairs, ElementTagMap(tags), id)
  }

  /** Looking a number up in the element map finds what the row map holds for it. */
  lemma {:induction false} ElementTagMapOfRows(tags: seq<TagRow>)
    ensures forall k :: Get(ElementTagMap(RowElements(tags)), Some(k))
                        == if k in TagMap(tags) then Some(TagMap(tags)[k]) else None
  {
    if tags != [] {
      var init := tags[..|tags| - 1];
      assert RowElements(tags)[..|tags| - 1] == RowElements(init);
      ElementTagMapOfRows(init);
    }
  }

  lemma {:induction false} ElementNamesOfRows(pairs: seq<TagPair>, em: map<Option<int>, Option<string>>,
                                              m: map<int, string>, id: int)
    requires forall k :: Get(em, Some(k)) == if k in m then Some(m[k]) else None
    ensures ElementNames(RowElements(pairs), em, id) == NamesFor(pairs, m, id)
  {
    if pairs != [] {
      assert RowElements(pairs)[1..] == RowElements(pairs[1..]);
      ElementNamesOfRows(pairs[1..], em, m, id);
      assert Get(em, Some(pairs[0].tagId)) == if pairs[0].tagId in m then Some(m[pairs[0].tagId]) else None;
    }
  }

  /** Given destructured rows, `processTags` computes the tag names of the row model. */
  lemma ProcessTagsOfRows(pairs: seq<TagPair>, tags: seq<TagRow>, id: int)
    ensures ProcessTagsAsCalled(RowElements(pairs), RowElements(tags), id) == ProcessTags(pairs, tags, id)
  {
    ElementTagMapOfRows(tags);
    ElementNamesOfRows(pairs, ElementTagMap(RowElements(tags)), TagMap(tags), id);
  }

  /** Given the `[rows, fields]` pairs themselves, `processTags` finds no tag, whatever the tables hold. */
  lemma ProcessTagsOfQueryPairs(pairsQ: QueryPair<TagPair>, tagsQ: QueryPair<TagRow>, id: int)
    ensures ProcessTagsAsCalled(PairElements(pairsQ), PairElements(tagsQ), id) == []
  {
  }

  // ---------------------------------------------------------------------
  // Properties of the tag join

  /** The names of a concatenation of pair lists are the concatenation of their names. */
  lemma {:induction false} NamesForAppend(a: seq<TagPair>, b: seq<TagPair>, m: map<int, string>, id: int)
    ensures NamesFor(a + b, m, id) == NamesFor(a, m, id) + NamesFor(b, m, id)
  {
    if a == [] {
      assert a + b == b;
    } else {
      assert (a + b)[0] == a[0] && (a + b)[1..] == a[1..] + b;
      NamesForAppend(a[1..], b, m, id);
    }
  }

  /**
   * One name per resolving pair, in pair order and without deduplication:
   * when every pair resolves, the i-th name is the name of the i-th pair.
   */
  lemma {:induction false} NamesForOnePerPair(pairs: seq<TagPair>, m: map<int, string>, id: int)
    requires forall p :: p in pairs ==> Resolves(p, m, id)
    ensures |NamesFor(pairs, m, id)| == |pairs|
    ensures forall i :: 0 <= i < |pairs| ==> NamesFor(pairs, m, id)[i] == m[pairs[i].tagId]
  {
    if pairs != [] {
      assert forall p :: p in pairs[1..] ==> p in pairs;
      NamesForOnePerPair(pairs[1..], m, id);
    }
  }

  /** A pair that does not resolve (other entity, unknown tag id, empty name) adds nothing. */
  lemma NamesForDropsUnresolved(pairs: seq<TagPair>, p: TagPair, m: map<int, string>, id: int)
    requires !Resolves(p, m, id)
    ensures NamesFor(pairs + [p], m, id) == NamesFor(pairs, m, id)
  {
    NamesForAppend(pairs, [p], m, id);
  }

  /** Pairs of other entities are irrelevant to an entity's names. */
  lemma {:induction false} NamesForOwnPairsOnly(pairs: seq<TagPair>, m: map<int, string>, id: int)
    ensures NamesFor(pairs, m, id) == NamesFor(Lists.Filter(pairs, (p: TagPair) => p.entityId == id), m, id)
  {
    if pairs != [] {
      NamesForOwnPairsOnly(pairs[1..], m, id);
    }
  }

  /** The first unit-test scenario: two tags, three pairs, three NGOs. */
  lemma PopulateSearchNgosExample()
    ensures
      var ngos := [NgoRow(1, map[], Some([1])), NgoRow(2, map[], Some([0])), NgoRow(3, map[], Some([1]))];
      var tags := [TagRow(13, "tag1"), TagRow(27, "tag2")];
      var pairs := [TagPair(1, 13), TagPair(1, 27), TagPair(2, 13)];
      PopulateSearchNgos(Rows(ngos), Rows(tags), Rows(pairs)) ==
        Json(NgoListBody([SearchNgo(1, map[], true, ["tag1", "tag2"]),
                          SearchNgo(2, map[], false, ["tag1"]),
                          SearchNgo(3, map[], true, [])],
                         ["tag1", "tag2"]))
  {
    var ngos := [NgoRow(1, map[], Some([1])), NgoRow(2, map[], Some([0])), NgoRow(3, map[], Some([1]))];
    var tags := [TagRow(13, "tag1"), TagRow(27, "tag2")];
    var pairs := [TagPair(1, 13), TagPair(1, 27), TagPair(2, 13)];
    var m := TagMap(tags);
    assert TagMap(tags[..1]) == map[13 := "tag1"];
    assert m == map[13 := "tag1", 27 := "tag2"];
    assert NamesFor(pairs[2..], m, 1) == [];
    assert NamesFor(pairs[1..], m, 1) == ["tag2"];
    assert ProcessTags(pairs, tags, 1) == ["tag1", "tag2"];
    assert NamesFor(pairs[2..], m, 2) == ["tag1"];
    assert ProcessTags(pairs, tags, 2) == ["tag1"];
    assert ProcessTags(pairs, tags, 3) == [];
    var r := PopulateSearchNgos(Rows(ngos), Rows(tags), Rows(pairs));
    assert r.body.ngos[0] == SearchNgo(1, map[], true, ["tag1", "tag2"]);
    assert r.body.ngos[1] == SearchNgo(2, map[], false, ["tag1"]);
    assert r.body.ngos[2] == SearchNgo(3, map[], true, []);
    assert r.body.tags == ["tag1", "tag2"];
    assert r.body.ngos == [SearchNgo(1, map[], true, ["tag1", "tag2"]),
                           SearchNgo(2, map[], false, ["tag1"]),
                           SearchNgo(3, map[], true, [])];
  }
}
