/**
 * The admin tag operations of the tag model: `addTag` inserts into the tag
 * table, whose `tag` column is unique; `deleteTag` validates the id, refuses
 * a tag that an NGO still uses, and deletes otherwise. The tables are fields
 * of a class; the decision each operation takes is also given as a function
 * of the tables, which the methods follow.
 */
module TagModel {
  import Lists
  import JsText

  /** A row of `tags_cause`. */
  datatype TagRow = TagRow(tagId: int, tag: string)

  /** A row of `ngo_tags` or `volunteering_tags`: (entity id, tag id). */
  datatype TagPair = TagPair(entityId: int, tagId: int)

  /** `tag_id` as it arrives in the request body. */
  datatype TagIdField = Missing | Number(n: int) | Text(s: string)

  /** The JSON replies of the two handlers. */
  datatype TagReply =
    | Added(id: int)   // 201 {success: true, id, message: "Tag added successfully"}
    | DuplicateTag     // 409 {success: false, error: 'duplicate_tag'}
    | InvalidId        // 400 {success: false, error: 'invalid_id'}
    | TagInUse         // 409 {success: false, error: 'tag_in_use'}
    | TagNotFound      // 404 {success: false, error: 'tag_not_found'}
    | TagDeleted       // 200 {success: true, message: 'Tag deleted successfully'}
    | DatabaseError    // 500 {success: false, error: 'database_error'}
  {
    function Status(): int {
      match this
      case Added(_) => 201
      case DuplicateTag => 409
      case InvalidId => 400
      case TagInUse => 409
      case TagNotFound => 404
      case TagDeleted => 200
      case DatabaseError => 500
    }

    predicate Success() {
      Added? || TagDeleted?
    }
  }

  /**
   * The integer a text id selects when the database compares it with the
   * integer `tag_id` column: its leading signed decimal number.
   */
  function TextKey(s: string): int {
    var v: int := JsText.DecimalValue(JsText.DigitPrefix(JsText.Unsigned(s)));
    if JsText.Negative(s) then -v else v
  }

  /** `!tag_id || isNaN(parseInt(tag_id))` is false. */
  predicate ValidTagId(f: TagIdField) {
    match f
    case Missing => false
    case Number(n) => n != 0
    case Text(s) => s != "" && JsText.ParseInt(s).Some?
  }

  /** The tag id the two queries are run with. */
  function Key(f: TagIdField): int
    requires ValidTagId(f)
  {
    match f
    case Number(n) => n
    case Text(s) => TextKey(s)
  }

  /**
   * For a valid decimal text id, the row the queries select is the one
   * `parseInt` would name; only a `0x` text is read differently.
   */
  lemma TextKeyAgreesWithParseInt(s: string)
    requires ValidTagId(Text(s)) && !JsText.HexPrefixed(JsText.Unsigned(s))
    ensures Key(Text(s)) == JsText.ParseInt(s).value
  {
  }

  predicate NameTaken(tags: seq<TagRow>, name: string) {
    exists i :: 0 <= i < |tags| && tags[i].tag == name
  }

  predicate IdPresent(tags: seq<TagRow>, id: int) {
    exists i :: 0 <= i < |tags| && tags[i].tagId == id
  }

  /** `SELECT COUNT(*) FROM ngo_tags WHERE tag_id = ?` is positive. */
  predicate InUse(ngoTags: seq<TagPair>, id: int) {
    exists i :: 0 <= i < |ngoTags| && ngoTags[i].tagId == id
  }

  /** The reply of `addTag`; `fault` stands for any database error other than a duplicate. */
  function AddReply(tags: seq<TagRow>, name: string, nextId: int, fault: bool): (r: TagReply)
    ensures r.Status() == 201 <==> !fault && !NameTaken(tags, name)
    ensures r.Status() == 201 ==> r == Added(nextId)
    ensures r.Status() == 409 <==> !fault && NameTaken(tags, name)
    ensures r == DuplicateTag <==> !fault && NameTaken(tags, name)
    ensures r == DatabaseError <==> fault
  {
    if fault then DatabaseError
    else if NameTaken(tags, name) then DuplicateTag
    else Added(nextId)
  }

  /**
   * The reply of `deleteTag`, whose checks run in order: id validity (before
   * any query), use by an NGO (only `ngo_tags` is consulted), presence, then
   * success.
   */
  function DeleteReply(tags: seq<TagRow>, ngoTags: seq<TagPair>, f: TagIdField, fault: bool): (r: TagReply)
    ensures r == InvalidId <==> !ValidTagId(f)
    ensures r == TagInUse <==> ValidTagId(f) && !fault && InUse(ngoTags, Key(f))
    ensures r == TagNotFound <==>
      ValidTagId(f) && !fault && !InUse(ngoTags, Key(f)) && !IdPresent(tags, Key(f))
    ensures r == TagDeleted <==>
      ValidTagId(f) && !fault && !InUse(ngoTags, Key(f)) && IdPresent(tags, Key(f))
    ensures r == DatabaseError <==> ValidTagId(f) && fault
  {
    if !ValidTagId(f) then InvalidId
    else if fault then DatabaseError
    else if InUse(ngoTags, Key(f)) then TagInUse
    else if !IdPresent(tags, Key(f)) then TagNotFound
    else TagDeleted
  }

  /** Once a name is added, adding it again is refused as a duplicate. */
  lemma AddTwiceIsDuplicate(tags: seq<TagRow>, name: string, nextId: int)
    requires AddReply(tags, name, nextId, false).Added?
    ensures AddReply(tags + [TagRow(nextId, name)], name, nextId + 1, false) == DuplicateTag
  {
    assert (tags + [TagRow(nextId, name)])[|tags|].tag == name;
  }

  /** The predicate `row => row.tag_id != id` of the DELETE statement. */
  function KeepsRow(id: int): TagRow -> bool {
    (row: TagRow) => row.tagId != id
  }

  /** Tag names and ids are unique. */
  predicate UniqueRows(tags: seq<TagRow>) {
    forall i, j :: 0 <= i < j < |tags| ==> tags[i].tag != tags[j].tag && tags[i].tagId != tags[j].tagId
  }

  /** At most one row carries the id. */
  predicate AtMostOne(tags: seq<TagRow>, id: int) {
    forall i, j :: 0 <= i < j < |tags| && tags[i].tagId == id ==> tags[j].tagId != id
  }

  lemma {:induction false} FilterDropsOne(tags: seq<TagRow>, id: int)
    requires AtMostOne(tags, id) && IdPresent(tags, id)
    ensures |Lists.Filter(tags, KeepsRow(id))| == |tags| - 1
  {
    var rest := tags[1..];
    if tags[0].tagId == id {
      assert forall row :: row in rest ==> row.tagId != id;
      Lists.FilterKeepsAll(rest, KeepsRow(id));
    } else {
      assert IdPresent(rest, id) by {
        var i :| 0 <= i < |tags| && tags[i].tagId == id;
        assert rest[i - 1].tagId == id;
      }
      assert AtMostOne(rest, id) by {
        forall i, j | 0 <= i < j < |rest| && rest[i].tagId == id
          ensures rest[j].tagId != id
        {
          assert tags[i + 1] == rest[i] && tags[j + 1] == rest[j];
        }
      }
      FilterDropsOne(rest, id);
    }
  }

  /** Deleting by a present, unique id removes exactly one row and keeps the others in order. */
  lemma DeleteRemovesOneRow(tags: seq<TagRow>, id: int)
    requires UniqueRows(tags) && IdPresent(tags, id)
    ensures |Lists.Filter(tags, KeepsRow(id))| == |tags| - 1
    ensures forall row :: row in Lists.Filter(tags, KeepsRow(id)) <==> row in tags && row.tagId != id
    ensures Lists.IsSubsequence(Lists.Filter(tags, KeepsRow(id)), tags)
  {
    Lists.FilterIsSubsequence(tags, KeepsRow(id));
    FilterDropsOne(tags, id);
  }

  /** The tables the two handlers read and write. */
  class TagStore {
    var tags: seq<TagRow>
    var ngoTags: seq<TagPair>
    var volunteeringTags: seq<TagPair>
    var nextId: int

    /** Unique names and ids; every id is below the auto-increment counter. */
    ghost predicate Valid()
      reads this
    {
      UniqueRows(tags) && forall i :: 0 <= i < |tags| ==> tags[i].tagId < nextId
    }

    constructor (initialTags: seq<TagRow>, ngoPairs: seq<TagPair>, volunteeringPairs: seq<TagPair>, counter: int)
      requires UniqueRows(initialTags)
      requires forall i :: 0 <= i < |initialTags| ==> initialTags[i].tagId < counter
      ensures Valid()
      ensures tags == initialTags && ngoTags == ngoPairs && volunteeringTags == volunteeringPairs
      ensures nextId == counter
    {
      tags, ngoTags, volunteeringTags, nextId := initialTags, ngoPairs, volunteeringPairs, counter;
    }

    /** `addTag`: one INSERT, whose unique index turns a known name into a 409. */
    method AddTag(name: string, fault: bool) returns (r: TagReply)
      requires Valid()
      modifies this
      ensures Valid()
      ensures r == AddReply(old(tags), name, old(nextId), fault)
      ensures r.Added? ==> tags == old(tags) + [TagRow(old(nextId), name)] && nextId == old(nextId) + 1
      ensures !r.Added? ==> tags == old(tags) && nextId == old(nextId)
      ensures ngoTags == old(ngoTags) && volunteeringTags == old(volunteeringTags)
    {
      r := AddReply(tags, name, nextId, fault);
      if r.Added? {
        tags := tags + [TagRow(nextId, name)];
        nextId := nextId + 1;
      }
    }

    /** `deleteTag`: validate, count the NGO uses, then DELETE and inspect the affected rows. */
    method DeleteTag(f: TagIdField, fault: bool) returns (r: TagReply)
      requires Valid()
      modifies this
      ensures Valid()
      ensures r == DeleteReply(old(tags), old(ngoTags), f, fault)
      ensures r == TagDeleted ==> tags == Lists.Filter(old(tags), KeepsRow(Key(f)))
      ensures r != TagDeleted ==> tags == old(tags)
      ensures ngoTags == old(ngoTags) && volunteeringTags == old(volunteeringTags) && nextId == old(nextId)
    {
      r := DeleteReply(tags, ngoTags, f, fault);
      if r == TagDeleted {
        tags := Lists.Filter(tags, KeepsRow(Key(f)));
        assert Lists.IsSubsequence(tags, old(tags)) by {
          Lists.FilterIsSubsequence(old(tags), KeepsRow(Key(f)));
        }
        SubsequenceKeepsUnique(tags, old(tags), nextId);
      }
    }
  }

  lemma {:induction false} SubsequenceKeepsUnique(a: seq<TagRow>, b: seq<TagRow>, bound: int)
    requires Lists.IsSubsequence(a, b) && UniqueRows(b)
    requires forall i :: 0 <= i < |b| ==> b[i].tagId < bound
    ensures UniqueRows(a) && forall i :: 0 <= i < |a| ==> a[i].tagId < bound
    decreases |b|
  {
    if a != [] {
      assert forall j :: 0 <= j < |b[1..]| ==> b[1..][j] == b[j + 1];
      if a[0] == b[0] && Lists.IsSubsequence(a[1..], b[1..]) {
        SubsequenceKeepsUnique(a[1..], b[1..], bound);
        SubsequenceMembers(a[1..], b[1..]);
        forall j | 0 < j < |a| ensures a[0].tag != a[j].tag && a[0].tagId != a[j].tagId {
          assert a[j] == a[1..][j - 1];
          assert a[j] in b[1..];
        }
      } else {
        SubsequenceKeepsUnique(a, b[1..], bound);
      }
    }
  }

  lemma {:induction false} SubsequenceMembers<T>(a: seq<T>, b: seq<T>)
    requires Lists.IsSubsequence(a, b)
    ensures forall x :: x in a ==> x in b
    decreases |b|
  {
    if a != [] {
      if a[0] == b[0] && Lists.IsSubsequence(a[1..], b[1..]) {
        SubsequenceMembers(a[1..], b[1..]);
        assert forall x :: x in a ==> x == a[0] || x in a[1..];
      } else {
        SubsequenceMembers(a, b[1..]);
      }
    }
  }
}
