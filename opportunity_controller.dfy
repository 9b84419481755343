/**
 * `createOpportunity` and `getAllOpportunities`: posting a volunteering
 * opportunity is open to NGO sessions only, and the stored row takes its
 * NGO id and contact details from the NGO's own record, never from the body.
 */
module OpportunityController {
  import opened Wrappers
  import opened Backend

  /** A row of `SELECT ngo_id, contact_email, phone_nr FROM ngo WHERE user_id = ?`. */
  datatype ContactRow = ContactRow(ngoId: int, contactEmail: Option<string>, phoneNr: Option<string>)

  /** The string fields of the request body; a missing field is absent from the map. */
  type Body = map<string, string>

  /** The columns `postOpportunity` inserts, before the database assigns the id. */
  datatype NewOpportunity = NewOpportunity(
    title: string, description: Option<string>, location: string,
    start: Option<string>, end: Option<string>,
    contactEmail: string, contactPhone: Option<string>, ngoId: int)

  /** A stored row of `volunteering_opportunities`. */
  datatype Opportunity = Opportunity(opportunityId: int, data: NewOpportunity)

  datatype CreateReply =
    | Unauthorized      // 401 'Unauthorized'
    | NotAnNgo          // 403 'Only NGOs can post opportunities'
    | ContactNotFound   // 400 'NGO contact information not found'
    | MissingFields     // 400 'Missing required fields'
    | Posted(opportunityId: int)  // 201 'Opportunity posted successfully'
    | ServerError       // 500 'Server error'
  {
    function Status(): int {
      match this
      case Unauthorized => 401
      case NotAnNgo => 403
      case ContactNotFound => 400
      case MissingFields => 400
      case Posted(_) => 201
      case ServerError => 500
    }
  }

  function AsciiLower(s: string): (r: string)
    ensures |r| == |s|
    ensures forall i :: 0 <= i < |s| ==> r[i] == if 'A' <= s[i] <= 'Z' then (s[i] as int + 32) as char else s[i]
  {
    if s == [] then []
    else [if 'A' <= s[0] <= 'Z' then (s[0] as int + 32) as char else s[0]] + AsciiLower(s[1..])
  }

  /**
   * `type.toLowerCase() === 'ngo'`. Only `N`, `G` and `O` lower-case to
   * `n`, `g` and `o`, so lower-casing ASCII letters decides the comparison.
   */
  predicate IsNgoType(t: string) {
    AsciiLower(t) == "ngo"
  }

  function Field(body: Body, key: string): Option<string> {
    if key in body then Some(body[key]) else None
  }

  /** `rows[0]` exists and has a truthy `contact_email`. */
  predicate HasContact(rows: seq<ContactRow>) {
    |rows| > 0 && Truthy(rows[0].contactEmail)
  }

  /** The handler stops with a reply, or goes on to insert a row. */
  datatype Decision = Reply(reply: CreateReply) | Insert(row: NewOpportunity)

  /**
   * The guard chain of `createOpportunity`. A session user without a type
   * makes `toLowerCase` throw, and a failed contact query throws too; both
   * end in the 500 of the catch block.
   */
  function Decide(session: Option<SessionUser>, body: Body, contact: Query<seq<ContactRow>>): (d: Decision)
    ensures d == Reply(Unauthorized) <==> session.None?
    ensures d == Reply(NotAnNgo) <==>
      session.Some? && session.value.userType.Some? && !IsNgoType(session.value.userType.value)
    ensures d == Reply(ServerError) <==>
      session.Some? && (session.value.userType.None?
                        || (IsNgoType(session.value.userType.value) && contact.DbError?))
    ensures d == Reply(ContactNotFound) <==>
      session.Some? && session.value.userType.Some? && IsNgoType(session.value.userType.value)
      && contact.Rows? && !HasContact(contact.rows)
    ensures d == Reply(MissingFields) <==>
      session.Some? && session.value.userType.Some? && IsNgoType(session.value.userType.value)
      && contact.Rows? && HasContact(contact.rows)
      && (!Truthy(Field(body, "title")) || !Truthy(Field(body, "location")))
    ensures d.Reply? ==> !d.reply.Posted?
    ensures d.Insert? ==>
      contact.Rows? && HasContact(contact.rows)
      && d.row.ngoId == contact.rows[0].ngoId
      && Some(d.row.contactEmail) == contact.rows[0].contactEmail
      && d.row.contactPhone == contact.rows[0].phoneNr
      && Some(d.row.title) == Field(body, "title") && d.row.title != ""
      && Some(d.row.location) == Field(body, "location") && d.row.location != ""
      && d.row.description == Field(body, "description")
      && d.row.start == Field(body, "start") && d.row.end == Field(body, "end")
  {
    if session.None? then Reply(Unauthorized)
    else if session.value.userType.None? then Reply(ServerError)
    else if !IsNgoType(session.value.userType.value) then Reply(NotAnNgo)
    else if contact.DbError? then Reply(ServerError)
    else if !HasContact(contact.rows) then Reply(ContactNotFound)
    else if !Truthy(Field(body, "title")) || !Truthy(Field(body, "location")) then Reply(MissingFields)
    else
      var c := contact.rows[0];
      Insert(NewOpportunity(body["title"], Field(body, "description"), body["location"],
                            Field(body, "start"), Field(body, "end"),
                            c.contactEmail.value, c.phoneNr, c.ngoId))
  }

  /** Whatever the body says about the NGO or its contact details, the inserted row is the same in those columns. */
  lemma BodyCannotOverrideContact(session: Option<SessionUser>, b1: Body, b2: Body, contact: Query<seq<ContactRow>>)
    requires Decide(session, b1, contact).Insert? && Decide(session, b2, contact).Insert?
    ensures var r1, r2 := Decide(session, b1, contact).row, Decide(session, b2, contact).row;
      r1.ngoId == r2.ngoId && r1.contactEmail == r2.contactEmail && r1.contactPhone == r2.contactPhone
  {
  }

  /** The body `getAllOpportunities` sends: the query's `[rows, fields]` pair, unpacked by nobody. */
  datatype QueryPair = QueryPair(rows: seq<Opportunity>, fields: seq<string>)

  datatype ListReply = ListOk(body: QueryPair) | ListError  // 200 body, or 500 'Server error'

  /** `getAllOpportunities`: 200 with the whole query result, or 500 when the query fails. */
  function GetAllOpportunities(q: Query<seq<Opportunity>>, fields: seq<string>): (r: ListReply)
    ensures q.DbError? <==> r == ListError
    ensures r.ListOk? ==> r.body.rows == q.rows && r.body.fields == fields
  {
    if q.DbError? then ListError else ListOk(QueryPair(q.rows, fields))
  }

  /** The `volunteering_opportunities` table and its auto-increment counter. */
  class OpportunityTable {
    var rows: seq<Opportunity>
    var nextId: int

    /** Ids are strictly increasing and below the counter. */
    ghost predicate Valid()
      reads this
    {
      (forall i, j :: 0 <= i < j < |rows| ==> rows[i].opportunityId < rows[j].opportunityId)
      && forall i :: 0 <= i < |rows| ==> rows[i].opportunityId < nextId
    }

    constructor (initial: seq<Opportunity>, counter: int)
      requires forall i, j :: 0 <= i < j < |initial| ==> initial[i].opportunityId < initial[j].opportunityId
      requires forall i :: 0 <= i < |initial| ==> initial[i].opportunityId < counter
      ensures Valid() && rows == initial && nextId == counter
    {
      rows, nextId := initial, counter;
    }

    /**
     * `createOpportunity`: run the guards, then insert one row. `insertFails`
     * stands for a rejected INSERT, which ends in the 500 of the catch block.
     */
    method CreateOpportunity(session: Option<SessionUser>, body: Body, contact: Query<seq<ContactRow>>, insertFails: bool)
      returns (r: CreateReply)
      requires Valid()
      modifies this
      ensures Valid()
      ensures Decide(session, body, contact).Reply? ==> r == Decide(session, body, contact).reply
      ensures Decide(session, body, contact).Insert? && insertFails ==> r == ServerError
      ensures r.Posted? <==> Decide(session, body, contact).Insert? && !insertFails
      ensures r.Posted? ==>
        r.opportunityId == old(nextId)
        && rows == old(rows) + [Opportunity(old(nextId), Decide(session, body, contact).row)]
        && nextId == old(nextId) + 1
      ensures !r.Posted? ==> rows == old(rows) && nextId == old(nextId)
    {
      var d := Decide(session, body, contact);
      match d {
        case Reply(reply) =>
          r := reply;
        case Insert(row) =>
          if insertFails {
            r := ServerError;
          } else {
            rows := rows + [Opportunity(nextId, row)];
            r := Posted(nextId);
            nextId := nextId + 1;
          }
      }
    }
  }
}
