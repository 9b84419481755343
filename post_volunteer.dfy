/**
 * The page on which an NGO posts a volunteering opportunity: it shows the
 * NGO's contact details fetched from the server, edits the five form fields,
 * and submits them.
 */
module PostVolunteer {
  import opened Wrappers

  /** A parsed JSON value. */
  datatype Json =
    | JNull
    | JBool(b: bool)
    | JNum(n: int)
    | JStr(s: string)
    | JArr(items: seq<Json>)
    | JObj(fields: map<string, Json>)

  predicate Truthy(v: Json) {
    match v
    case JNull => false
    case JBool(b) => b
    case JNum(n) => n != 0
    case JStr(s) => s != ""
    case JArr(_) => true
    case JObj(_) => true
  }

  /**
   * The contact body made into one value: a list gives its first element if
   * that is truthy, else `{}`; an object gives itself; anything else gives `{}`.
   */
  function Normalize(raw: Json): (r: Json)
    ensures raw.JArr? && raw.items != [] && Truthy(raw.items[0]) ==> r == raw.items[0]
    ensures raw.JArr? && (raw.items == [] || !Truthy(raw.items[0])) ==> r == JObj(map[])
    ensures raw.JObj? ==> r == raw
    ensures !raw.JArr? && !raw.JObj? ==> r == JObj(map[])
  {
    match raw
    case JArr(items) => if items != [] && Truthy(items[0]) then items[0] else JObj(map[])
    case JObj(_) => raw
    case _ => JObj(map[])
  }

  const NotAvailable := JStr("Not available")

  /** `value.key ?? 'Not available'`: only a missing or null field is replaced; `""`, 0 and false are kept. */
  function FieldOr(value: Json, key: string): (r: Json)
    ensures (value.JObj? && key in value.fields && value.fields[key] != JNull) ==> r == value.fields[key]
    ensures !(value.JObj? && key in value.fields && value.fields[key] != JNull) ==> r == NotAvailable
  {
    if value.JObj? && key in value.fields && value.fields[key] != JNull then value.fields[key] else NotAvailable
  }

  /** The contact block shown on the page. */
  datatype Contact = Contact(ngo: Json, email: Json, phone: Json)

  function ContactOf(raw: Json): (c: Contact)
    ensures raw == JArr([]) || (!raw.JArr? && !raw.JObj?) ==> c == Contact(NotAvailable, NotAvailable, NotAvailable)
    ensures raw.JObj? && "contact_email" in raw.fields && raw.fields["contact_email"] != JNull ==>
      c.email == raw.fields["contact_email"]
    ensures raw.JObj? ==>
      c == Contact(FieldOr(raw, "ngo_id"), FieldOr(raw, "contact_email"), FieldOr(raw, "phone_nr"))
    ensures raw.JArr? && raw.items != [] && Truthy(raw.items[0]) ==>
      var d := raw.items[0];
      c == Contact(FieldOr(d, "ngo_id"), FieldOr(d, "contact_email"), FieldOr(d, "phone_nr"))
  {
    var d := Normalize(raw);
    Contact(FieldOr(d, "ngo_id"), FieldOr(d, "contact_email"), FieldOr(d, "phone_nr"))
  }

  /** A list holding the contact object shows the same contact block as the object alone. */
  lemma ListOfContactIsContact(m: map<string, Json>, rest: seq<Json>)
    ensures ContactOf(JArr([JObj(m)] + rest)) == ContactOf(JObj(m))
  {
  }

  /** How a request ended: an ok response with its body, a non-ok one with its `error` field, or a throw with its message. */
  datatype Outcome = Ok(body: Json) | NotOk(error: Option<string>) | Threw(message: string)

  /** `error || fallback`. */
  function ErrorText(error: Option<string>, fallback: string): (r: string)
    ensures error.Some? && error.value != "" ==> r == error.value
    ensures !(error.Some? && error.value != "") ==> r == fallback
  {
    if error.Some? && error.value != "" then error.value else fallback
  }

  const FetchFailed := "Failed to fetch NGO info"
  const SubmitFailed := "Opportunity submission failed"

  const EmptyForm: map<string, string> :=
    map["title" := "", "description" := "", "location" := "", "start" := "", "end" := ""]

  class PostVolunteerPage {
    var loading: bool
    var error: Option<string>
    var ngoContact: Option<Contact>
    var formData: map<string, string>
    var location: Option<string>  // where `navigate` sent the page, if anywhere

    constructor ()
      ensures loading && error.None? && ngoContact.None? && formData == EmptyForm && location.None?
    {
      loading, error, ngoContact, formData, location := true, None, None, EmptyForm, None;
    }

    /** `fetchInitialData`: the page stops loading and shows either the contact block or an error. */
    method FetchInitialData(outcome: Outcome)
      modifies this
      ensures !loading
      ensures outcome.Ok? ==> ngoContact == Some(ContactOf(outcome.body)) && error == old(error)
      ensures outcome.NotOk? ==> error == Some(ErrorText(outcome.error, FetchFailed)) && ngoContact == old(ngoContact)
      ensures outcome.Threw? ==> error == Some(outcome.message) && ngoContact == old(ngoContact)
      ensures formData == old(formData) && location == old(location)
    {
      loading := false;
      match outcome {
        case Ok(body) =>
          ngoContact := Some(ContactOf(body));
        case NotOk(e) =>
          error := Some(ErrorText(e, FetchFailed));
        case Threw(message) =>
          error := Some(message);
      }
    }

    /** `handleChange`: only the named field of the form changes. */
    method HandleChange(name: string, value: string)
      modifies this
      ensures formData == old(formData)[name := value]
      ensures forall k :: k in old(formData) && k != name ==> k in formData && formData[k] == old(formData)[k]
      ensures loading == old(loading) && error == old(error) && ngoContact == old(ngoContact)
      ensures location == old(location)
    {
      formData := formData[name := value];
    }

    /**
     * `handleSubmit`: the form is sent as it is; success navigates to the
     * profile page, failure stops loading and shows the error.
     */
    method HandleSubmit(outcome: Outcome) returns (sent: map<string, string>)
      modifies this
      ensures sent == old(formData)
      ensures outcome.Ok? ==> location == Some("/profile") && loading && error.None?
      ensures outcome.NotOk? ==>
        location == old(location) && !loading && error == Some(ErrorText(outcome.error, SubmitFailed))
      ensures outcome.Threw? ==> location == old(location) && !loading && error == Some(outcome.message)
      ensures formData == old(formData) && ngoContact == old(ngoContact)
    {
      loading, error := true, None;
      sent := formData;
      match outcome {
        case Ok(_) =>
          location := Some("/profile");
        case NotOk(e) =>
          loading, error := false, Some(ErrorText(e, SubmitFailed));
        case Threw(message) =>
          loading, error := false, Some(message);
      }
    }
  }
}
