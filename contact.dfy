/** routes/contact.py: an inquiry to a property's owner is stored only for a
    property that exists. */
module Contact {
  import opened Values
  import opened ObjectIds
  import opened Errors
  import opened Database

  /** The request body; `contactNo` is optional. */
  datatype ContactRequest = ContactRequest(name: string, contactNo: Option<string>, message: string, propertyId: string)

  /** The body answered once the inquiry is stored. */
  datatype Submitted = Submitted(message: string, queryId: string)

  /** `request.contact_no or ""`: an absent or empty number is stored as "". */
  function ContactNoOf(contactNo: Option<string>): (s: string)
    ensures contactNo.None? ==> s == ""
    ensures contactNo.Some? ==> s == contactNo.value
  {
    if contactNo.Some? && contactNo.value != "" then contactNo.value else ""
  }

  /** The inquiry document for a request received at `now`. */
  function InquiryOf(request: ContactRequest, now: string): (q: Inquiry)
    ensures q.name == request.name && q.message == request.message && q.propertyId == request.propertyId
    ensures q.contactNo == ContactNoOf(request.contactNo) && q.createdAt == now
  {
    Inquiry(request.name, ContactNoOf(request.contactNo), request.message, request.propertyId, now)
  }

  /** `contact_owner`, with `datetime.now()` passed in as `now`. Both refusals are
      raised inside the route's own handler and so reach the client as a 500. */
  method ContactOwner(store: Store, request: ContactRequest, now: string) returns (r: Result<Submitted, HttpError>)
    requires store.Valid()
    modifies store
    ensures store.Valid()
    ensures store.users == old(store.users) && store.properties == old(store.properties)
    ensures ParseId(request.propertyId).None? ==>
      && r == Err(RewrappedFault(InvalidObjectId(request.propertyId)))
      && store.inquiries == old(store.inquiries) && store.nextId == old(store.nextId)
    ensures ParseId(request.propertyId).Some? && ParseId(request.propertyId).value !in old(store.properties) ==>
      && r == Err(Rewrapped(404, "Property not found"))
      && store.inquiries == old(store.inquiries) && store.nextId == old(store.nextId)
    ensures ParseId(request.propertyId).Some? && ParseId(request.propertyId).value in old(store.properties) ==>
      && r == Ok(Submitted("Query submitted successfully", DecimalText(old(store.nextId))))
      && old(store.nextId) !in old(store.inquiries)
      && store.inquiries == old(store.inquiries)[old(store.nextId) := InquiryOf(request, now)]
  {
    var propertyId := ParseId(request.propertyId);
    if propertyId.None? {
      return Err(RewrappedFault(InvalidObjectId(request.propertyId)));
    }
    if propertyId.value !in store.properties {
      return Err(Rewrapped(404, "Property not found"));
    }
    var queryData := InquiryOf(request, now);
    var id := store.InsertInquiry(queryData);
    return Ok(Submitted("Query submitted successfully", DecimalText(id)));
  }
}
