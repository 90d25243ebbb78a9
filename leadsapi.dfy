/**
 The lead endpoint `POST /api/leads`: checks the method, the three required
 fields and the e-mail shape, and acknowledges the lead. Nothing is stored;
 the optional business type and message are read but unused.
 */
module LeadsApi {
  import opened JsString
  import opened EmailFormat
  import opened Http

  /** The request body; a field that is absent is None. */
  datatype LeadBody = LeadBody(
    name: Option<string>, email: Option<string>, businessName: Option<string>,
    businessType: Option<string>, message: Option<string>)

  /** A reply without the `success` field. */
  function Refuse(status: nat, m: Message): Reply {
    Reply(status, None, m, None)
  }

  predicate HasRequired(b: LeadBody)
    ensures HasRequired(b) ==> b.name.Some? && b.email.Some? && b.businessName.Some?
    ensures HasRequired(b) ==> |b.name.value| > 0 && |b.email.value| > 0 && |b.businessName.value| > 0
  {
    Truthy(b.name) && Truthy(b.email) && Truthy(b.businessName)
  }

  /** The route handler. A missing body makes the destructuring throw. */
  function Handle(verb: string, body: Option<LeadBody>): (r: Reply)
    // the first failing check decides the reply
    ensures verb != "POST" ==> r == Refuse(405, MethodNotAllowed)
    ensures verb == "POST" && body.None? ==> r == Refuse(500, InternalServerError)
    ensures verb == "POST" && body.Some? && !HasRequired(body.value) ==>
              r == Refuse(400, MissingRequiredFields)
    ensures verb == "POST" && body.Some? && HasRequired(body.value) && !IsValidEmail(body.value.email.value) ==>
              r == Refuse(400, InvalidEmailFormat)
    // acceptance: exactly a POST with the required fields and a well-formed address
    ensures r.status == 200 <==>
              verb == "POST" && body.Some? && HasRequired(body.value) && IsValidEmail(body.value.email.value)
    ensures r.status == 200 ==> r == Reply(200, Some(true), LeadSubmitted, None)
    // `success` is present only on acceptance, and no reply carries an id
    ensures r.success.Some? <==> r.status == 200
    ensures r.id.None?
  {
    if verb != "POST" then Refuse(405, MethodNotAllowed)
    else if body.None? then Refuse(500, InternalServerError)
    else
      var b := body.value;
      if !Truthy(b.name) || !Truthy(b.email) || !Truthy(b.businessName) then
        Refuse(400, MissingRequiredFields)
      else if !IsValidEmail(b.email.value) then
        Refuse(400, InvalidEmailFormat)
      else
        Reply(200, Some(true), LeadSubmitted, None)
  }

  /** The business type and the message never change the reply. */
  lemma OptionalFieldsIgnored(verb: string, b: LeadBody, t: Option<string>, m: Option<string>)
    ensures Handle(verb, Some(b)) == Handle(verb, Some(b.(businessType := t, message := m)))
  {
  }

  /** The reply depends on the fields only through the three checks: two
      bodies that pass, or fail, the same checks get the same reply. */
  lemma ReplyDependsOnChecksOnly(verb: string, b1: LeadBody, b2: LeadBody)
    requires HasRequired(b1) == HasRequired(b2)
    requires HasRequired(b1) ==> (IsValidEmail(b1.email.value) <==> IsValidEmail(b2.email.value))
    ensures Handle(verb, Some(b1)) == Handle(verb, Some(b2))
  {
  }

  /** The e-mail shape check sees the address as sent: surrounding
      whitespace is refused rather than trimmed. */
  lemma UntrimmedAddressRefused(b: LeadBody)
    requires HasRequired(b) && |b.email.value| > 0 && IsWhitespace(b.email.value[0])
    ensures Handle("POST", Some(b)) == Refuse(400, InvalidEmailFormat)
  {
  }
}
