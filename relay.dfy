/**
 The browser-side relay both forms send through: the three public settings
 read from the environment, the request a form hands to `sendForm`, and
 what the returned promise settles to. The relay itself is not modelled;
 its result is an input.
 */
module Relay {
  import opened JsString

  /** NEXT_PUBLIC_EMAILJS_SERVICE_ID, _TEMPLATE_ID and _PUBLIC_KEY. */
  datatype RelayConfig = RelayConfig(serviceId: Option<string>, templateId: Option<string>, publicKey: Option<string>)

  predicate Configured(c: RelayConfig)
    ensures Configured(c) ==> c.serviceId.Some? && c.templateId.Some? && c.publicKey.Some?
    ensures Configured(c) ==> |c.serviceId.value| > 0 && |c.templateId.value| > 0 && |c.publicKey.value| > 0
  {
    Truthy(c.serviceId) && Truthy(c.templateId) && Truthy(c.publicKey)
  }

  /** The arguments of one `sendForm` call: the form's fields travel as F. */
  datatype SendRequest<F> = SendRequest(serviceId: string, templateId: string, form: F, publicKey: string)

  /** The call the form makes, or None when a setting is missing. */
  function RequestFor<F>(c: RelayConfig, form: F): (r: Option<SendRequest<F>>)
    ensures r.Some? <==> Configured(c)
    ensures r.Some? ==> && r.value.serviceId == c.serviceId.value && r.value.templateId == c.templateId.value
                        && r.value.form == form && r.value.publicKey == c.publicKey.value
  {
    if Configured(c) then Some(SendRequest(c.serviceId.value, c.templateId.value, form, c.publicKey.value))
    else None
  }

  /** A resolved promise with the response status, or a rejection whose
      error may carry `text` and `message` properties. */
  datatype SendResult = Resolved(status: nat) | Rejected(text: Option<string>, message: Option<string>)

  predicate Delivered(r: SendResult) {
    r.Resolved? && r.status == 200
  }
}
