/**
 The contact section of the landing page: a controlled form with four
 draft fields, a submitting flag, a submitted flag that swaps the form for
 a thank-you view, and an error banner. Submitting reads the relay
 settings, sends the form once and settles to success or an error text.

 `Form` and the functions over it say what each handler does to the whole
 state; the class `ContactSection` holds the same state in fields and its
 methods are proved to follow those functions.
 */
module Landing {
  import opened JsString
  import opened Relay

  const NotConfiguredText := "Email service is not configured. Check your .env.local file."
  const StatusPrefix := "Failed to send message. Status: "
  const FallbackText := "Failed to send message. Please try again."
  const SendingLabel := "Sending..."
  const IdleLabel := "Send Message"

  datatype Draft = Draft(name: string, company: string, email: string, message: string)

  const EmptyDraft := Draft("", "", "", "")

  datatype Form = Form(draft: Draft, isSubmitting: bool, isSubmitted: bool, error: string)

  const Initial := Form(EmptyDraft, false, false, "")

  /** The banner text chosen in the catch block: the error's `text`, else its
      `message`, else the fallback; never empty. */
  function CaughtText(text: Option<string>, message: Option<string>): (e: string)
    ensures e != ""
    ensures Truthy(text) ==> e == text.value
    ensures !Truthy(text) && Truthy(message) ==> e == message.value
    ensures !Truthy(text) && !Truthy(message) ==> e == FallbackText
  {
    if Truthy(text) then text.value else if Truthy(message) then message.value else FallbackText
  }

  /** The digits after the prefix are the canonical decimal rendering of the
      status code: non-empty, no leading zero, and of that value. */
  predicate ReadsAs(d: string, n: nat) {
    && d != [] && (|d| > 1 ==> d[0] != '0')
    && (forall k :: 0 <= k < |d| ==> IsDigit(d[k])) && DecimalValue(d) == n
  }

  /** The banner text a failed send leaves: a resolved non-200 response is
      rethrown as an Error naming its status, a rejection is caught as is. */
  function FailureText(r: SendResult): (e: string)
    requires !Delivered(r)
    ensures e != ""
    ensures r.Resolved? ==> |StatusPrefix| <= |e| && e[..|StatusPrefix|] == StatusPrefix
                            && ReadsAs(e[|StatusPrefix|..], r.status)
    ensures r.Rejected? ==> e == CaughtText(r.text, r.message)
  {
    match r
    case Resolved(status) =>
      var d := NatToDecimal(status);
      DecimalRoundTrip(status);
      var e := StatusPrefix + d;
      assert e[|StatusPrefix|..] == d;
      CaughtText(None, Some(e))
    case Rejected(text, message) => CaughtText(text, message)
  }

  /** The part of handleSubmit before the send: the submitting flag goes up
      and the banner is cleared; a missing setting throws at once, so the
      banner then shows the configuration error and the flag comes down. */
  function Begin(f: Form, cfg: RelayConfig): (g: Form)
    ensures g.draft == f.draft && g.isSubmitted == f.isSubmitted
    ensures g.isSubmitting <==> Configured(cfg)
    ensures g.error == "" <==> Configured(cfg)
  {
    var entered := f.(isSubmitting := true, error := "");
    if Configured(cfg) then entered
    else entered.(error := CaughtText(None, Some(NotConfiguredText)), isSubmitting := false)
  }

  /** The part of handleSubmit after the send settles. */
  function Settled(f: Form, r: SendResult): (g: Form)
    ensures !g.isSubmitting
    ensures g.isSubmitted <==> f.isSubmitted || Delivered(r)
    ensures Delivered(r) ==> g.draft == EmptyDraft && g.error == f.error
    ensures !Delivered(r) ==> g.draft == f.draft && g.error != ""
  {
    var g := if Delivered(r) then f.(isSubmitted := true, draft := EmptyDraft)
             else f.(error := FailureText(r));
    g.(isSubmitting := false)
  }

  /** The whole of handleSubmit: begin, and settle only if a send was made. */
  function AfterSubmit(f: Form, cfg: RelayConfig, r: SendResult): (g: Form)
    ensures g.isSubmitted <==> f.isSubmitted || (Configured(cfg) && Delivered(r))
    ensures !(Configured(cfg) && Delivered(r)) ==> g.draft == f.draft
  {
    if Configured(cfg) then Settled(Begin(f, cfg), r) else Begin(f, cfg)
  }

  /** The browser submits only through the enabled button and only when
      every `required` field holds a value. */
  predicate CanSubmit(f: Form)
    ensures CanSubmit(f) ==> Label(f) == IdleLabel
  {
    !f.isSubmitting && f.draft.name != "" && f.draft.email != "" && f.draft.message != ""
  }

  /** The button's label. */
  function Label(f: Form): (s: string)
    ensures s == SendingLabel <==> f.isSubmitting
  {
    assert IdleLabel[4] != SendingLabel[4];
    if f.isSubmitting then SendingLabel else IdleLabel
  }

  /** One complete user event. The form and the thank-you view are never on
      screen together, so an event of the hidden one does nothing. */
  datatype Event =
    | EditName(v: string) | EditCompany(v: string) | EditEmail(v: string) | EditMessage(v: string)
    | DismissError | SendAnother | Submit(cfg: RelayConfig, result: SendResult)

  function Step(f: Form, e: Event): (g: Form)
    ensures !f.isSubmitting ==> !g.isSubmitting
    ensures g.isSubmitted != f.isSubmitted ==> (e.SendAnother? || (e.Submit? && Configured(e.cfg) && Delivered(e.result)))
  {
    match e
    case SendAnother => if f.isSubmitted then f.(isSubmitted := false) else f
    case _ =>
      if f.isSubmitted then f
      else match e
        case EditName(v) => f.(draft := f.draft.(name := v))
        case EditCompany(v) => f.(draft := f.draft.(company := v))
        case EditEmail(v) => f.(draft := f.draft.(email := v))
        case EditMessage(v) => f.(draft := f.draft.(message := v))
        case DismissError => f.(error := "")
        case Submit(cfg, result) => if CanSubmit(f) then AfterSubmit(f, cfg, result) else f
  }

  function Run(f: Form, es: seq<Event>): Form
    decreases |es|
  {
    if es == [] then f else Run(Step(f, es[0]), es[1..])
  }

  /** Every path through handleSubmit ends with the submitting flag down. */
  lemma SubmitEndsIdle(f: Form, cfg: RelayConfig, r: SendResult)
    ensures !AfterSubmit(f, cfg, r).isSubmitting
  {
  }

  /** Without the three settings nothing is sent and only the banner and the
      flag change. */
  lemma MissingConfigNoSend(f: Form, cfg: RelayConfig, r: SendResult)
    requires !Configured(cfg)
    ensures RequestFor(cfg, f.draft).None?
    ensures AfterSubmit(f, cfg, r) == f.(isSubmitting := false, error := NotConfiguredText)
  {
  }

  /** A 200 response shows the thank-you view and empties all four fields. */
  lemma SuccessResetsDraft(f: Form, cfg: RelayConfig, r: SendResult)
    requires Configured(cfg) && Delivered(r)
    ensures AfterSubmit(f, cfg, r) == Form(EmptyDraft, false, true, "")
  {
  }

  /** Any other outcome keeps the draft and the view and names the failure. */
  lemma FailureKeepsDraft(f: Form, cfg: RelayConfig, r: SendResult)
    requires Configured(cfg) && !Delivered(r)
    ensures AfterSubmit(f, cfg, r) == f.(isSubmitting := false, error := FailureText(r))
  {
  }

  /** After a submission the banner shows exactly when it did not succeed. */
  lemma BannerIffFailed(f: Form, cfg: RelayConfig, r: SendResult)
    ensures AfterSubmit(f, cfg, r).error != "" <==> !(Configured(cfg) && Delivered(r))
  {
  }

  /** Whole events never leave the form half-submitted. */
  lemma {:induction false} RunStaysIdle(f: Form, es: seq<Event>)
    requires !f.isSubmitting
    ensures !Run(f, es).isSubmitting
    decreases |es|
  {
    if es != [] {
      assert !Step(f, es[0]).isSubmitting;
      RunStaysIdle(Step(f, es[0]), es[1..]);
    }
  }

  /** While the thank-you view shows, editing, dismissing and submitting
      change nothing; only "Send Another Message" brings the form back. */
  lemma {:induction false} SubmittedViewIsFrozen(f: Form, es: seq<Event>)
    requires f.isSubmitted
    requires forall k :: 0 <= k < |es| ==> es[k] != SendAnother
    ensures Run(f, es) == f
    decreases |es|
  {
    if es != [] {
      assert Step(f, es[0]) == f;
      SubmittedViewIsFrozen(f, es[1..]);
    }
  }

  /** An edit changes its own field and nothing else; in particular it
      leaves an error banner in place. */
  lemma EditTouchesOneField(f: Form, v: string)
    requires !f.isSubmitted
    ensures Step(f, EditName(v)) == f.(draft := Draft(v, f.draft.company, f.draft.email, f.draft.message))
    ensures Step(f, EditCompany(v)) == f.(draft := Draft(f.draft.name, v, f.draft.email, f.draft.message))
    ensures Step(f, EditEmail(v)) == f.(draft := Draft(f.draft.name, f.draft.company, v, f.draft.message))
    ensures Step(f, EditMessage(v)) == f.(draft := Draft(f.draft.name, f.draft.company, f.draft.email, v))
  {
  }

  /** The contact section's state cells and handlers. */
  class ContactSection {
    var draft: Draft
    var isSubmitting: bool
    var isSubmitted: bool
    var error: string

    function View(): Form
      reads this
    {
      Form(draft, isSubmitting, isSubmitted, error)
    }

    constructor()
      ensures View() == Initial
    {
      draft := EmptyDraft;
      isSubmitting := false;
      isSubmitted := false;
      error := "";
    }

    /** handleSubmit up to the send; returns the send call made, if any. */
    method BeginSubmit(cfg: RelayConfig) returns (req: Option<SendRequest<Draft>>)
      modifies this
      ensures req == RequestFor(cfg, old(draft))
      ensures View() == Begin(old(View()), cfg)
      ensures SubmitLabel() == if Configured(cfg) then SendingLabel else IdleLabel
    {
      isSubmitting := true;
      error := "";
      if !Configured(cfg) {
        error := CaughtText(None, Some(NotConfiguredText));
        isSubmitting := false;
        req := None;
      } else {
        req := Some(SendRequest(cfg.serviceId.value, cfg.templateId.value, draft, cfg.publicKey.value));
      }
    }

    /** handleSubmit from the settled send to the end of `finally`. */
    method Settle(r: SendResult)
      modifies this
      ensures View() == Settled(old(View()), r)
    {
      if Delivered(r) {
        isSubmitted := true;
        draft := EmptyDraft;
      } else {
        error := FailureText(r);
      }
      isSubmitting := false;
    }

    /** The whole of handleSubmit when the send settles to r. */
    method HandleSubmit(cfg: RelayConfig, r: SendResult) returns (req: Option<SendRequest<Draft>>)
      modifies this
      ensures req == RequestFor(cfg, old(draft))
      ensures View() == AfterSubmit(old(View()), cfg, r)
      ensures !isSubmitting
    {
      req := BeginSubmit(cfg);
      if req.Some? {
        Settle(r);
      }
    }

    /** A press of the submit button: ignored while it is disabled or a
        required field is empty. */
    method ClickSubmit(cfg: RelayConfig) returns (req: Option<SendRequest<Draft>>)
      modifies this
      ensures CanSubmit(old(View())) ==> req == RequestFor(cfg, old(draft)) && View() == Begin(old(View()), cfg)
      ensures !CanSubmit(old(View())) ==> req.None? && View() == old(View())
    {
      if CanSubmit(View()) {
        req := BeginSubmit(cfg);
      } else {
        req := None;
      }
    }

    /** The label of the submit button. */
    function SubmitLabel(): string
      reads this
    {
      Label(View())
    }

    /** "Send Another Message". */
    method SendAnother()
      modifies this
      ensures View() == old(View()).(isSubmitted := false)
    {
      isSubmitted := false;
    }

    /** A click on the error banner. */
    method DismissError()
      modifies this
      ensures View() == old(View()).(error := "")
    {
      error := "";
    }

    method EditName(v: string)
      modifies this
      ensures View() == old(View()).(draft := old(draft).(name := v))
    {
      draft := draft.(name := v);
    }

    method EditCompany(v: string)
      modifies this
      ensures View() == old(View()).(draft := old(draft).(company := v))
    {
      draft := draft.(company := v);
    }

    method EditEmail(v: string)
      modifies this
      ensures View() == old(View()).(draft := old(draft).(email := v))
    {
      draft := draft.(email := v);
    }

    method EditMessage(v: string)
      modifies this
      ensures View() == old(View()).(draft := old(draft).(message := v))
    {
      draft := draft.(message := v);
    }
  }
}
