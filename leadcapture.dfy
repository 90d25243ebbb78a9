/**
 The lead form component: a controlled form with three draft fields, a
 submitting flag, a submitted flag that replaces the form by a success
 panel for good, and an error banner. Submitting reads the relay settings,
 sends the form once and settles to success or an error text.

 `Form` and the functions over it say what each handler does to the whole
 state; the class `LeadForm` holds the same state in fields and its methods
 are proved to follow those functions.
 */
module LeadCapture {
  import opened JsString
  import opened Relay

  const NotConfiguredText := "Email service is not configured. Please contact us directly."
  const BadStatusText := "Failed to send message. Please try again."
  const FallbackText := "Failed to send message. Please try again later."
  const SendingLabel := "Sending..."

  datatype Draft = Draft(name: string, email: string, message: string)

  const EmptyDraft := Draft("", "", "")

  datatype Form = Form(draft: Draft, isSubmitting: bool, isSubmitted: bool, error: string)

  const Initial := Form(EmptyDraft, false, false, "")

  /** The banner text chosen in the catch block: the error's `message`, else
      the fallback; never empty. */
  function CaughtText(message: Option<string>): (e: string)
    ensures e != ""
    ensures Truthy(message) ==> e == message.value
    ensures !Truthy(message) ==> e == FallbackText
  {
    if Truthy(message) then message.value else FallbackText
  }

  /** The banner text a failed send leaves: a resolved non-200 response is
      rethrown with a fixed text whatever its status; of a rejection only the
      `message` property is read. */
  function FailureText(r: SendResult): (e: string)
    requires !Delivered(r)
    ensures e != ""
    ensures r.Resolved? ==> e == BadStatusText
    ensures r.Rejected? && Truthy(r.message) ==> e == r.message.value
    ensures r.Rejected? && !Truthy(r.message) ==> e == FallbackText
  {
    match r
    case Resolved(_) => CaughtText(Some(BadStatusText))
    case Rejected(_, message) => CaughtText(message)
  }

  /** The part of handleSubmit before the send. */
  function Begin(f: Form, cfg: RelayConfig): (g: Form)
    ensures g.draft == f.draft && g.isSubmitted == f.isSubmitted
    ensures g.isSubmitting <==> Configured(cfg)
    ensures g.error == "" <==> Configured(cfg)
  {
    var entered := f.(isSubmitting := true, error := "");
    if Configured(cfg) then entered
    else entered.(error := CaughtText(Some(NotConfiguredText)), isSubmitting := false)
  }

  /** The part of handleSubmit after the send settles. */
  function Settled(f: Form, r: SendResult): (g: Form)
    ensures !g.isSubmitting
    ensures g.isSubmitted <==> f.isSubmitted || Delivered(r)
    ensures Delivered(r) ==> g.draft == EmptyDraft && g.error == f.error
    ensures !Delivered(r) ==> g.draft == f.draft && g.error != ""
  {
    var g := if Delivered(r) then f.(isSubmitted := true, draft := EmptyDraft)
             else f.(error := FailureText(r));
    g.(isSubmitting := false)
  }

  /** The whole of handleSubmit: begin, and settle only if a send was made. */
  function AfterSubmit(f: Form, cfg: RelayConfig, r: SendResult): (g: Form)
    ensures g.isSubmitted <==> f.isSubmitted || (Configured(cfg) && Delivered(r))
    ensures !(Configured(cfg) && Delivered(r)) ==> g.draft == f.draft
  {
    if Configured(cfg) then Settled(Begin(f, cfg), r) else Begin(f, cfg)
  }

  /** The browser submits only through the enabled button and only when
      every `required` field holds a value. */
  predicate CanSubmit(f: Form)
    ensures CanSubmit(f) ==> forall t :: Label(f, t) == t
  {
    !f.isSubmitting && f.draft.name != "" && f.draft.email != "" && f.draft.message != ""
  }

  /** The button's label; the idle text comes from the component's props. */
  function Label(f: Form, buttonText: string): (s: string)
    ensures !f.isSubmitting ==> s == buttonText
    ensures buttonText != SendingLabel ==> (s == SendingLabel <==> f.isSubmitting)
  {
    if f.isSubmitting then SendingLabel else buttonText
  }

  /** One complete user event. Once submitted only the success panel is on
      screen, and it has no controls. */
  datatype Event =
    | EditName(v: string) | EditEmail(v: string) | EditMessage(v: string)
    | DismissError | Submit(cfg: RelayConfig, result: SendResult)

  function Step(f: Form, e: Event): (g: Form)
    ensures !f.isSubmitting ==> !g.isSubmitting
    ensures f.isSubmitted ==> g == f
    ensures g.isSubmitted != f.isSubmitted ==> e.Submit? && Configured(e.cfg) && Delivered(e.result)
  {
    if f.isSubmitted then f
    else match e
      case EditName(v) => f.(draft := f.draft.(name := v))
      case EditEmail(v) => f.(draft := f.draft.(email := v))
      case EditMessage(v) => f.(draft := f.draft.(message := v))
      case DismissError => f.(error := "")
      case Submit(cfg, result) => if CanSubmit(f) then AfterSubmit(f, cfg, result) else f
  }

  function Run(f: Form, es: seq<Event>): Form
    decreases |es|
  {
    if es == [] then f else Run(Step(f, es[0]), es[1..])
  }

  /** Every path through handleSubmit ends with the submitting flag down. */
  lemma SubmitEndsIdle(f: Form, cfg: RelayConfig, r: SendResult)
    ensures !AfterSubmit(f, cfg, r).isSubmitting
  {
  }

  /** Without the three settings nothing is sent and only the banner and the
      flag change. */
  lemma MissingConfigNoSend(f: Form, cfg: RelayConfig, r: SendResult)
    requires !Configured(cfg)
    ensures RequestFor(cfg, f.draft).None?
    ensures AfterSubmit(f, cfg, r) == f.(isSubmitting := false, error := NotConfiguredText)
  {
  }

  /** A 200 response shows the success panel and empties all three fields. */
  lemma SuccessResetsDraft(f: Form, cfg: RelayConfig, r: SendResult)
    requires Configured(cfg) && Delivered(r)
    ensures AfterSubmit(f, cfg, r) == f.(draft := EmptyDraft, isSubmitting := false, isSubmitted := true, error := "")
  {
  }

  /** Any other outcome keeps the draft and names the failure. */
  lemma FailureKeepsDraft(f: Form, cfg: RelayConfig, r: SendResult)
    requires Configured(cfg) && !Delivered(r)
    ensures AfterSubmit(f, cfg, r) == f.(isSubmitting := false, error := FailureText(r))
  {
  }

  /** After a submission the banner shows exactly when it did not succeed. */
  lemma BannerIffFailed(f: Form, cfg: RelayConfig, r: SendResult)
    ensures AfterSubmit(f, cfg, r).error != "" <==> !(Configured(cfg) && Delivered(r))
  {
  }

  /** Whole events never leave the form half-submitted. */
  lemma {:induction false} RunStaysIdle(f: Form, es: seq<Event>)
    requires !f.isSubmitting
    ensures !Run(f, es).isSubmitting
    decreases |es|
  {
    if es != [] {
      assert !Step(f, es[0]).isSubmitting;
      RunStaysIdle(Step(f, es[0]), es[1..]);
    }
  }

  /** Nothing sets the submitted flag back: once submitted, no sequence of
      events changes the state at all. */
  lemma {:induction false} SubmittedIsFinal(f: Form, es: seq<Event>)
    requires f.isSubmitted
    ensures Run(f, es) == f
    decreases |es|
  {
    if es != [] {
      SubmittedIsFinal(Step(f, es[0]), es[1..]);
    }
  }

  /** The success panel appears only after a send that was made (the
      settings were present) and returned 200. */
  lemma {:induction false} SubmittedNeedsDelivery(f: Form, es: seq<Event>)
    requires !f.isSubmitted
    requires forall k :: 0 <= k < |es| && es[k].Submit? ==> !(Configured(es[k].cfg) && Delivered(es[k].result))
    ensures !Run(f, es).isSubmitted
    decreases |es|
  {
    if es != [] {
      assert !Step(f, es[0]).isSubmitted;
      SubmittedNeedsDelivery(Step(f, es[0]), es[1..]);
    }
  }

  /** The lead form's state cells and handlers. */
  class LeadForm {
    var draft: Draft
    var isSubmitting: bool
    var isSubmitted: bool
    var error: string

    function View(): Form
      reads this
    {
      Form(draft, isSubmitting, isSubmitted, error)
    }

    constructor()
      ensures View() == Initial
    {
      draft := EmptyDraft;
      isSubmitting := false;
      isSubmitted := false;
      error := "";
    }

    /** handleSubmit up to the send; returns the send call made, if any. */
    method BeginSubmit(cfg: RelayConfig) returns (req: Option<SendRequest<Draft>>)
      modifies this
      ensures req == RequestFor(cfg, old(draft))
      ensures View() == Begin(old(View()), cfg)
      ensures forall t :: SubmitLabel(t) == if Configured(cfg) then SendingLabel else t
    {
      isSubmitting := true;
      error := "";
      if !Configured(cfg) {
        error := CaughtText(Some(NotConfiguredText));
        isSubmitting := false;
        req := None;
      } else {
        req := Some(SendRequest(cfg.serviceId.value, cfg.templateId.value, draft, cfg.publicKey.value));
      }
    }

    /** handleSubmit from the settled send to the end of `finally`. */
    method Settle(r: SendResult)
      modifies this
      ensures View() == Settled(old(View()), r)
      ensures old(isSubmitted) ==> isSubmitted
    {
      if Delivered(r) {
        isSubmitted := true;
        draft := EmptyDraft;
      } else {
        error := FailureText(r);
      }
      isSubmitting := false;
    }

    /** The whole of handleSubmit when the send settles to r. */
    method HandleSubmit(cfg: RelayConfig, r: SendResult) returns (req: Option<SendRequest<Draft>>)
      modifies this
      ensures req == RequestFor(cfg, old(draft))
      ensures View() == AfterSubmit(old(View()), cfg, r)
      ensures !isSubmitting
    {
      req := BeginSubmit(cfg);
      if req.Some? {
        Settle(r);
      }
    }

    /** A press of the submit button: ignored while it is disabled or a
        required field is empty. */
    method ClickSubmit(cfg: RelayConfig) returns (req: Option<SendRequest<Draft>>)
      modifies this
      ensures CanSubmit(old(View())) ==> req == RequestFor(cfg, old(draft)) && View() == Begin(old(View()), cfg)
      ensures !CanSubmit(old(View())) ==> req.None? && View() == old(View())
    {
      if CanSubmit(View()) {
        req := BeginSubmit(cfg);
      } else {
        req := None;
      }
    }

    /** The label of the submit button. */
    function SubmitLabel(buttonText: string): string
      reads this
    {
      Label(View(), buttonText)
    }

    /** A click on the error banner. */
    method DismissError()
      modifies this
      ensures View() == old(View()).(error := "")
    {
      error := "";
    }

    method EditName(v: string)
      modifies this
      ensures View() == old(View()).(draft := old(draft).(name := v))
    {
      draft := draft.(name := v);
    }

    method EditEmail(v: string)
      modifies this
      ensures View() == old(View()).(draft := old(draft).(email := v))
    {
      draft := draft.(email := v);
    }

    method EditMessage(v: string)
      modifies this
      ensures View() == old(View()).(draft := old(draft).(message := v))
    {
      draft := draft.(message := v);
    }
  }
}
