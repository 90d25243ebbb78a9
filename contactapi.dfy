/**
 The contact endpoint `POST /api/contact`: checks the method, the required
 fields and the e-mail shape (first failure wins), sanitises the fields,
 builds the arguments of one call to the e-mail provider and maps the
 provider's answer to a reply. The provider's answer is an input.
 */
module ContactApi {
  import opened JsString
  import opened EmailFormat
  import opened Http

  const NameCap: nat := 100
  const EmailCap: nat := 254
  const MessageCap: nat := 5000

  /** Fallbacks used when the environment does not name the addresses. */
  const DefaultInbox := "your-email@example.com"
  const DefaultSender := "onboarding@resend.dev"

  /** The environment: CONTACT_EMAIL and FROM_EMAIL. */
  datatype MailConfig = MailConfig(contactEmail: Option<string>, fromEmail: Option<string>)

  /** The request body; a field that is absent is None. */
  datatype ContactBody = ContactBody(name: Option<string>, email: Option<string>, message: Option<string>)

  /** What the provider's send call produced: `data` without `error`, an
      `error`, or a rejected promise. */
  datatype ProviderResult = Success(id: Option<string>) | Error(detail: string) | Throws(detail: string)

  /** The sanitised submission. */
  datatype Submission = Submission(name: string, email: string, message: string)

  /** The arguments of the provider's send call (the HTML part is not modelled). */
  datatype SendArgs = SendArgs(from: string, to: string, replyTo: string, subject: string, text: string)

  /** The reply, and the arguments of the send call if one was made. */
  datatype Outcome = Outcome(reply: Reply, sent: Option<SendArgs>)

  function Inbox(cfg: MailConfig): (a: string)
    ensures Truthy(cfg.contactEmail) ==> a == cfg.contactEmail.value
    ensures !Truthy(cfg.contactEmail) ==> a == DefaultInbox
  {
    if Truthy(cfg.contactEmail) then cfg.contactEmail.value else DefaultInbox
  }

  function Sender(cfg: MailConfig): (a: string)
    ensures Truthy(cfg.fromEmail) ==> a == cfg.fromEmail.value
    ensures !Truthy(cfg.fromEmail) ==> a == DefaultSender
  {
    if Truthy(cfg.fromEmail) then cfg.fromEmail.value else DefaultSender
  }

  predicate AllPresent(b: ContactBody) {
    Truthy(b.name) && Truthy(b.email) && Truthy(b.message)
  }

  /** `name.trim().slice(0, 100)`: a prefix of the trimmed name, at most 100 long. */
  function SanitizeName(name: string): (r: string)
    ensures r <= Trim(name) && |r| == Min(|Trim(name)|, NameCap)
  {
    Take(Trim(name), NameCap)
  }

  /** `message.trim().slice(0, 5000)`. */
  function SanitizeMessage(message: string): (r: string)
    ensures r <= Trim(message) && |r| == Min(|Trim(message)|, MessageCap)
  {
    Take(Trim(message), MessageCap)
  }

  /** `email.trim().toLowerCase().slice(0, 254)`: lower case, at most 254
      long, and for an address without whitespace (every address that passed
      the shape check) a prefix of the lower-cased address itself. */
  function SanitizeEmail(email: string): (r: string)
    ensures IsLowerCase(r) && |r| <= EmailCap
    ensures NoWhitespace(email) ==> r <= ToLowerCase(email) && |r| == Min(|email|, EmailCap)
  {
    TrimNoWhitespace(email);
    var lower := ToLowerCase(Trim(email));
    Take(lower, EmailCap)
  }

  function Sanitize(name: string, email: string, message: string): (r: Submission)
    ensures |r.name| <= NameCap && |r.email| <= EmailCap && |r.message| <= MessageCap
    ensures IsLowerCase(r.email)
    ensures r.name <= Trim(name) && r.message <= Trim(message)
  {
    Submission(SanitizeName(name), SanitizeEmail(email), SanitizeMessage(message))
  }

  const SubjectPrefix := "\U{1F680} New Contact from "
  const SubjectSuffix := " - UPSERA"

  /** The subject line embeds the name between a fixed prefix and suffix. */
  function Subject(name: string): (s: string)
    ensures |s| == |SubjectPrefix| + |name| + |SubjectSuffix|
    ensures s[..|SubjectPrefix|] == SubjectPrefix
    ensures s[|SubjectPrefix|..|SubjectPrefix| + |name|] == name
    ensures s[|SubjectPrefix| + |name|..] == SubjectSuffix
  {
    SubjectPrefix + name + SubjectSuffix
  }

  const TextTitle := "NEW CONTACT FORM SUBMISSION"
  const TextHeader := TextTitle + "\n" + "============================" + "\n\n"
  const TextIndent := "\n    "

  /** The last line of the text, naming the sender. */
  function ReplyLine(name: string): string {
    "\n\n---\nReply to this email to respond directly to " + name + "."
  }

  /** The text between the template's leading newline and its trailing indentation. */
  function TextBody(s: Submission): string {
    TextHeader + (TextFields(s) + ReplyLine(s.name))
  }

  /** The "From:" and "Email:" lines and the message. */
  function TextFields(s: Submission): string {
    "From: " + s.name + "\nEmail: " + s.email + "\n\nMessage:\n" + s.message
  }

  /** The plain-text template before `.trim()`: it opens with a newline and
      closes with a newline and the indentation of the closing backquote. */
  function TextTemplate(s: Submission): string {
    "\n" + TextBody(s) + TextIndent
  }

  /** The plain-text body: trimming the template removes exactly its leading
      newline and trailing indentation, so the text starts with the header
      and ends with the reply line naming the sender. */
  function EmailText(s: Submission): (r: string)
    ensures r == TextBody(s)
    ensures TextTitle <= r
    ensures var tail := ReplyLine(s.name); |tail| <= |r| && r[|r| - |tail|..] == tail
  {
    TextBodyShape(s);
    TemplateTrimsToBody(s);
    Trim(TextTemplate(s))
  }

  lemma TemplateTrimsToBody(s: Submission)
    ensures Trim(TextTemplate(s)) == TextBody(s)
  {
    assert AllWhitespace("\n");
    assert AllWhitespace(TextIndent);
    TextBodyShape(s);
    TrimSurrounded("\n", TextBody(s), TextIndent);
  }

  lemma TextBodyShape(s: Submission)
    ensures var body := TextBody(s);
            && body != [] && body[0] == 'N' && body[|body| - 1] == '.'
            && TextTitle <= body
            && var tail := ReplyLine(s.name); |tail| <= |body| && body[|body| - |tail|..] == tail
  {
    var tail := ReplyLine(s.name);
    var rest := TextFields(s) + tail;
    assert rest[|rest| - 1] == tail[|tail| - 1] == '.';
    assert rest[|rest| - |tail|..] == tail;
    HeaderShape();
  }

  lemma HeaderShape()
    ensures |TextHeader| > 0 && TextHeader[0] == 'N'
    ensures TextTitle <= TextHeader
  {
    assert TextTitle[0] == 'N';
  }

  function SendArgsFor(cfg: MailConfig, s: Submission): (a: SendArgs)
    ensures a.from == Sender(cfg) && a.to == Inbox(cfg) && a.replyTo == s.email
    ensures a.subject == Subject(s.name)
    ensures TextTitle <= a.text
  {
    SendArgs(Sender(cfg), Inbox(cfg), s.email, Subject(s.name), EmailText(s))
  }

  function Fail(status: nat, m: Message): Reply {
    Reply(status, Some(false), m, None)
  }

  /** The route handler. A missing body makes the destructuring throw. */
  function Handle(verb: string, body: Option<ContactBody>, cfg: MailConfig, provider: ProviderResult): (r: Outcome)
    // the reply is uniform: success exactly on 200, four status codes
    ensures r.reply.success == Some(r.reply.status == 200)
    ensures r.reply.status in {200, 400, 405, 500}
    // the only provider data in a reply is the id of a successful send
    ensures r.reply.id.Some? ==> provider.Success? && r.reply.id == provider.id
    // fail fast, in order
    ensures verb != "POST" ==> r == Outcome(Fail(405, MethodNotAllowed), None)
    ensures verb == "POST" && body.None? ==> r == Outcome(Fail(500, UnexpectedError), None)
    ensures verb == "POST" && body.Some? && !AllPresent(body.value) ==>
              r == Outcome(Fail(400, FillRequiredFields), None)
    ensures verb == "POST" && body.Some? && AllPresent(body.value) && !IsValidEmail(body.value.email.value) ==>
              r == Outcome(Fail(400, EnterValidEmail), None)
    // a send happens exactly for a valid POST, and its outcome decides the status
    ensures r.sent.Some? <==> verb == "POST" && body.Some? && AllPresent(body.value)
                              && IsValidEmail(body.value.email.value)
    ensures r.sent.Some? ==> (r.reply.status == 200 <==> provider.Success?)
    ensures r.sent.Some? && provider.Success? ==> r.reply == Reply(200, Some(true), MessageSent, provider.id)
    ensures r.sent.Some? && provider.Error? ==> r.reply == Fail(500, SendFailed)
    ensures r.sent.Some? && provider.Throws? ==> r.reply == Fail(500, UnexpectedError)
  {
    if verb != "POST" then Outcome(Fail(405, MethodNotAllowed), None)
    else if body.None? then Outcome(Fail(500, UnexpectedError), None)
    else
      var b := body.value;
      if !Truthy(b.name) || !Truthy(b.email) || !Truthy(b.message) then
        Outcome(Fail(400, FillRequiredFields), None)
      else if !IsValidEmail(b.email.value) then
        Outcome(Fail(400, EnterValidEmail), None)
      else
        Deliver(SendArgsFor(cfg, Sanitize(b.name.value, b.email.value, b.message.value)), provider)
  }

  /** The send call with the given arguments and the reply its result leads to. */
  function Deliver(args: SendArgs, provider: ProviderResult): (r: Outcome)
    ensures r.sent == Some(args)
    ensures r.reply.success == Some(r.reply.status == 200)
    ensures r.reply.status == 200 <==> provider.Success?
    ensures r.reply.id.Some? ==> provider.Success? && r.reply.id == provider.id
  {
    match provider
    case Error(_) => Outcome(Fail(500, SendFailed), Some(args))
    case Throws(_) => Outcome(Fail(500, UnexpectedError), Some(args))
    case Success(id) => Outcome(Reply(200, Some(true), MessageSent, id), Some(args))
  }

  /** The provider's error detail never reaches the caller: two different
      errors, or two different exceptions, give the same outcome. */
  lemma ProviderDetailNotLeaked(verb: string, body: Option<ContactBody>, cfg: MailConfig, d1: string, d2: string)
    ensures Handle(verb, body, cfg, Error(d1)) == Handle(verb, body, cfg, Error(d2))
    ensures Handle(verb, body, cfg, Throws(d1)) == Handle(verb, body, cfg, Throws(d2))
  {
  }

  /** What a send call carries: the configured addresses, the sanitised and
      lower-cased address of the submitter as reply-to, and the sanitised
      name in the subject. */
  lemma SendArgsCarrySanitised(verb: string, b: ContactBody, cfg: MailConfig, provider: ProviderResult)
    requires Handle(verb, Some(b), cfg, provider).sent.Some?
    ensures var args := Handle(verb, Some(b), cfg, provider).sent.value;
            && args.from == Sender(cfg) && args.to == Inbox(cfg)
            && args.replyTo == SanitizeEmail(b.email.value)
            && IsLowerCase(args.replyTo) && args.replyTo <= ToLowerCase(b.email.value)
            && args.subject == "\U{1F680} New Contact from " + SanitizeName(b.name.value) + " - UPSERA"
            && args.text == EmailText(Sanitize(b.name.value, b.email.value, b.message.value))
  {
  }

  /** An address that passed the shape check and fits the cap reaches the
      provider lower-cased and still well-formed. */
  lemma ShortAddressStaysValid(email: string)
    requires IsValidEmail(email) && |email| <= EmailCap
    ensures SanitizeEmail(email) == ToLowerCase(email)
    ensures IsValidEmail(SanitizeEmail(email))
  {
    var r := SanitizeEmail(email);
    assert r == ToLowerCase(email);
    LowerCaseKeepsShape(email);
  }

  /** Lower-casing maps '@', '.' and whitespace to themselves and nothing
      else to them, so it keeps an address well-formed. */
  lemma LowerCaseKeepsShape(email: string)
    requires IsValidEmail(email)
    ensures IsValidEmail(ToLowerCase(email))
  {
    var r := ToLowerCase(email);
    var p := IndexOf(email, '@');
    assert NoWhitespace(r) by {
      forall k | 0 <= k < |r| ensures !IsWhitespace(r[k]) {
        assert r[k] == LowerChar(email[k]);
      }
    }
    assert forall k :: 0 <= k < |r| ==> (r[k] == '@' <==> email[k] == '@');
    assert IndexOf(r, '@') == p;
    var d := email[p + 1..];
    var k :| 0 < k < |d| - 1 && d[k] == '.';
    assert r[p + 1..][k] == '.';
  }

  /** A longer address is cut at 254 characters, which can drop its domain:
      the reply-to address the provider receives is then not well-formed. */
  lemma LongAddressLosesDomain()
    ensures var e := seq(254, _ => 'a') + "@b.co";
            && IsValidEmail(e) && !IsValidEmail(SanitizeEmail(e))
  {
    var e := seq(254, _ => 'a') + "@b.co";
    assert e[254] == '@';
    assert IndexOf(e, '@') == 254 by {
      assert forall k :: 0 <= k < 254 ==> e[k] == 'a';
    }
    assert e[255..][1] == '.';
    assert IsValidEmail(e);
    var r := SanitizeEmail(e);
    assert r == seq(254, _ => 'a');
    assert IndexOf(r, '@') == 254 by {
      assert forall k :: 0 <= k < 254 ==> r[k] == 'a';
    }
  }

  /** Re-sanitising a sanitised e-mail address changes nothing. */
  lemma ResanitiseEmailStable(email: string)
    requires NoWhitespace(email)
    ensures SanitizeEmail(SanitizeEmail(email)) == SanitizeEmail(email)
  {
    var r := SanitizeEmail(email);
    assert NoWhitespace(r) by {
      forall k | 0 <= k < |r| ensures !IsWhitespace(r[k]) {
        assert r[k] == LowerChar(email[k]);
      }
    }
    assert ToLowerCase(r) == r;
  }

  /** Re-sanitising a name whose trimmed form fits the cap changes nothing. */
  lemma ResanitiseNameStable(name: string)
    requires |Trim(name)| <= NameCap
    ensures SanitizeName(SanitizeName(name)) == SanitizeName(name)
  {
    TrimIdempotent(name);
  }

  /** A cut that ends on whitespace leaves that whitespace in the sanitised
      name, so sanitising again shortens it: 99 visible characters, a space
      and one more word. */
  lemma ResanitiseNameNotStable(a: string, w: string)
    requires |a| == NameCap - 1 && NoWhitespace(a) && w != [] && NoWhitespace(w)
    ensures SanitizeName(SanitizeName(a + " " + w)) != SanitizeName(a + " " + w)
  {
    var n := a + " " + w;
    assert n[0] == a[0] && n[|n| - 1] == w[|w| - 1];
    TrimSurrounded([], n, []);
    assert [] + n + [] == n;
    assert n[..NameCap] == a + " ";
    assert SanitizeName(n) == a + " ";
    TrimSurrounded([], a, " ");
    assert [] + a + " " == a + " ";
  }

  /** Re-sanitising a message whose trimmed form fits the cap changes nothing. */
  lemma ResanitiseMessageStable(message: string)
    requires |Trim(message)| <= MessageCap
    ensures SanitizeMessage(SanitizeMessage(message)) == SanitizeMessage(message)
  {
    TrimIdempotent(message);
  }

  /** The message cut fails the same way as the name's: 4,999 visible
      characters, a space and one more word lose the space on a second pass. */
  lemma ResanitiseMessageNotStable(a: string, w: string)
    requires |a| == MessageCap - 1 && NoWhitespace(a) && w != [] && NoWhitespace(w)
    ensures SanitizeMessage(SanitizeMessage(a + " " + w)) != SanitizeMessage(a + " " + w)
  {
    var n := a + " " + w;
    assert n[0] == a[0] && n[|n| - 1] == w[|w| - 1];
    TrimSurrounded([], n, []);
    assert [] + n + [] == n;
    assert n[..MessageCap] == a + " ";
    assert SanitizeMessage(n) == a + " ";
    TrimSurrounded([], a, " ");
    assert [] + a + " " == a + " ";
  }

  /** Whitespace-only fields pass the presence check (they are truthy) and
      are sent empty. */
  lemma BlankFieldsAreSent(name: string, email: string, message: string, cfg: MailConfig, provider: ProviderResult)
    requires name != [] && AllWhitespace(name) && message != [] && AllWhitespace(message)
    requires IsValidEmail(email)
    ensures var r := Handle("POST", Some(ContactBody(Some(name), Some(email), Some(message))), cfg, provider);
            && r.sent.Some? && r.sent.value.subject == Subject("")
            && SanitizeName(name) == "" && SanitizeMessage(message) == ""
  {
    TrimAllWhitespace(name);
    TrimAllWhitespace(message);
  }

  /** A 10,000-character message reaches the provider cut to exactly 5,000. */
  lemma LongMessageCut(m: string)
    requires |m| == 10000 && !IsWhitespace(m[0]) && !IsWhitespace(m[|m| - 1])
    ensures SanitizeMessage(m) == m[..5000]
  {
    TrimSurrounded([], m, []);
    assert [] + m + [] == m;
  }

}
