/**
 * The contact relay: three checks in a fixed order (required fields, the
 * address pattern, the email service key), then one message to the site
 * owner built from the form, then a reply that depends on the email
 * provider's answer.
 *
 * The provider's answer is an input (`SendResult`), and so is `received`,
 * the locale-formatted time of receipt that ends the text body.
 */
module ContactEmail {
  import opened Wrappers
  import JsValues

  /** `{name, email, subject?, message}`; a field the visitor left out is None. */
  datatype ContactForm = ContactForm(name: Option<string>, email: Option<string>, subject: Option<string>, message: Option<string>)

  /** What `await req.json()` yields: the form, or the message of the error it threw. */
  datatype ParsedForm = Parsed(form: ContactForm) | Unparsable(message: string)

  datatype Request = Preflight | Post(body: ParsedForm)

  /**
   * The request sent to the email provider. The HTML body is represented by
   * the values interpolated into it, in order: name, email (link target and
   * link text), subject field and message.
   */
  datatype Email = Email(from: string, to: seq<string>, replyTo: string, subject: string,
                         htmlValues: seq<string>, text: string)

  /** The provider's answer: accepted with a message id, a non-OK response, or a failed call. */
  datatype SendResult = Accepted(id: string) | Refused(responseText: string) | Unreachable(message: string)

  /** No body, `{success: true, message, id}`, or `{error, details?}`. */
  datatype Body = Empty | Sent(id: string) | Error(error: string, details: Option<string>)

  datatype Reply = Reply(status: int, body: Body)

  /** The reply, and the message handed to the provider (None when nothing was sent). */
  datatype Outcome = Outcome(reply: Reply, sent: Option<Email>)

  const ToEmail := "miklhagstroem@gmail.com"
  const FromAddress := "BusyBiz Kontaktformular <onboarding@resend.dev>"
  const MissingFields := Reply(400, Error("Missing required fields", None))
  const InvalidEmail := Reply(400, Error("Invalid email format", None))
  const NotConfigured := Reply(500, Error("Email service not configured", None))
  const SendFailed := "Failed to send email"
  const ProviderRefused := "Failed to send email via Resend"

  // ---------------------------------------------------------------------
  // The address pattern /^[^\s@]+@[^\s@]+\.[^\s@]+$/
  // ---------------------------------------------------------------------

  /** A character of the class `[^\s@]`. */
  predicate Plain(c: char) {
    !JsValues.IsWhitespace(c) && c != '@'
  }

  predicate AllPlain(s: string) {
    forall k :: 0 <= k < |s| ==> Plain(s[k])
  }

  /** The pattern as written: three non-empty runs of `[^\s@]`, split by an `@` and then a `.`. */
  ghost predicate MatchesEmailPattern(s: string) {
    exists i, j :: 0 < i && i + 1 < j && j + 1 < |s| && s[i] == '@' && s[j] == '.'
                   && AllPlain(s[..i]) && AllPlain(s[i + 1..j]) && AllPlain(s[j + 1..])
  }

  /** Position of the first `@`, or -1. */
  function FirstAt(s: string): (r: int)
    ensures -1 <= r < |s|
    ensures r >= 0 ==> s[r] == '@'
    ensures forall k :: 0 <= k < |s| && (r < 0 || k < r) ==> s[k] != '@'
  {
    if s == [] then -1
    else if s[0] == '@' then 0
    else
      var rest := FirstAt(s[1..]);
      if rest < 0 then -1 else rest + 1
  }

  /** A `.` that is neither the first nor the last character. */
  predicate HasInnerDot(domain: string) {
    exists k :: 0 < k < |domain| - 1 && domain[k] == '.'
  }

  /**
   * The address check the handler performs: no white space, exactly one `@`,
   * a non-empty part before it, and a part after it with an inner `.`.
   */
  predicate IsValidEmail(s: string) {
    var at := FirstAt(s);
    && at > 0
    && (forall k :: 0 <= k < |s| ==> !JsValues.IsWhitespace(s[k]))
    && (forall k :: at < k < |s| ==> s[k] != '@')
    && HasInnerDot(s[at + 1..])
  }

  /** A slice of characters that are each in `[^\s@]` is a run of the class. */
  lemma PlainSlice(s: string, lo: int, hi: int)
    requires 0 <= lo <= hi <= |s|
    requires forall k :: lo <= k < hi ==> Plain(s[k])
    ensures AllPlain(s[lo..hi])
  {
    assert forall k :: 0 <= k < hi - lo ==> s[lo..hi][k] == s[lo + k];
  }

  /** Every character of a run of the class is in the class. */
  lemma SlicePlain(s: string, lo: int, hi: int)
    requires 0 <= lo <= hi <= |s|
    requires AllPlain(s[lo..hi])
    ensures forall k :: lo <= k < hi ==> Plain(s[k])
  {
    forall k | lo <= k < hi ensures Plain(s[k]) {
      assert s[k] == s[lo..hi][k - lo];
    }
  }

  /** What the check accepts, the pattern matches. */
  lemma ValidEmailMatches(s: string)
    requires IsValidEmail(s)
    ensures MatchesEmailPattern(s)
  {
    var at := FirstAt(s);
    var domain := s[at + 1..];
    var k :| 0 < k < |domain| - 1 && domain[k] == '.';
    var j := at + 1 + k;
    assert s[j] == domain[k];
    PlainSlice(s, 0, at);
    PlainSlice(s, at + 1, j);
    PlainSlice(s, j + 1, |s|);
  }

  /** What the pattern matches, the check accepts. */
  lemma MatchIsValidEmail(s: string, i: int, j: int)
    requires 0 < i && i + 1 < j && j + 1 < |s| && s[i] == '@' && s[j] == '.'
    requires AllPlain(s[..i]) && AllPlain(s[i + 1..j]) && AllPlain(s[j + 1..])
    ensures IsValidEmail(s)
  {
    SlicePlain(s, 0, i);
    SlicePlain(s, i + 1, j);
    SlicePlain(s, j + 1, |s|);
    assert forall k :: 0 <= k < |s| && k != i ==> s[k] != '@';
    assert FirstAt(s) == i;
    assert forall k :: 0 <= k < |s| ==> !JsValues.IsWhitespace(s[k]);
    var domain := s[i + 1..];
    assert domain[j - i - 1] == s[j];
  }

  /** The check accepts exactly the strings the regular expression matches. */
  lemma EmailCheckMatchesPattern(s: string)
    ensures IsValidEmail(s) <==> MatchesEmailPattern(s)
  {
    if IsValidEmail(s) {
      ValidEmailMatches(s);
    }
    if MatchesEmailPattern(s) {
      var i, j :| 0 < i && i + 1 < j && j + 1 < |s| && s[i] == '@' && s[j] == '.'
                  && AllPlain(s[..i]) && AllPlain(s[i + 1..j]) && AllPlain(s[j + 1..]);
      MatchIsValidEmail(s, i, j);
    }
  }

  // ---------------------------------------------------------------------
  // Checks and composition
  // ---------------------------------------------------------------------

  /**
   * The three checks in source order; None when the form may be sent, else
   * the reply of the first check that fails.
   */
  function Check(form: ContactForm, apiKey: Option<string>): (r: Option<Reply>)
    ensures !JsValues.Truthy(form.name) || !JsValues.Truthy(form.email) || !JsValues.Truthy(form.message) ==>
      r == Some(MissingFields)
    ensures JsValues.Truthy(form.name) && JsValues.Truthy(form.email) && JsValues.Truthy(form.message) ==>
      && (!MatchesEmailPattern(form.email.value) ==> r == Some(InvalidEmail))
      && (MatchesEmailPattern(form.email.value) && !JsValues.Truthy(apiKey) ==> r == Some(NotConfigured))
      && (MatchesEmailPattern(form.email.value) && JsValues.Truthy(apiKey) ==> r.None?)
  {
    if !JsValues.Truthy(form.name) || !JsValues.Truthy(form.email) || !JsValues.Truthy(form.message) then
      Some(MissingFields)
    else
      EmailCheckMatchesPattern(form.email.value);
      if !IsValidEmail(form.email.value) then Some(InvalidEmail)
      else if !JsValues.Truthy(apiKey) then Some(NotConfigured)
      else None
  }

  /** The subject as shown in the bodies: `subject || 'Ingen emne'`. */
  function SubjectField(subject: Option<string>): string {
    JsValues.OrElse(subject, "Ingen emne")
  }

  /** The subject line: `Ny besked fra ${name} - ${subject || 'Kontaktformular'}`. */
  function SubjectLine(name: string, subject: Option<string>): (line: string)
    ensures JsValues.Truthy(subject) ==> line == "Ny besked fra " + name + " - " + subject.value
    ensures !JsValues.Truthy(subject) ==> line == "Ny besked fra " + name + " - Kontaktformular"
  {
    "Ny besked fra " + name + " - " + JsValues.OrElse(subject, "Kontaktformular")
  }

  /** The text body's lines from the name to the label of the receipt time. */
  function TextFields(name: string, email: string, subject: Option<string>, message: string): string {
    "Navn: " + name + "\nEmail: " + email + "\nEmne: " + SubjectField(subject) + "\n\nBesked:\n" + message
    + "\n\n---\nModtaget: "
  }

  /** The text body's lines between the template's opening and closing line breaks. */
  function TextCore(name: string, email: string, subject: Option<string>, message: string, received: string): string {
    ("Ny Kontaktformular Besked fra BusyBiz\n\n" + TextFields(name, email, subject, message)) + received
  }

  /** The text body: the template literal, with its leading line break and trailing indentation, trimmed. */
  function TextBody(name: string, email: string, subject: Option<string>, message: string, received: string): string {
    JsValues.Trim("\n" + TextCore(name, email, subject, message, received) + "\n    ")
  }

  /** Trimming removes only the template's own framing when the receipt time ends in a visible character. */
  lemma {:induction false} TextBodyIsCore(name: string, email: string, subject: Option<string>, message: string, received: string)
    requires received != [] && !JsValues.IsWhitespace(received[|received| - 1])
    ensures TextBody(name, email, subject, message, received) == TextCore(name, email, subject, message, received)
  {
    var core := TextCore(name, email, subject, message, received);
    var raw := "\n" + core + "\n    ";
    var title := "Ny Kontaktformular Besked fra BusyBiz\n\n";
    var head := title + TextFields(name, email, subject, message);
    assert title[0] == 'N';
    assert core == head + received;
    assert core[0] == head[0] == title[0];
    assert raw[0] == '\n' && raw[1..] == core + "\n    ";
    assert raw[1..][0] == core[0];
    assert JsValues.TrimStart(raw) == raw[1..];
    assert core[|core| - 1] == received[|received| - 1];
    JsValues.TrimEndDropsTrailingSpace(core, "\n    ");
  }

  /** The message for a form that passed the checks. */
  function Compose(name: string, email: string, subject: Option<string>, message: string, received: string): (m: Email)
    ensures m.from == FromAddress && m.to == [ToEmail] && m.replyTo == email
    ensures m.subject == SubjectLine(name, subject)
    ensures m.htmlValues == [name, email, email, SubjectField(subject), message]
    ensures m.text == TextBody(name, email, subject, message, received)
  {
    Email(FromAddress, [ToEmail], email, SubjectLine(name, subject),
          [name, email, email, SubjectField(subject), message],
          TextBody(name, email, subject, message, received))
  }

  /** The reply after the provider has answered. */
  function Respond(result: SendResult): (r: Reply)
    ensures r.status == 200 <==> result.Accepted?
    ensures result.Accepted? ==> r.body == Sent(result.id)
    ensures !result.Accepted? ==> r.status == 500 && r.body.Error? && r.body.error == SendFailed
  {
    match result
    case Accepted(id) => Reply(200, Sent(id))
    case Refused(_) => Reply(500, Error(SendFailed, Some(ProviderRefused)))
    case Unreachable(message) => Reply(500, Error(SendFailed, Some(message)))
  }

  /** One request to the endpoint; `apiKey` is `RESEND_API_KEY`. */
  function Serve(req: Request, apiKey: Option<string>, received: string, result: SendResult): (o: Outcome)
    ensures req.Preflight? ==> o == Outcome(Reply(200, Empty), None)
    ensures req.Post? && req.body.Unparsable? ==>
      o == Outcome(Reply(500, Error(SendFailed, Some(req.body.message))), None)
    ensures req.Post? && req.body.Parsed? ==>
      && (o.sent.Some? <==> Check(req.body.form, apiKey).None?)
      && (o.sent.None? ==> o.reply == Check(req.body.form, apiKey).value)
    ensures o.sent.Some? ==>
      && o.reply == Respond(result)
      && o.sent.value == Compose(req.body.form.name.value, req.body.form.email.value, req.body.form.subject,
                                 req.body.form.message.value, received)
  {
    match req
    case Preflight => Outcome(Reply(200, Empty), None)
    case Post(Unparsable(message)) => Outcome(Reply(500, Error(SendFailed, Some(message))), None)
    case Post(Parsed(form)) =>
      match Check(form, apiKey)
      case Some(rejection) => Outcome(rejection, None)
      case None =>
        var email := Compose(form.name.value, form.email.value, form.subject, form.message.value, received);
        Outcome(Respond(result), Some(email))
  }

  /**
   * A form with name, a matching address and message is sent when the key is
   * set, whatever the subject, and the reply carries the provider's id.
   */
  lemma ValidFormIsSent(form: ContactForm, key: string, received: string, id: string)
    requires JsValues.Truthy(form.name) && JsValues.Truthy(form.email) && JsValues.Truthy(form.message)
    requires MatchesEmailPattern(form.email.value) && key != ""
    ensures Serve(Post(Parsed(form)), Some(key), received, Accepted(id))
            == Outcome(Reply(200, Sent(id)),
                       Some(Compose(form.name.value, form.email.value, form.subject, form.message.value, received)))
  {
  }

  /**
   * The subject is optional, and its two defaults differ: the subject line
   * ends in `Kontaktformular`, the HTML and text bodies show `Ingen emne`
   * (the text body's `Emne:` line is built from `SubjectField`).
   */
  lemma MissingSubjectDefaults(form: ContactForm, key: string, received: string, id: string)
    requires JsValues.Truthy(form.name) && JsValues.Truthy(form.email) && JsValues.Truthy(form.message)
    requires MatchesEmailPattern(form.email.value) && key != ""
    requires form.subject.None?
    ensures var o := Serve(Post(Parsed(form)), Some(key), received, Accepted(id));
            && o.reply == Reply(200, Sent(id))
            && o.sent.Some?
            && o.sent.value.subject == "Ny besked fra " + form.name.value + " - Kontaktformular"
            && o.sent.value.htmlValues[3] == "Ingen emne"
            && o.sent.value.text == TextBody(form.name.value, form.email.value, None, form.message.value, received)
            && SubjectField(None) == "Ingen emne"
  {
    ValidFormIsSent(form, key, received, id);
  }

  /** The sample address `anna@example.dk` matches the pattern. */
  lemma SampleAddressIsValid()
    ensures MatchesEmailPattern("anna@example.dk")
  {
    var s := "anna@example.dk";
    assert s[4] == '@' && s[12] == '.';
    PlainSlice(s, 0, 4);
    PlainSlice(s, 5, 12);
    PlainSlice(s, 13, |s|);
    MatchIsValidEmail(s, 4, 12);
    EmailCheckMatchesPattern(s);
  }

  /**
   * An address with no `@` is refused with 400 `Invalid email format`, and
   * nothing is sent, whatever the key and the provider.
   */
  lemma AddressWithoutAtIsRefused(form: ContactForm, apiKey: Option<string>, received: string, result: SendResult)
    requires JsValues.Truthy(form.name) && JsValues.Truthy(form.email) && JsValues.Truthy(form.message)
    requires '@' !in form.email.value
    ensures Serve(Post(Parsed(form)), apiKey, received, result) == Outcome(InvalidEmail, None)
  {
    assert FirstAt(form.email.value) == -1;
  }
}
