/** The contact-form endpoint (`POST /api/contact`): it checks that the five
    form fields are present, renders them into a fixed HTML email, hands the
    email to the mail transport once, and maps the outcome to an HTTP status.
    The mail library, the request object and the process environment are
    outside the model: their outcomes are inputs of `Handle`. */
module ContactRoute {

  import opened Options

  /** The five fields the handler destructures from the request body. */
  datatype ContactFormData = ContactFormData(
    name: string, email: string, phone: string, service: string, description: string)

  /** The properties of the parsed JSON body; `None` is a property that is
      missing, `null` or otherwise undefined. A body that is a JSON string,
      number, boolean or array destructures to all-`None` fields. */
  datatype RequestFields = RequestFields(
    name: Option<string>, email: Option<string>, phone: Option<string>,
    service: Option<string>, description: Option<string>)

  /** What `await request.json()` produced. */
  datatype RequestBody =
    | Unparseable                   // request.json() throws
    | JsonNull                      // the body is `null`: destructuring throws
    | Parsed(fields: RequestFields)

  /** Whether the single `sendMail` call resolved or rejected. */
  datatype SendOutcome = Delivered | Rejected

  /** The mail options handed to the transport. `from` is EMAIL_USER from the
      process environment, which may be unset. */
  datatype MailOptions = MailOptions(from: Option<string>, to: string, subject: string, html: string)

  datatype Payload = MessageBody(message: string) | ErrorBody(error: string)
  datatype Response = Response(status: int, payload: Payload)

  const Recipient := "probinz2025@gmail.com"
  const SubjectPrefix := "New Contact Form Submission - "

  const MissingFields := Response(400, ErrorBody("All fields are required"))
  const EmailSent := Response(200, MessageBody("Email sent successfully"))
  const SendFailed := Response(500, ErrorBody("Failed to send email"))

  // ---------------------------------------------------------------------------
  // Validation

  /** A field passes `!field` exactly when it is a non-empty string. */
  predicate Present(f: Option<string>) {
    f.Some? && f.value != ""
  }

  /** The guard of the handler: every one of the five fields is truthy. */
  predicate Validate(f: RequestFields)
    ensures Validate(f) <==> forall k: FieldName :: Present(FieldOf(f, k))
  {
    EveryField(f);
    Present(f.name) && Present(f.email) && Present(f.phone)
    && Present(f.service) && Present(f.description)
  }

  datatype FieldName = Name | Email | Phone | Service | Description

  function FieldOf(f: RequestFields, k: FieldName): Option<string> {
    match k
    case Name => f.name
    case Email => f.email
    case Phone => f.phone
    case Service => f.service
    case Description => f.description
  }

  /** Asking every field by name is asking the five fields. */
  lemma EveryField(f: RequestFields)
    ensures (forall k: FieldName :: Present(FieldOf(f, k))) <==>
      Present(f.name) && Present(f.email) && Present(f.phone) && Present(f.service) && Present(f.description)
  {
    if Present(f.name) && Present(f.email) && Present(f.phone) && Present(f.service) && Present(f.description) {
      forall k: FieldName
        ensures Present(FieldOf(f, k))
      {
        match k
        case Name =>
        case Email =>
        case Phone =>
        case Service =>
        case Description =>
      }
    }
    assert FieldOf(f, Name) == f.name && FieldOf(f, Email) == f.email && FieldOf(f, Phone) == f.phone;
    assert FieldOf(f, Service) == f.service && FieldOf(f, Description) == f.description;
  }

  /** One missing or empty field is enough to reject the body, and a
      rejected body has one. */
  lemma OneMissingFieldRejects(f: RequestFields)
    ensures !Validate(f) <==> exists k: FieldName :: !Present(FieldOf(f, k))
  {
    if !Validate(f) {
      var k :| k in [Name, Email, Phone, Service, Description] && !Present(FieldOf(f, k));
    }
  }

  /** The form data of a body that passed the guard. */
  function FormDataOf(f: RequestFields): (d: ContactFormData)
    requires Validate(f)
    ensures FieldsOf(d) == f
  {
    ContactFormData(f.name.value, f.email.value, f.phone.value, f.service.value, f.description.value)
  }

  /** The body a client produces by serialising complete form data. */
  function FieldsOf(d: ContactFormData): RequestFields {
    RequestFields(Some(d.name), Some(d.email), Some(d.phone), Some(d.service), Some(d.description))
  }

  // ---------------------------------------------------------------------------
  // The email

  const TemplateHead :=
    "\n    <div style=\"font-family: Arial, sans-serif; max-width: 600px; margin: 0 auto;\">\n"
    + "      <h2 style=\"color: #2563eb;\">New Contact Form Submission</h2>\n"
    + "      \n"
    + "      <div style=\"background-color: #f8fafc; padding: 20px; border-radius: 8px; margin: 20px 0;\">\n"
    + "        <h3 style=\"color: #1e40af; margin-top: 0;\">Contact Information</h3>\n"
    + "        <p><strong>Name:</strong> "
  const AfterName := "</p>\n        <p><strong>Email:</strong> "
  const AfterEmail := "</p>\n        <p><strong>Phone:</strong> "
  const AfterPhone := "</p>\n        <p><strong>Service Requested:</strong> "
  const AfterService :=
    "</p>\n      </div>\n      \n"
    + "      <div style=\"background-color: #f0f9ff; padding: 20px; border-radius: 8px; margin: 20px 0;\">\n"
    + "        <h3 style=\"color: #1e40af; margin-top: 0;\">Project Description</h3>\n"
    + "        <p style=\"white-space: pre-wrap;\">"
  const TemplateFooter :=
    "</p>\n      </div>\n      \n"
    + "      <div style=\"margin-top: 30px; padding-top: 20px; border-top: 1px solid #e5e7eb;\">\n"
    + "        <p style=\"color: #6b7280; font-size: 14px;\">\n"
    + "          This message was sent from the Rocky Cleanz website contact form.\n"
    + "        </p>\n      </div>\n    </div>\n  "

  /** The template as its eleven pieces in order: fixed text and the five
      fields alternating, interpolated raw, without any escaping. */
  function TemplateParts(d: ContactFormData): seq<string> {
    [TemplateHead, d.name, AfterName, d.email, AfterEmail, d.phone,
     AfterPhone, d.service, AfterService, d.description, TemplateFooter]
  }

  /** The HTML body of the email: the fixed head, then the fields and the
      fixed text between them, then the fixed footer; nothing else is added. */
  function Template(d: ContactFormData): (r: string)
    ensures |r| == TemplateOverhead() + |d.name| + |d.email| + |d.phone| + |d.service| + |d.description|
    ensures r[..|TemplateHead|] == TemplateHead
    ensures r[|r| - |TemplateFooter|..] == TemplateFooter
  {
    PartsFrame(d);
    Concat(TemplateParts(d))
  }

  /** The joined pieces are as long as the fixed text plus the fields, and
      start with the head and end with the footer. */
  lemma PartsFrame(d: ContactFormData)
    ensures |Concat(TemplateParts(d))| == TemplateOverhead() + |d.name| + |d.email| + |d.phone| + |d.service| + |d.description|
    ensures Concat(TemplateParts(d))[..|TemplateHead|] == TemplateHead
    ensures Concat(TemplateParts(d))[|Concat(TemplateParts(d))| - |TemplateFooter|..] == TemplateFooter
  {
    var parts := TemplateParts(d);
    ConcatLayout(parts);
    assert OccursAt(parts[0], Concat(parts), Offset(parts, 0));
    assert OccursAt(parts[10], Concat(parts), Offset(parts, 10));
    assert Offset(parts, 11) == Offset(parts, 10) + |TemplateFooter|;
  }

  /** The pieces joined left to right. */
  function Concat(parts: seq<string>): string {
    if parts == [] then "" else Concat(parts[..|parts| - 1]) + parts[|parts| - 1]
  }

  /** Where piece `i` starts: the summed length of the pieces before it. */
  function Offset(parts: seq<string>, i: nat): nat
    requires i <= |parts|
  {
    if i == 0 then 0 else Offset(parts, i - 1) + |parts[i - 1]|
  }

  /** `s` occurs in `t` starting at position `k`. */
  predicate OccursAt(s: string, t: string, k: nat) {
    k + |s| <= |t| && t[k..k + |s|] == s
  }

  /** `t` contains `s` somewhere. */
  predicate Contains(t: string, s: string) {
    exists k: nat | k <= |t| :: OccursAt(s, t, k)
  }

  /** The number of characters the template adds around the fields. */
  function TemplateOverhead(): nat {
    |TemplateHead| + |AfterName| + |AfterEmail| + |AfterPhone| + |AfterService| + |TemplateFooter|
  }

  /** Piece `i` of a concatenation stands, unchanged, where the pieces before
      it end. */
  lemma {:induction false} ConcatLayout(parts: seq<string>)
    ensures |Concat(parts)| == Offset(parts, |parts|)
    ensures forall i :: 0 <= i < |parts| ==> OccursAt(parts[i], Concat(parts), Offset(parts, i))
  {
    if parts != [] {
      var n := |parts| - 1;
      var init := parts[..n];
      ConcatLayout(init);
      OffsetPrefix(parts, init, n);
      assert Concat(parts) == Concat(init) + parts[n];
      forall i | 0 <= i < |parts|
        ensures OccursAt(parts[i], Concat(parts), Offset(parts, i))
      {
        if i < n {
          assert parts[i] == init[i];
          AppendKeeps(init[i], Concat(init), parts[n], Offset(init, i));
        } else {
          assert Concat(parts)[Offset(parts, n)..] == parts[n];
        }
      }
    }
  }

  /** Offsets into a prefix of the pieces agree with offsets into the whole. */
  lemma {:induction false} OffsetPrefix(parts: seq<string>, init: seq<string>, i: nat)
    requires init <= parts && i <= |init|
    ensures forall j :: 0 <= j <= i ==> Offset(init, j) == Offset(parts, j)
  {
    if i > 0 { OffsetPrefix(parts, init, i - 1); }
  }

  /** Appending text after an occurrence keeps it in place. */
  lemma AppendKeeps(s: string, t: string, u: string, k: nat)
    requires OccursAt(s, t, k)
    ensures OccursAt(s, t + u, k)
  {
    assert (t + u)[k..k + |s|] == t[k..k + |s|];
  }

  lemma OccursInContains(s: string, t: string, k: nat)
    requires OccursAt(s, t, k)
    ensures Contains(t, s)
  {
  }

  /** Each of the eleven pieces stands, unchanged, where the pieces before it
      end. */
  lemma TemplateLayout(d: ContactFormData)
    ensures forall i :: 0 <= i < 11 ==> OccursAt(TemplateParts(d)[i], Template(d), Offset(TemplateParts(d), i))
  {
    ConcatLayout(TemplateParts(d));
  }

  /** Every field of the submission is in the body, verbatim. */
  lemma TemplateContainsFields(d: ContactFormData)
    ensures Contains(Template(d), d.name) && Contains(Template(d), d.email)
    ensures Contains(Template(d), d.phone) && Contains(Template(d), d.service)
    ensures Contains(Template(d), d.description)
  {
    var parts := TemplateParts(d);
    ConcatLayout(parts);
    OccursInContains(parts[1], Template(d), Offset(parts, 1));
    OccursInContains(parts[3], Template(d), Offset(parts, 3));
    OccursInContains(parts[5], Template(d), Offset(parts, 5));
    OccursInContains(parts[7], Template(d), Offset(parts, 7));
    OccursInContains(parts[9], Template(d), Offset(parts, 9));
  }

  /** Because nothing is escaped, two different submissions can produce the
      same email body: a name that carries the markup between the name and the
      email field reads as a different split of the same text. */
  lemma TemplateIsAmbiguous(a: string, b: string, c: string, p: string, s: string, x: string)
    ensures var d1 := ContactFormData(a + AfterName + b, c, p, s, x);
            var d2 := ContactFormData(a, b + AfterName + c, p, s, x);
            d1 != d2 && Template(d1) == Template(d2)
  {
    var d1 := ContactFormData(a + AfterName + b, c, p, s, x);
    var d2 := ContactFormData(a, b + AfterName + c, p, s, x);
    assert |d1.name| != |d2.name|;
    PartsAmbiguous(a, b, c, p, s, x);
  }

  lemma PartsAmbiguous(a: string, b: string, c: string, p: string, s: string, x: string)
    ensures Concat(TemplateParts(ContactFormData(a + AfterName + b, c, p, s, x)))
         == Concat(TemplateParts(ContactFormData(a, b + AfterName + c, p, s, x)))
  {
    var d1 := ContactFormData(a + AfterName + b, c, p, s, x);
    var d2 := ContactFormData(a, b + AfterName + c, p, s, x);
    var p1, p2 := TemplateParts(d1), TemplateParts(d2);
    assert p1[1] + p1[2] + p1[3] == p2[1] + p2[2] + p2[3];
    assert p1[4..] == p2[4..];
    RegroupParts(p1, p2);
  }

  /** Moving text between the second and the fourth piece, across an equal
      third piece, leaves the concatenation unchanged. */
  lemma RegroupParts(p1: seq<string>, p2: seq<string>)
    requires 4 <= |p1| == |p2| && p1[0] == p2[0] && p1[4..] == p2[4..]
    requires p1[1] + p1[2] + p1[3] == p2[1] + p2[2] + p2[3]
    ensures Concat(p1) == Concat(p2)
  {
    LeadingFour(p1);
    LeadingFour(p2);
    SameTail(p1, p2, 4);
  }

  lemma LeadingFour(p: seq<string>)
    requires 4 <= |p|
    ensures Concat(p[..4]) == p[0] + (p[1] + p[2] + p[3])
  {
    Snoc(p, 0); Snoc(p, 1); Snoc(p, 2); Snoc(p, 3);
    assert Concat(p[..0]) == "";
    assert Concat(p[..1]) == p[0];
    assert Concat(p[..2]) == p[0] + p[1];
    assert Concat(p[..3]) == p[0] + p[1] + p[2];
  }

  lemma Snoc(parts: seq<string>, n: nat)
    requires n < |parts|
    ensures Concat(parts[..n + 1]) == Concat(parts[..n]) + parts[n]
  {
    assert parts[..n + 1][..n] == parts[..n];
  }

  /** Equal leading concatenations followed by equal pieces give equal
      concatenations. */
  lemma {:induction false} SameTail(p1: seq<string>, p2: seq<string>, n: nat)
    requires n <= |p1| == |p2| && p1[n..] == p2[n..]
    requires Concat(p1[..n]) == Concat(p2[..n])
    ensures Concat(p1) == Concat(p2)
    decreases |p1| - n
  {
    if n < |p1| {
      Snoc(p1, n);
      Snoc(p2, n);
      assert p1[n] == p1[n..][0] == p2[n];
      SameTail(p1, p2, n + 1);
    } else {
      assert p1[..n] == p1 && p2[..n] == p2;
    }
  }

  /** Given the lengths of the fields, the body determines the fields: the
      template loses nothing. */
  lemma TemplateInjectiveForLengths(d1: ContactFormData, d2: ContactFormData)
    requires |d1.name| == |d2.name| && |d1.email| == |d2.email| && |d1.phone| == |d2.phone|
    requires |d1.service| == |d2.service| && |d1.description| == |d2.description|
    requires Template(d1) == Template(d2)
    ensures d1 == d2
  {
    var p1, p2 := TemplateParts(d1), TemplateParts(d2);
    ConcatInjective(p1, p2);
    assert p1[1] == p2[1] && p1[3] == p2[3] && p1[5] == p2[5] && p1[7] == p2[7] && p1[9] == p2[9];
  }

  /** Two concatenations of pieces of the same lengths are equal only if the
      pieces are. */
  lemma ConcatInjective(p1: seq<string>, p2: seq<string>)
    requires |p1| == |p2| && forall i :: 0 <= i < |p1| ==> |p1[i]| == |p2[i]|
    requires Concat(p1) == Concat(p2)
    ensures p1 == p2
  {
    ConcatLayout(p1);
    ConcatLayout(p2);
    OffsetsAgree(p1, p2, |p1|);
    forall i | 0 <= i < |p1| ensures p1[i] == p2[i] {
      assert OccursAt(p1[i], Concat(p1), Offset(p1, i));
      assert OccursAt(p2[i], Concat(p2), Offset(p2, i));
    }
  }

  lemma {:induction false} OffsetsAgree(p1: seq<string>, p2: seq<string>, n: nat)
    requires n <= |p1| == |p2| && forall i :: 0 <= i < |p1| ==> |p1[i]| == |p2[i]|
    ensures forall j :: 0 <= j <= n ==> Offset(p1, j) == Offset(p2, j)
  {
    if n > 0 { OffsetsAgree(p1, p2, n - 1); }
  }

  /** The subject line names the requested service. */
  function Subject(service: string): (r: string)
    ensures |r| == |SubjectPrefix| + |service|
    ensures r[..|SubjectPrefix|] == SubjectPrefix && r[|SubjectPrefix|..] == service
  {
    SubjectPrefix + service
  }

  /** The service can be read back from the subject line. */
  lemma SubjectDeterminesService(s1: string, s2: string)
    ensures Subject(s1) == Subject(s2) <==> s1 == s2
  {
    if Subject(s1) == Subject(s2) {
      assert s1 == Subject(s1)[|SubjectPrefix|..];
    }
  }

  /** The mail the handler sends for a valid submission. */
  function MailFor(d: ContactFormData, emailUser: Option<string>): (m: MailOptions)
    ensures m.to == Recipient && m.from == emailUser
    ensures m.subject == Subject(d.service) && m.html == Template(d)
    ensures m.subject[..|SubjectPrefix|] == SubjectPrefix && m.subject[|SubjectPrefix|..] == d.service
    ensures Contains(m.html, d.name) && Contains(m.html, d.email) && Contains(m.html, d.phone)
    ensures Contains(m.html, d.service) && Contains(m.html, d.description)
  {
    TemplateContainsFields(d);
    MailOptions(emailUser, Recipient, Subject(d.service), Template(d))
  }

  // ---------------------------------------------------------------------------
  // The handler

  /** `POST /api/contact`. `emailUser` is EMAIL_USER from the environment and
      `transport` the outcome of the one `sendMail` call, if it is made. `sent`
      is the mail handed to the transport, `None` when no send was attempted. */
  method Handle(body: RequestBody, emailUser: Option<string>, transport: SendOutcome)
    returns (resp: Response, sent: Option<MailOptions>)
    ensures !body.Parsed? ==> resp == SendFailed && sent == None
    ensures body.Parsed? && !Validate(body.fields) ==> resp == MissingFields && sent == None
    ensures body.Parsed? && Validate(body.fields) ==>
              sent == Some(MailFor(FormDataOf(body.fields), emailUser))
              && resp == (if transport == Delivered then EmailSent else SendFailed)
    ensures resp.status == 400 <==> body.Parsed? && !Validate(body.fields)
    ensures resp.status == 200 <==> sent.Some? && transport == Delivered
    ensures resp.status in {200, 400, 500}
    ensures sent.Some? ==> sent.value.to == Recipient && sent.value.from == emailUser
  {
    if !body.Parsed? {
      return SendFailed, None;
    }
    var fields := body.fields;
    if !Validate(fields) {
      return MissingFields, None;
    }
    var data := FormDataOf(fields);
    var mail := MailOptions(emailUser, Recipient, Subject(data.service), Template(data));
    sent := Some(mail);
    if transport == Delivered {
      resp := EmailSent;
    } else {
      resp := SendFailed;
    }
  }
}
