/**
 * The JSON request body for SendGrid (`buildSendGridRequestBody`): one
 * personalization holding the subject and the non-empty recipient lists, the
 * sender, and a single plain-text content entry.
 */
module SendGrid {
  import opened Wrappers
  import opened Message

  const PlainText := "text/plain"

  /** An `{email}` object. */
  datatype EmailObject = EmailObject(email: Address)

  /** An entry of `content`: `{type, value}`. */
  datatype ContentItem = ContentItem(mimeType: string, value: string)

  /** A personalization; `to`, `cc` and `bcc` are keys that may be absent. */
  datatype Personalization = Personalization(
    subject: string,
    to: Option<seq<EmailObject>>,
    cc: Option<seq<EmailObject>>,
    bcc: Option<seq<EmailObject>>)

  datatype RequestBody = RequestBody(
    personalizations: seq<Personalization>,
    from: EmailObject,
    content: seq<ContentItem>)

  /** The `{email}` objects for a list of addresses, pushed one per address in order. */
  function EmailObjects(addrs: seq<Address>): (objs: seq<EmailObject>)
    ensures |objs| == |addrs|
    ensures forall i :: 0 <= i < |addrs| ==> objs[i] == EmailObject(addrs[i])
  {
    if addrs == [] then []
    else EmailObjects(addrs[..|addrs| - 1]) + [EmailObject(addrs[|addrs| - 1])]
  }

  /** The addresses held by a list of `{email}` objects. */
  function Emails(objs: seq<EmailObject>): seq<Address> {
    seq(|objs|, i requires 0 <= i < |objs| => objs[i].email)
  }

  /** A recipient key is set only when its list of objects is non-empty. */
  function KeyIfNonEmpty(objs: seq<EmailObject>): Option<seq<EmailObject>> {
    if |objs| > 0 then Some(objs) else None
  }

  /** The addresses a recipient key carries; an absent key carries none. */
  function Recipients(key: Option<seq<EmailObject>>): seq<Address> {
    match key
    case None => []
    case Some(objs) => Emails(objs)
  }

  /** The body `buildSendGridRequestBody` returns for a message. */
  function Body(m: EmailMessage): (b: RequestBody)
    ensures |b.personalizations| == 1 && |b.content| == 1
  {
    RequestBody(
      [Personalization(m.subject,
        KeyIfNonEmpty(EmailObjects(m.to)),
        KeyIfNonEmpty(EmailObjects(m.cc)),
        KeyIfNonEmpty(EmailObjects(m.bcc)))],
      EmailObject(m.from),
      [ContentItem(PlainText, m.text)])
  }

  /** Reads a message back out of a body of the shape SendGrid accepts. */
  function Decode(b: RequestBody): Option<EmailMessage> {
    if |b.personalizations| == 1 && |b.content| == 1 && b.content[0].mimeType == PlainText then
      var p := b.personalizations[0];
      Some(EmailMessage(b.from.email, Recipients(p.to), Recipients(p.cc), Recipients(p.bcc),
        p.subject, b.content[0].value))
    else None
  }

  /** The key is present iff the list is non-empty, and then holds one object per address, in order. */
  ghost predicate ListsAddresses(key: Option<seq<EmailObject>>, addrs: seq<Address>) {
    (key.Some? <==> |addrs| > 0) &&
    (key.Some? ==>
      |key.value| == |addrs| &&
      forall i :: 0 <= i < |addrs| ==> key.value[i] == EmailObject(addrs[i]))
  }

  lemma BodyShape(m: EmailMessage)
    ensures |Body(m).personalizations| == 1
    ensures Body(m).personalizations[0].subject == m.subject
    ensures Body(m).from == EmailObject(m.from)
    ensures Body(m).content == [ContentItem(PlainText, m.text)]
    ensures ListsAddresses(Body(m).personalizations[0].to, m.to)
    ensures ListsAddresses(Body(m).personalizations[0].cc, m.cc)
    ensures ListsAddresses(Body(m).personalizations[0].bcc, m.bcc)
  {
  }

  lemma {:induction false} EmailsOfEmailObjects(addrs: seq<Address>)
    ensures Emails(EmailObjects(addrs)) == addrs
  {
    var objs := EmailObjects(addrs);
    assert forall i :: 0 <= i < |addrs| ==> Emails(objs)[i] == addrs[i];
  }

  lemma {:induction false} RecipientsRoundTrip(addrs: seq<Address>)
    ensures Recipients(KeyIfNonEmpty(EmailObjects(addrs))) == addrs
  {
    EmailsOfEmailObjects(addrs);
  }

  /** Nothing of the message is lost: it can be read back from the body. */
  lemma {:induction false} BodyRoundTrip(m: EmailMessage)
    ensures Decode(Body(m)) == Some(m)
  {
    RecipientsRoundTrip(m.to);
    RecipientsRoundTrip(m.cc);
    RecipientsRoundTrip(m.bcc);
  }

  /** One of the `for (let i in body.X) X.push({email: body.X[i]})` loops. */
  method CollectEmailObjects(addrs: seq<Address>) returns (arr: seq<EmailObject>)
    ensures arr == EmailObjects(addrs)
  {
    arr := [];
    var i := 0;
    while i < |addrs|
      invariant 0 <= i <= |addrs|
      invariant arr == EmailObjects(addrs[..i])
    {
      assert addrs[..i + 1][..i] == addrs[..i];
      arr := arr + [EmailObject(addrs[i])];
      i := i + 1;
    }
    assert addrs[..i] == addrs;
  }

  /**
   * `buildSendGridRequestBody`: the body starts with a personalization holding
   * only the subject; each recipient key is set on it afterwards when its list
   * of objects is non-empty.
   */
  method BuildRequestBody(m: EmailMessage) returns (data: RequestBody)
    ensures data == Body(m)
  {
    var personalization := Personalization(m.subject, None, None, None);
    data := RequestBody([personalization], EmailObject(m.from), [ContentItem(PlainText, m.text)]);
    var toArr := CollectEmailObjects(m.to);
    var ccArr := CollectEmailObjects(m.cc);
    var bccArr := CollectEmailObjects(m.bcc);
    if |toArr| > 0 {
      personalization := personalization.(to := Some(toArr));
    }
    if |ccArr| > 0 {
      personalization := personalization.(cc := Some(ccArr));
    }
    if |bccArr| > 0 {
      personalization := personalization.(bcc := Some(bccArr));
    }
    data := data.(personalizations := [personalization]);
  }
}
