/**
 * The form body for MailGun (`buildMailGunRequestBody`): an ordered list of
 * key/value entries appended to a URLSearchParams.
 */
module MailGun {
  import opened Wrappers
  import opened Message

  /** The keys the builder appends under. */
  datatype Key = From | To | Cc | Bcc | Subject | Text {
    /** The key as it appears on the wire. */
    function Name(): string {
      match this
      case From => "from"
      case To => "to"
      case Cc => "cc"
      case Bcc => "bcc"
      case Subject => "subject"
      case Text => "text"
    }
  }

  /** The six wire names are non-empty and pairwise distinct. */
  lemma KeyNamesDistinct(k1: Key, k2: Key)
    ensures k1.Name() != ""
    ensures k1.Name() == k2.Name() ==> k1 == k2
  {
  }

  /**
   * An appended entry. `Spurious` is the entry made by `data.append(data)`,
   * which passes the params object itself and no value; the key and value the
   * library coerces those arguments to are left abstract, and are none of the
   * keys above.
   */
  datatype FormEntry = Spurious | Field(key: Key, value: string)

  /** One entry `key=v` per value, in order. */
  function Fields(key: Key, values: seq<string>): (entries: seq<FormEntry>)
    ensures |entries| == |values|
    ensures forall i :: 0 <= i < |values| ==> entries[i] == Field(key, values[i])
  {
    if values == [] then []
    else Fields(key, values[..|values| - 1]) + [Field(key, values[|values| - 1])]
  }

  /** The entries `buildMailGunRequestBody` appends for a message, in order. */
  function Form(m: EmailMessage): (form: seq<FormEntry>)
    ensures |form| == 4 + |m.to| + |m.cc| + |m.bcc|
    ensures form[0] == Spurious
  {
    [Spurious, Field(From, m.from)]
      + Fields(To, m.to) + Fields(Cc, m.cc) + Fields(Bcc, m.bcc)
      + [Field(Subject, m.subject), Field(Text, m.text)]
  }

  /** The values of every entry under `key`, in order (URLSearchParams' `getAll`). */
  function GetAll(form: seq<FormEntry>, key: Key): seq<string> {
    if form == [] then []
    else
      var rest := GetAll(form[1..], key);
      match form[0]
      case Spurious => rest
      case Field(k, value) => if k == key then [value] + rest else rest
  }

  /** Reads a message back out of a form that has exactly one from, subject and text. */
  function Decode(form: seq<FormEntry>): Option<EmailMessage> {
    var from, subject, text := GetAll(form, From), GetAll(form, Subject), GetAll(form, Text);
    if |from| == 1 && |subject| == 1 && |text| == 1 then
      Some(EmailMessage(from[0], GetAll(form, To), GetAll(form, Cc), GetAll(form, Bcc),
        subject[0], text[0]))
    else None
  }

  lemma {:induction false} GetAllConcat(a: seq<FormEntry>, b: seq<FormEntry>, key: Key)
    ensures GetAll(a + b, key) == GetAll(a, key) + GetAll(b, key)
  {
    if a != [] {
      assert (a + b)[0] == a[0];
      assert (a + b)[1..] == a[1..] + b;
      GetAllConcat(a[1..], b, key);
    } else {
      assert a + b == b;
    }
  }

  lemma {:induction false} GetAllFields(k: Key, values: seq<string>, key: Key)
    ensures GetAll(Fields(k, values), key) == if k == key then values else []
  {
    if values != [] {
      var init, last := values[..|values| - 1], values[|values| - 1];
      GetAllConcat(Fields(k, init), [Field(k, last)], key);
      GetAllFields(k, init, key);
      assert values == init + [last];
    }
  }

  /**
   * The entries in order: the spurious one, `from`, one `to` entry per `to`
   * address, then the `cc` entries, then the `bcc` entries, then `subject` and
   * `text`.
   */
  lemma FormLayout(m: EmailMessage)
    ensures |Form(m)| == 4 + |m.to| + |m.cc| + |m.bcc|
    ensures Form(m)[0] == Spurious && Form(m)[1] == Field(From, m.from)
    ensures forall i :: 0 <= i < |m.to| ==> Form(m)[2 + i] == Field(To, m.to[i])
    ensures forall i :: 0 <= i < |m.cc| ==> Form(m)[2 + |m.to| + i] == Field(Cc, m.cc[i])
    ensures forall i :: 0 <= i < |m.bcc| ==>
      Form(m)[2 + |m.to| + |m.cc| + i] == Field(Bcc, m.bcc[i])
    ensures Form(m)[|Form(m)| - 2] == Field(Subject, m.subject)
    ensures Form(m)[|Form(m)| - 1] == Field(Text, m.text)
  {
  }

  /**
   * Per key, the form carries exactly the message's values: one `from`,
   * `subject` and `text`, and as many `to`/`cc`/`bcc` entries as addresses, in
   * input order.
   */
  lemma {:induction false} FormValues(m: EmailMessage, key: Key)
    ensures GetAll(Form(m), key) == match key
      case From => [m.from]
      case To => m.to
      case Cc => m.cc
      case Bcc => m.bcc
      case Subject => [m.subject]
      case Text => [m.text]
  {
    var head := [Spurious, Field(From, m.from)];
    var tail := [Field(Subject, m.subject), Field(Text, m.text)];
    var tos, ccs, bccs := Fields(To, m.to), Fields(Cc, m.cc), Fields(Bcc, m.bcc);
    assert Form(m) == head + tos + ccs + bccs + tail;
    calc {
      GetAll(Form(m), key);
    == { GetAllConcat(head + tos + ccs + bccs, tail, key); }
      GetAll(head + tos + ccs + bccs, key) + GetAll(tail, key);
    == { GetAllConcat(head + tos + ccs, bccs, key); }
      GetAll(head + tos + ccs, key) + GetAll(bccs, key) + GetAll(tail, key);
    == { GetAllConcat(head + tos, ccs, key); }
      GetAll(head + tos, key) + GetAll(ccs, key) + GetAll(bccs, key) + GetAll(tail, key);
    == { GetAllConcat(head, tos, key); }
      GetAll(head, key) + GetAll(tos, key) + GetAll(ccs, key) + GetAll(bccs, key) + GetAll(tail, key);
    }
    GetAllFields(To, m.to, key);
    GetAllFields(Cc, m.cc, key);
    GetAllFields(Bcc, m.bcc, key);
    PairGetAll(Spurious, Field(From, m.from), key);
    PairGetAll(Field(Subject, m.subject), Field(Text, m.text), key);
  }

  /** The values under `key` in a form of two entries. */
  lemma PairGetAll(e1: FormEntry, e2: FormEntry, key: Key)
    ensures GetAll([e1, e2], key)
      == (if e1.Field? && e1.key == key then [e1.value] else [])
         + (if e2.Field? && e2.key == key then [e2.value] else [])
  {
    assert [e1, e2][0] == e1 && [e1, e2][1..] == [e2];
    assert [e2][0] == e2 && [e2][1..] == [];
    assert GetAll([e2], key) == (if e2.Field? && e2.key == key then [e2.value] else []);
  }

  /** Nothing of the message is lost: it can be read back from the form. */
  lemma {:induction false} FormRoundTrip(m: EmailMessage)
    ensures Decode(Form(m)) == Some(m)
  {
    FormValues(m, From);
    FormValues(m, To);
    FormValues(m, Cc);
    FormValues(m, Bcc);
    FormValues(m, Subject);
    FormValues(m, Text);
  }

  /** One of the `for (let i in body.X) data.append('X', body.X[i])` loops. */
  method AppendFields(data: seq<FormEntry>, key: Key, values: seq<string>)
    returns (data': seq<FormEntry>)
    ensures data' == data + Fields(key, values)
  {
    data' := data;
    var i := 0;
    while i < |values|
      invariant 0 <= i <= |values|
      invariant data' == data + Fields(key, values[..i])
    {
      assert values[..i + 1][..i] == values[..i];
      data' := data' + [Field(key, values[i])];
      i := i + 1;
    }
    assert values[..i] == values;
  }

  /** `buildMailGunRequestBody`: appends the entries one by one. */
  method BuildRequestBody(m: EmailMessage) returns (data: seq<FormEntry>)
    ensures data == Form(m)
  {
    data := [];
    data := data + [Spurious];
    data := data + [Field(From, m.from)];
    data := AppendFields(data, To, m.to);
    data := AppendFields(data, Cc, m.cc);
    data := AppendFields(data, Bcc, m.bcc);
    data := data + [Field(Subject, m.subject)];
    data := data + [Field(Text, m.text)];
  }

  /** The form without the line-182 entry: every entry is a field of the message. */
  function FormIntended(m: EmailMessage): (form: seq<FormEntry>)
    ensures form == Form(m)[1..]
    ensures forall i :: 0 <= i < |form| ==> form[i].Field?
  {
    [Field(From, m.from)]
      + Fields(To, m.to) + Fields(Cc, m.cc) + Fields(Bcc, m.bcc)
      + [Field(Subject, m.subject), Field(Text, m.text)]
  }

  /** As written, the first entry of every MailGun form is not a field of the message. */
  lemma FormStartsWithSpurious(m: EmailMessage)
    ensures |Form(m)| > 0 && !Form(m)[0].Field?
  {
  }
}
