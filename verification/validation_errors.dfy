/**
 * The client-facing text for each detail of a schema-validation error. The
 * schema check itself belongs to the validation library; its details are an
 * input here.
 */
module ValidationErrors {
  /** A step of a detail's path: an object key, or an array position. */
  datatype PathSegment = PathKey(name: string) | PathIndex(index: nat)

  /** One violation reported by the validator: its own message and where it was found. */
  datatype ErrorDetail = ErrorDetail(message: string, path: seq<PathSegment>)

  const BadRequest := "Bad request"
  const InvalidEmails := "\" contains invalid email(s)"

  /** The path mentions one of the recipient lists (`path.indexOf(...) > -1`). */
  predicate NamesAddressList(path: seq<PathSegment>) {
    PathKey("to") in path || PathKey("cc") in path || PathKey("bcc") in path
  }

  /** The decimal digits of a number, as string concatenation renders an array position. */
  function Decimal(n: nat): string {
    if n < 10 then ["0123456789"[n]] else Decimal(n / 10) + ["0123456789"[n % 10]]
  }

  /** A path segment as string concatenation renders it. */
  function SegmentText(segment: PathSegment): string {
    match segment
    case PathKey(name) => name
    case PathIndex(index) => Decimal(index)
  }

  /**
   * The message reported for one detail: a detail about a recipient list names
   * the top-level field it sits under; any other detail keeps its own message.
   */
  function ErrorMessage(d: ErrorDetail): (text: string)
    ensures NamesAddressList(d.path) ==>
      |d.path| > 0 && text == "\"" + SegmentText(d.path[0]) + InvalidEmails
    ensures !NamesAddressList(d.path) ==> text == d.message
  {
    if NamesAddressList(d.path) then
      "\"" + SegmentText(d.path[0]) + InvalidEmails
    else
      d.message
  }

  /** A detail under a recipient list is reported by field name, whatever its own message says. */
  lemma AddressListMessageNamesField(d: ErrorDetail, field: string)
    requires |d.path| > 0 && d.path[0] == PathKey(field)
    requires field in ["to", "cc", "bcc"]
    ensures ErrorMessage(d) == "\"" + field + InvalidEmails
    ensures forall other: string :: ErrorMessage(d.(message := other)) == ErrorMessage(d)
  {
    assert d.path[0] in d.path;
  }
}
