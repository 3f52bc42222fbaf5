/** The email-send request a client posts to `/api/emails`. */
module Message {
  /** An email address. Its syntax is checked by the request schema, not here. */
  type Address = string

  /**
   * The request body `{from, to, cc, bcc, subject, text}`, with the recipient
   * fields arriving as arrays. A recipient list the client leaves out is the
   * empty list: both request builders iterate over an absent list and an empty
   * one alike, adding nothing.
   */
  datatype EmailMessage = EmailMessage(
    from: Address,
    to: seq<Address>,
    cc: seq<Address>,
    bcc: seq<Address>,
    subject: string,
    text: string)
}
