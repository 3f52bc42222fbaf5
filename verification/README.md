# email-rest-nodejs: a Dafny model of the email controller

The relay takes a POSTed email (`from`, `to`, `cc`, `bcc`, `subject`, `text`) and validates it. It then probes SendGrid and, if SendGrid is down, MailGun. It sends the email through the first provider whose probe is answered with status 401 and normalises the provider's answer into `{timestamp, message}`. This project models `api/controllers/emailController.js`:

- `message.dfy` (`Message`): the request body. An absent recipient list is the empty list, because both builders treat the two the same way.
- `sendgrid.dfy` (`SendGrid`): `buildSendGridRequestBody`. `Body` is the body as a value. The method `CollectEmailObjects` is one push loop and is proved to build exactly `EmailObjects` of its list. The method `BuildRequestBody` adds the later mutation of the personalization and is proved to build exactly `Body`. `Decode` reads a message back out of a body.
- `mailgun.dfy` (`MailGun`): `buildMailGunRequestBody`. `Form` is the ordered list of appended entries. The method `BuildRequestBody` with its loop helper `AppendFields` is proved to build exactly `Form`. `GetAll` is URLSearchParams' `getAll`, and `Decode` reads a message back from a form.
- `validation_errors.dfy` (`ValidationErrors`): the message reported for each validation detail.
- `controller.dfy` (`Controller`): `healthCheck`, `constructResponseObj`, the `.then`/`.catch` of both send functions, the provider-selection chain and `sendEmail`.
  - The network is an oracle from each call (a probe, or a send with its body) to an `Outcome`, which is `Status(n)` or `TransportError`.
  - A `Run` is the reply together with the calls made, in order. The call order and the dependence on the network are therefore stated and proved.
  - `SendEmail` is a method because the error branch of `sendEmail` builds its list of messages in a loop.
- `wrappers.dfy` (`Wrappers`): `Option`.

Three behaviours of the code are easy to misread:
- A failed send gives no value (`Reply.Undefined`), not a normalised result.
- When both probes fail, the reply says "Your email has been sent".
- The validator's details are whatever it reports. Joi stops at the first violation by default, and line 33 does not change that.

## Model

| member | source | states |
|---|---|---|
| SendGrid.EmailObjects | api/controllers/emailController.js:138-157 | one `{email}` object per address, in input order |
| SendGrid.CollectEmailObjects | api/controllers/emailController.js:138-143 | the push loop builds exactly `EmailObjects` of the list |
| SendGrid.BuildRequestBody | api/controllers/emailController.js:120-172 | the body built by assigning fields and then setting the non-empty recipient keys on the personalization is exactly `Body(m)` |
| SendGrid.Body | api/controllers/emailController.js:120-172 | the body `buildSendGridRequestBody` returns has exactly one personalization and exactly one content entry; `BodyShape` and `BodyRoundTrip` state the rest |
| SendGrid.BodyShape | api/controllers/emailController.js:120-169 | exactly one personalization, carrying the subject; `from.email` is the sender; `content` is a single `text/plain` entry holding the text; each of `to`/`cc`/`bcc` is present iff its list is non-empty, and when present it holds one `{email}` per address in order |
| SendGrid.BodyRoundTrip | api/controllers/emailController.js:120-171 | decoding the body gives back the original message, so no field or address is lost or reordered |
| MailGun.Fields | api/controllers/emailController.js:185-195 | one `key=value` entry per value, in order |
| MailGun.KeyNamesDistinct | api/controllers/emailController.js:183-198 | the six names appended under (`from`, `to`, `cc`, `bcc`, `subject`, `text`) are non-empty and pairwise distinct |
| MailGun.AppendFields | api/controllers/emailController.js:185-187 | the append loop extends the form by exactly `Fields(key, values)` |
| MailGun.BuildRequestBody | api/controllers/emailController.js:180-201 | the appends build exactly `Form(m)` |
| MailGun.Form | api/controllers/emailController.js:180-200 | the appended entries number 4 + \|to\| + \|cc\| + \|bcc\| and start with the spurious entry; `FormLayout` and `FormValues` state the rest |
| MailGun.FormLayout | api/controllers/emailController.js:180-200 | the form has 4 + \|to\| + \|cc\| + \|bcc\| entries: the spurious entry, `from`, the `to` entries in order, then `cc`, then `bcc`, then `subject` and `text` |
| MailGun.FormValues | api/controllers/emailController.js:183-198 | for each key, `getAll` of the form is exactly the message's values: one `from`, `subject` and `text`, and as many `to`/`cc`/`bcc` entries as addresses, in order |
| MailGun.FormRoundTrip | api/controllers/emailController.js:180-200 | decoding the form by key gives back the original message |
| MailGun.FormStartsWithSpurious | api/controllers/emailController.js:181-182 | the first entry of every form is the spurious one, not a field of the message |
| MailGun.FormIntended | api/controllers/emailController.js:180-200 | the form without the line-182 entry: every entry is a field of the message |
| ValidationErrors.ErrorMessage | api/controllers/emailController.js:42-49 | a detail whose path mentions `to`, `cc` or `bcc` gives `"<path[0]>" contains invalid email(s)`; any other detail gives its own message |
| ValidationErrors.AddressListMessageNamesField | api/controllers/emailController.js:42-46 | a detail under a recipient list is reported by the field's name, whatever the detail's own message says |
| Controller.SendEmail | api/controllers/emailController.js:35-62 | a rejected body is answered with error type `Bad request` and exactly one message per detail, in detail order, with no probe or send made; an accepted body goes through `Dispatch` |
| Controller.HealthCheck | api/controllers/emailController.js:215-220 | a provider is up iff the probe is answered with status 401; a transport error means down |
| Controller.ConstructResponseObj | api/controllers/emailController.js:230-243 | stamped with the clock reading; the "added to the queue" message iff the argument has a status of at least 400, else the "sent" message, so a bare number with no status gives "sent" |
| Controller.Settle | api/controllers/emailController.js:82-86 | a send answered with a status is normalised ("queue" iff the status is at least 400); a transport error leaves no value (also lines 107-111) |
| Controller.SendViaSendGrid | api/controllers/emailController.js:71-87 | makes exactly one call, a POST of `SendGrid.Body(m)`; the reply is `Settle` of that call's outcome: `constructResponseObj` of the response ("sent" below 400, "queue" from 400), or no value iff the call fails in transport |
| Controller.SendViaMailGun | api/controllers/emailController.js:95-112 | makes exactly one call, a POST of `MailGun.Form(m)`; the reply is `Settle` of that call's outcome: `constructResponseObj` of the response ("sent" below 400, "queue" from 400), or no value iff the call fails in transport |
| Controller.UnavailableReply | api/controllers/emailController.js:59-61 | the reply for the both-down branch, as written, is the "sent" message stamped with the clock reading |
| Controller.Dispatch | api/controllers/emailController.js:55-62 | the selection chain makes two or three calls and always starts with the SendGrid probe; a normalised reply carries the clock reading |
| Controller.DispatchOrder | api/controllers/emailController.js:55-62 | the SendGrid probe comes first; the MailGun probe is made iff SendGrid's failed; SendGrid gets the JSON body iff its probe succeeded; MailGun gets the form iff only its probe did; no send when both fail; at most one send, and only as the last call; no call is made twice |
| Controller.DispatchReply | api/controllers/emailController.js:55-62 | the reply is no value iff the send failed in transport; the "queue" message iff the send was answered with a status of at least 400; the "sent" message when the send was answered with a status below 400, and also when no send was made |
| Controller.DispatchReadsOnlyItsCalls | api/controllers/emailController.js:55-62 | two networks that agree on the calls a run makes give the same run, so nothing outside those calls is consulted |
| Controller.UnavailableReportsSent | api/controllers/emailController.js:59-61 | when neither probe succeeds, the reply says "Your email has been sent" and not that it was queued |
| Controller.UnavailableReplyIntended | api/controllers/emailController.js:61 | a 503 response gives the "added to the queue" reply |

## Findings

| source | as written | input that shows it | evidently intended | confidence | as-written member | corrected member |
|---|---|---|---|---|---|---|
| api/controllers/emailController.js:61 | `constructResponseObj(503)` reads `(503).status`, which is `undefined`, so `>= 400` is false and the reply is "Your email has been sent" | a valid request while neither provider answers its probe with 401 | the "added to the queue" reply of a 503 response, as the comment on the line says | high; not executed | Controller.UnavailableReportsSent | Controller.UnavailableReplyIntended |
| api/controllers/emailController.js:182 | `data.append(data)` appends an entry made from the params object itself before `from` | any message | a form that starts with `from` | high; not executed | MailGun.FormStartsWithSpurious | MailGun.FormIntended |

`Dispatch`, `MailGun.Form` and the builders still follow the code as written. The corrected members state the intended behaviour next to them.

## Left out

- HTTP wiring (server.js, api/routes/emailRoutes.js): Express, body parsing, the 404 handler and the port are I/O plumbing.
- Configuration (api/config/settings.js): a static table of placeholders. Probes and sends are identified by provider, not by URL. In that table both providers have the same placeholder URL.
- Network calls: `fetch`, the 3-second probe timeout, `follow: 0` and the Promise sequencing are not modelled. Every outcome comes from the `network` oracle parameter. A run makes each call at most once, so one outcome per call is enough.
- Request validation: the Joi schema (email syntax, required fields) is a foreign library. Its verdict and its list of details are an input (`Validation`). No claim is made about how many violations it reports.
- Encoding: `JSON.stringify`, URL-form encoding (including the URLSearchParams library's grouping of values by key), the Bearer header and the Basic-auth header built with `Buffer` and base64.
- MailGun.FormEntry: the key and value that `append` makes of the line-182 arguments depend on that library's coercion. The model keeps the entry abstract and assumes it is under none of the six keys.
- Logging: the `console.log` calls and the process-level `unhandledRejection` handler.
- The timestamp: `new Date().getTime()` is clock access. It is the `now` parameter.
- Persistence of queued messages: it is a TODO in the source, with no code to model.
- Message.EmailMessage: the model covers bodies whose recipient fields arrive as arrays. The builders read the raw request body, not the validator's converted value. The array schema also accepts a string that parses as a JSON array, and for such a string `for...in` walks its character indices: each character becomes one `{email}` object or one form entry. A recipient field is a sequence of addresses here, so that input is not expressible. A `for...in` loop would also visit non-index properties of an array; plain JSON arrays have none.
- ValidationErrors.PathSegment: a detail's path is taken to be an array of keys and positions, as Joi reports it from version 11 on. The source does not fix the Joi version. With an older Joi the path is a dotted string. Then `path.indexOf('to')` is a substring search and `path[0]` is one character, so the message would read `"t" contains invalid email(s)`. That case is not modelled.
