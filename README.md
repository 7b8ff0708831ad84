# Ticket webhook service — Dafny model

The service sells skating-rink tickets. A Flask endpoint, `create_payment`, checks a request
against a per-session capacity ledger and creates a payment with the YooKassa provider. A
`webhook` endpoint receives the provider's payment notification, checks it, makes a QR code
from the ticket details and mails it to the buyer. The three files modelled here carry three
variants of the webhook: two Flask ones (app.py and main.py, with the same handler text, authenticated by
an HMAC signature of the body) and one Express one (server.js, authenticated by an API-key
header, with the ticket details carried as JSON inside the payment description).

The model has these modules:

- `JsonValue`: a decoded JSON value, plus the Python built-ins the handlers apply to such values: truth testing, `dict.get`, `str()` and `int()`.
- `TicketLedger`: `create_payment` from app.py. The class `Ledger` holds the table `sold`, which `CreatePayment` updates in place. The pure function `Process` specifies one request, and `Run` folds it over a sequence of requests. The lemmas prove the capacity invariant for one call and for a whole run.
- `FlaskWebhook`: the `webhook` handler of app.py and main.py as one pure function. main.py:56-112 repeats app.py:130-186 line for line, so both files are modelled by the same members. main.py's `current_tickets_sold` (main.py:38) is declared and never read or written. The model therefore keeps no ledger for main.py: its table stays empty for the life of the process.
- `ExpressWebhook`: server.js. This covers JavaScript truthiness, property reads that throw on `undefined` and `null`, `String.prototype.trim`, the `authenticate` middleware and the `/webhook` handler.
- `Variants`: lemmas stating where the Python and JavaScript handlers give different statuses for the same event.

The outside world enters as parameters:

- The HMAC-SHA256 hex digest is a function parameter `hmacHex(secret, body)`.
- `json.loads` and `JSON.parse` are function parameters that return `None` on a parse error.
- The outcomes of QR generation and of mail sending are booleans.
- `Payment.create` is an `Option<string>`: the confirmation URL, or `None` when it raises.
- Environment variables (`API_KEY`, `WEBHOOK_SECRET`, `SMTP_USER`) are `Option<string>` parameters. In the `Ledger` class, `API_KEY` is a constructor argument. app.py's default for it is `'your_api_key'`.

When the Flask code raises an exception it does not catch, Flask answers 500. The model gives that 500 in these cases:

- `WEBHOOK_SECRET` unset: `None.encode()` raises before the signature is compared.
- The body does not decode, or it is not a dict.
- The event dict has no `event`, or a payment.succeeded event has no `object`.
- The payment is not a dict, or its metadata is not a dict.
- `int(quantity)` fails. The session key has already been added to the ledger at that point.
- QR generation fails.

In server.js, the handler answers 500 "Internal Server Error" for every exception that the inner QR and mail handlers do not catch (those two answer with their own 500 messages). The model covers:

- the body is `null`;
- the payment or its `amount` is missing;
- the description parses to `null`;
- `SMTP_USER` is unset, so `.trim()` on `undefined` throws after the QR code is made and before the mail is sent.

## Model

| member | source | states |
|---|---|---|
| `JsonValue.IntOf` | app.py:72 | `int()` of an integer is that integer, of a boolean 1 or 0, of a string what `ParseInt` gives; `int()` of None, a list or a dict fails (an uncaught exception) |
| `JsonValue.ParseInt` | app.py:72 | a string is accepted iff it is ASCII digits, or '+' or '-' followed by ASCII digits; the value is the digits' decimal value, negated after '-'; anything else raises |
| `JsonValue.PyTruthy` | app.py:154 | `not v` holds exactly for None, False, 0, '', [] and {} |
| `JsonValue.PyStr` | app.py:68-97 | an f-string inserts a string as it is, None as 'None', and an integer as a numeral that `int()` reads back as that integer |
| `JsonValue.IntOfStrRoundTrip` | app.py:90 | a check of the `int()` model against `str()`: for every integer, the numeral `str()` prints (the one in the order description) parses back to it |
| `TicketLedger.ReceiptLabel` | app.py:97 | receipt wording is 'На каток' iff ticketType is the string 'regular', 'Льготный' otherwise |
| `TicketLedger.SessionKey` | app.py:68 | the key is the day's text, a '-', then the time's text |
| `TicketLedger.SessionKeyIdentifiesSession` | app.py:68 | when neither day text contains '-', two requests share a key iff their day texts and time texts agree |
| `TicketLedger.Authorized` | app.py:58-59 | an absent header fails; a passing header is 'Bearer ' followed by exactly API_KEY |
| `TicketLedger.HasRequiredFields` | app.py:63-64 | the check passes iff each of the ten required field names is a key of the body |
| `TicketLedger.PaymentReply.Status` | app.py:60-128 | 200 iff the payment was created; 401 iff unauthorized; 500 iff `int()` raised or `Payment.create` raised; 400 iff a field was missing, the session is sold out, or (corrected handler) the quantity is below 1 |
| `TicketLedger.OrderFor` | app.py:79-121 | the order carries totalPrice as amount, the email, the parsed quantity, the description `OrderDescription` of that quantity, the receipt item text (the `ReceiptLabel` wording, then the day and the time, one per line) and `OrderMetadata` of the request |
| `TicketLedger.OrderDescription` | app.py:90 | the description is 'Покупка билетов: ', a numeral, ' шт.', and `int()` of the numeral is the quantity |
| `TicketLedger.OrderMetadata` | app.py:110-120 | exactly the nine request fields other than totalPrice, each copied verbatim |
| `TicketLedger.Process` | app.py:55-128 | 401 iff the header is not exactly `Bearer <key>`; 400 iff a field is missing (presence only); neither changes the ledger; otherwise the session key is present afterwards even when refused; refused as sold out iff count + quantity > 50; only a booked request changes a count, its own session's, by exactly its quantity; a booked session stays at most 50; the provider's answer decides 200 or 500 but not the ledger; the order sent to the provider is `OrderFor` of the request and its parsed quantity |
| `TicketLedger.Seed` | app.py:68-70 | an unseen session key is added with count 0; no count changes |
| `TicketLedger.Admit` | app.py:72-128 | refused as sold out iff count + quantity > 50; otherwise the session's count grows by exactly the quantity and stays at most 50, no other count changes, and the provider's answer picks 200 with its URL or 500; the order is `OrderFor` of the request and the quantity |
| `TicketLedger.ProcessKeepsCapacity` | app.py:73-76 | if no session exceeds 50 before a request, none does after it, for any integer quantity |
| `TicketLedger.ProviderFailureKeepsIncrement` | app.py:76-128 | when `Payment.create` raises, the reply is 500 and the increment is not rolled back |
| `TicketLedger.RunKeepsCapacity` | app.py:36-76 | over any sequence of requests, no session ever exceeds 50 |
| `TicketLedger.Ledger.constructor` | app.py:33-37 | a fresh process holds an empty table, which satisfies the capacity invariant |
| `TicketLedger.Ledger.CreatePayment` | app.py:55-128 | the in-place update of the table and the reply agree with `Process` on the old table; the capacity invariant is preserved |
| `TicketLedger.Ledger.Book` | app.py:73-128 | the guard, the in-place `+=` and the provider call agree with `Admit` on the old table |
| `TicketLedger.NegativeQuantityOversells` | app.py:72-76 | as written, a request for -5 tickets is accepted and leaves the session's count negative, after which a single request for 55 tickets is accepted for the same session |
| `TicketLedger.ProcessChecked` | app.py:72-76 | corrected handler: an authorized, complete request whose quantity parses below 1 is refused with 400 after its session key is seeded; every other request gets exactly `Process`'s reply and ledger; every booking is of at least one ticket, only the booked session's count changes, and the invariant is kept |
| `TicketLedger.CheckedStepKeepsSound` | app.py:72-76 | corrected handler: one request keeps every count within 0..50, and each booking is of 1 to 50 tickets |
| `TicketLedger.CheckedStepForSession` | app.py:68-76 | corrected handler, seen from one session: at most one positive booking per request, and the session's count grows by exactly it |
| `TicketLedger.CheckedRunNeverOversells` | app.py:36-76 | corrected handler: over any run from a ledger whose counts lie in 0..50, every booking for a session is of at least one ticket, and the session's earlier count plus its bookings' total, and plus their number, stay at most 50 (the -5-then-55 run of the handler as written breaks the first clause) |
| `FlaskWebhook.TicketsInfo` | main.py:85-93 | `tickets_info` has exactly the seven keys, each copied verbatim from metadata, None where absent |
| `FlaskWebhook.MetadataOf` | app.py:150-151 | the lookups succeed iff the event is a dict with `event` and `object` and the payment object is a dict; the result is the payment's `metadata` verbatim, `{}` when absent |
| `FlaskWebhook.SignatureValid` | app.py:138-145 | a missing signature header never passes; a passing one equals the HMAC hex digest of the body under the secret |
| `FlaskWebhook.Webhook` | app.py:130-186 | secret unset gives 500; a wrong or missing signature gives 403 with no QR and no mail; statuses are only 200, 403 and 500; 403 iff the secret is set and the signature is wrong; 500 iff the secret is unset, or the signature is right and the body does not decode, a lookup raises (a non-dict event, no `event`, or for payment.succeeded no `object`, a non-dict payment or non-dict metadata) or QR generation fails for a fulfillable event; a mail is attempted iff the request is authentic, the event is payment.succeeded with a truthy metadata email, and the QR code was made; the mail goes to that email with the same `tickets_info` the QR encodes; a failed mail still gives 200 |
| `FlaskWebhook.OtherEventsAcknowledged` | main.py:75-112 | an authentic event other than payment.succeeded gives 200 "OK" with no QR and no mail |
| `FlaskWebhook.MissingEmailAcknowledged` | main.py:77-82 | missing metadata, or metadata without a truthy email, gives 200 "OK" with no QR and no mail |
| `FlaskWebhook.MailFailureSwallowed` | main.py:99-112 | the mail's outcome never changes the status |
| `ExpressWebhook.TrimStart` | server.js:28 | the result is a suffix whose removed prefix is all JavaScript whitespace, and it does not start with whitespace |
| `ExpressWebhook.TrimEnd` | server.js:28 | the result is a prefix whose removed suffix is all JavaScript whitespace, and it does not end with whitespace |
| `ExpressWebhook.TrimIsIdempotent` | server.js:28 | a trimmed key neither starts nor ends with whitespace, and trimming it again changes nothing |
| `ExpressWebhook.Trim` | server.js:28 | the result is a slice of the input with only JavaScript whitespace cut from either end, and it neither starts nor ends with whitespace |
| `ExpressWebhook.Truthy` | server.js:29-91 | JavaScript truthiness: false exactly for undefined, null, false, 0 and ''; arrays and objects, even empty, are true |
| `ExpressWebhook.Prop` | server.js:70-89 | reading a property throws exactly on undefined or null; on an object holding the key it gives the member, otherwise undefined |
| `ExpressWebhook.Authenticate` | server.js:26-35 | admitted iff the `x-api-key` header is present, non-empty and strictly equal to the configured key; equivalently, iff API_KEY is set, its trimmed text is non-empty, and the header is exactly that text |
| `ExpressWebhook.BlankKeyRejectsAll` | server.js:26-35 | with API_KEY unset, empty or all whitespace, every request is rejected |
| `ExpressWebhook.ConfiguredKey` | server.js:28 | the key is '' when API_KEY is unset or empty, and API_KEY trimmed otherwise; it never starts or ends with whitespace and trimming it again changes nothing |
| `ExpressWebhook.TicketLabel` | server.js:101 | 'Билет на каток' iff ticketType is the string 'regular', else 'Льготный' |
| `ExpressWebhook.ResolveMetadata` | server.js:77-87 | metadata is the parsed description when it is truthy and parses, otherwise `{}`; a parse failure is not an error |
| `ExpressWebhook.AmountOf` | server.js:74-75 | the lookup throws (None) iff the payment is missing or null or its `amount` is missing or null; otherwise the amount is `payment.amount.value` verbatim (undefined when `amount` has no `value`) |
| `ExpressWebhook.MetadataOf` | server.js:76-87 | metadata is never undefined: the parsed description when the payment's description is truthy and parses, otherwise `{}` |
| `ExpressWebhook.Summarise` | server.js:97-130 | name, surname, day, time and quantity are the metadata members verbatim, the amount is the payment's, and the label is `TicketLabel` of ticketType: 'Билет на каток' iff it is the string 'regular', 'Льготный' otherwise |
| `ExpressWebhook.Webhook` | server.js:66-152 | statuses are only 200, 400 and 500; 200 "Webhook processed" iff the mail was sent; no mail without a QR code, and the mail's details are the QR text; the QR code is made iff the event is payment.succeeded with a readable amount and a truthy email in non-null resolved metadata; the mail is attempted iff, in addition, the QR code was made and SMTP_USER is set; with SMTP_USER unset the answer is 500 "Internal Server Error" after the QR code and without a mail; 200 iff, in addition, the send succeeded; recipient, name, surname, day, time, quantity and amount are taken from metadata and `payment.amount.value` verbatim, with the same label as the QR text; a failed send gives 500 |
| `ExpressWebhook.Handle` | server.js:26-66 | 403 "Forbidden" iff the middleware rejects; no QR code and no mail unless it admits; an admitted request gets exactly the handler's reply |
| `ExpressWebhook.UnsupportedEventRefused` | server.js:73-146 | any other event, or a missing one, gives 400 "Unsupported event" with no QR and no mail |
| `ExpressWebhook.MissingEmailRefused` | server.js:89-94 | metadata without a truthy email gives 400 before QR generation |
| `ExpressWebhook.QrFailureIsServerError` | server.js:105-112 | a QR failure gives 500 "Error generating QR code" and no mail |
| `ExpressWebhook.ThrownLookupIsInternalError` | server.js:67-151 | a payment without `amount`, or a description parsing to null, gives 500 "Internal Server Error" with no QR and no mail |
| `Variants.UnsupportedEventStatuses` | server.js:144-146 | for the same non-success event, Flask answers 200 and Express 400 |
| `Variants.MissingEmailStatuses` | server.js:89-94 | for a success event without email, Flask answers 200 and Express 400 |
| `Variants.MailFailureStatuses` | server.js:135-141 | after a failed send, Flask answers 200 and Express 500 |
| `Variants.TruthinessDiffers` | server.js:89-94 | Python's `not email` (app.py:154) and JavaScript's `!email` disagree exactly on an empty list and an empty dict |

## Findings

| source | as written | input that shows it | evidently intended | confidence | as-written member | corrected member |
|---|---|---|---|---|---|---|
| app.py:72-76 | `int(quantity)` is not checked for sign, so a negative quantity passes the guard and lowers the session's count | a request with quantity -5, then one with quantity 55, for the same session; both are accepted, the second alone for 55 of 50 seats | a quantity below 1 is refused | not executed | `TicketLedger.NegativeQuantityOversells` | `TicketLedger.CheckedRunNeverOversells` |

The corrected handler `TicketLedger.ProcessChecked` refuses such a request with 400. It keeps
every count within 0..50 (`TicketLedger.Sound`), which the handler as written does not: its -5
request leaves a negative count. The class `Ledger` keeps the behaviour as written.

## Left out

- HTTP routing is not modelled: the Flask and Express apps, body-parser, the logging middleware, `GET /`, `/payment-success`, the 404 handler and the process-level exception hooks. Handlers take their decoded inputs as parameters.
- HMAC-SHA256 and hex encoding are not modelled. The digest is an uninterpreted function parameter, so the model does not show that a changed body changes the digest.
- JSON parsing and `json.dumps` are outcome parameters, not modelled parsers. `render_template` and the HTML and QR text are represented only by the fields they interpolate.
- QR image encoding, Flask-Mail and nodemailer are reduced to success or failure booleans. The QR image embedded in the Express mail is not modelled, and neither is `transporter.verify`.
- `Payment.create` is reduced to its outcome, a confirmation URL or an exception. The currency, return URL, VAT code and other constant order fields are not modelled.
- Configuration loading is not modelled (`dotenv`, `os.getenv`, `int(MAIL_PORT)`, `secrets.token_hex` in main.py), and neither is logging.
- Concurrent requests are not modelled. The ledger's read-check-increment is not atomic under threaded Flask; the model handles requests one at a time.
- `create_payment` assumes its request body decodes to a JSON object. A missing body, or a list or scalar body, is not modelled.
- `JsonValue.IntOf` treats strings with surrounding whitespace, underscores or non-ASCII digits as failures, although Python's `int()` accepts them. Floating-point numbers are not in the value model.
- `JsonValue.PyStr` renders a list or dict day or time by a fixed placeholder. Python's `repr` (quoting, escaping, insertion order) is not modelled, so two different container values share a session key in the model.
- Express body values stand for JSON only. Duplicate `x-api-key` headers, inherited object properties, and values that are not JSON are not modelled.
