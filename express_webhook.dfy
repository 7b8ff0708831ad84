/** The Express service in server.js: the `authenticate` middleware (an `x-api-key` header
    compared with the trimmed API_KEY) and the `/webhook` handler, which takes the ticket
    details from the JSON text in the payment's `description`, makes a QR code and mails it.
    Every exception inside the handler's outer try becomes a 500 reply. */
module ExpressWebhook {
  import opened Base
  import opened JsonValue

  const MailSubject := "Ваши билеты на каток"
  const RegularLabel := "Билет на каток"
  const ReducedLabel := "Льготный"

  /** A JavaScript value read from a decoded body: `undefined`, or a JSON value. */
  datatype JsVal = Undefined | Val(v: Value)

  /** JavaScript truthiness: undefined, null, false, 0 and "" are falsy; every array and
      object, empty or not, is truthy. */
  predicate Truthy(x: JsVal)
    // false exactly for undefined, null, false, 0 and ''; arrays and objects, even empty, are true
    ensures Truthy(x) <==>
              !(x == Undefined || x == Val(Null) || x == Val(Bool(false)) || x == Val(Int(0)) || x == Val(Str("")))
  {
    match x
    case Undefined => false
    case Val(v) =>
      match v
      case Null => false
      case Bool(b) => b
      case Int(i) => i != 0
      case Str(s) => s != ""
      case Arr(_) => true
      case Obj(_) => true
  }

  /** `v.key` on a value that is neither undefined nor null: an object's own member, or undefined. */
  function Member(v: Value, key: string): JsVal {
    if v.Obj? && key in v.fields then Val(v.fields[key]) else Undefined
  }

  /** `x.key`: None when reading a property of undefined or null throws a TypeError. */
  function Prop(x: JsVal, key: string): (r: Option<JsVal>)
    ensures r.None? <==> x == Undefined || x == Val(Null)
    ensures r.Some? && r.value != Undefined ==> x.Val? && x.v.Obj? && key in x.v.fields
    ensures r.Some? && x.v.Obj? && key in x.v.fields ==> r.value == Val(x.v.fields[key])
  {
    if x == Undefined || x == Val(Null) then None else Some(Member(x.v, key))
  }

  /** The characters `String.prototype.trim` removes: JavaScript's WhiteSpace and LineTerminator. */
  predicate IsJsSpace(c: char) {
    var n := c as int;
    || 0x09 <= n <= 0x0D            // tab, line feed, vertical tab, form feed, carriage return
    || n == 0x20 || n == 0xA0 || n == 0x1680
    || 0x2000 <= n <= 0x200A        // the Unicode space separators from en quad to hair space
    || n == 0x2028 || n == 0x2029   // line and paragraph separators
    || n == 0x202F || n == 0x205F || n == 0x3000 || n == 0xFEFF
  }

  /** `s` with its leading spaces removed: a suffix of `s` that is empty or starts with a non-space. */
  function TrimStart(s: string): (r: string)
    ensures |r| <= |s| && r == s[|s| - |r|..]
    ensures forall k :: 0 <= k < |s| - |r| ==> IsJsSpace(s[k])
    ensures r == [] || !IsJsSpace(r[0])
    decreases |s|
  {
    if s != [] && IsJsSpace(s[0]) then TrimStart(s[1..]) else s
  }

  /** `s` with its trailing spaces removed: a prefix of `s` that is empty or ends with a non-space. */
  function TrimEnd(s: string): (r: string)
    ensures |r| <= |s| && r == s[..|r|]
    ensures forall k :: |r| <= k < |s| ==> IsJsSpace(s[k])
    ensures r == [] || !IsJsSpace(r[|r| - 1])
    decreases |s|
  {
    if s != [] && IsJsSpace(s[|s| - 1]) then TrimEnd(s[..|s| - 1]) else s
  }

  /** `String.prototype.trim`. */
  function Trim(s: string): (r: string)
    // the characters of `s` from the first non-space to the last one, in order; only
    // whitespace is cut from either end
    ensures var i := |s| - |TrimStart(s)|;
            && i + |r| <= |s| && r == s[i..][..|r|]
            && (forall k :: 0 <= k < i ==> IsJsSpace(s[k]))
            && (forall k :: i + |r| <= k < |s| ==> IsJsSpace(s[k]))
    ensures r == [] || (!IsJsSpace(r[0]) && !IsJsSpace(r[|r| - 1]))
  {
    TrimCutsSpaces(s);
    TrimEndsOnNonSpace(s);
    TrimEnd(TrimStart(s))
  }

  /** What trimming cuts after the kept characters is whitespace. */
  lemma TrimCutsSpaces(s: string)
    ensures var t := TrimStart(s);
            var r := TrimEnd(t);
            var i := |s| - |t|;
            forall k :: i + |r| <= k < |s| ==> IsJsSpace(s[k])
  {
    var t := TrimStart(s);
    var r := TrimEnd(t);
    var i := |s| - |t|;
    forall k | i + |r| <= k < |s|
      ensures IsJsSpace(s[k])
    {
      assert s[k] == t[k - i];
    }
  }

  /** The trimmed text neither starts nor ends with whitespace. */
  lemma TrimEndsOnNonSpace(s: string)
    ensures var r := TrimEnd(TrimStart(s));
            r == [] || (!IsJsSpace(r[0]) && !IsJsSpace(r[|r| - 1]))
  {
    var t := TrimStart(s);
    var r := TrimEnd(t);
    if r != [] {
      assert r[0] == t[0];
    }
  }

  /** Trimming keeps the inner characters and removes only spaces, so a trimmed string neither
      starts nor ends with a space, and trimming it again changes nothing. */
  lemma TrimIsIdempotent(s: string)
    ensures Trim(s) == [] || (!IsJsSpace(Trim(s)[0]) && !IsJsSpace(Trim(s)[|Trim(s)| - 1]))
    ensures Trim(Trim(s)) == Trim(s)
  {
    var t := Trim(s);
    if t != [] {
      assert t[0] == TrimStart(s)[0];
    }
    assert TrimStart(t) == t;
    assert TrimEnd(t) == t;
  }

  /** The key the middleware compares with: API_KEY trimmed, or '' when it is unset or empty. */
  function ConfiguredKey(apiKeyEnv: Option<string>): (key: string)
    ensures apiKeyEnv.None? || apiKeyEnv.value == "" ==> key == ""
    ensures apiKeyEnv.Some? && apiKeyEnv.value != "" ==> key == Trim(apiKeyEnv.value)
    // the key never starts or ends with a space, so a header with an outer space never matches
    ensures key == [] || (!IsJsSpace(key[0]) && !IsJsSpace(key[|key| - 1]))
    ensures Trim(key) == key
  {
    if apiKeyEnv.Some? && apiKeyEnv.value != "" then
      TrimIsIdempotent(apiKeyEnv.value);
      Trim(apiKeyEnv.value)
    else ""
  }

  /** `authenticate`: the `x-api-key` header must be present, non-empty, and strictly equal to
      the configured key. */
  function Authenticate(apiKeyHeader: Option<string>, apiKeyEnv: Option<string>): (admitted: bool)
    ensures admitted <==> apiKeyHeader.Some? && apiKeyHeader.value != "" && apiKeyHeader.value == ConfiguredKey(apiKeyEnv)
    // stated against API_KEY itself: the header is its trimmed text, which must not be empty
    ensures admitted <==>
              apiKeyEnv.Some? && Trim(apiKeyEnv.value) != "" && apiKeyHeader == Some(Trim(apiKeyEnv.value))
  {
    match apiKeyHeader
    case None => false
    case Some(h) => h != "" && h == ConfiguredKey(apiKeyEnv)
  }

  /** With API_KEY unset, empty or made only of spaces, the middleware rejects every request. */
  lemma BlankKeyRejectsAll(apiKeyHeader: Option<string>, apiKeyEnv: Option<string>)
    requires apiKeyEnv.None? || forall k :: 0 <= k < |apiKeyEnv.value| ==> IsJsSpace(apiKeyEnv.value[k])
    ensures !Authenticate(apiKeyHeader, apiKeyEnv)
  {
  }

  /** The ticket wording used in both the QR text and the mail: the regular label exactly when
      `ticketType` is the string 'regular'. */
  function TicketLabel(ticketType: JsVal): (wording: string)
    ensures wording == RegularLabel <==> ticketType == Val(Str("regular"))
    ensures wording == ReducedLabel <==> ticketType != Val(Str("regular"))
  {
    if ticketType == Val(Str("regular")) then RegularLabel else ReducedLabel
  }

  /** The purchase details interpolated into the QR text and into the mail body. */
  datatype TicketSummary = TicketSummary(
    name: JsVal, surname: JsVal, day: JsVal, time: JsVal, ticketLabel: string, quantity: JsVal, amount: JsVal)

  /** The mail handed to the transporter. */
  datatype Mail = Mail(sender: string, recipient: Value, subject: string, details: TicketSummary)

  /** A mail handed to the transporter, and whether sending it succeeded. */
  datatype Dispatch = Dispatch(mail: Mail, delivered: bool)

  /** What one request produces: the status and message, the text given to the QR encoder (when
      it was called) and the mail dispatch (when it was attempted). */
  datatype Reply = Reply(status: int, message: string, qrText: Option<TicketSummary>, mail: Option<Dispatch>)

  const InternalError := Reply(500, "Internal Server Error", None, None)

  /** The ticket metadata: the JSON parsed from a truthy description, else `{}`. A description
      that does not parse leaves `{}` and is not an error. */
  function ResolveMetadata(description: JsVal, jsonParse: Value -> Option<Value>): (metadata: JsVal)
    ensures Truthy(description) && jsonParse(description.v).Some? ==> metadata == Val(jsonParse(description.v).value)
    ensures !(Truthy(description) && jsonParse(description.v).Some?) ==> metadata == Val(Obj(map[]))
  {
    if Truthy(description) then
      match jsonParse(description.v)
      case Some(parsed) => Val(parsed)
      case None => Val(Obj(map[]))
    else Val(Obj(map[]))
  }

  /** The details of a resolved, non-null metadata value, with the payment amount. */
  function Summarise(metadata: Value, amount: JsVal): (summary: TicketSummary)
    ensures summary.name == Member(metadata, "name") && summary.surname == Member(metadata, "surname")
    ensures summary.day == Member(metadata, "day") && summary.time == Member(metadata, "time")
    ensures summary.quantity == Member(metadata, "quantity") && summary.amount == amount
    ensures summary.ticketLabel == RegularLabel <==> Member(metadata, "ticketType") == Val(Str("regular"))
    ensures summary.ticketLabel == TicketLabel(Member(metadata, "ticketType"))
  {
    TicketSummary(Member(metadata, "name"), Member(metadata, "surname"), Member(metadata, "day"),
                  Member(metadata, "time"), TicketLabel(Member(metadata, "ticketType")),
                  Member(metadata, "quantity"), amount)
  }

  /** `payment.amount.value` of a payment.succeeded body; None when a lookup on the way throws. */
  function AmountOf(body: Value): (amount: Option<JsVal>)
    // a missing or null payment, or a missing or null `amount`, throws a TypeError
    ensures Member(body, "object") == Undefined || Member(body, "object") == Val(Null) ==> amount.None?
    // and it does not throw otherwise
    ensures amount.Some? <==>
              && body.Obj? && "object" in body.fields && body.fields["object"] != Null
              && Member(body.fields["object"], "amount") != Undefined
              && Member(body.fields["object"], "amount") != Val(Null)
    // a readable amount is `payment.amount.value`, undefined included
    ensures amount.Some? ==> amount.value == Member(Member(body.fields["object"], "amount").v, "value")
    // a defined amount is the nested `value` field, verbatim
    ensures amount.Some? && amount.value != Undefined ==>
              && body.fields["object"].Obj? && "amount" in body.fields["object"].fields
              && body.fields["object"].fields["amount"].Obj?
              && "value" in body.fields["object"].fields["amount"].fields
              && amount.value == Val(body.fields["object"].fields["amount"].fields["value"])
  {
    match Prop(Member(body, "object"), "amount")
    case None => None
    case Some(amountObject) => Prop(amountObject, "value")
  }

  /** The metadata the handler resolves from a body's payment description. */
  function MetadataOf(body: Value, jsonParse: Value -> Option<Value>): (metadata: JsVal)
    ensures metadata.Val?
    // the parsed JSON of a truthy description; `{}` for a missing payment, a falsy description
    // or one that does not parse
    ensures var payment := Member(body, "object");
            var description := if payment.Val? then Member(payment.v, "description") else Undefined;
            if Truthy(description) && jsonParse(description.v).Some?
            then metadata == Val(jsonParse(description.v).value)
            else metadata == Val(Obj(map[]))
  {
    var payment := Member(body, "object");
    ResolveMetadata(if payment.Val? then Member(payment.v, "description") else Undefined, jsonParse)
  }

  /** A request the handler serves up to the QR code: a payment.succeeded event with a
      readable amount whose resolved metadata is not null and holds a truthy email. */
  predicate Fulfillable(body: Value, jsonParse: Value -> Option<Value>) {
    && Member(body, "event") == Val(Str(PaymentSucceeded))
    && AmountOf(body).Some?
    && MetadataOf(body, jsonParse) != Val(Null)
    && Truthy(Member(MetadataOf(body, jsonParse).v, "email"))
  }

  /** The `/webhook` handler, run after the middleware admitted the request. `body` is the
      decoded request body, `jsonParse` the outcome of `JSON.parse` on a description,
      `qrOk` and `mailOk` the outcomes of QR generation and of `sendMail`, `smtpUser` SMTP_USER. */
  function Webhook(body: Value, jsonParse: Value -> Option<Value>, qrOk: bool,
                   smtpUser: Option<string>, mailOk: bool): (r: Reply)
    ensures r.status == 200 || r.status == 400 || r.status == 500
    // the QR code is made exactly for a fulfillable request; the mail is attempted exactly when,
    // in addition, the QR code was made and SMTP_USER is set; 200 exactly when it was sent too
    ensures r.qrText.Some? <==> Fulfillable(body, jsonParse)
    ensures r.mail.Some? <==> Fulfillable(body, jsonParse) && qrOk && smtpUser.Some?
    ensures r.status == 200 <==> Fulfillable(body, jsonParse) && qrOk && smtpUser.Some? && mailOk
    // processed only when the QR code was made and the mail went out
    ensures r.status == 200 <==> r.mail.Some? && r.mail.value.delivered
    ensures r.status == 200 ==> r.message == "Webhook processed"
    ensures r.mail.Some? ==> r.mail.value.delivered == mailOk && qrOk && smtpUser.Some?
    // no mail without a QR code: the mail carries exactly the details the QR text encodes
    ensures r.mail.Some? ==> r.qrText == Some(r.mail.value.mail.details)
    // a mail is attempted only for a payment.succeeded event with a readable amount
    ensures r.mail.Some? ==> Member(body, "event") == Val(Str(PaymentSucceeded)) && AmountOf(body).Some?
    // the mail goes to the metadata's email; its details are the metadata fields and the
    // payment amount, untransformed
    ensures r.mail.Some? ==>
              var metadata := MetadataOf(body, jsonParse);
              && metadata.Val?
              && Member(metadata.v, "email") == Val(r.mail.value.mail.recipient)
              && Truthy(Val(r.mail.value.mail.recipient))
              && r.mail.value.mail.details.name == Member(metadata.v, "name")
              && r.mail.value.mail.details.surname == Member(metadata.v, "surname")
              && r.mail.value.mail.details.day == Member(metadata.v, "day")
              && r.mail.value.mail.details.time == Member(metadata.v, "time")
              && r.mail.value.mail.details.quantity == Member(metadata.v, "quantity")
              && r.mail.value.mail.details.ticketLabel == TicketLabel(Member(metadata.v, "ticketType"))
              && Some(r.mail.value.mail.details.amount) == AmountOf(body)
    // SMTP_USER unset: `.trim()` on undefined throws after the QR code is made
    ensures Fulfillable(body, jsonParse) && qrOk && smtpUser.None? ==>
              r.status == 500 && r.message == "Internal Server Error" && r.qrText.Some? && r.mail.None?
    // a failed send is reported
    ensures r.mail.Some? && !mailOk ==> r.status == 500 && r.message == "Error sending email"
  {
    match Prop(Val(body), "event")
    case None => InternalError
    case Some(event) =>
      if !(Truthy(event) && event == Val(Str(PaymentSucceeded))) then Reply(400, "Unsupported event", None, None)
      else
        var payment := Member(body, "object");
        match AmountOf(body)
        case None => InternalError
        case Some(amount) =>
          var metadata := MetadataOf(body, jsonParse);
          match Prop(metadata, "email")
          case None => InternalError
          case Some(email) =>
            if !Truthy(email) then Reply(400, "Email not found in metadata", None, None)
            else
              var summary := Summarise(metadata.v, amount);
              if !qrOk then Reply(500, "Error generating QR code", Some(summary), None)
              else if smtpUser.None? then Reply(500, "Internal Server Error", Some(summary), None)
              else
                var mail := Mail("\"Ваше Название\" <" + Trim(smtpUser.value) + ">", email.v, MailSubject, summary);
                if mailOk then Reply(200, "Webhook processed", Some(summary), Some(Dispatch(mail, true)))
                else Reply(500, "Error sending email", Some(summary), Some(Dispatch(mail, false)))
  }

  /** A request through the middleware and then the handler. */
  function Handle(apiKeyHeader: Option<string>, apiKeyEnv: Option<string>, body: Value,
                  jsonParse: Value -> Option<Value>, qrOk: bool, smtpUser: Option<string>, mailOk: bool): (r: Reply)
    ensures r.status == 403 <==> !Authenticate(apiKeyHeader, apiKeyEnv)
    ensures r.status == 403 ==> r == Reply(403, "Forbidden", None, None)
    ensures r.qrText.Some? || r.mail.Some? ==> Authenticate(apiKeyHeader, apiKeyEnv)
    // an admitted request gets the handler's reply
    ensures Authenticate(apiKeyHeader, apiKeyEnv) ==> r == Webhook(body, jsonParse, qrOk, smtpUser, mailOk)
  {
    if Authenticate(apiKeyHeader, apiKeyEnv) then Webhook(body, jsonParse, qrOk, smtpUser, mailOk)
    else Reply(403, "Forbidden", None, None)
  }

  /** Any event other than payment.succeeded, a missing one included, is refused with 400:
      no QR code, no mail. */
  lemma UnsupportedEventRefused(body: Value, jsonParse: Value -> Option<Value>, qrOk: bool,
                                smtpUser: Option<string>, mailOk: bool)
    requires body != Null
    requires Member(body, "event") != Val(Str(PaymentSucceeded))
    ensures Webhook(body, jsonParse, qrOk, smtpUser, mailOk) == Reply(400, "Unsupported event", None, None)
  {
  }

  /** A payment.succeeded event whose metadata has no truthy email is refused with 400 before
      the QR code is made. */
  lemma MissingEmailRefused(body: Value, jsonParse: Value -> Option<Value>, qrOk: bool,
                            smtpUser: Option<string>, mailOk: bool)
    requires Member(body, "event") == Val(Str(PaymentSucceeded))
    requires AmountOf(body).Some?
    requires MetadataOf(body, jsonParse) != Val(Null)
    requires !Truthy(Member(MetadataOf(body, jsonParse).v, "email"))
    ensures Webhook(body, jsonParse, qrOk, smtpUser, mailOk) == Reply(400, "Email not found in metadata", None, None)
  {
  }

  /** A QR generation failure is a 500 and no mail is attempted. */
  lemma QrFailureIsServerError(body: Value, jsonParse: Value -> Option<Value>,
                               smtpUser: Option<string>, mailOk: bool)
    requires Member(body, "event") == Val(Str(PaymentSucceeded))
    requires AmountOf(body).Some?
    requires MetadataOf(body, jsonParse) != Val(Null)
    requires Truthy(Member(MetadataOf(body, jsonParse).v, "email"))
    ensures var r := Webhook(body, jsonParse, false, smtpUser, mailOk);
            r.status == 500 && r.message == "Error generating QR code" && r.mail.None? && r.qrText.Some?
  {
  }

  /** A payment without `amount`, or a description that parses to null, throws inside the
      handler: 500 with no QR code and no mail. */
  lemma ThrownLookupIsInternalError(body: Value, jsonParse: Value -> Option<Value>, qrOk: bool,
                                    smtpUser: Option<string>, mailOk: bool)
    requires Member(body, "event") == Val(Str(PaymentSucceeded))
    requires AmountOf(body).None? || MetadataOf(body, jsonParse) == Val(Null)
    ensures Webhook(body, jsonParse, qrOk, smtpUser, mailOk) == InternalError
  {
  }
}
