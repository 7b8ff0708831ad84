/** The `/webhook` handler of the Flask service. app.py (lines 130-186) and main.py (lines
    56-112) carry the same handler text, so one definition models both: HMAC signature check,
    event classification, email check, `tickets_info`, QR generation and a mail whose failure
    is swallowed. An exception the handler does not catch becomes Flask's 500 reply. */
module FlaskWebhook {
  import opened Base
  import opened JsonValue

  const MailSubject := "Ваши билеты"

  /** The seven keys of `tickets_info`. */
  const TicketKeys: set<string> := {"name", "surname", "patronymic", "day", "time", "ticketType", "quantity"}

  /** The confirmation mail: recipient, subject and the ticket details rendered into it. */
  datatype Mail = Mail(recipient: Value, subject: string, tickets: map<string, Value>)

  /** A mail handed to the sender, and whether sending it succeeded. */
  datatype Dispatch = Dispatch(mail: Mail, delivered: bool)

  /** What one request produces: the HTTP status and text, the data given to the QR encoder
      (when it was called) and the mail dispatch (when it was attempted). */
  datatype Reply = Reply(status: int, text: string, qrData: Option<map<string, Value>>, mail: Option<Dispatch>)

  const InternalError := Reply(500, "Internal Server Error", None, None)
  const Acknowledged := Reply(200, "OK", None, None)

  /** `tickets_info`: the seven ticket fields copied from the payment metadata, None where absent. */
  function TicketsInfo(metadata: map<string, Value>): (info: map<string, Value>)
    ensures info.Keys == TicketKeys
    ensures forall k :: k in info && k in metadata ==> info[k] == metadata[k]
    ensures forall k :: k in info && k !in metadata ==> info[k] == Null
  {
    map["name" := PyGet(metadata, "name"),
        "surname" := PyGet(metadata, "surname"),
        "patronymic" := PyGet(metadata, "patronymic"),
        "day" := PyGet(metadata, "day"),
        "time" := PyGet(metadata, "time"),
        "ticketType" := PyGet(metadata, "ticketType"),
        "quantity" := PyGet(metadata, "quantity")]
  }

  /** The signature header equals the HMAC-SHA256 hex digest of the body under the secret. */
  predicate SignatureValid(signature: Option<string>, secret: string, body: string,
                           hmacHex: (string, string) -> string)
    // a missing header never passes; a present one passes only as the digest itself
    ensures signature.None? ==> !SignatureValid(signature, secret, body, hmacHex)
    ensures SignatureValid(signature, secret, body, hmacHex) ==> signature.value == hmacHex(secret, body)
  {
    signature == Some(hmacHex(secret, body))
  }

  /** `payment.get('metadata', {})` of a decoded event, when every lookup on the way succeeds:
      the event is a dict carrying "event" and "object", and the payment object is a dict. */
  function MetadataOf(event: Value): (metadata: Option<Value>)
    // every lookup succeeds exactly on a dict event carrying "event" and "object" whose payment
    // object is a dict
    ensures metadata.Some? <==>
              event.Obj? && "event" in event.fields && "object" in event.fields && event.fields["object"].Obj?
    // the payment's "metadata" entry verbatim, `{}` when the payment has none
    ensures metadata.Some? ==>
              var payment := event.fields["object"].fields;
              metadata.value == if "metadata" in payment then payment["metadata"] else Obj(map[])
  {
    if event.Obj? && "event" in event.fields && "object" in event.fields && event.fields["object"].Obj? then
      var payment := event.fields["object"].fields;
      Some(if "metadata" in payment then payment["metadata"] else Obj(map[]))
    else None
  }

  /** A decoded event the handler fulfils: a payment.succeeded event whose metadata is a dict
      with a truthy email. */
  predicate Fulfillable(event: Value) {
    && event.Obj? && "event" in event.fields && event.fields["event"] == Str(PaymentSucceeded)
    && MetadataOf(event).Some? && MetadataOf(event).value.Obj?
    && PyTruthy(PyGet(MetadataOf(event).value.fields, "email"))
  }

  /** A decoded event on which a lookup of the handler raises: it is not a dict or has no
      "event", or it is a payment.succeeded event whose payment is missing or not a dict or
      whose metadata is not a dict. */
  predicate Raises(event: Value) {
    || !(event.Obj? && "event" in event.fields)
    || (event.fields["event"] == Str(PaymentSucceeded) && (MetadataOf(event).None? || !MetadataOf(event).value.Obj?))
  }

  /** One webhook request. `secret` is WEBHOOK_SECRET (None when unset), `hmacHex` the
      HMAC-SHA256 hex digest, `jsonLoads` the outcome of `json.loads`, `qrOk` and `mailOk` the
      outcomes of QR generation and of sending the mail. */
  function Webhook(signature: Option<string>, secret: Option<string>, body: string,
                   hmacHex: (string, string) -> string, jsonLoads: string -> Option<Value>,
                   qrOk: bool, mailOk: bool): (r: Reply)
    // no secret configured: `None.encode()` raises before anything else
    ensures secret.None? ==> r == InternalError
    // a wrong or missing signature: 403 with no QR and no mail
    ensures secret.Some? && !SignatureValid(signature, secret.value, body, hmacHex) ==>
              r == Reply(403, "Invalid signature", None, None)
    ensures r.status == 200 || r.status == 403 || r.status == 500
    // 403 only for a wrong or missing signature
    ensures r.status == 403 <==> secret.Some? && !SignatureValid(signature, secret.value, body, hmacHex)
    // 500 exactly when something raises: no secret, an undecodable body, a failing lookup, or
    // QR generation for a fulfillable event
    ensures r.status == 500 <==>
              || secret.None?
              || (&& SignatureValid(signature, secret.value, body, hmacHex)
                  && (|| jsonLoads(body).None?
                      || Raises(jsonLoads(body).value)
                      || (Fulfillable(jsonLoads(body).value) && !qrOk)))
    // a mail is attempted exactly for an authentic, fulfillable event whose QR code was made
    ensures r.mail.Some? <==>
              secret.Some? && SignatureValid(signature, secret.value, body, hmacHex) &&
              jsonLoads(body).Some? && Fulfillable(jsonLoads(body).value) && qrOk
    // the mail goes to the metadata's email, with the same ticket data the QR code encodes
    ensures r.mail.Some? ==>
              var metadata := MetadataOf(jsonLoads(body).value).value.fields;
              && r.mail.value.mail == Mail(metadata["email"], MailSubject, TicketsInfo(metadata))
              && r.qrData == Some(TicketsInfo(metadata))
    // a failed mail is swallowed: the reply is 200 all the same
    ensures r.mail.Some? ==> r.status == 200 && r.mail.value.delivered == mailOk
  {
    if secret.None? then InternalError
    else if !SignatureValid(signature, secret.value, body, hmacHex) then Reply(403, "Invalid signature", None, None)
    else match jsonLoads(body)
      case None => InternalError
      case Some(event) =>
        if !event.Obj? || "event" !in event.fields then InternalError
        else if event.fields["event"] != Str(PaymentSucceeded) then Acknowledged
        else if "object" !in event.fields then InternalError
        else
          var payment := event.fields["object"];
          if !payment.Obj? then InternalError
          else
            var metadata := if "metadata" in payment.fields then payment.fields["metadata"] else Obj(map[]);
            if !metadata.Obj? then InternalError
            else
              var email := PyGet(metadata.fields, "email");
              if !PyTruthy(email) then Acknowledged
              else
                var info := TicketsInfo(metadata.fields);
                if !qrOk then Reply(500, "Internal Server Error", Some(info), None)
                else Reply(200, "OK", Some(info), Some(Dispatch(Mail(email, MailSubject, info), mailOk)))
  }

  /** An authentic event other than payment.succeeded is acknowledged with 200 and dropped. */
  lemma OtherEventsAcknowledged(signature: Option<string>, secret: string, body: string,
                                hmacHex: (string, string) -> string, jsonLoads: string -> Option<Value>,
                                qrOk: bool, mailOk: bool)
    requires SignatureValid(signature, secret, body, hmacHex)
    requires jsonLoads(body).Some? && jsonLoads(body).value.Obj?
    requires "event" in jsonLoads(body).value.fields
    requires jsonLoads(body).value.fields["event"] != Str(PaymentSucceeded)
    ensures Webhook(signature, Some(secret), body, hmacHex, jsonLoads, qrOk, mailOk) == Acknowledged
  {
  }

  /** A payment.succeeded event whose payment has no metadata, or metadata without a truthy
      email, is acknowledged with 200: no QR code, no mail. */
  lemma MissingEmailAcknowledged(signature: Option<string>, secret: string, body: string,
                                 hmacHex: (string, string) -> string, jsonLoads: string -> Option<Value>,
                                 qrOk: bool, mailOk: bool)
    requires SignatureValid(signature, secret, body, hmacHex)
    requires jsonLoads(body).Some?
    requires MetadataOf(jsonLoads(body).value).Some?
    requires jsonLoads(body).value.fields["event"] == Str(PaymentSucceeded)
    requires MetadataOf(jsonLoads(body).value).value.Obj?
    requires !PyTruthy(PyGet(MetadataOf(jsonLoads(body).value).value.fields, "email"))
    ensures Webhook(signature, Some(secret), body, hmacHex, jsonLoads, qrOk, mailOk) == Acknowledged
  {
  }

  /** The outcome of sending the mail never changes the reply's status. */
  lemma MailFailureSwallowed(signature: Option<string>, secret: Option<string>, body: string,
                             hmacHex: (string, string) -> string, jsonLoads: string -> Option<Value>,
                             qrOk: bool)
    ensures Webhook(signature, secret, body, hmacHex, jsonLoads, qrOk, false).status ==
            Webhook(signature, secret, body, hmacHex, jsonLoads, qrOk, true).status
  {
  }
}
