/** Where the Flask handler (app.py, main.py) and the Express handler (server.js) answer the
    same decoded event differently. The Flask side is taken past its signature check and the
    Express side past its middleware. */
module Variants {
  import opened Base
  import opened JsonValue
  import FlaskWebhook
  import ExpressWebhook

  /** An event other than payment.succeeded: Flask acknowledges it with 200, Express refuses it
      with 400; neither attempts a mail. */
  lemma UnsupportedEventStatuses(signature: Option<string>, secret: string, body: string,
                                 hmacHex: (string, string) -> string, jsonLoads: string -> Option<Value>,
                                 jsonParse: Value -> Option<Value>, smtpUser: Option<string>,
                                 qrOk: bool, mailOk: bool, event: Value)
    requires FlaskWebhook.SignatureValid(signature, secret, body, hmacHex)
    requires jsonLoads(body) == Some(event)
    requires event.Obj? && "event" in event.fields && event.fields["event"] != Str(PaymentSucceeded)
    ensures var py := FlaskWebhook.Webhook(signature, Some(secret), body, hmacHex, jsonLoads, qrOk, mailOk);
            var js := ExpressWebhook.Webhook(event, jsonParse, qrOk, smtpUser, mailOk);
            py.status == 200 && js.status == 400 && py.mail.None? && js.mail.None?
  {
  }

  /** A payment.succeeded event whose ticket details carry no email: Flask answers 200, Express
      answers 400; neither makes a QR code or attempts a mail. */
  lemma MissingEmailStatuses(signature: Option<string>, secret: string, body: string,
                             hmacHex: (string, string) -> string, jsonLoads: string -> Option<Value>,
                             jsonParse: Value -> Option<Value>, smtpUser: Option<string>,
                             qrOk: bool, mailOk: bool, event: Value)
    requires FlaskWebhook.SignatureValid(signature, secret, body, hmacHex)
    requires jsonLoads(body) == Some(event)
    requires FlaskWebhook.MetadataOf(event).Some? && FlaskWebhook.MetadataOf(event).value.Obj?
    requires event.fields["event"] == Str(PaymentSucceeded)
    requires !PyTruthy(PyGet(FlaskWebhook.MetadataOf(event).value.fields, "email"))
    requires ExpressWebhook.AmountOf(event).Some?
    requires ExpressWebhook.MetadataOf(event, jsonParse) != ExpressWebhook.Val(Null)
    requires !ExpressWebhook.Truthy(ExpressWebhook.Member(ExpressWebhook.MetadataOf(event, jsonParse).v, "email"))
    ensures var py := FlaskWebhook.Webhook(signature, Some(secret), body, hmacHex, jsonLoads, qrOk, mailOk);
            var js := ExpressWebhook.Webhook(event, jsonParse, qrOk, smtpUser, mailOk);
            py.status == 200 && js.status == 400 && py.mail.None? && js.mail.None? &&
            py.qrData.None? && js.qrText.None?
  {
  }

  /** A mail that fails to send after both handlers attempted it: Flask still answers 200,
      Express answers 500. */
  lemma MailFailureStatuses(signature: Option<string>, secret: string, body: string,
                            hmacHex: (string, string) -> string, jsonLoads: string -> Option<Value>,
                            jsonParse: Value -> Option<Value>, smtpUser: string, event: Value)
    requires FlaskWebhook.SignatureValid(signature, secret, body, hmacHex)
    requires jsonLoads(body) == Some(event)
    requires FlaskWebhook.Fulfillable(event)
    requires ExpressWebhook.Member(event, "event") == ExpressWebhook.Val(Str(PaymentSucceeded))
    requires ExpressWebhook.AmountOf(event).Some?
    requires ExpressWebhook.MetadataOf(event, jsonParse) != ExpressWebhook.Val(Null)
    requires ExpressWebhook.Truthy(ExpressWebhook.Member(ExpressWebhook.MetadataOf(event, jsonParse).v, "email"))
    ensures var py := FlaskWebhook.Webhook(signature, Some(secret), body, hmacHex, jsonLoads, true, false);
            py.status == 200 && py.mail.Some? && !py.mail.value.delivered
    ensures var js := ExpressWebhook.Webhook(event, jsonParse, true, Some(smtpUser), false);
            js.status == 500 && js.mail.Some? && !js.mail.value.delivered
  {
  }

  /** The two truth tests an email passes through (`not email` in Flask, `!email` in Express)
      disagree exactly on an empty list and an empty dict, which Python finds false and
      JavaScript true. */
  lemma TruthinessDiffers(v: Value)
    ensures ExpressWebhook.Truthy(ExpressWebhook.Val(v)) != PyTruthy(v) <==> v == Arr([]) || v == Obj(map[])
  {
  }
}
