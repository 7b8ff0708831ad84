/** The ticket-capacity ledger behind `create_payment` in app.py: a module-level table from
    session key (`day + "-" + time`) to the number of tickets sold, checked against a bound of
    50 per session and incremented in place before the payment provider is called. */
module TicketLedger {
  import opened Base
  import opened JsonValue

  const MaxTicketsPerSession: int := 50

  /** The ten body fields a payment request must carry (presence only, not non-emptiness). */
  const RequiredFields: set<string> :=
    {"name", "surname", "patronymic", "phone", "email", "day", "time", "ticketType", "quantity", "totalPrice"}

  /** The nine fields copied into the payment's metadata. */
  const MetadataFields: set<string> := RequiredFields - {"totalPrice"}

  const RegularReceiptLabel := "На каток"
  const ReducedReceiptLabel := "Льготный"

  predicate HasRequiredFields(data: map<string, Value>)
    ensures HasRequiredFields(data) <==> forall f :: f in RequiredFields ==> f in data
  {
    RequiredFields <= data.Keys
  }

  /** The ledger key of a session: the day and time rendered by `str()` and joined by a dash. */
  function SessionKey(day: Value, time: Value): (key: string)
    ensures |key| == |PyStr(day)| + 1 + |PyStr(time)|
    ensures key[..|PyStr(day)|] == PyStr(day) && key[|PyStr(day)|] == '-' && key[|PyStr(day)| + 1..] == PyStr(time)
  {
    PyStr(day) + "-" + PyStr(time)
  }

  /** Two requests share a session key exactly when their day and time texts agree, as long as
      neither day text contains a '-' (a day with one can collide with another session). */
  lemma SessionKeyIdentifiesSession(day1: Value, time1: Value, day2: Value, time2: Value)
    requires forall k :: 0 <= k < |PyStr(day1)| ==> PyStr(day1)[k] != '-'
    requires forall k :: 0 <= k < |PyStr(day2)| ==> PyStr(day2)[k] != '-'
    ensures SessionKey(day1, time1) == SessionKey(day2, time2) <==>
              PyStr(day1) == PyStr(day2) && PyStr(time1) == PyStr(time2)
  {
  }

  /** The ticket wording on the receipt item: the regular label exactly for the string
      'regular', the reduced label for every other value. */
  function ReceiptLabel(ticketType: Value): (wording: string)
    ensures wording == RegularReceiptLabel <==> ticketType == Str("regular")
    ensures wording == ReducedReceiptLabel <==> ticketType != Str("regular")
  {
    if ticketType == Str("regular") then RegularReceiptLabel else ReducedReceiptLabel
  }

  /** What is handed to the payment provider. */
  datatype PaymentOrder = PaymentOrder(
    amount: Value,               // "amount.value": the request's totalPrice
    description: string,         // "Покупка билетов: <quantity> шт."
    customerEmail: Value,        // "receipt.customer.email"
    itemDescription: string,     // ticket label, day and time on three lines
    itemQuantity: int,           // the parsed quantity
    metadata: map<string, Value> // nine request fields, verbatim
  )

  /** The outcome of one request. */
  datatype PaymentReply =
    | Unauthorized
    | MissingFields
    | QuantityNotInteger        // int(quantity) raised: an uncaught exception
    | NonPositiveQuantity       // only the corrected handler `ProcessChecked` gives this
    | SoldOut
    | ProviderFailed(order: PaymentOrder)
    | Created(order: PaymentOrder, confirmationUrl: string)
  {
    /** The HTTP status the handler answers with. */
    function Status(): (code: int)
      ensures code == 200 <==> Created?
      ensures code == 401 <==> Unauthorized?
      ensures code == 500 <==> QuantityNotInteger? || ProviderFailed?
      ensures code == 400 <==> MissingFields? || NonPositiveQuantity? || SoldOut?
    {
      match this
      case Unauthorized => 401
      case MissingFields => 400
      case QuantityNotInteger => 500
      case NonPositiveQuantity => 400
      case SoldOut => 400
      case ProviderFailed(_) => 500
      case Created(_, _) => 200
    }

    /** Whether the request added its quantity to the ledger. */
    predicate Booked() {
      ProviderFailed? || Created?
    }
  }

  /** One request: the Authorization header, the JSON body, and what the provider's
      `Payment.create` does with the order (returns a confirmation URL, or raises). */
  datatype Call = Call(authorization: Option<string>, data: map<string, Value>, provider: Option<string>)

  /** The reply and the ledger after one request. */
  datatype Step = Step(reply: PaymentReply, sold: map<string, int>)

  /** Tickets sold for a session; a key never seen counts as 0. */
  function Count(sold: map<string, int>, key: string): int {
    if key in sold then sold[key] else 0
  }

  /** The ledger invariant: no session holds more than the maximum. */
  ghost predicate WithinCapacity(sold: map<string, int>) {
    forall k :: k in sold ==> sold[k] <= MaxTicketsPerSession
  }

  /** The Authorization header is present and is exactly "Bearer " followed by the API key. */
  predicate Authorized(apiKey: string, authorization: Option<string>)
    // an absent header fails; a passing one is the Bearer scheme carrying exactly the key
    ensures authorization.None? ==> !Authorized(apiKey, authorization)
    ensures Authorized(apiKey, authorization) ==>
              |authorization.value| >= 7 && authorization.value[..7] == "Bearer " &&
              authorization.value[7..] == apiKey
  {
    authorization == Some("Bearer " + apiKey)
  }

  /** The session key of a request that passed the field check. */
  function KeyOf(data: map<string, Value>): string
    requires HasRequiredFields(data)
  {
    SessionKey(data["day"], data["time"])
  }

  /** The payment description around the quantity's numeral. */
  const DescriptionHead := "Покупка билетов: "
  const DescriptionTail := " шт."

  /** The payment description: the quantity's numeral between the fixed head and tail, which
      `int()` reads back as the quantity. */
  function OrderDescription(quantity: int): (d: string)
    ensures |d| >= |DescriptionHead| + |DescriptionTail|
    ensures d[..|DescriptionHead|] == DescriptionHead
    ensures d[|d| - |DescriptionTail|..] == DescriptionTail
    ensures IntOf(Str(d[|DescriptionHead|..|d| - |DescriptionTail|])) == Some(quantity)
  {
    var numeral := PyStr(Int(quantity));
    IntOfStrRoundTrip(quantity);
    assert (DescriptionHead + numeral + DescriptionTail)[|DescriptionHead|..|DescriptionHead| + |numeral|] == numeral;
    DescriptionHead + numeral + DescriptionTail
  }

  /** The order's metadata: the nine request fields other than totalPrice, verbatim. */
  function OrderMetadata(data: map<string, Value>): (metadata: map<string, Value>)
    requires HasRequiredFields(data)
    ensures metadata.Keys == MetadataFields
    ensures forall k :: k in metadata ==> metadata[k] == data[k]
  {
    map["name" := data["name"], "surname" := data["surname"], "patronymic" := data["patronymic"],
        "phone" := data["phone"], "email" := data["email"], "day" := data["day"],
        "time" := data["time"], "ticketType" := data["ticketType"], "quantity" := data["quantity"]]
  }

  /** The order built from a request that passed every check. */
  function OrderFor(data: map<string, Value>, quantity: int): (o: PaymentOrder)
    requires HasRequiredFields(data)
    ensures o.metadata.Keys == MetadataFields
    ensures forall k :: k in o.metadata ==> o.metadata[k] == data[k]
    ensures o.amount == data["totalPrice"] && o.customerEmail == data["email"]
    ensures o.itemQuantity == quantity
    // the description names the quantity by a numeral that `int()` reads back as the quantity
    ensures o.description == OrderDescription(quantity)
    // the receipt item: ticket wording, day and time, one per line
    ensures o.itemDescription ==
              "Билет: " + ReceiptLabel(data["ticketType"]) + "\nДень: " + PyStr(data["day"]) +
              "\nВремя: " + PyStr(data["time"])
  {
    var wording := ReceiptLabel(data["ticketType"]);
    PaymentOrder(
      data["totalPrice"],
      OrderDescription(quantity),
      data["email"],
      "Билет: " + wording + "\nДень: " + PyStr(data["day"]) + "\nВремя: " + PyStr(data["time"]),
      quantity,
      OrderMetadata(data))
  }

  /** One request to `create_payment`, as written: authorisation, field presence, session key
      initialisation, `int(quantity)`, the capacity guard, the increment, then the provider. */
  function Process(sold: map<string, int>, apiKey: string, call: Call): (r: Step)
    // 401 exactly for a wrong or absent header; 400 for a missing field; neither touches the ledger
    ensures r.reply.Unauthorized? <==> !Authorized(apiKey, call.authorization)
    ensures r.reply.MissingFields? <==> Authorized(apiKey, call.authorization) && !HasRequiredFields(call.data)
    ensures r.reply.Unauthorized? || r.reply.MissingFields? ==> r.sold == sold
    // past the field check the session key is present afterwards, even when the request is refused
    ensures !(r.reply.Unauthorized? || r.reply.MissingFields?) ==>
              HasRequiredFields(call.data) && r.sold.Keys == sold.Keys + {KeyOf(call.data)}
    // the capacity guard: refused exactly when the parsed quantity would pass the maximum
    ensures r.reply.SoldOut? <==>
              Authorized(apiKey, call.authorization) && HasRequiredFields(call.data) &&
              IntOf(call.data["quantity"]).Some? &&
              Count(sold, KeyOf(call.data)) + IntOf(call.data["quantity"]).value > MaxTicketsPerSession
    ensures r.reply.QuantityNotInteger? <==>
              Authorized(apiKey, call.authorization) && HasRequiredFields(call.data) &&
              IntOf(call.data["quantity"]).None?
    ensures r.reply.NonPositiveQuantity? == false
    ensures r.reply.Booked() ==> Authorized(apiKey, call.authorization) && HasRequiredFields(call.data)
    // counts: only a booked request changes one, its own session's, by exactly its quantity
    ensures forall k :: Count(r.sold, k) ==
              Count(sold, k) + if r.reply.Booked() && k == KeyOf(call.data) then r.reply.order.itemQuantity else 0
    ensures r.reply.Booked() ==>
              IntOf(call.data["quantity"]) == Some(r.reply.order.itemQuantity) &&
              Count(r.sold, KeyOf(call.data)) <= MaxTicketsPerSession
    // the provider's answer decides only the reply, never the ledger
    ensures r.reply.Booked() ==> (r.reply.Created? <==> call.provider.Some?)
    // the order handed to the provider is built from the request and its parsed quantity
    ensures r.reply.Booked() ==>
              HasRequiredFields(call.data) && IntOf(call.data["quantity"]).Some? &&
              r.reply.order == OrderFor(call.data, IntOf(call.data["quantity"]).value)
    ensures r.reply.Created? ==> r.reply.confirmationUrl == call.provider.value
  {
    if !Authorized(apiKey, call.authorization) then Step(Unauthorized, sold)
    else if !HasRequiredFields(call.data) then Step(MissingFields, sold)
    else
      var key := KeyOf(call.data);
      var seeded := Seed(sold, key);
      match IntOf(call.data["quantity"])
      case None => Step(QuantityNotInteger, seeded)
      case Some(quantity) => Admit(seeded, key, quantity, call.data, call.provider)
  }

  /** The table once a session key is ensured to be present: an unseen key starts at 0. */
  function Seed(sold: map<string, int>, key: string): (seeded: map<string, int>)
    ensures seeded.Keys == sold.Keys + {key}
    ensures forall k :: Count(seeded, k) == Count(sold, k)
  {
    if key in sold then sold else sold[key := 0]
  }

  /** The capacity guard and the increment for a parsed quantity, then the provider call. */
  function Admit(seeded: map<string, int>, key: string, quantity: int,
                 data: map<string, Value>, provider: Option<string>): (r: Step)
    requires HasRequiredFields(data) && key in seeded
    ensures r.reply.SoldOut? <==> seeded[key] + quantity > MaxTicketsPerSession
    ensures r.reply.SoldOut? || r.reply.Booked()
    ensures r.sold.Keys == seeded.Keys
    ensures forall k :: Count(r.sold, k) == Count(seeded, k) + if r.reply.Booked() && k == key then quantity else 0
    ensures r.reply.Booked() ==> r.reply.order.itemQuantity == quantity && r.sold[key] <= MaxTicketsPerSession
    ensures r.reply.Booked() ==> r.reply.order == OrderFor(data, quantity)
    ensures r.reply.Booked() ==> (r.reply.Created? <==> provider.Some?)
    ensures r.reply.Created? ==> r.reply.confirmationUrl == provider.value
  {
    if seeded[key] + quantity > MaxTicketsPerSession then Step(SoldOut, seeded)
    else
      var booked := seeded[key := seeded[key] + quantity];
      var order := OrderFor(data, quantity);
      match provider
      case Some(url) => Step(Created(order, url), booked)
      case None => Step(ProviderFailed(order), booked)
  }

  /** A single request keeps the ledger invariant, whatever the quantity (negative included). */
  lemma ProcessKeepsCapacity(sold: map<string, int>, apiKey: string, call: Call)
    ensures WithinCapacity(sold) ==> WithinCapacity(Process(sold, apiKey, call).sold)
  {
  }

  /** A provider failure keeps the increment: the request answers 500, the seats stay taken. */
  lemma ProviderFailureKeepsIncrement(sold: map<string, int>, apiKey: string, call: Call)
    requires Authorized(apiKey, call.authorization) && HasRequiredFields(call.data)
    requires IntOf(call.data["quantity"]).Some?
    requires Count(sold, KeyOf(call.data)) + IntOf(call.data["quantity"]).value <= MaxTicketsPerSession
    requires call.provider.None?
    ensures Process(sold, apiKey, call).reply.Status() == 500
    ensures Count(Process(sold, apiKey, call).sold, KeyOf(call.data)) ==
              Count(sold, KeyOf(call.data)) + IntOf(call.data["quantity"]).value
  {
  }

  /** The ledger after a sequence of requests, handled one after the other. */
  function Run(sold: map<string, int>, apiKey: string, calls: seq<Call>): map<string, int>
    decreases |calls|
  {
    if calls == [] then sold else Run(Process(sold, apiKey, calls[0]).sold, apiKey, calls[1..])
  }

  /** The invariant holds for the life of the process: no sequence of requests pushes a
      session past the maximum. */
  lemma {:induction false} RunKeepsCapacity(sold: map<string, int>, apiKey: string, calls: seq<Call>)
    requires WithinCapacity(sold)
    ensures WithinCapacity(Run(sold, apiKey, calls))
    decreases |calls|
  {
    if calls != [] {
      ProcessKeepsCapacity(sold, apiKey, calls[0]);
      RunKeepsCapacity(Process(sold, apiKey, calls[0]).sold, apiKey, calls[1..]);
    }
  }

  /** A request body carrying every required field, each set to its own name, except the quantity. */
  function SampleCall(apiKey: string, quantity: int): (call: Call)
    ensures HasRequiredFields(call.data)
    ensures call.data["quantity"] == Int(quantity) && call.provider.Some?
    ensures KeyOf(call.data) == "day-time"
  {
    var data := (map k | k in RequiredFields :: Str(k))["quantity" := Int(quantity)];
    Call(Some("Bearer " + apiKey), data, Some("https://pay.example.org/confirm"))
  }

  /** As written, a negative quantity passes the capacity guard and lowers the count, so a
      later request books more seats than the session has: after a request for -5 tickets,
      one request for 55 tickets is accepted. */
  lemma NegativeQuantityOversells(apiKey: string)
    ensures var first := Process(map[], apiKey, SampleCall(apiKey, -5));
            var second := Process(first.sold, apiKey, SampleCall(apiKey, 55));
            first.reply.Created? && Count(first.sold, "day-time") < 0 &&
            second.reply.Created? &&
            second.reply.order.itemQuantity > MaxTicketsPerSession
  {
  }

  /** An authorized, complete request whose quantity parses to a number below 1. */
  predicate QuantityBelowOne(apiKey: string, call: Call) {
    Authorized(apiKey, call.authorization) && HasRequiredFields(call.data) &&
    IntOf(call.data["quantity"]).Some? && IntOf(call.data["quantity"]).value < 1
  }

  /** The corrected handler: as `Process`, except that a parsed quantity below 1 is refused with
      400 (after the session key is seeded, like the other refusals past the field check). */

  function ProcessChecked(sold: map<string, int>, apiKey: string, call: Call): (r: Step)
    // a quantity below 1 is refused with 400 after seeding its session, as a sold-out one is
    ensures QuantityBelowOne(apiKey, call) ==>
              r == Step(NonPositiveQuantity, Seed(sold, KeyOf(call.data)))
    // every other request is handled exactly as before
    ensures !QuantityBelowOne(apiKey, call) ==> r == Process(sold, apiKey, call)
    ensures r.reply.Booked() ==> r.reply.order.itemQuantity >= 1
    ensures r.reply.Booked() ==> Authorized(apiKey, call.authorization) && HasRequiredFields(call.data)
    ensures forall k :: Count(r.sold, k) ==
              Count(sold, k) + if r.reply.Booked() && k == KeyOf(call.data) then r.reply.order.itemQuantity else 0
    ensures r.reply.Booked() ==> Count(r.sold, KeyOf(call.data)) <= MaxTicketsPerSession
    ensures WithinCapacity(sold) ==> WithinCapacity(r.sold)
  {
    if QuantityBelowOne(apiKey, call) then
      var key := KeyOf(call.data);
      Step(NonPositiveQuantity, Seed(sold, key))
    else
      ProcessKeepsCapacity(sold, apiKey, call);
      Process(sold, apiKey, call)
  }

  /** The ledger invariant the corrected handler keeps: every session holds between 0 and the
      maximum. (`WithinCapacity` alone lets a negative count make room for an oversized booking.) */
  ghost predicate Sound(sold: map<string, int>) {
    forall k :: k in sold ==> 0 <= sold[k] <= MaxTicketsPerSession
  }

  /** A corrected step keeps the invariant, and each of its bookings is of 1 to 50 tickets. */
  lemma CheckedStepKeepsSound(sold: map<string, int>, apiKey: string, call: Call)
    requires Sound(sold)
    ensures Sound(ProcessChecked(sold, apiKey, call).sold)
    ensures var r := ProcessChecked(sold, apiKey, call);
            r.reply.Booked() ==> 1 <= r.reply.order.itemQuantity <= MaxTicketsPerSession
  {
    var r := ProcessChecked(sold, apiKey, call);
    forall k | k in r.sold
      ensures 0 <= r.sold[k] <= MaxTicketsPerSession
    {
      assert r.sold[k] == Count(r.sold, k);
      assert 0 <= Count(sold, k) <= MaxTicketsPerSession;
    }
    if r.reply.Booked() {
      assert 0 <= Count(sold, KeyOf(call.data));
    }
  }

  /** The quantity one step books for session `key`: one entry when it books for that session,
      none otherwise. */
  function BookedFor(r: Step, call: Call, key: string): seq<int> {
    if r.reply.Booked() && HasRequiredFields(call.data) && KeyOf(call.data) == key
    then [r.reply.order.itemQuantity] else []
  }

  /** The quantities the corrected handler books for session `key` over a sequence of
      requests, in order. */
  function CheckedBookings(sold: map<string, int>, apiKey: string, calls: seq<Call>, key: string): seq<int>
    decreases |calls|
  {
    if calls == [] then []
    else
      var r := ProcessChecked(sold, apiKey, calls[0]);
      BookedFor(r, calls[0], key) + CheckedBookings(r.sold, apiKey, calls[1..], key)
  }

  function Total(quantities: seq<int>): int
    decreases |quantities|
  {
    if quantities == [] then 0 else quantities[0] + Total(quantities[1..])
  }

  /** One corrected step, seen from session `key`: the invariant is kept, the step books at
      most one positive quantity for the session, and its count grows by exactly that. */
  lemma CheckedStepForSession(sold: map<string, int>, apiKey: string, call: Call, key: string)
    requires Sound(sold)
    ensures var r := ProcessChecked(sold, apiKey, call);
            var booked := BookedFor(r, call, key);
            && Sound(r.sold)
            && |booked| <= 1 && (booked != [] ==> 1 <= booked[0])
            && Count(r.sold, key) == Count(sold, key) + Total(booked)
  {
    CheckedStepKeepsSound(sold, apiKey, call);
  }

  /** With the correction, from a ledger that keeps the invariant, every booking for a session
      is of at least one ticket, and what the session held plus all its bookings never passes
      the maximum; so there are at most 50 bookings, none above 50. (For `Process` the run
      of -5 then 55 tickets breaks the first clause.) */
  lemma {:induction false} CheckedRunNeverOversells(sold: map<string, int>, apiKey: string, calls: seq<Call>, key: string)
    requires Sound(sold)
    ensures var booked := CheckedBookings(sold, apiKey, calls, key);
            && (forall i :: 0 <= i < |booked| ==> 1 <= booked[i])
            && Count(sold, key) + Total(booked) <= MaxTicketsPerSession
            && Count(sold, key) + |booked| <= MaxTicketsPerSession
    decreases |calls|
  {
    if calls == [] {
      assert Count(sold, key) <= MaxTicketsPerSession by {
        if key in sold {
          assert 0 <= sold[key] <= MaxTicketsPerSession;
        }
      }
    } else {
      var r := ProcessChecked(sold, apiKey, calls[0]);
      var head := BookedFor(r, calls[0], key);
      var rest := CheckedBookings(r.sold, apiKey, calls[1..], key);
      CheckedStepForSession(sold, apiKey, calls[0], key);
      CheckedRunNeverOversells(r.sold, apiKey, calls[1..], key);
      PrependBooking(Count(sold, key), Count(r.sold, key), head, rest);
    }
  }

  /** The bound of a run, one booking earlier: prepending at most one positive quantity that
      the count already absorbed keeps every bound. */
  lemma PrependBooking(count: int, newCount: int, head: seq<int>, rest: seq<int>)
    requires |head| <= 1 && (head != [] ==> 1 <= head[0]) && newCount == count + Total(head)
    requires forall i :: 0 <= i < |rest| ==> 1 <= rest[i]
    requires newCount + Total(rest) <= MaxTicketsPerSession && newCount + |rest| <= MaxTicketsPerSession
    ensures forall i :: 0 <= i < |head + rest| ==> 1 <= (head + rest)[i]
    ensures count + Total(head + rest) <= MaxTicketsPerSession
    ensures count + |head + rest| <= MaxTicketsPerSession
  {
    if head != [] {
      assert (head + rest)[1..] == rest;
    } else {
      assert head + rest == rest;
    }
  }

  /** The ledger as the Flask process holds it: the module-level table, updated in place by
      each `create_payment` request. */
  class Ledger {
    const apiKey: string
    var sold: map<string, int>

    /** A fresh process: the configured key and an empty table. */
    constructor (apiKey: string)
      ensures this.apiKey == apiKey && sold == map[]
      ensures WithinCapacity(sold)
    {
      this.apiKey := apiKey;
      sold := map[];
    }

    /** Handles one `POST /create-payment` request. `provider` is what `Payment.create` does
        with the order: a confirmation URL, or None when it raises. */
    method CreatePayment(authorization: Option<string>, data: map<string, Value>, provider: Option<string>)
      returns (reply: PaymentReply)
      modifies this
      ensures Step(reply, sold) == Process(old(sold), apiKey, Call(authorization, data, provider))
      ensures old(WithinCapacity(sold)) ==> WithinCapacity(sold)
    {
      if authorization != Some("Bearer " + apiKey) {
        return Unauthorized;
      }
      if !(RequiredFields <= data.Keys) {
        return MissingFields;
      }
      var key := SessionKey(data["day"], data["time"]);
      if key !in sold {
        sold := sold[key := 0];
      }
      assert sold == Seed(old(sold), key);
      var quantity := IntOf(data["quantity"]);
      if quantity.None? {
        return QuantityNotInteger;
      }
      reply := Book(key, quantity.value, data, provider);
      ProcessKeepsCapacity(old(sold), apiKey, Call(authorization, data, provider));
    }

    /** The capacity guard, the in-place increment and the provider call, for a request whose
        session key is already in the table. */
    method Book(key: string, quantity: int, data: map<string, Value>, provider: Option<string>)
      returns (reply: PaymentReply)
      requires HasRequiredFields(data) && key in sold
      modifies this
      ensures Step(reply, sold) == Admit(old(sold), key, quantity, data, provider)
    {
      if sold[key] + quantity > MaxTicketsPerSession {
        return SoldOut;
      }
      sold := sold[key := sold[key] + quantity];
      var order := OrderFor(data, quantity);
      if provider.Some? {
        reply := Created(order, provider.value);
      } else {
        reply := ProviderFailed(order);
      }
    }
  }
}
