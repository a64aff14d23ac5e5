/**
 * The payment-completion webhook (`POST /api/webhook`): it verifies the payment
 * processor's event, and on a completed checkout session settles the order named
 * in the session metadata, creating the buyer if absent, recording the shipment
 * form and archiving the purchased products.
 *
 * The relational store is an in-memory `Store` object. `Handle` is the
 * specification of one delivery as a function of the old store state, and
 * `Store.Post` performs the same steps one store mutation at a time.
 */
module Webhook {
  import opened JsValues

  const CheckoutSessionCompleted := "checkout.session.completed"
  const Unknown := "Unknown"

  // ---------------------------------------------------------------------------
  // The event, as the signature check hands it over

  /** The billing address collected at checkout; each component may be null. */
  datatype Address = Address(
    line1: JsString, line2: JsString, city: JsString,
    state: JsString, postalCode: JsString, country: JsString)

  datatype CustomerDetails = CustomerDetails(address: Option<Address>, phone: JsString)

  /** The checkout session carried by the event: string metadata and customer details. */
  datatype Session = Session(metadata: Option<map<string, string>>, customerDetails: Option<CustomerDetails>)

  datatype Event = Event(eventType: string, session: Session)

  /** What the signature check yields: the parsed event, or the error it throws. */
  datatype Verification = Verified(event: Event) | Rejected(message: string)

  datatype Response = Response(status: int, body: Option<string>)

  /** The empty 200 acknowledgement. */
  const Ok := Response(200, None)

  /** What the framework answers when a store call throws. */
  const ServerError := Response(500, None)

  // ---------------------------------------------------------------------------
  // Store records

  datatype User = User(name: string, email: string)

  /** A snapshot of a product taken at checkout; the product id is null once the product is gone. */
  datatype OrderItem = OrderItem(productId: JsString, productName: string)

  datatype Order = Order(
    storeId: string, isPaid: bool, address: string, phone: string,
    userName: string, userEmail: string, status: string, items: seq<OrderItem>)

  datatype Product = Product(name: string, isArchived: bool)

  /** Sender, recipient and notes captured for shipping, linked to an order. */
  datatype FormRecord = FormRecord(
    orderId: string, senderName: string, senderPhone: string,
    recipientName: string, recipientPhone: string, recipientAddress: string,
    additionalNotes: string)

  /** Users, orders and products keyed by id, and the form records in creation order. */
  datatype StoreState = StoreState(
    users: map<string, User>, orders: map<string, Order>,
    products: map<string, Product>, forms: seq<FormRecord>)

  datatype Outcome = Outcome(store: StoreState, response: Response)

  // ---------------------------------------------------------------------------
  // Reading the session

  /** `session?.metadata?.[key]`: undefined when there is no metadata or no such key. */
  function MetadataField(metadata: Option<map<string, string>>, key: string): (r: JsString)
    ensures r != Null
    ensures r.Str? <==> metadata.Some? && key in metadata.value
    ensures r.Str? ==> r.value == metadata.value[key]
  {
    if metadata.Some? && key in metadata.value then Str(metadata.value[key]) else Undefined
  }

  function OrderIdOf(session: Session): JsString {
    MetadataField(session.metadata, "orderId")
  }

  function UserIdOf(session: Session): JsString {
    MetadataField(session.metadata, "userId")
  }

  /** `session?.customer_details?.phone` */
  function Phone(details: Option<CustomerDetails>): (r: JsString)
    ensures details.None? ==> r == Undefined
    ensures details.Some? ==> r == details.value.phone
  {
    if details.Some? then details.value.phone else Undefined
  }

  /**
   * `[address?.line1, address?.line2, address?.city, address?.state,
   * address?.postal_code, address?.country]`: all undefined when the session
   * carries no customer details or no address.
   */
  function AddressComponents(details: Option<CustomerDetails>): (r: seq<JsString>)
    ensures |r| == 6
    ensures details.None? || details.value.address.None? ==> forall i :: 0 <= i < 6 ==> r[i] == Undefined
    ensures details.Some? && details.value.address.Some? ==>
      var a := details.value.address.value;
      r[0] == a.line1 && r[1] == a.line2 && r[2] == a.city &&
      r[3] == a.state && r[4] == a.postalCode && r[5] == a.country
  {
    if details.Some? && details.value.address.Some? then
      var a := details.value.address.value;
      [a.line1, a.line2, a.city, a.state, a.postalCode, a.country]
    else
      [Undefined, Undefined, Undefined, Undefined, Undefined, Undefined]
  }

  /**
   * The components with nulls removed, joined with ", ": the first kept
   * component leads; `AddressLength` gives the length.
   */
  function AddressString(details: Option<CustomerDetails>): (r: string)
    ensures var kept := WithoutNulls(AddressComponents(details));
      && (kept == [] ==> r == "")
      && (kept != [] ==> Render(kept[0]) <= r)
  {
    Join(WithoutNulls(AddressComponents(details)), ", ")
  }

  // ---------------------------------------------------------------------------
  // The settlement steps

  /** The user lookup followed by a create only when the lookup found nobody. */
  function UpsertUser(users: map<string, User>, id: string, name: string, email: string): (r: map<string, User>)
    ensures r.Keys == users.Keys + {id}
    ensures forall k :: k in users ==> r[k] == users[k]
    ensures id !in users ==> r[id] == User(name, email)
  {
    if id in users then users else users[id := User(name, email)]
  }

  /** The fields the order update writes; every other field is kept. */
  function SettleOrder(order: Order, address: string, phone: string, user: User): (r: Order)
    ensures r.isPaid && r.address == address && r.phone == phone
    ensures r.userName == user.name && r.userEmail == user.email
    ensures r.storeId == order.storeId && r.status == order.status && r.items == order.items
  {
    order.(isPaid := true, address := address, phone := phone,
           userName := user.name, userEmail := user.email)
  }

  /** The shipment-form record built from the metadata, each field defaulted on its own. */
  function FormRecordFor(orderId: string, metadata: Option<map<string, string>>): (r: FormRecord)
    ensures r.orderId == orderId
    ensures r.senderName != "" && r.senderPhone != "" && r.recipientName != ""
    ensures r.recipientPhone != "" && r.recipientAddress != ""
    ensures metadata.None? ==> r == FormRecord(orderId, Unknown, Unknown, Unknown, Unknown, Unknown, "")
    ensures metadata.Some? ==>
      var m := metadata.value;
      && ("senderName" in m && m["senderName"] != "" ==> r.senderName == m["senderName"])
      && ("senderName" !in m || m["senderName"] == "" ==> r.senderName == Unknown)
      && ("senderPhone" in m && m["senderPhone"] != "" ==> r.senderPhone == m["senderPhone"])
      && ("senderPhone" !in m || m["senderPhone"] == "" ==> r.senderPhone == Unknown)
      && ("recipientName" in m && m["recipientName"] != "" ==> r.recipientName == m["recipientName"])
      && ("recipientName" !in m || m["recipientName"] == "" ==> r.recipientName == Unknown)
      && ("recipientPhone" in m && m["recipientPhone"] != "" ==> r.recipientPhone == m["recipientPhone"])
      && ("recipientPhone" !in m || m["recipientPhone"] == "" ==> r.recipientPhone == Unknown)
      && ("recipientAddress" in m && m["recipientAddress"] != "" ==> r.recipientAddress == m["recipientAddress"])
      && ("recipientAddress" !in m || m["recipientAddress"] == "" ==> r.recipientAddress == Unknown)
      && ("additionalNotes" in m ==> r.additionalNotes == m["additionalNotes"])
      && ("additionalNotes" !in m ==> r.additionalNotes == "")
  {
    FormRecord(
      orderId,
      Or(MetadataField(metadata, "senderName"), Unknown),
      Or(MetadataField(metadata, "senderPhone"), Unknown),
      Or(MetadataField(metadata, "recipientName"), Unknown),
      Or(MetadataField(metadata, "recipientPhone"), Unknown),
      Or(MetadataField(metadata, "recipientAddress"), Unknown),
      Or(MetadataField(metadata, "additionalNotes"), ""))
  }

  /** `orderItems.map((item) => item.productId)` */
  function ProductIds(items: seq<OrderItem>): (r: seq<JsString>)
    ensures |r| == |items|
    ensures forall i :: 0 <= i < |items| ==> r[i] == items[i].productId
  {
    seq(|items|, i requires 0 <= i < |items| => items[i].productId)
  }

  /** The product ids of the items with the null ones filtered out. */
  function ValidProductIds(items: seq<OrderItem>): (r: seq<JsString>)
    ensures Null !in r
    ensures forall id :: Str(id) in r <==> Referenced(items, id)
  {
    WithoutNulls(ProductIds(items))
  }

  /** Some item of the order points at product `id`. */
  ghost predicate Referenced(items: seq<OrderItem>, id: string) {
    exists i :: 0 <= i < |items| && items[i].productId == Str(id)
  }

  /** `updateMany` with `id in ids`: sets the archived flag of exactly the listed products. */
  function Archive(products: map<string, Product>, ids: seq<JsString>): (r: map<string, Product>)
    ensures r.Keys == products.Keys
    ensures forall id :: id in r ==>
      r[id].name == products[id].name &&
      (r[id].isArchived <==> products[id].isArchived || Str(id) in ids)
  {
    map id | id in products :: if Str(id) in ids then products[id].(isArchived := true) else products[id]
  }

  // ---------------------------------------------------------------------------
  // One delivery, as a function of the store state before it

  /** The conditions under which a completed event reaches the end of the settlement. */
  predicate Settles(s: StoreState, session: Session) {
    Truthy(OrderIdOf(session)) && UserIdOf(session).Str? && OrderIdOf(session).value in s.orders
  }

  /**
   * A completed checkout session: reject a missing order id, look up or create
   * the user, update the order, append a form record and archive the products.
   * A store call that throws ends the delivery with a 500 and keeps what was
   * already written.
   */
  function Settle(s: StoreState, session: Session): (o: Outcome)
    ensures o.response.status == 400 ==> o.store == s
    ensures o.response.status == 500 ==> o.store == s.(users := o.store.users)
    ensures o.response == Ok <==> Settles(s, session)
    ensures o.store.orders.Keys == s.orders.Keys && o.store.products.Keys == s.products.Keys
    ensures forall id :: id in s.users ==> id in o.store.users && o.store.users[id] == s.users[id]
    ensures forall id :: id in o.store.users && id !in s.users ==> UserIdOf(session) == Str(id)
  {
    var orderId := OrderIdOf(session);
    var userId := UserIdOf(session);
    if !Truthy(orderId) then
      Outcome(s, Response(400, Some("Order ID is missing")))
    else if !userId.Str? then
      // the user lookup is given no id and throws
      Outcome(s, ServerError)
    else
      var users := UpsertUser(s.users, userId.value,
                              Or(MetadataField(session.metadata, "userName"), Unknown),
                              Or(MetadataField(session.metadata, "userEmail"), Unknown));
      if orderId.value !in s.orders then
        // the order update finds no record and throws; the user stays created
        Outcome(s.(users := users), ServerError)
      else
        var order := SettleOrder(s.orders[orderId.value], AddressString(session.customerDetails),
                                 Or(Phone(session.customerDetails), ""), users[userId.value]);
        Outcome(
          StoreState(
            users,
            s.orders[orderId.value := order],
            Archive(s.products, ValidProductIds(order.items)),
            s.forms + [FormRecordFor(orderId.value, session.metadata)]),
          Ok)
  }

  /** One webhook delivery: the store after it and the response. */
  function Handle(s: StoreState, verification: Verification): (o: Outcome)
    ensures o.response.status in {200, 400, 500}
    ensures o.response.status != 200 ==>
      o.store.orders == s.orders && o.store.products == s.products && o.store.forms == s.forms
    ensures s.forms <= o.store.forms && |o.store.forms| <= |s.forms| + 1
  {
    match verification
    case Rejected(message) =>
      Outcome(s, Response(400, Some("Webhook Error: " + message)))
    case Verified(event) =>
      if event.eventType == CheckoutSessionCompleted then Settle(s, event.session) else Outcome(s, Ok)
  }

  // ---------------------------------------------------------------------------
  // The handler over a mutable store

  class Store {
    var users: map<string, User>
    var orders: map<string, Order>
    var products: map<string, Product>
    var forms: seq<FormRecord>

    constructor (initial: StoreState)
      ensures State() == initial
    {
      users, orders, products, forms := initial.users, initial.orders, initial.products, initial.forms;
    }

    function State(): StoreState
      reads this
    {
      StoreState(users, orders, products, forms)
    }

    /**
     * The webhook handler: `constructEvent` is the processor's signature check
     * over the raw body, the signature header and the shared secret.
     */
    method Post(constructEvent: (string, string, string) -> Verification,
                body: string, signature: string, secret: string)
      returns (response: Response)
      modifies this
      ensures Outcome(State(), response) == Handle(old(State()), constructEvent(body, signature, secret))
      ensures response.status == 400 ==> State() == old(State())
    {
      var verification := constructEvent(body, signature, secret);
      if verification.Rejected? {
        return Response(400, Some("Webhook Error: " + verification.message));
      }
      var event := verification.event;
      var session := event.session;
      var addressString := AddressString(session.customerDetails);

      if event.eventType == CheckoutSessionCompleted {
        response := SettleSession(session, addressString);
        return;
      }
      return Ok;
    }

    /** The body of the handler for a completed checkout session. */
    method SettleSession(session: Session, addressString: string) returns (response: Response)
      requires addressString == AddressString(session.customerDetails)
      modifies this
      ensures Outcome(State(), response) == Settle(old(State()), session)
    {
      ghost var before := State();
      var orderId := OrderIdOf(session);
      if !Truthy(orderId) {
        return Response(400, Some("Order ID is missing"));
      }
      var userId := UserIdOf(session);
      var userName := Or(MetadataField(session.metadata, "userName"), Unknown);
      var userEmail := Or(MetadataField(session.metadata, "userEmail"), Unknown);

      if !userId.Str? {
        return ServerError;
      }
      var user: User;
      if userId.value in users {
        user := users[userId.value];
      } else {
        user := User(userName, userEmail);
        users := users[userId.value := user];
      }
      assert users == UpsertUser(before.users, userId.value, userName, userEmail);
      assert user == users[userId.value];

      if orderId.value !in orders {
        return ServerError;
      }
      assert Settles(before, session);
      var order := SettleOrder(orders[orderId.value], addressString,
                               Or(Phone(session.customerDetails), ""), user);
      Fulfil(orderId.value, order, session.metadata);
      return Ok;
    }

    /** The writes after the order is found: the order update, the form record and the archival. */
    method Fulfil(orderId: string, order: Order, metadata: Option<map<string, string>>)
      modifies this
      ensures State() == StoreState(old(users), old(orders)[orderId := order],
                                    Archive(old(products), ValidProductIds(order.items)),
                                    old(forms) + [FormRecordFor(orderId, metadata)])
    {
      orders := orders[orderId := order];

      forms := forms + [FormRecordFor(orderId, metadata)];

      var validProductIds := ValidProductIds(order.items);
      products := Archive(products, validProductIds);
    }
  }
}
