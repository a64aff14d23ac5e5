/**
 * What one delivery of the payment webhook does to the store, stated about the
 * specification function `Handle` that `Store.Post` is proved to follow.
 */
module WebhookProperties {
  import opened JsValues
  import opened Webhook

  /** The event passed the signature check and is a completed checkout session. */
  predicate IsCompletion(v: Verification) {
    v.Verified? && v.event.eventType == CheckoutSessionCompleted
  }

  // ---------------------------------------------------------------------------
  // Exits

  /** Whatever the body, a delivery the signature check rejects is answered 400 and writes nothing. */
  lemma ForgedDeliveryRejected(s: StoreState, constructEvent: (string, string, string) -> Verification,
                               body: string, signature: string, secret: string)
    requires constructEvent(body, signature, secret).Rejected?
    ensures Handle(s, constructEvent(body, signature, secret))
         == Outcome(s, Response(400, Some("Webhook Error: " + constructEvent(body, signature, secret).message)))
  {
  }

  /** Every other event type is acknowledged with an empty 200 and writes nothing. */
  lemma OtherEventTypesIgnored(s: StoreState, event: Event)
    requires event.eventType != CheckoutSessionCompleted
    ensures Handle(s, Verified(event)) == Outcome(s, Ok)
  {
  }

  /** A completed session without a usable order id is answered 400 and writes nothing. */
  lemma MissingOrderIdRejected(s: StoreState, event: Event)
    requires event.eventType == CheckoutSessionCompleted
    requires !Truthy(OrderIdOf(event.session))
    ensures Handle(s, Verified(event)) == Outcome(s, Response(400, Some("Order ID is missing")))
  {
  }

  /** Which deliveries end in which status. */
  lemma ResponseStatus(s: StoreState, v: Verification)
    ensures var status := Handle(s, v).response.status;
      && (status == 400 <==> v.Rejected? || (IsCompletion(v) && !Truthy(OrderIdOf(v.event.session))))
      && (status == 500 <==> IsCompletion(v) && Truthy(OrderIdOf(v.event.session)) && !Settles(s, v.event.session))
      && (status == 200 <==> v.Verified? && (!IsCompletion(v) || Settles(s, v.event.session)))
  {
  }

  /**
   * Both 400 exits come before any store call. A 500 comes from a store call
   * that throws, and by then at most the user has been written.
   */
  lemma ErrorExitsWriteNothing(s: StoreState, v: Verification)
    ensures var o := Handle(s, v);
      && (o.response.status == 400 ==> o.store == s)
      && (o.response.status == 500 ==> o.store == s.(users := o.store.users))
  {
  }

  // ---------------------------------------------------------------------------
  // The user

  /**
   * The user step only ever creates: existing users keep their name and email,
   * the one user that may appear is the metadata's user id, with the
   * metadata's name and email or "Unknown", and once a completion with an
   * order id reaches the lookup that user exists, whether or not the order
   * update then succeeds.
   */
  lemma UsersCreatedIfAbsent(s: StoreState, v: Verification)
    ensures var users := Handle(s, v).store.users;
      && (forall id :: id in s.users ==> id in users && users[id] == s.users[id])
      && (forall id :: id in users && id !in s.users ==>
            && IsCompletion(v)
            && UserIdOf(v.event.session) == Str(id)
            && users[id] == User(Or(MetadataField(v.event.session.metadata, "userName"), Unknown),
                                 Or(MetadataField(v.event.session.metadata, "userEmail"), Unknown)))
      && (IsCompletion(v) && Truthy(OrderIdOf(v.event.session)) && UserIdOf(v.event.session).Str? ==>
            var id := UserIdOf(v.event.session).value;
            && id in users
            && (id !in s.users ==>
                  users[id] == User(Or(MetadataField(v.event.session.metadata, "userName"), Unknown),
                                    Or(MetadataField(v.event.session.metadata, "userEmail"), Unknown))))
  {
  }

  /**
   * There is no transaction: when the order update throws, a user created just
   * before it stays created.
   */
  lemma UserKeptWhenOrderMissing(s: StoreState, event: Event)
    requires event.eventType == CheckoutSessionCompleted
    requires Truthy(OrderIdOf(event.session)) && UserIdOf(event.session).Str?
    requires OrderIdOf(event.session).value !in s.orders
    requires UserIdOf(event.session).value !in s.users
    ensures var o := Handle(s, Verified(event));
      && o.response == ServerError
      && UserIdOf(event.session).value in o.store.users
      && o.store.orders == s.orders && o.store.products == s.products && o.store.forms == s.forms
  {
  }

  // ---------------------------------------------------------------------------
  // The order

  /**
   * A settled order is paid, carries the assembled address, the phone or "",
   * and the name and email of the user record the lookup resolved, which is
   * the stored user when there is one and not the metadata. No other order
   * and no other field changes.
   */
  lemma SettledOrder(s: StoreState, event: Event)
    requires event.eventType == CheckoutSessionCompleted
    requires Settles(s, event.session)
    ensures var o := Handle(s, Verified(event));
      var id := OrderIdOf(event.session).value;
      var userId := UserIdOf(event.session).value;
      var user := if userId in s.users then s.users[userId]
                  else User(Or(MetadataField(event.session.metadata, "userName"), Unknown),
                            Or(MetadataField(event.session.metadata, "userEmail"), Unknown));
      && o.response == Ok
      && o.store.orders.Keys == s.orders.Keys
      && o.store.orders[id].isPaid
      && o.store.orders[id].address == AddressString(event.session.customerDetails)
      && o.store.orders[id].phone == Or(Phone(event.session.customerDetails), "")
      && o.store.orders[id].userName == user.name
      && o.store.orders[id].userEmail == user.email
      && o.store.orders[id].storeId == s.orders[id].storeId
      && o.store.orders[id].status == s.orders[id].status
      && o.store.orders[id].items == s.orders[id].items
      && (forall other :: other in s.orders && other != id ==> o.store.orders[other] == s.orders[other])
  {
  }

  /**
   * The paid flag never reverts, and an unpaid order becomes paid only through
   * a verified completion event that names it.
   */
  lemma PaidOnlyBySettlement(s: StoreState, v: Verification)
    ensures var orders := Handle(s, v).store.orders;
      && orders.Keys == s.orders.Keys
      && (forall id :: id in s.orders && s.orders[id].isPaid ==> orders[id].isPaid)
      && (forall id :: id in s.orders && !s.orders[id].isPaid && orders[id].isPaid ==>
            IsCompletion(v) && OrderIdOf(v.event.session) == Str(id) && Handle(s, v).response == Ok)
  {
  }

  // ---------------------------------------------------------------------------
  // The form record

  /**
   * A settlement appends exactly one form record, for the settled order, whose
   * sender and recipient fields are never empty.
   */
  lemma FormRecordAppended(s: StoreState, event: Event)
    requires event.eventType == CheckoutSessionCompleted
    requires Settles(s, event.session)
    ensures var forms := Handle(s, Verified(event)).store.forms;
      var m := event.session.metadata;
      && forms == s.forms + [FormRecordFor(OrderIdOf(event.session).value, m)]
      && forms[|s.forms|].orderId == OrderIdOf(event.session).value
      && forms[|s.forms|].senderName != "" && forms[|s.forms|].senderPhone != ""
      && forms[|s.forms|].recipientName != "" && forms[|s.forms|].recipientPhone != ""
      && forms[|s.forms|].recipientAddress != ""
  {
  }

  /** Only a settlement writes a form record, and it keeps the earlier ones in place. */
  lemma FormsGrowOnlyOnSuccess(s: StoreState, v: Verification)
    ensures var o := Handle(s, v);
      o.store.forms == s.forms || (IsCompletion(v) && o.response == Ok && s.forms < o.store.forms && |o.store.forms| == |s.forms| + 1)
  {
  }

  // ---------------------------------------------------------------------------
  // The products

  /**
   * After a settlement a product is archived exactly when it was archived
   * before or an item of the order points at it; nothing else about the
   * products changes.
   */
  lemma ArchivesExactlyReferencedProducts(s: StoreState, event: Event)
    requires event.eventType == CheckoutSessionCompleted
    requires Settles(s, event.session)
    ensures var products := Handle(s, Verified(event)).store.products;
      var items := s.orders[OrderIdOf(event.session).value].items;
      && products.Keys == s.products.Keys
      && forall id :: id in products ==>
           && products[id].name == s.products[id].name
           && (products[id].isArchived <==> s.products[id].isArchived || Referenced(items, id))
  {
  }

  /** A product id survives the null filter exactly when some item carries it. */
  lemma ReferencedIffListed(items: seq<OrderItem>, id: string)
    ensures Str(id) in ValidProductIds(items) <==> Referenced(items, id)
  {
  }

  /** Outside a settlement the products are untouched. */
  lemma ProductsUntouchedUnlessSettled(s: StoreState, v: Verification)
    requires Handle(s, v).response != Ok || !IsCompletion(v)
    ensures Handle(s, v).store.products == s.products
  {
  }

  // ---------------------------------------------------------------------------
  // Re-delivery

  /** Archiving the same ids twice archives them once. */
  lemma ArchiveIdempotent(products: map<string, Product>, ids: seq<JsString>)
    ensures Archive(Archive(products, ids), ids) == Archive(products, ids)
  {
  }

  /**
   * Delivering the same completion event again leaves users, orders and
   * products as the first delivery left them, but the handler keeps no
   * delivery record, so a second identical form record is appended.
   */
  lemma RedeliveryAppendsSecondRecord(s: StoreState, event: Event)
    requires event.eventType == CheckoutSessionCompleted
    requires Settles(s, event.session)
    ensures var once := Handle(s, Verified(event)).store;
      var twice := Handle(once, Verified(event));
      && twice.response == Ok
      && twice.store.users == once.users
      && twice.store.orders == once.orders
      && twice.store.products == once.products
      && twice.store.forms == once.forms + [FormRecordFor(OrderIdOf(event.session).value, event.session.metadata)]
      && |twice.store.forms| == |s.forms| + 2
  {
  }

  // ---------------------------------------------------------------------------
  // The address string

  /** `Join` of five elements, written out, built up one element at a time. */
  lemma JoinFive(xs: seq<JsString>, sep: string)
    requires |xs| == 5
    ensures Join(xs, sep)
         == Render(xs[0]) + sep + Render(xs[1]) + sep + Render(xs[2]) + sep
            + Render(xs[3]) + sep + Render(xs[4])
  {
    assert xs[..1] == [xs[0]];
    JoinSnoc(xs[..1], xs[1], sep);
    assert xs[..1] + [xs[1]] == xs[..2];
    JoinSnoc(xs[..2], xs[2], sep);
    assert xs[..2] + [xs[2]] == xs[..3];
    JoinSnoc(xs[..3], xs[3], sep);
    assert xs[..3] + [xs[3]] == xs[..4];
    JoinSnoc(xs[..4], xs[4], sep);
    assert xs[..4] + [xs[4]] == xs;
  }

  /** `Join` of six elements, written out. */
  lemma JoinSix(xs: seq<JsString>, sep: string)
    requires |xs| == 6
    ensures Join(xs, sep)
         == Render(xs[0]) + sep + Render(xs[1]) + sep + Render(xs[2]) + sep
            + Render(xs[3]) + sep + Render(xs[4]) + sep + Render(xs[5])
  {
    JoinFive(xs[..5], sep);
    JoinSnoc(xs[..5], xs[5], sep);
    assert xs[..5] + [xs[5]] == xs;
  }

  /** With no customer details or no address, six undefined components give five bare separators. */
  lemma AddressWithoutDetails(details: Option<CustomerDetails>)
    requires details.None? || details.value.address.None?
    ensures AddressString(details) == ", , , , , "
  {
    var cs := AddressComponents(details);
    assert cs == [Undefined, Undefined, Undefined, Undefined, Undefined, Undefined];
    assert WithoutNulls(cs) == cs;
    JoinSix(cs, ", ");
    assert Join(cs, ", ") == "" + ", " + "" + ", " + "" + ", " + "" + ", " + "" + ", " + "";
  }

  /** All six components present: joined in the order line1, line2, city, state, postal code, country. */
  lemma AddressAllPresent(details: Option<CustomerDetails>)
    requires details.Some? && details.value.address.Some?
    requires var a := details.value.address.value;
      a.line1.Str? && a.line2.Str? && a.city.Str? && a.state.Str? && a.postalCode.Str? && a.country.Str?
    ensures var a := details.value.address.value;
      AddressString(details)
        == a.line1.value + ", " + a.line2.value + ", " + a.city.value + ", "
           + a.state.value + ", " + a.postalCode.value + ", " + a.country.value
  {
    var cs := AddressComponents(details);
    assert Null !in cs;
    JoinSix(cs, ", ");
  }

  /** A null component is dropped together with its separator. */
  lemma AddressNullLine2(details: Option<CustomerDetails>)
    requires details.Some? && details.value.address.Some?
    requires var a := details.value.address.value;
      a.line1.Str? && a.line2.Null? && a.city.Str? && a.state.Str? && a.postalCode.Str? && a.country.Str?
    ensures var a := details.value.address.value;
      AddressString(details)
        == a.line1.value + ", " + a.city.value + ", "
           + a.state.value + ", " + a.postalCode.value + ", " + a.country.value
  {
    var a := details.value.address.value;
    var rest := [a.city, a.state, a.postalCode, a.country];
    var kept := [a.line1] + rest;
    WithoutNullsAppend([a.line1, a.line2], rest);
    assert AddressComponents(details) == [a.line1, a.line2] + rest;
    assert WithoutNulls([a.line1, a.line2]) == [a.line1] by {
      assert [a.line1, a.line2][1..] == [a.line2];
    }
    assert WithoutNulls(AddressComponents(details)) == kept;
    JoinFive(kept, ", ");
  }

  /** All components null: the address is empty. */
  lemma AddressAllNull(details: Option<CustomerDetails>)
    requires details.Some? && details.value.address.Some?
    requires details.value.address.value == Address(Null, Null, Null, Null, Null, Null)
    ensures AddressString(details) == ""
  {
    WithoutNullsOfNulls(AddressComponents(details));
  }

  /** The length of the address: the kept components plus two characters per separator. */
  lemma AddressLength(details: Option<CustomerDetails>)
    ensures var kept := WithoutNulls(AddressComponents(details));
      && |kept| == 6 - NullCount(AddressComponents(details))
      && |AddressString(details)| == if kept == [] then 0 else RenderedLength(kept) + 2 * (|kept| - 1)
  {
    var cs := AddressComponents(details);
    var kept := WithoutNulls(cs);
    assert |kept| == |cs| - NullCount(cs);
    assert AddressString(details) == Join(kept, ", ");
    if kept != [] {
      JoinLength(kept, ", ");
      assert |", "| == 2;
      assert |Join(kept, ", ")| == RenderedLength(kept) + (|kept| - 1) * 2;
    }
  }
}
