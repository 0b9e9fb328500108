/** The request paths the resource classes build, and the one façade that
    does more than compose a request with a decode: `getBySubscriptionId`,
    which unpacks the list `_applyA` returns into exactly one object.

    Ids, references and handles go through `str()` where the source calls
    it, and are concatenated as they are where it does not, in which case
    an id that is not a string raises TypeError. */
module Facade {
  import opened Wrappers
  import opened Errors
  import opened Strings
  import opened Xml
  import opened Schema
  import opened Transport
  import opened Decode
  import opened Save

  /** `self.id` concatenated onto a string: only a string can be. */
  function Concatenable(v: Value): (r: Result<string, Error>)
    ensures r.Success? <==> v.StrVal?
    ensures r.Success? ==> r.value == v.s
    ensures r.Failure? ==> r.error == TypeError
  {
    if v.StrVal? then Success(v.s) else Failure(TypeError)
  }

  // Customers
  const CustomersPath: string := "/customers.xml"

  function CustomerPath(id: Value): (p: string)
    ensures Frames(p, "/customers/", PyStr(id), ".xml")
  {
    "/customers/" + PyStr(id) + ".xml"
  }

  function CustomerLookupPath(reference: Value): (p: string)
    ensures Frames(p, "/customers/lookup.xml?reference=", PyStr(reference), "")
  {
    "/customers/lookup.xml?reference=" + PyStr(reference)
  }

  function CustomerSubscriptionsPath(customerId: Value): (p: string)
    ensures Frames(p, "/customers/", PyStr(customerId), "/subscriptions.xml")
  {
    "/customers/" + PyStr(customerId) + "/subscriptions.xml"
  }

  // Products
  const ProductsPath: string := "/products.xml"

  function ProductPath(id: Value): (p: string)
    ensures Frames(p, "/products/", PyStr(id), ".xml")
  {
    "/products/" + PyStr(id) + ".xml"
  }

  function ProductHandlePath(handle: Value): (p: string)
    ensures Frames(p, "/products/handle/", PyStr(handle), ".xml")
  {
    "/products/handle/" + PyStr(handle) + ".xml"
  }

  /** `getPaymentPageUrl`: the hosted signup page of a product. */
  function PaymentPageUrl(requestHost: Value, id: Value): (r: Result<string, Error>)
    ensures r.Success? <==> requestHost.StrVal? && id.StrVal?
    ensures r.Success? ==> r.value == "https://" + requestHost.s + "/h/" + id.s + "/subscriptions/new"
    ensures r.Failure? ==> r.error == TypeError
  {
    var host :- Concatenable(requestHost);
    var product :- Concatenable(id);
    Success("https://" + host + "/h/" + product + "/subscriptions/new")
  }

  // Subscriptions
  const SubscriptionsPath: string := "/subscriptions.xml"

  function SubscriptionPath(id: Value): (p: string)
    ensures Frames(p, "/subscriptions/", PyStr(id), ".xml")
  {
    "/subscriptions/" + PyStr(id) + ".xml"
  }

  /** The body of `upgrade(toProductHandle)`, around the handle. */
  const UpgradeHead: string :=
    "<?xml version=\"1.0\" encoding=\"UTF-8\"?>\n  <subscription>\n    <product_handle>"
  const UpgradeTail: string := "</product_handle>\n  </subscription>"

  /** The body of `unsubscribe(message)`, around the message. */
  const UnsubscribeHead: string :=
    "<?xml version=\"1.0\" encoding=\"UTF-8\"?>\n<subscription>\n  <cancellation_message>\n    "
  const UnsubscribeTail: string := "\n  </cancellation_message>\n</subscription>"

  /** The requests `resetBalance`, `reactivate`, `upgrade(arg)` and
      `unsubscribe(arg)` issue, on the subscription's own id: `arg` is the
      product handle or the cancellation message, written with `%s`. */
  function SubscriptionAction(id: Value, action: string, arg: Value): (r: Result<Request<string>, Error>)
    requires action in {"reset_balance", "reactivate", "upgrade", "unsubscribe"}
    ensures r.Success? <==> id.StrVal?
    ensures r.Failure? ==> r.error == TypeError
    ensures r.Success? ==> r.value.verb == (if action == "unsubscribe" then DELETE else PUT)
    ensures r.Success? ==>
              r.value.path == "/subscriptions/" + id.s +
                (if action in {"upgrade", "unsubscribe"} then ".xml" else "/" + action + ".xml")
    ensures r.Success? && action in {"reset_balance", "reactivate"} ==> r.value.body == ""
    ensures r.Success? && action == "upgrade" ==> Frames(r.value.body, UpgradeHead, PyStr(arg), UpgradeTail)
    ensures r.Success? && action == "unsubscribe" ==>
              Frames(r.value.body, UnsubscribeHead, PyStr(arg), UnsubscribeTail)
  {
    var s :- Concatenable(id);
    if action == "reset_balance" then Success(Request(PUT, "/subscriptions/" + s + "/reset_balance.xml", ""))
    else if action == "reactivate" then Success(Request(PUT, "/subscriptions/" + s + "/reactivate.xml", ""))
    else if action == "upgrade" then
      Success(Request(PUT, "/subscriptions/" + s + ".xml", UpgradeHead + PyStr(arg) + UpgradeTail))
    else Success(Request(DELETE, "/subscriptions/" + s + ".xml", UnsubscribeHead + PyStr(arg) + UnsubscribeTail))
  }

  /** The path of a credit card's `save(subscription)`. */
  function CreditCardSavePath(subscriptionId: Value): (p: string)
    ensures Frames(p, "/subscriptions/", PyStr(subscriptionId), ".xml")
  {
    "/subscriptions/" + PyStr(subscriptionId) + ".xml"
  }

  // ---------------------------------------------------------------------
  // Properties

  /** Updating an object goes to the very path its `getById` reads: the
      save dispatch on a non-empty string id gives the by-id path. */
  lemma SaveUpdatesTheByIdPath(s: string)
    requires s != ""
    ensures Dispatch(StrVal(s), "customers") == Success((PUT, CustomerPath(StrVal(s))))
    ensures Dispatch(StrVal(s), "products") == Success((PUT, ProductPath(StrVal(s))))
    ensures Dispatch(StrVal(s), "subscriptions") == Success((PUT, SubscriptionPath(StrVal(s))))
  {
    assert "/" + "customers" + "/" == "/customers/";
    assert "/" + "products" + "/" == "/products/";
    assert "/" + "subscriptions" + "/" == "/subscriptions/";
  }

  /** Creating goes to the collection path `getAll` reads. */
  lemma SaveCreatesAtTheCollectionPath(id: Value)
    requires !Truthy(id)
    ensures Dispatch(id, "customers") == Success((POST, CustomersPath))
    ensures Dispatch(id, "products") == Success((POST, ProductsPath))
    ensures Dispatch(id, "subscriptions") == Success((POST, SubscriptionsPath))
  {
    assert "/" + "customers" + ".xml" == CustomersPath;
    assert "/" + "products" + ".xml" == ProductsPath;
    assert "/" + "subscriptions" + ".xml" == SubscriptionsPath;
  }

  /** `getBySubscriptionId`: `i, = _applyA(...)` unpacks the list into one
      object, and any other number of matches raises ValueError. */
  function BySubscriptionId(d: Decoder, doc: Node, parseTime: string -> DateTime)
    : (r: Result<Entity, Error>)
    ensures r.Failure? ==> r.error == ValueError
  {
    var objs := DecodeMany(d, doc, Subscription, "subscription", parseTime);
    if |objs| == 1 then Success(objs[0]) else Failure(ValueError)
  }

  /** The unpacking agrees with `_applyS`: exactly one match gives the same
      object, and where `_applyS` answers None the unpacking raises. */
  lemma BySubscriptionIdAgreesWithApplyS(d: Decoder, doc: Node, parseTime: string -> DateTime)
    ensures var one := DecodeOne(d, doc, Subscription, "subscription", parseTime);
            var r := BySubscriptionId(d, doc, parseTime);
            (r.Success? <==> one.Some?) && (r.Success? ==> r.value == one.value)
  {
  }
}
