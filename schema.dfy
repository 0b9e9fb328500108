/** The four resource classes of the API client, the Python values their
    attributes hold, and Python's attribute lookup, `str()` and truthiness
    on those values.

    An object is modelled by its class (`Kind`) and its instance dictionary
    (`fields`, Python's `__dict__`): the attributes that `__init__`, a
    decode or the caller assigned. The class attributes, which an instance
    attribute of the same name hides, are held separately in `ClassDefaults`. */
module Schema {
  import opened Wrappers
  import opened Strings

  datatype Kind = Customer | Product | Subscription | CreditCard

  /** A naive local date and time, as `datetime.datetime.fromtimestamp` returns it. */
  datatype DateTime = DateTime(year: nat, month: nat, day: nat,
                               hour: nat, minute: nat, second: nat, microsecond: nat)

  /** The Python values an attribute of a resource object can hold. */
  datatype Value =
    | NoneVal
    | BoolVal(b: bool)
    | IntVal(i: int)
    | StrVal(s: string)
    | TimeVal(t: DateTime)
    | EmptyDictVal
    | ObjVal(obj: Entity)

  /** A resource object: its class and its instance dictionary. */
  datatype Entity = Entity(kind: Kind, fields: map<string, Value>)

  // ---------------------------------------------------------------------
  // Class attributes

  const BaseHost: string := ".chargify.com"

  /** `__name__` of each class, the name `globals()` resolves. */
  function ClassName(k: Kind): string {
    match k
    case Customer => "ChargifyCustomer"
    case Product => "ChargifyProduct"
    case Subscription => "ChargifySubscription"
    case CreditCard => "ChargifyCreditCard"
  }

  /** `__xmlnodename__` of each class. */
  function XmlNodeName(k: Kind): string {
    match k
    case Customer => "customer"
    case Product => "product"
    case Subscription => "subscription"
    case CreditCard => "credit_card_attributes"
  }

  /** `__attribute_types__`: the fields that hold a nested object, and its class. */
  function AttrTypes(k: Kind): (m: map<string, Kind>)
    ensures forall f :: f in m ==> f in ClassDefaults(k) && ClassDefaults(k)[f] == NoneVal
    ensures k != Subscription ==> m == map[]
    ensures k == Subscription ==>
              && m.Keys == {"customer", "product", "credit_card"}
              && m["customer"] == Customer && m["product"] == Product && m["credit_card"] == CreditCard
  {
    if k == Subscription then
      map["customer" := Customer, "product" := Product, "credit_card" := CreditCard]
    else map[]
  }

  /** `ChargifyBase.__ignore__`: attributes `_toxml` never emits. */
  const Ignore: set<string> :=
    {"api_key", "sub_domain", "base_host", "request_host", "id", "__xmlnodename__"}

  /** The data attributes `ChargifyBase` declares. */
  function BaseDefaults(): map<string, Value> {
    map["api_key" := StrVal(""), "sub_domain" := StrVal(""), "base_host" := StrVal(BaseHost),
        "request_host" := StrVal(""), "id" := NoneVal]
  }

  /** The data attributes of each class, its own declarations over the base's. */
  function ClassDefaults(k: Kind): (m: map<string, Value>)
    ensures "id" in m && m["id"] == NoneVal
  {
    BaseDefaults() + OwnDefaults(k)
  }

  /** Only the subscription class declares `updated_at`, so reading it from a
      customer, product or credit card raises unless the instance holds it. */
  lemma UpdatedAtDeclaredBySubscriptionOnly(k: Kind)
    ensures "updated_at" in ClassDefaults(k) <==> k == Subscription
  {
    match k
    case Customer =>
      assert "updated_at" !in OwnDefaults(Customer);
    case Product =>
      assert "updated_at" !in OwnDefaults(Product);
    case CreditCard =>
      assert "updated_at" !in OwnDefaults(CreditCard);
    case Subscription =>
  }

  function OwnDefaults(k: Kind): map<string, Value> {
    match k
    case Customer =>
      map["id" := NoneVal, "first_name" := StrVal(""), "last_name" := StrVal(""),
          "email" := StrVal(""), "organization" := StrVal(""), "reference" := StrVal(""),
          "created_at" := NoneVal, "modified_at" := NoneVal]
    case Product =>
      map["id" := NoneVal, "price_in_cents" := IntVal(0), "name" := StrVal(""),
          "handle" := StrVal(""), "product_family" := EmptyDictVal,
          "accounting_code" := StrVal(""), "interval_unit" := StrVal(""),
          "interval" := IntVal(0)]
    case Subscription =>
      map["id" := NoneVal, "state" := StrVal(""), "balance_in_cents" := IntVal(0),
          "current_period_started_at" := NoneVal, "current_period_ends_at" := NoneVal,
          "trial_started_at" := NoneVal, "trial_ended_attrial_ended_at" := NoneVal,
          "activated_at" := NoneVal, "expires_at" := NoneVal, "created_at" := NoneVal,
          "updated_at" := NoneVal, "customer" := NoneVal, "product" := NoneVal,
          "product_handle" := StrVal(""), "credit_card" := NoneVal]
    case CreditCard =>
      map["first_name" := StrVal(""), "last_name" := StrVal(""), "full_number" := StrVal(""),
          "masked_card_number" := StrVal(""), "expiration_month" := StrVal(""),
          "expiration_year" := StrVal(""), "cvv" := StrVal(""), "type" := StrVal(""),
          "billing_address" := StrVal(""), "billing_city" := StrVal(""),
          "billing_state" := StrVal(""), "billing_zip" := StrVal(""),
          "billing_country" := StrVal(""), "zip" := StrVal("")]
  }

  /** The subscription schema declares the misspelt
      `trial_ended_attrial_ended_at` and no `trial_ended_at`. */
  lemma SubscriptionTrialEndField()
    ensures "trial_ended_attrial_ended_at" in ClassDefaults(Subscription)
    ensures "trial_ended_at" !in ClassDefaults(Subscription)
  {
  }

  // ---------------------------------------------------------------------
  // Python semantics on objects and values

  /** The instance dictionary `__init__(apikey, subdomain, nodename)` leaves:
      the credentials, the request host, and the node name when one is given. */
  function Initial(k: Kind, apiKey: Value, subDomain: string, nodeName: string): (e: Entity)
    ensures e.kind == k
    ensures e.fields.Keys == {"api_key", "sub_domain", "request_host"} +
                             (if nodeName != "" then {"__xmlnodename__"} else {})
    ensures e.fields["api_key"] == apiKey && e.fields["sub_domain"] == StrVal(subDomain)
    ensures e.fields["request_host"] == StrVal(subDomain + ".chargify.com")
    ensures nodeName != "" ==> e.fields["__xmlnodename__"] == StrVal(nodeName)
  {
    var creds := map["api_key" := apiKey, "sub_domain" := StrVal(subDomain),
                     "request_host" := StrVal(subDomain + BaseHost)];
    Entity(k, if nodeName != "" then creds["__xmlnodename__" := StrVal(nodeName)] else creds)
  }

  /** Reading `obj.name`: the instance attribute, else the class's data
      attribute; `None` stands for the AttributeError Python raises when
      neither exists. The class's metadata (`__xmlnodename__`,
      `__attribute_types__`, `__ignore__`, `__name__`) is read through
      `NodeName`, `AttrTypes` and `Ignore` instead. */
  function GetAttr(e: Entity, name: string): (r: Option<Value>)
    ensures r.None? <==> name !in e.fields && name !in ClassDefaults(e.kind)
    ensures name in e.fields ==> r == Some(e.fields[name])
    ensures name !in e.fields && name in ClassDefaults(e.kind) ==> r == Some(ClassDefaults(e.kind)[name])
  {
    if name in e.fields then Some(e.fields[name])
    else if name in ClassDefaults(e.kind) then Some(ClassDefaults(e.kind)[name])
    else None
  }

  /** The tag `_toxml` gives the object's root element: its
      `__xmlnodename__`, which the constructor's `nodename` argument may have
      replaced by an instance attribute. `None` when that attribute is not a
      string, which minidom cannot write. */
  function NodeName(e: Entity): Option<string> {
    if "__xmlnodename__" !in e.fields then Some(XmlNodeName(e.kind))
    else if e.fields["__xmlnodename__"].StrVal? then Some(e.fields["__xmlnodename__"].s)
    else None
  }

  /** Python truthiness: None, False, 0, '' and {} are false; every object,
      datetime and other value is true. */
  predicate Truthy(v: Value) {
    match v
    case NoneVal => false
    case BoolVal(b) => b
    case IntVal(i) => i != 0
    case StrVal(s) => s != ""
    case TimeVal(_) => true
    case EmptyDictVal => false
    case ObjVal(_) => true
  }

  function Pad(n: nat, width: nat): (r: string)
    ensures |r| >= width
  {
    var digits := NatToString(n);
    if |digits| >= width then digits else seq(width - |digits|, _ => '0') + digits
  }

  /** `str()` of a datetime: `YYYY-MM-DD HH:MM:SS`, then `.ffffff` when the
      microseconds are not zero. */
  function DateTimeString(t: DateTime): string {
    Pad(t.year, 4) + "-" + Pad(t.month, 2) + "-" + Pad(t.day, 2) + " " +
    Pad(t.hour, 2) + ":" + Pad(t.minute, 2) + ":" + Pad(t.second, 2) +
    (if t.microsecond == 0 then "" else "." + Pad(t.microsecond, 6))
  }

  /** `str(value)`, as `_toxml` writes a scalar attribute. */
  function PyStr(v: Value): (r: string)
    ensures r == "" <==> v == StrVal("")
  {
    match v
    case NoneVal => "None"
    case BoolVal(b) => if b then "True" else "False"
    case IntVal(i) => IntToString(i)
    case StrVal(s) => s
    case TimeVal(t) => DateTimeString(t)
    case EmptyDictVal => "{}"
    case ObjVal(o) => "<api." + ClassName(o.kind) + " object>"
  }

  /** A string attribute is written as itself, and an integer one parses back. */
  lemma PyStrScalars(s: string, i: int)
    ensures PyStr(StrVal(s)) == s
    ensures ParseInt(PyStr(IntVal(i))) == Some(i)
  {
    IntRoundTrip(i);
  }
}
