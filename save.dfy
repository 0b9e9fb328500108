/** The create-or-update protocol, `ChargifyBase._save`, and the resource
    object whose `saved` attribute it sets.

    The clock, the connection and the server are inputs: the date the save
    began (`today`), and the status and parsed body of the server's answer.
    Serialising the request and parsing the answer are not modelled; the
    request body is the element tree `_toxml` builds. */
module Save {
  import opened Wrappers
  import opened Errors
  import opened Xml
  import opened Schema
  import opened Transport
  import opened Decode
  import opened Encode

  /** The calendar date `datetime.datetime.today()` gives when the save begins. */
  datatype Today = Today(day: nat, month: nat, year: nat)

  /** What `_save` returns: the confirmation flag and the decoded object. */
  datatype Saved = Saved(confirmed: bool, obj: Option<Entity>)

  /** `self.id`: the instance attribute, else the class attribute None. */
  function IdOf(e: Entity): (v: Value)
    ensures GetAttr(e, "id") == Some(v)
  {
    GetAttr(e, "id").value
  }

  /** The create-or-update decision: a truthy id updates the object at its
      own path, a falsy one (None, '' and the like) creates it at the
      collection path. A truthy id that is not a string cannot be
      concatenated into the path: TypeError. */
  function Dispatch(id: Value, url: string): (r: Result<(Verb, string), Error>)
    ensures r.Success? && r.value.0 == PUT <==> Truthy(id) && id.StrVal?
    ensures r.Success? && r.value.0 == POST <==> !Truthy(id)
    ensures r.Failure? ==> r.error == TypeError
  {
    if !Truthy(id) then Success((POST, "/" + url + ".xml"))
    else if id.StrVal? then Success((PUT, "/" + url + "/" + id.s + ".xml"))
    else Failure(TypeError)
  }

  /** The PUT path is the collection path with the id inserted. */
  lemma DispatchPaths(id: Value, url: string)
    ensures Truthy(id) && id.StrVal? ==> Dispatch(id, url) == Success((PUT, "/" + url + "/" + id.s + ".xml"))
    ensures !Truthy(id) ==> Dispatch(id, url) == Success((POST, "/" + url + ".xml"))
    ensures Dispatch(id, url).Success? ==> var p := Dispatch(id, url).value.1;
              |p| >= 5 && p[0] == '/' && p[|p| - 4..] == ".xml"
  {
  }

  /** The write confirmation: an object came back, and its `updated_at` is a
      datetime on today's date. Reading `updated_at` from a decoded object
      whose class does not declare it and whose answer did not supply it
      raises AttributeError. */
  function Confirm(obj: Option<Entity>, today: Today): (r: Result<bool, Error>)
    ensures r.Failure? <==> obj.Some? && GetAttr(obj.value, "updated_at").None?
    ensures r.Failure? ==> r.error == AttributeError("updated_at")
  {
    if obj.None? then Success(false)
    else match GetAttr(obj.value, "updated_at")
      case None => Failure(AttributeError("updated_at"))
      case Some(TimeVal(t)) => Success(t.day == today.day && t.month == today.month && t.year == today.year)
      case Some(_) => Success(false)
  }

  /** Confirmation holds exactly when the object's `updated_at` is a
      datetime whose day, month and year are today's. */
  lemma ConfirmSpec(obj: Option<Entity>, today: Today)
    ensures Confirm(obj, today) == Success(true) <==>
      obj.Some? && GetAttr(obj.value, "updated_at").Some? &&
      var u := GetAttr(obj.value, "updated_at").value;
      u.TimeVal? && u.t.day == today.day && u.t.month == today.month && u.t.year == today.year
    ensures obj.None? ==> Confirm(obj, today) == Success(false)
  {
  }

  /** The decoder `_applyS` runs as when it decodes the answer: the saved
      object itself, with its class, `api_key` and `sub_domain`. */
  function DecodeAnswer(e: Entity, answer: Node, nodeName: string,
                        parseTime: string -> DateTime): (r: Result<Option<Entity>, Error>)
    ensures r.Success? && r.value.Some? ==> |ElementsByTagName(answer, nodeName)| == 1
    ensures |ElementsByTagName(answer, nodeName)| != 1 ==> r == Success(None)
    ensures r.Failure? <==>
              && |ElementsByTagName(answer, nodeName)| == 1
              && !(GetAttr(e, "sub_domain").Some? && GetAttr(e, "sub_domain").value.StrVal?)
    ensures r.Failure? ==> r.error == TypeError
    ensures && |ElementsByTagName(answer, nodeName)| == 1
            && GetAttr(e, "sub_domain").Some? && GetAttr(e, "sub_domain").value.StrVal? ==>
              var sub := GetAttr(e, "sub_domain").value.s;
              r == Success(DecodeOne(Decoder(e.kind, GetAttr(e, "api_key").value, sub), answer, e.kind, nodeName, parseTime))
  {
    if |ElementsByTagName(answer, nodeName)| != 1 then Success(None)
    else match GetAttr(e, "sub_domain")
      // The new object's constructor adds the sub_domain to a string.
      case Some(StrVal(sub)) =>
        Success(DecodeOne(Decoder(e.kind, GetAttr(e, "api_key").value, sub), answer, e.kind, nodeName, parseTime))
      case _ => Failure(TypeError)
  }

  /** Everything `_save` does, in the order it fails: the encoding's
      AttributeError, the path's TypeError, the serialisation's TypeError,
      the status, the decode and the confirmation. */
  function SaveOutcome(e: Entity, url: string, nodeName: string, today: Today,
                       status: int, answer: Node, parseTime: string -> DateTime)
    : (r: Result<Saved, Error>)
    ensures !NestedOk(e) ==> r == Failure(AttributeError("_toxml"))
    ensures NestedOk(e) && Dispatch(IdOf(e), url).Failure? ==> r == Failure(TypeError)
    ensures NestedOk(e) && Dispatch(IdOf(e), url).Success? && !Encodable(e) ==> r == Failure(TypeError)
    ensures SaveRoute(e, url).Some? && status in StatusErrors() ==> r == Failure(StatusErrors()[status])
    ensures r.Success? ==> Encodable(e) && Dispatch(IdOf(e), url).Success? &&
                           status !in StatusErrors()
    ensures r.Success? <==>
              && SaveRoute(e, url).Some? && status !in StatusErrors()
              && DecodeAnswer(e, answer, nodeName, parseTime).Success?
              && Confirm(DecodeAnswer(e, answer, nodeName, parseTime).value, today).Success?
    ensures r.Success? ==>
              && DecodeAnswer(e, answer, nodeName, parseTime) == Success(r.value.obj)
              && Confirm(r.value.obj, today) == Success(r.value.confirmed)
    ensures r.Failure? && SaveRoute(e, url).Some? && status !in StatusErrors() ==>
              r.error in {TypeError, AttributeError("updated_at")}
  {
    if !NestedOk(e) then Failure(AttributeError("_toxml"))
    else
      var route :- Dispatch(IdOf(e), url);
      if !Encodable(e) then Failure(TypeError)
      else
        var body :- Classify(status, answer);
        var obj :- DecodeAnswer(e, body, nodeName, parseTime);
        var ok :- Confirm(obj, today);
        Success(Saved(ok, obj))
  }

  /** The request `_save` sends, when it gets that far. */
  function SaveRoute(e: Entity, url: string): Option<(Verb, string)> {
    if NestedOk(e) && Encodable(e) && Dispatch(IdOf(e), url).Success?
    then Some(Dispatch(IdOf(e), url).value) else None
  }

  /** A save reports success exactly when the server accepted the write and
      answered with one object whose `updated_at` is on today's date. */
  lemma SaveConfirmed(e: Entity, url: string, nodeName: string, today: Today,
                      status: int, answer: Node, parseTime: string -> DateTime)
    ensures var r := SaveOutcome(e, url, nodeName, today, status, answer, parseTime);
            r.Success? && r.value.confirmed <==>
              SaveRoute(e, url).Some? && status !in StatusErrors() &&
              DecodeAnswer(e, answer, nodeName, parseTime).Success? &&
              Confirm(DecodeAnswer(e, answer, nodeName, parseTime).value, today) == Success(true)
  {
    if NestedOk(e) && Dispatch(IdOf(e), url).Success? && Encodable(e) {
      ClassifyCases(status, answer);
    }
  }

  /** A customer, product or credit card answer without an `updated_at`
      element makes the confirmation raise AttributeError: only the
      subscription class declares that attribute. */
  lemma ConfirmRaisesWithoutUpdatedAt(d: Decoder, n: Node, target: Kind,
                                      parseTime: string -> DateTime, today: Today)
    requires target != Subscription
    requires LastNamed(Children(n), "updated_at", |Children(n)|).None?
    ensures Confirm(Some(ObjectFromNode(d, n, target, parseTime)), today) ==
              Failure(AttributeError("updated_at"))
  {
    DecodedObject(d, n, target, parseTime, "updated_at");
    UpdatedAtDeclaredBySubscriptionOnly(target);
  }

  // ---------------------------------------------------------------------
  // The resource object

  class Resource {
    const kind: Kind
    /** The instance dictionary, `__dict__`. */
    var fields: map<string, Value>

    function Entity(): Entity
      reads this
    {
      Schema.Entity(kind, fields)
    }

    /** `__init__(apikey, subdomain, nodename)`. */
    constructor (k: Kind, apiKey: Value, subDomain: string, nodeName: string)
      ensures kind == k
      ensures fields == Initial(k, apiKey, subDomain, nodeName).fields
    {
      kind := k;
      fields := Initial(k, apiKey, subDomain, nodeName).fields;
    }

    /** `obj.name = v`. */
    method SetField(name: string, v: Value)
      modifies this
      ensures fields == old(fields)[name := v]
    {
      fields := fields[name := v];
    }

    /** `_save(url, node_name)`, given today's date and the server's answer
        to the request it sends (`status` and the parsed `answer`). Returns
        the request sent, if any, and the outcome; sets the instance
        attribute `saved` to True only when an update (PUT) is confirmed. */
    method Save(url: string, nodeName: string, today: Today, status: int, answer: Node,
                parseTime: string -> DateTime)
      returns (sent: Option<Request<Node>>, r: Result<Saved, Error>)
      modifies this
      ensures r == SaveOutcome(old(Entity()), url, nodeName, today, status, answer, parseTime)
      ensures sent.Some? <==> SaveRoute(old(Entity()), url).Some?
      ensures sent.Some? ==> (sent.value.verb, sent.value.path) == SaveRoute(old(Entity()), url).value &&
                             ShapeOf(sent.value.body) == ExpectedShape(old(Entity()))
      ensures fields == if r.Success? && r.value.confirmed && sent.Some? && sent.value.verb == PUT
                        then old(fields)["saved" := BoolVal(true)] else old(fields)
    {
      sent, r := Exchange(Entity(), url, nodeName, today, status, answer, parseTime);
      if r.Success? && r.value.confirmed && sent.Some? && sent.value.verb == PUT {
        fields := fields["saved" := BoolVal(true)];
      }
    }
  }

  /** The steps of `_save` up to its result: encode, choose the request,
      send it, classify the answer, decode it and confirm the write. */
  method Exchange(e: Entity, url: string, nodeName: string, today: Today, status: int, answer: Node,
                  parseTime: string -> DateTime)
    returns (sent: Option<Request<Node>>, r: Result<Saved, Error>)
    ensures r == SaveOutcome(e, url, nodeName, today, status, answer, parseTime)
    ensures sent.Some? <==> SaveRoute(e, url).Some?
    ensures sent.Some? ==> (sent.value.verb, sent.value.path) == SaveRoute(e, url).value &&
                           ShapeOf(sent.value.body) == ExpectedShape(e)
  {
    var doc := ToXml(e);
    EncodableIsNestedOk(e);
    sent := None;
    if doc.Failure? && doc.error.AttributeError? {
      return sent, Failure(doc.error);
    }
    var route := Dispatch(IdOf(e), url);
    if route.Failure? {
      return sent, Failure(route.error);
    }
    if doc.Failure? {
      return sent, Failure(doc.error);
    }
    var (verb, path) := route.value;
    sent := Some(Request(verb, path, doc.value));
    var body := Classify(status, answer);
    if body.Failure? {
      return sent, Failure(body.error);
    }
    var obj := DecodeAnswer(e, body.value, nodeName, parseTime);
    if obj.Failure? {
      return sent, Failure(obj.error);
    }
    var ok := Confirm(obj.value, today);
    if ok.Failure? {
      return sent, Failure(ok.error);
    }
    r := Success(Saved(ok.value, obj.value));
  }

  /** The `saved` attribute a confirmed update sets is an ordinary instance
      attribute: a later save encodes it as a `saved` element. */
  lemma SavedIsEncoded(e: Entity)
    ensures "saved" in EmittedKeys(Schema.Entity(e.kind, e.fields["saved" := BoolVal(true)]))
  {
  }
}
