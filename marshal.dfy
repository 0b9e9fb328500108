/** How the two directions of the marshalling fit together, and where they
    do not: the encoder and the decoder agree on tags only where a class's
    `__xmlnodename__` equals the attribute name that holds it.

    The `Sample*` members fix one subscription holding one card and trace it
    through both directions; they are a worked example of the mismatch. The
    claims that hold for all inputs are `InnerLevelsUseOuterTypes` here,
    `Decode.NestedField`, `Decode.DecodedObject` and `Encode.EncodingShape`;
    the sample lemmas are single instances beside them. */
module Marshal {
  import opened Wrappers
  import opened Xml
  import opened Schema
  import opened Decode
  import opened Encode

  /** A card with one attribute, as a subscription's `credit_card`. */
  function SampleCard(): Entity {
    Entity(CreditCard, map["cvv" := StrVal("123")])
  }

  function SampleSubscription(): Entity {
    Entity(Subscription, map["credit_card" := ObjVal(SampleCard())])
  }

  /** The document a subscription holding a credit card encodes into. */
  function SampleDocument(): Node {
    Element("subscription", map[],
      [Element("credit_card_attributes", map[], [Element("cvv", map[], [Text("123")])])])
  }

  /** The card's one attribute is emitted, as a plain field. */
  lemma SampleCardEmits()
    ensures EmittedKeys(SampleCard()) == {"cvv"}
    ensures ChildEncodable(SampleCard(), "cvv") && !IsNested(SampleCard(), "cvv")
  {
    assert "cvv" !in Ignore;
  }

  lemma SampleCardShape()
    ensures Encodable(SampleCard())
    ensures ExpectedShape(SampleCard()) ==
      SElement("credit_card_attributes", map[], multiset{SElement("cvv", map[], multiset{SText("123")})})
  {
    var card := SampleCard();
    SampleCardEmits();
    assert Encodable(card);
    ChildShapesRemove(card, {"cvv"}, "cvv");
    assert {"cvv"} - {"cvv"} == {};
  }

  /** The subscription's one attribute is emitted, as a nested object. */
  lemma SampleSubscriptionEmits()
    ensures EmittedKeys(SampleSubscription()) == {"credit_card"}
    ensures IsNested(SampleSubscription(), "credit_card")
  {
    assert "credit_card" !in Ignore;
  }

  /** A subscription holding a credit card encodes the card under the tag
      `credit_card_attributes`, the card class's node name, not under the
      attribute name `credit_card`. */
  lemma CreditCardEncodesUnderAttributesTag()
    ensures Encodable(SampleSubscription())
    ensures ShapeOf(SampleDocument()) == ExpectedShape(SampleSubscription())
  {
    SampleCardShape();
    SampleSubscriptionShape();
    SampleDocumentShape();
  }

  lemma SampleSubscriptionShape()
    ensures Encodable(SampleSubscription())
    ensures ExpectedShape(SampleSubscription()) ==
      SElement("subscription", map[], multiset{ExpectedShape(SampleCard())})
  {
    var sub := SampleSubscription();
    SampleCardShape();
    SampleSubscriptionEmits();
    assert Encodable(sub);
    ChildShapesRemove(sub, {"credit_card"}, "credit_card");
    assert {"credit_card"} - {"credit_card"} == {};
  }

  lemma SampleDocumentShape()
    ensures ShapeOf(SampleDocument()) ==
      SElement("subscription", map[], multiset{
        SElement("credit_card_attributes", map[], multiset{SElement("cvv", map[], multiset{SText("123")})})})
  {
    var inner := Element("cvv", map[], [Text("123")]);
    var tag := Element("credit_card_attributes", map[], [inner]);
    ShapesOfSingle(Text("123"));
    ShapesOfSingle(inner);
    ShapesOfSingle(tag);
  }

  /** Decoding that document with the subscription's decoder treats the tag
      as a plain field: the card's data collapses to the (empty) text of the
      element, and `credit_card` keeps its class default None. So there is no
      general round trip. */
  lemma AttributesTagDecodesAsText(parseTime: string -> DateTime)
    ensures var decoded := DecodeOne(Decoder(Subscription, StrVal("key"), "acme"),
                                     SampleDocument(), Subscription, "subscription", parseTime);
            && decoded.Some?
            && decoded.value.fields["credit_card_attributes"] == StrVal("")
            && GetAttr(decoded.value, "credit_card") == Some(NoneVal)
  {
    var doc := SampleDocument();
    var d := Decoder(Subscription, StrVal("key"), "acme");
    SampleDocumentMatches();
    SampleDocumentFields(d, parseTime);
  }

  /** The document's root is its only `subscription` element. */
  lemma SampleDocumentMatches()
    ensures ElementsByTagName(SampleDocument(), "subscription") == [SampleDocument()]
  {
    var inner := Element("cvv", map[], [Text("123")]);
    var tag := Element("credit_card_attributes", map[], [inner]);
    assert ElementsByTagName(inner, "subscription") == [];
    assert ElementsIn([inner], "subscription") == [];
    assert ElementsIn([tag], "subscription") == [];
  }

  /** The fields the root decodes into: the tag's empty text under the tag's
      name, and nothing under `credit_card`. */
  lemma SampleDocumentFields(d: Decoder, parseTime: string -> DateTime)
    requires d == Decoder(Subscription, StrVal("key"), "acme")
    ensures var obj := ObjectFromNode(d, SampleDocument(), Subscription, parseTime);
            && obj.fields["credit_card_attributes"] == StrVal("")
            && GetAttr(obj, "credit_card") == Some(NoneVal)
  {
    var inner := Element("cvv", map[], [Text("123")]);
    var doc := SampleDocument();
    var cs := Children(doc);
    assert LastNamed(cs, "credit_card_attributes", 1) == Some(0);
    assert LastNamed(cs, "credit_card", 1) == None;
    DecodedObject(d, doc, Subscription, parseTime, "credit_card_attributes");
    DecodedObject(d, doc, Subscription, parseTime, "credit_card");
    TextOfSingle(inner);
  }

  /** The decoder's own `__attribute_types__` is consulted at every level:
      a subscription document whose customer element contains a `product`
      element decodes that element as a nested product object inside the
      customer, although customers declare no nested attributes. */
  lemma InnerLevelsUseOuterTypes(parseTime: string -> DateTime)
    ensures var d := Decoder(Subscription, StrVal("key"), "acme");
            var product := Element("product", map[], [Element("name", map[], [Text("Gold")])]);
            var customer := Element("customer", map[], [product]);
            var c := FieldValue(d, customer, parseTime);
            && c.ObjVal? && c.obj.kind == Customer
            && c.obj.fields["product"].ObjVal?
            && c.obj.fields["product"].obj.kind == Product
  {
    var d := Decoder(Subscription, StrVal("key"), "acme");
    var name := Element("name", map[], [Text("Gold")]);
    var product := Element("product", map[], [name]);
    var customer := Element("customer", map[], [product]);
    assert ElementsByTagName(name, "customer") == [] && ElementsByTagName(name, "product") == [];
    assert ElementsIn([name], "customer") == [] && ElementsIn([name], "product") == [];
    assert ElementsByTagName(product, "customer") == [];
    assert ElementsIn([product], "customer") == [];
    assert ElementsByTagName(product, "product") == [product];
    NestedField(d, customer, parseTime);
    NestedField(d, product, parseTime);
    var cobj := ObjectFromNode(d, customer, Customer, parseTime);
    assert LastNamed(Children(customer), "product", 1) == Some(0);
    DecodedObject(d, customer, Customer, parseTime, "product");
  }
}
