/** XML to object decoding: `__get_xml_value`, `__get_object_from_node`,
    `_applyS` and `_applyA` of `ChargifyBase`.

    The decoding object (`self`) takes part through three things it holds:
    its class, whose `__attribute_types__` decide which children are nested
    objects at EVERY level of the recursion, and its `api_key` and
    `sub_domain`, which every object it builds receives. The source
    re-serialises a nested child and parses it again before decoding it;
    here the decode recurses on the child's subtree directly, searching it
    for the child's own tag. ISO-8601 parsing is the parameter `parseTime`. */
module Decode {
  import opened Wrappers
  import opened Xml
  import opened Schema

  datatype Decoder = Decoder(kind: Kind, apiKey: Value, subDomain: string)

  // ---------------------------------------------------------------------
  // Specification

  /** Child elements that `__get_object_from_node` copies into a field `k`. */
  predicate NamedChild(c: Node, k: string) {
    c.Element? && c.name != "" && c.name == k
  }

  /** The value that a field takes from child element `c`. */
  function FieldValue(d: Decoder, c: Node, parseTime: string -> DateTime): Value
    requires c.Element?
    decreases Size(c), 4
  {
    if c.name in AttrTypes(d.kind) then
      match DecodeOne(d, c, AttrTypes(d.kind)[c.name], c.name, parseTime)
      case Some(o) => ObjVal(o)
      case None => NoneVal
    else
      var text := TextOf(c.children);
      if "type" in c.attrs && text != "" && c.attrs["type"] == "datetime"
      then TimeVal(parseTime(text))
      else StrVal(text)
  }

  /** The instance dictionary after the first `i` children of `n` have been
      visited: a fresh object's, then one assignment per named child element. */
  function FieldsUpTo(d: Decoder, n: Node, target: Kind, i: nat, parseTime: string -> DateTime)
    : (fields: map<string, Value>)
    requires i <= |Children(n)|
    decreases Size(n), 1, i
    ensures Initial(target, d.apiKey, d.subDomain, "").fields.Keys <= fields.Keys
  {
    if i == 0 then Initial(target, d.apiKey, d.subDomain, "").fields
    else
      var fields := FieldsUpTo(d, n, target, i - 1, parseTime);
      var c := Children(n)[i - 1];
      if c.Element? && c.name != "" then
        ChildSmaller(n, i - 1);
        fields[c.name := FieldValue(d, c, parseTime)]
      else fields
  }

  /** The object `__get_object_from_node` builds of class `target` from `n`. */
  function ObjectFromNode(d: Decoder, n: Node, target: Kind, parseTime: string -> DateTime): (obj: Entity)
    decreases Size(n), 2
    ensures obj.kind == target
    ensures {"api_key", "sub_domain", "request_host"} <= obj.fields.Keys
  {
    Entity(target, FieldsUpTo(d, n, target, |Children(n)|, parseTime))
  }

  /** `_applyS`: an object when exactly one element is named `name`. */
  function DecodeOne(d: Decoder, doc: Node, target: Kind, name: string,
                     parseTime: string -> DateTime): (r: Option<Entity>)
    decreases Size(doc), 3
    ensures r.Some? <==> |ElementsByTagName(doc, name)| == 1
    ensures r.Some? ==> r.value.kind == target
  {
    var nodes := ElementsByTagName(doc, name);
    MatchesAreNamedElements(doc, name);
    if |nodes| == 1 then
      assert nodes[0] in nodes;
      Some(ObjectFromNode(d, nodes[0], target, parseTime))
    else None
  }

  /** `_applyA`: one object per element named `name`, in document order. */
  function DecodeMany(d: Decoder, doc: Node, target: Kind, name: string,
                      parseTime: string -> DateTime): (objs: seq<Entity>)
    ensures |objs| == |ElementsByTagName(doc, name)|
    ensures ElementsByTagName(doc, name) == [] ==> objs == []
    ensures forall i :: 0 <= i < |objs| ==> objs[i].kind == target
  {
    var nodes := ElementsByTagName(doc, name);
    seq(|nodes|, i requires 0 <= i < |nodes| => ObjectFromNode(d, nodes[i], target, parseTime))
  }

  // ---------------------------------------------------------------------
  // The source's methods

  /** `__get_xml_value`: the data of the text nodes, concatenated in order. */
  method GetXmlValue(nodes: seq<Node>) returns (rc: string)
    ensures rc == TextOf(nodes)
  {
    rc := "";
    for i := 0 to |nodes|
      invariant rc == TextOf(nodes[..i])
    {
      assert nodes[..i + 1][..i] == nodes[..i];
      if nodes[i].Text? {
        rc := rc + nodes[i].data;
      }
    }
    assert nodes[..|nodes|] == nodes;
  }

  /** `__get_object_from_node`: a fresh object with the decoder's
      credentials, then one field per named child element. */
  method GetObjectFromNode(d: Decoder, node: Node, target: Kind, parseTime: string -> DateTime)
    returns (obj: Entity)
    decreases Size(node), 2
    ensures obj == ObjectFromNode(d, node, target, parseTime)
  {
    var fields := Initial(target, d.apiKey, d.subDomain, "").fields;
    var children := Children(node);
    for i := 0 to |children|
      invariant fields == FieldsUpTo(d, node, target, i, parseTime)
    {
      var c := children[i];
      if c.Element? && c.name != "" {
        ChildSmaller(node, i);
        var value := ChildValue(d, c, parseTime);
        fields := fields[c.name := value];
      }
    }
    obj := Entity(target, fields);
  }

  /** The body of the loop of `__get_object_from_node` for one child
      element: a nested object for a name in `__attribute_types__`, else the
      text, parsed as a date and time when the element says it is one. */
  method ChildValue(d: Decoder, c: Node, parseTime: string -> DateTime) returns (value: Value)
    requires c.Element?
    decreases Size(c), 4
    ensures value == FieldValue(d, c, parseTime)
  {
    if c.name in AttrTypes(d.kind) {
      var nested := ApplyS(d, c, AttrTypes(d.kind)[c.name], c.name, parseTime);
      value := if nested.Some? then ObjVal(nested.value) else NoneVal;
    } else {
      var text := GetXmlValue(c.children);
      value := StrVal(text);
      if "type" in c.attrs {
        if text != "" {
          if c.attrs["type"] == "datetime" {
            value := TimeVal(parseTime(text));
          }
        }
      }
    }
  }

  /** `_applyS`: decodes the element named `name` when it is the only one in
      the document, the root included; None for no match or several. */
  method ApplyS(d: Decoder, doc: Node, target: Kind, name: string, parseTime: string -> DateTime)
    returns (r: Option<Entity>)
    decreases Size(doc), 3
    ensures r == DecodeOne(d, doc, target, name, parseTime)
    ensures r.Some? <==> |ElementsByTagName(doc, name)| == 1
    ensures r.Some? ==> r.value == ObjectFromNode(d, ElementsByTagName(doc, name)[0], target, parseTime)
  {
    var nodes := ElementsByTagName(doc, name);
    if |nodes| == 1 {
      MatchesAreNamedElements(doc, name);
      assert nodes[0] in nodes;
      var obj := GetObjectFromNode(d, nodes[0], target, parseTime);
      r := Some(obj);
    } else {
      r := None;
    }
  }

  /** `_applyA`: one object per element named `name`, in document order. */
  method ApplyA(d: Decoder, doc: Node, target: Kind, name: string, parseTime: string -> DateTime)
    returns (objs: seq<Entity>)
    ensures objs == DecodeMany(d, doc, target, name, parseTime)
    ensures |objs| == |ElementsByTagName(doc, name)|
    ensures forall i :: 0 <= i < |objs| ==>
      objs[i] == ObjectFromNode(d, ElementsByTagName(doc, name)[i], target, parseTime)
  {
    var nodes := ElementsByTagName(doc, name);
    objs := [];
    for i := 0 to |nodes|
      invariant |objs| == i
      invariant forall j :: 0 <= j < i ==> objs[j] == ObjectFromNode(d, nodes[j], target, parseTime)
    {
      var obj := GetObjectFromNode(d, nodes[i], target, parseTime);
      objs := objs + [obj];
    }
  }

  // ---------------------------------------------------------------------
  // Properties of the decoded objects

  /** The last of the first `i` children that is an element named `k`. */
  function LastNamed(cs: seq<Node>, k: string, i: nat): (r: Option<nat>)
    requires i <= |cs|
    ensures r.Some? ==> r.value < i && NamedChild(cs[r.value], k) &&
                        forall j :: r.value < j < i ==> !NamedChild(cs[j], k)
    ensures r.None? ==> forall j :: 0 <= j < i ==> !NamedChild(cs[j], k)
  {
    if i == 0 then None
    else if NamedChild(cs[i - 1], k) then Some(i - 1)
    else LastNamed(cs, k, i - 1)
  }

  lemma {:induction false} FieldsUpToAt(d: Decoder, n: Node, target: Kind, i: nat,
                                        parseTime: string -> DateTime, k: string)
    requires i <= |Children(n)|
    ensures var fields := FieldsUpTo(d, n, target, i, parseTime);
            var init := Initial(target, d.apiKey, d.subDomain, "").fields;
            match LastNamed(Children(n), k, i)
            case Some(j) =>
              k in fields && fields[k] == FieldValue(d, Children(n)[j], parseTime)
            case None =>
              (k in fields <==> k in init) && (k in init ==> fields[k] == init[k])
  {
    if i > 0 {
      FieldsUpToAt(d, n, target, i - 1, parseTime, k);
    }
  }

  /** What a decoded object holds, field by field. Its class is the target.
      A field named after a child element holds the value decoded from the
      LAST such child (each assignment overwrites the previous one). Every
      other field is what the constructor left: the decoder's `api_key` and
      `sub_domain`, the request host derived from the latter, and for all
      remaining names the class's data attribute, if it declares one. */
  lemma DecodedObject(d: Decoder, n: Node, target: Kind, parseTime: string -> DateTime, k: string)
    ensures var obj := ObjectFromNode(d, n, target, parseTime);
            var cs := Children(n);
            && obj.kind == target
            && (k in obj.fields <==>
                  k in {"api_key", "sub_domain", "request_host"} || LastNamed(cs, k, |cs|).Some?)
            && (LastNamed(cs, k, |cs|).Some? ==>
                  obj.fields[k] == FieldValue(d, cs[LastNamed(cs, k, |cs|).value], parseTime))
            && (LastNamed(cs, k, |cs|).None? ==>
                  (k == "api_key" ==> obj.fields[k] == d.apiKey) &&
                  (k == "sub_domain" ==> obj.fields[k] == StrVal(d.subDomain)) &&
                  (k == "request_host" ==> obj.fields[k] == StrVal(d.subDomain + ".chargify.com")) &&
                  (k !in {"api_key", "sub_domain", "request_host"} ==>
                     GetAttr(obj, k) == (if k in ClassDefaults(target)
                                         then Some(ClassDefaults(target)[k]) else None)))
  {
    FieldsUpToAt(d, n, target, |Children(n)|, parseTime, k);
  }

  /** Only element children with a non-empty tag assign fields: text nodes,
      comments and the like leave the fresh object as it was. */
  lemma ElementChildrenOnly(d: Decoder, n: Node, target: Kind, parseTime: string -> DateTime)
    requires forall i :: 0 <= i < |Children(n)| ==> !Children(n)[i].Element?
    ensures ObjectFromNode(d, n, target, parseTime) == Initial(target, d.apiKey, d.subDomain, "")
  {
    forall i | 0 <= i <= |Children(n)|
      ensures FieldsUpTo(d, n, target, i, parseTime) == Initial(target, d.apiKey, d.subDomain, "").fields
    {
      FieldsOfTextOnly(d, n, target, i, parseTime);
    }
  }

  lemma {:induction false} FieldsOfTextOnly(d: Decoder, n: Node, target: Kind, i: nat,
                                            parseTime: string -> DateTime)
    requires i <= |Children(n)|
    requires forall j :: 0 <= j < |Children(n)| ==> !Children(n)[j].Element?
    ensures FieldsUpTo(d, n, target, i, parseTime) == Initial(target, d.apiKey, d.subDomain, "").fields
  {
    if i > 0 {
      FieldsOfTextOnly(d, n, target, i - 1, parseTime);
    }
  }

  /** A child whose tag is a key of the DECODER's `__attribute_types__`
      becomes a nested object of the mapped class, decoded from that child
      itself, unless the child's subtree holds another element of the same
      tag, in which case the field is None. */
  lemma NestedField(d: Decoder, c: Node, parseTime: string -> DateTime)
    requires c.Element? && c.name in AttrTypes(d.kind)
    ensures var matches := ElementsByTagName(c, c.name);
            FieldValue(d, c, parseTime) ==
              if |matches| == 1 then ObjVal(ObjectFromNode(d, c, AttrTypes(d.kind)[c.name], parseTime))
              else NoneVal
    ensures FieldValue(d, c, parseTime).ObjVal? ==>
              FieldValue(d, c, parseTime).obj.kind == AttrTypes(d.kind)[c.name]
  {
    var matches := ElementsByTagName(c, c.name);
    if |matches| == 1 {
      OnlyMatchIsRoot(c, c.name);
    }
  }

  /** Any other child gives its text, converted to a datetime exactly when it
      carries `type="datetime"` and the text is not empty. */
  lemma ScalarField(d: Decoder, c: Node, parseTime: string -> DateTime)
    requires c.Element? && c.name !in AttrTypes(d.kind)
    ensures var v := FieldValue(d, c, parseTime);
            var text := TextOf(c.children);
            (v.TimeVal? <==> "type" in c.attrs && c.attrs["type"] == "datetime" && text != "")
            && (v.TimeVal? ==> v.t == parseTime(text))
            && (!v.TimeVal? ==> v == StrVal(text))
  {
  }
}
