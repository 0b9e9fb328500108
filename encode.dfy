/** Object to XML encoding: `ChargifyBase._toxml`.

    The element is named after the object's `__xmlnodename__`; every
    instance attribute except the ignored ones becomes one child: a
    nested object's own encoding when the attribute is named in the
    class's `__attribute_types__`, otherwise an element named after the
    attribute holding one text node, `str(value)`. The children follow the
    iteration order of `__dict__`, which Python leaves unspecified, so the
    method picks the attributes in an arbitrary order and the specification
    (`ExpectedShape`) forgets the order of siblings. */
module Encode {
  import opened Wrappers
  import opened Errors
  import opened Xml
  import opened Schema

  /** The attributes `_toxml` emits: the instance dictionary less `__ignore__`. */
  function EmittedKeys(e: Entity): set<string> {
    e.fields.Keys - Ignore
  }

  predicate IsNested(e: Entity, k: string) {
    k in AttrTypes(e.kind)
  }

  /** No AttributeError: every emitted nested attribute holds an object, all
      the way down. (`_toxml` is called on whatever the attribute holds.) */
  predicate NestedOk(e: Entity)
    decreases e, 1
  {
    forall k :: k in EmittedKeys(e) && IsNested(e, k) ==> NestedChildOk(e, k)
  }

  predicate NestedChildOk(e: Entity, k: string)
    requires k in e.fields
    decreases e, 0
  {
    e.fields[k].ObjVal? && NestedOk(e.fields[k].obj)
  }

  /** The whole encoding can be written: no AttributeError, and every node
      name along the way is a string. */
  predicate Encodable(e: Entity)
    decreases e, 2
  {
    NodeName(e).Some? && ChildrenEncodable(e, EmittedKeys(e))
  }

  predicate ChildrenEncodable(e: Entity, ks: set<string>)
    requires ks <= EmittedKeys(e)
    decreases e, 1
  {
    forall k :: k in ks ==> ChildEncodable(e, k)
  }

  predicate ChildEncodable(e: Entity, k: string)
    requires k in e.fields
    decreases e, 0
  {
    IsNested(e, k) ==> e.fields[k].ObjVal? && Encodable(e.fields[k].obj)
  }

  /** The error `_toxml` and the serialisation of its result raise. */
  function EncodeError(e: Entity): Error {
    if NestedOk(e) then TypeError else AttributeError("_toxml")
  }

  /** An encoding that can be written raises no AttributeError. */
  lemma {:induction false} EncodableIsNestedOk(e: Entity)
    ensures ChildrenEncodable(e, EmittedKeys(e)) ==> NestedOk(e)
    decreases e
  {
    if ChildrenEncodable(e, EmittedKeys(e)) {
      forall k | k in EmittedKeys(e) && IsNested(e, k)
        ensures NestedChildOk(e, k)
      {
        assert ChildEncodable(e, k);
        assert Encodable(e.fields[k].obj);
        EncodableIsNestedOk(e.fields[k].obj);
      }
    }
  }

  // ---------------------------------------------------------------------
  // Specification: the element, with the order of siblings forgotten

  ghost function ExpectedShape(e: Entity): Shape
    requires Encodable(e)
    decreases e, 3
  {
    SElement(NodeName(e).value, map[], ChildShapes(e, EmittedKeys(e)))
  }

  /** The children contributed by the attributes in `ks`. */
  ghost function ChildShapes(e: Entity, ks: set<string>): multiset<Shape>
    requires ks <= EmittedKeys(e) && ChildrenEncodable(e, ks)
    decreases e, 2, ks
  {
    if ks == {} then multiset{}
    else
      var k :| k in ks;
      ChildShapes(e, ks - {k}) + multiset{ChildShape(e, k)}
  }

  /** The child an attribute contributes. */
  ghost function ChildShape(e: Entity, k: string): Shape
    requires k in e.fields && ChildEncodable(e, k)
    decreases e, 1
  {
    if IsNested(e, k) then ExpectedShape(e.fields[k].obj)
    else SElement(k, map[], multiset{SText(PyStr(e.fields[k]))})
  }

  /** `ChildShapes` does not depend on the order in which it picks the
      attributes: any one of them can be taken out first. */
  lemma {:induction false} ChildShapesRemove(e: Entity, ks: set<string>, x: string)
    requires ks <= EmittedKeys(e)
    requires forall k :: k in ks ==> ChildEncodable(e, k)
    requires x in ks
    ensures ChildShapes(e, ks) == ChildShapes(e, ks - {x}) + multiset{ChildShape(e, x)}
    decreases |ks|
  {
    var k :| k in ks && ChildShapes(e, ks) == ChildShapes(e, ks - {k}) + multiset{ChildShape(e, k)};
    if k != x {
      ChildShapesRemove(e, ks - {k}, x);
      ChildShapesRemove(e, ks - {x}, k);
      assert ks - {k} - {x} == ks - {x} - {k};
    }
  }

  /** One child per emitted attribute. */
  lemma {:induction false} ChildShapesCount(e: Entity, ks: set<string>)
    requires ks <= EmittedKeys(e) && ChildrenEncodable(e, ks)
    ensures |ChildShapes(e, ks)| == |ks|
    decreases |ks|
  {
    if ks != {} {
      var x :| x in ks;
      ChildShapesRemove(e, ks, x);
      ChildShapesCount(e, ks - {x});
    }
  }

  /** Every child is the one some attribute of `ks` contributes. */
  lemma {:induction false} ChildShapesOrigin(e: Entity, ks: set<string>, s: Shape)
    requires ks <= EmittedKeys(e) && ChildrenEncodable(e, ks)
    requires s in ChildShapes(e, ks)
    ensures exists k :: k in ks && s == ChildShape(e, k)
    decreases |ks|
  {
    assert ks != {};
    var x :| x in ks;
    ChildShapesRemove(e, ks, x);
    if s != ChildShape(e, x) {
      ChildShapesOrigin(e, ks - {x}, s);
    }
  }

  /** The encoding of an object: an element named after its
      `__xmlnodename__`, without attributes, with exactly one child per
      instance attribute outside `__ignore__` (`ChildShape`); no child comes
      from an ignored attribute. */
  lemma EncodingShape(e: Entity)
    requires Encodable(e)
    ensures ExpectedShape(e).name == NodeName(e).value && ExpectedShape(e).attrs == map[]
    ensures |ExpectedShape(e).children| == |EmittedKeys(e)|
    ensures forall k :: k in EmittedKeys(e) ==>
      ChildEncodable(e, k) && ChildShape(e, k) in ExpectedShape(e).children
    ensures forall s :: s in ExpectedShape(e).children ==>
      exists k :: k in EmittedKeys(e) && ChildEncodable(e, k) && s == ChildShape(e, k)
  {
    var ks := EmittedKeys(e);
    ChildShapesCount(e, ks);
    forall k | k in ks
      ensures ChildShape(e, k) in ChildShapes(e, ks)
    {
      ChildShapesRemove(e, ks, k);
    }
    forall s | s in ChildShapes(e, ks)
      ensures exists k :: k in ks && s == ChildShape(e, k)
    {
      ChildShapesOrigin(e, ks, s);
    }
  }

  // ---------------------------------------------------------------------
  // The source's method

  method ToXml(e: Entity) returns (r: Result<Node, Error>)
    decreases e, 2
    ensures r.Success? <==> Encodable(e)
    ensures r.Failure? ==> r.error == EncodeError(e)
    ensures r.Success? ==> ShapeOf(r.value) == ExpectedShape(e)
  {
    var children := EncodeChildren(e);
    if children.Failure? {
      return children.PropagateFailure();
    }
    EncodableIsNestedOk(e);
    if NodeName(e).None? {
      return Failure(TypeError);
    }
    r := Success(Element(NodeName(e).value, map[], children.value));
  }

  /** The loop over `__dict__`: the children of the element, or the error
      raised on the way. An AttributeError stops the loop; a node name that
      is not a string only fails once the element is written, so the loop
      goes on looking for an AttributeError after it. */
  method EncodeChildren(e: Entity) returns (r: Result<seq<Node>, Error>)
    decreases e, 1
    ensures r.Success? <==> ChildrenEncodable(e, EmittedKeys(e))
    ensures r.Failure? ==> r.error == EncodeError(e)
    ensures r.Success? ==> ShapesOf(r.value) == ChildShapes(e, EmittedKeys(e))
  {
    var remaining := e.fields.Keys;
    ghost var emitted: set<string> := {};
    var children: seq<Node> := [];
    var badName := false;
    ghost var culprit: string := "";
    while remaining != {}
      invariant remaining <= e.fields.Keys
      invariant emitted == EmittedKeys(e) - remaining
      invariant Visited(e, emitted, children, badName, culprit)
      decreases remaining
    {
      var k :| k in remaining;
      if k !in Ignore {
        var failed;
        children, badName, culprit, failed := Visit(e, emitted, k, children, badName, culprit);
        if failed {
          assert !ChildrenEncodable(e, EmittedKeys(e));
          return Failure(AttributeError("_toxml"));
        }
        emitted := emitted + {k};
      }
      remaining := remaining - {k};
    }
    assert emitted == EmittedKeys(e);
    if badName {
      return Failure(TypeError);
    }
    r := Success(children);
  }

  /** What the loop knows after visiting the attributes `ks`: each nested one
      holds an object free of AttributeErrors; either every child encoded and
      `children` are their nodes, or one named `culprit` did not. */
  ghost predicate Visited(e: Entity, ks: set<string>, children: seq<Node>, badName: bool, culprit: string)
  {
    && ks <= EmittedKeys(e)
    && (forall k :: k in ks && IsNested(e, k) ==> NestedChildOk(e, k))
    && (!badName ==> ChildrenEncodable(e, ks) && ShapesOf(children) == ChildShapes(e, ks))
    && (badName ==> culprit in ks && !ChildEncodable(e, culprit))
  }

  /** One iteration of the loop, on an attribute that is not ignored. */
  method Visit(e: Entity, ghost ks: set<string>, k: string, children: seq<Node>, badName: bool,
               ghost culprit: string)
    returns (children': seq<Node>, badName': bool, ghost culprit': string, failed: bool)
    requires k in EmittedKeys(e) && k !in ks
    requires Visited(e, ks, children, badName, culprit)
    decreases e, 0, 1
    ensures failed <==> IsNested(e, k) && !NestedChildOk(e, k)
    ensures failed ==> !ChildEncodable(e, k) && !NestedOk(e)
    ensures !failed ==> Visited(e, ks + {k}, children', badName', culprit')
  {
    var c := EncodeChild(e, k);
    children', badName', culprit', failed := children, badName, culprit, false;
    if c.Failure? {
      if c.error.AttributeError? {
        failed := true;
        var v := e.fields[k];
        if v.ObjVal? {
          EncodableIsNestedOk(v.obj);
        }
      } else {
        badName', culprit' := true, k;
      }
    } else if !badName {
      AppendChild(e, ks, k, children, c.value);
      children' := children + [c.value];
    }
  }

  /** The child node of one emitted attribute, and the error its encoding
      raises: AttributeError when a nested attribute does not hold an object
      that can encode, TypeError when only a node name below is not a string. */
  method EncodeChild(e: Entity, k: string) returns (c: Result<Node, Error>)
    requires k in EmittedKeys(e)
    decreases e, 0, 0
    ensures c.Success? <==> ChildEncodable(e, k)
    ensures c.Failure? ==> IsNested(e, k)
    ensures c.Failure? ==> c.error == if NestedChildOk(e, k) then TypeError else AttributeError("_toxml")
    ensures c.Success? && IsNested(e, k) ==> NestedChildOk(e, k)
    ensures c.Success? ==> ShapeOf(c.value) == ChildShape(e, k)
  {
    var v := e.fields[k];
    if IsNested(e, k) {
      if !v.ObjVal? {
        return Failure(AttributeError("_toxml"));
      }
      c := ToXml(v.obj);
      if c.Success? {
        EncodableIsNestedOk(v.obj);
      }
    } else {
      c := Success(Element(k, map[], [Text(PyStr(v))]));
      assert ShapesOf([Text(PyStr(v))]) == multiset{SText(PyStr(v))};
    }
  }

  /** One more attribute's child node appended to the children built so far. */
  lemma AppendChild(e: Entity, ks: set<string>, k: string, children: seq<Node>, child: Node)
    requires ks <= EmittedKeys(e) && k in EmittedKeys(e) && k !in ks
    requires forall j :: j in ks + {k} ==> ChildEncodable(e, j)
    requires ShapesOf(children) == ChildShapes(e, ks)
    requires ShapeOf(child) == ChildShape(e, k)
    ensures ShapesOf(children + [child]) == ChildShapes(e, ks + {k})
  {
    ShapesOfAppend(children, child);
    ChildShapesRemove(e, ks + {k}, k);
    assert ks + {k} - {k} == ks;
  }
}
