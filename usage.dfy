/** `ChargifySubscription.createUsage` and the `Usage` record it builds from
    the answer. Every `usage` element of the answer is flattened: each of
    its child nodes contributes the `data` of its own children, or a single
    None when it has none; the flattened values are the positional
    arguments of `Usage(id, memo, quantity)`, and `quantity` goes through
    `int()`. */
module Usage {
  import opened Wrappers
  import opened Errors
  import opened Strings
  import opened Xml
  import opened Schema
  import opened Transport

  datatype Usage = Usage(id: Option<string>, memo: Option<string>, quantity: int)

  /** `Usage(id, memo, quantity)`: the constructor takes exactly three
      arguments (TypeError otherwise); `int(None)` is a TypeError and
      `int()` of text that is not a decimal integer a ValueError. */
  function MakeUsage(args: seq<Option<string>>): (r: Result<Usage, Error>)
    ensures r.Success? ==> |args| == 3 && r.value.id == args[0] && r.value.memo == args[1] &&
                           args[2].Some? && ParseInt(args[2].value) == Some(r.value.quantity)
    ensures r.Success? <==> |args| == 3 && args[2].Some? && ParseInt(args[2].value).Some?
    ensures r.Failure? ==> r.error == (if |args| == 3 && args[2].Some? then ValueError else TypeError)
  {
    if |args| != 3 then Failure(TypeError)
    else match args[2]
      case None => Failure(TypeError)
      case Some(q) =>
        match ParseInt(q)
        case None => Failure(ValueError)
        case Some(n) => Success(Usage(args[0], args[1], n))
  }

  /** `[x.data for x in i.childNodes] or [None]`: an element grandchild has
      no `data` (AttributeError). */
  function ChildData(i: Node): (r: Result<seq<Option<string>>, Error>)
    ensures Children(i) == [] ==> r == Success([None])
    ensures r.Success? && Children(i) != [] ==>
      |r.value| == |Children(i)| &&
      forall j :: 0 <= j < |r.value| ==> !Children(i)[j].Element? && r.value[j] == Some(Children(i)[j].data)
    ensures r.Failure? <==> exists j :: 0 <= j < |Children(i)| && Children(i)[j].Element?
    ensures r.Failure? ==> r.error == AttributeError("data")
  {
    var cs := Children(i);
    if cs == [] then Success([None])
    else if exists j :: 0 <= j < |cs| && cs[j].Element? then Failure(AttributeError("data"))
    else Success(seq(|cs|, j requires 0 <= j < |cs| => Some(cs[j].data)))
  }

  /** The values of each child, when none of them fails. */
  function ChildDatas(cs: seq<Node>): seq<seq<Option<string>>>
    requires forall j :: 0 <= j < |cs| ==> ChildData(cs[j]).Success?
  {
    seq(|cs|, j requires 0 <= j < |cs| => ChildData(cs[j]).value)
  }

  /** `chain.from_iterable(...)` over the child nodes of one `usage` element:
      the values of every child one after the other, each child
      contributing at least one; a child with an element among its own
      children raises AttributeError. */
  function Flatten(cs: seq<Node>): (r: Result<seq<Option<string>>, Error>)
    ensures r.Failure? <==> exists j :: 0 <= j < |cs| && ChildData(cs[j]).Failure?
    ensures r.Failure? ==> r.error == AttributeError("data")
    ensures r.Success? ==> |r.value| >= |cs|
    ensures r.Success? ==>
              && (forall j :: 0 <= j < |cs| ==> ChildData(cs[j]).Success?)
              && r.value == Concat(ChildDatas(cs))
  {
    if cs == [] then Success([])
    else
      var first :- ChildData(cs[0]);
      var rest :- Flatten(cs[1..]);
      assert ChildDatas(cs)[1..] == ChildDatas(cs[1..]);
      Success(first + rest)
  }

  /** The record one `usage` element gives: its flattened values as the
      arguments of `Usage`. */
  function UsageOf(n: Node): (r: Result<Usage, Error>)
    ensures r.Failure? ==> r.error in {AttributeError("data"), TypeError, ValueError}
    ensures Flatten(Children(n)).Success? ==> r == MakeUsage(Flatten(Children(n)).value)
    ensures Flatten(Children(n)).Failure? ==> r == Failure(AttributeError("data"))
  {
    var args :- Flatten(Children(n));
    MakeUsage(args)
  }

  /** The list comprehension over `getElementsByTagName('usage')`: one
      record per element, in order, or the error of the first element that
      fails. */
  function UsagesOf(nodes: seq<Node>): (r: Result<seq<Usage>, Error>)
    ensures r.Success? <==> forall i :: 0 <= i < |nodes| ==> UsageOf(nodes[i]).Success?
    ensures r.Success? ==>
              && |r.value| == |nodes|
              && forall i :: 0 <= i < |nodes| ==> r.value[i] == UsageOf(nodes[i]).value
    ensures r.Failure? ==>
              exists i :: && 0 <= i < |nodes| && UsageOf(nodes[i]) == Failure(r.error)
                          && forall j :: 0 <= j < i ==> UsageOf(nodes[j]).Success?
  {
    if nodes == [] then Success([])
    else
      var u :- UsageOf(nodes[0]);
      var rest :- UsagesOf(nodes[1..]);
      Success([u] + rest)
  }

  /** The records of every `usage` element of the answer, root included. */
  function ParseUsages(doc: Node): Result<seq<Usage>, Error> {
    UsagesOf(ElementsByTagName(doc, "usage"))
  }

  /** The number `%d` writes for a value it accepts: `bool` is a subclass
      of `int` in Python, so True is 1 and False is 0. */
  function NumberOf(v: Value): int
    requires v.IntVal? || v.BoolVal?
  {
    if v.IntVal? then v.i else if v.b then 1 else 0
  }

  /** `'%d' % v`: the decimal text of an integer or a bool; any other value
      (None, a string, a datetime, an object) raises TypeError. */
  function FormatD(v: Value): (r: Result<string, Error>)
    ensures r.Success? <==> v.IntVal? || v.BoolVal?
    ensures r.Failure? ==> r.error == TypeError
    ensures r.Success? ==> r.value == IntToString(NumberOf(v)) && ParseInt(r.value) == Some(NumberOf(v))
  {
    if v.IntVal? || v.BoolVal? then
      IntRoundTrip(NumberOf(v));
      Success(IntToString(NumberOf(v)))
    else Failure(TypeError)
  }

  /** The path of the POST: the subscription's id as `str()` writes it and
      the component id as `%d` does. */
  function UsagePath(id: Value, componentId: Value): (r: Result<string, Error>)
    ensures r.Success? <==> FormatD(componentId).Success?
    ensures r.Failure? ==> r.error == TypeError
    ensures r.Success? ==>
              var prefix := "/subscriptions/" + PyStr(id) + "/components/";
              && Frames(r.value, prefix, FormatD(componentId).value, "/usages.xml")
              && ParseInt(r.value[|prefix|..|r.value| - |"/usages.xml"|]) == Some(NumberOf(componentId))
  {
    var c :- FormatD(componentId);
    var prefix := "/subscriptions/" + PyStr(id) + "/components/";
    FramesConcat(prefix, c, "/usages.xml");
    Success(prefix + c + "/usages.xml")
  }

  /** The request body: the quantity as `%d` writes it, and the memo, or
      nothing when the memo is falsy. */
  function UsageBody(quantity: Value, memo: Value): (r: Result<string, Error>)
    ensures r.Success? <==> FormatD(quantity).Success?
    ensures r.Failure? ==> r.error == TypeError
    ensures r.Success? ==>
              var q := FormatD(quantity).value;
              && Frames(r.value, UsageHead, q, "</quantity><memo>" + MemoText(memo) + "</memo></usage>")
              && ParseInt(r.value[|UsageHead|..|UsageHead| + |q|]) == Some(NumberOf(quantity))
  {
    var q :- FormatD(quantity);
    var tail := "</quantity><memo>" + MemoText(memo) + "</memo></usage>";
    FramesConcat(UsageHead, q, tail);
    Success(UsageHead + q + tail)
  }

  const UsageHead: string := "<?xml version=\"1.0\" encoding=\"UTF-8\"?><usage>\n            <quantity>"

  /** `memo or ""`: the memo as `%s` writes it, or nothing when it is falsy. */
  function MemoText(memo: Value): (t: string)
    ensures t == "" <==> !Truthy(memo)
    ensures Truthy(memo) ==> t == PyStr(memo)
  {
    if Truthy(memo) then PyStr(memo) else ""
  }

  /** `createUsage(component_id, quantity, memo)` on a subscription with the
      given id, once the server answered `status` and (parsed) `answer`. The
      body is formatted first, then the path; either `%d` can raise
      TypeError before anything is sent. */
  function CreateUsage(id: Value, componentId: Value, quantity: Value, memo: Value,
                       status: int, answer: Node)
    : (out: (Option<Request<string>>, Result<seq<Usage>, Error>))
    ensures out.0.Some? <==> FormatD(quantity).Success? && FormatD(componentId).Success?
    ensures out.0.Some? ==>
              out.0.value == Request(POST, UsagePath(id, componentId).value, UsageBody(quantity, memo).value)
    ensures out.0.None? ==> out.1 == Failure(TypeError)
    ensures out.0.Some? && status in StatusErrors() ==> out.1 == Failure(StatusErrors()[status])
    ensures out.0.Some? && status !in StatusErrors() ==> out.1 == ParseUsages(answer)
  {
    match UsageBody(quantity, memo)
    case Failure(err) => (None, Failure(err))
    case Success(body) =>
      match UsagePath(id, componentId)
      case Failure(err) => (None, Failure(err))
      case Success(path) =>
        (Some(Request(POST, path, body)), match Classify(status, answer)
                                          case Failure(err) => Failure(err)
                                          case Success(doc) => ParseUsages(doc))
  }

  // ---------------------------------------------------------------------
  // Properties

  /** A child holding a single text (or other character data) node
      contributes exactly that node's data. */
  lemma ChildDataSingle(c: Node)
    requires c.Element? && |c.children| == 1 && !c.children[0].Element?
    ensures ChildData(c) == Success([Some(c.children[0].data)])
  {
    var cs := Children(c);
    assert !(exists j :: 0 <= j < |cs| && cs[j].Element?);
    assert seq(|cs|, j requires 0 <= j < |cs| => Some(cs[j].data)) == [Some(c.children[0].data)];
  }

  /** The flattened values of such children, one value per child, in order. */
  lemma {:induction false} FlattenSingles(cs: seq<Node>)
    requires forall j :: 0 <= j < |cs| ==> cs[j].Element? && |cs[j].children| == 1 && !cs[j].children[0].Element?
    ensures Flatten(cs).Success? && |Flatten(cs).value| == |cs|
    ensures forall j :: 0 <= j < |cs| ==> Flatten(cs).value[j] == Some(cs[j].children[0].data)
  {
    if cs != [] {
      ChildDataSingle(cs[0]);
      FlattenSingles(cs[1..]);
    }
  }

  /** A `usage` element whose three children each hold one text node maps
      positionally: the first text is the id, the second the memo, and the
      third, read as an integer, the quantity. */
  lemma PositionalUsage(u: Node, id: string, memo: string, quantity: int)
    requires u.Element? && |u.children| == 3
    requires forall j :: 0 <= j < 3 ==> u.children[j].Element? && |u.children[j].children| == 1
    requires u.children[0].children[0] == Text(id)
    requires u.children[1].children[0] == Text(memo)
    requires u.children[2].children[0] == Text(IntToString(quantity))
    ensures UsagesOf([u]) == Success([Usage(Some(id), Some(memo), quantity)])
  {
    FlattenSingles(u.children);
    IntRoundTrip(quantity);
    var args := Flatten(u.children).value;
    assert args[0] == Some(id) && args[1] == Some(memo) && args[2] == Some(IntToString(quantity));
    var usage := Usage(Some(id), Some(memo), quantity);
    assert MakeUsage(args) == Success(usage);
    assert [u][1..] == [];
    var one: seq<Usage> := [usage];
    assert one + [] == one;
  }

  /** An empty memo element (`<memo/>`) gives the memo None, not ''. */
  lemma EmptyChildGivesNone(idText: string, quantity: int)
    ensures var u := Element("usage", map[], [Element("id", map[], [Text(idText)]),
                                             Element("memo", map[], []),
                                             Element("quantity", map[], [Text(IntToString(quantity))])]);
            UsagesOf([u]) == Success([Usage(Some(idText), None, quantity)])
  {
    var c0 := Element("id", map[], [Text(idText)]);
    var c1 := Element("memo", map[], []);
    var c2 := Element("quantity", map[], [Text(IntToString(quantity))]);
    var cs := [c0, c1, c2];
    ChildDataSingle(c0);
    ChildDataSingle(c2);
    assert cs[1..] == [c1, c2] && cs[1..][1..] == [c2] && [c2][1..] == [];
    var a: seq<Option<string>> := [Some(idText)];
    var b: seq<Option<string>> := [None];
    var c: seq<Option<string>> := [Some(IntToString(quantity))];
    assert c + [] == c;
    assert Flatten([c2]) == Success(c);
    assert Flatten([c1, c2]) == Success(b + c);
    assert Flatten(cs) == Success(a + (b + c));
    assert a + (b + c) == [Some(idText), None, Some(IntToString(quantity))];
    IntRoundTrip(quantity);
    var u := Element("usage", map[], cs);
    var usage := Usage(Some(idText), None, quantity);
    assert MakeUsage(a + (b + c)) == Success(usage);
    assert [u][1..] == [];
    var one: seq<Usage> := [usage];
    assert one + [] == one;
  }

  /** Any child other than three values fails the constructor: with an
      extra child the call has four arguments. */
  lemma ArityMatters(args: seq<Option<string>>)
    requires |args| != 3
    ensures MakeUsage(args) == Failure(TypeError)
  {
  }
}
