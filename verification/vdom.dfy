/**
 * Building VDOM nodes: separating the positional arguments of a constructor
 * call into attributes and children, flattening nested children, splitting
 * attributes into plain attributes, event handlers and inline JavaScript,
 * assembling the node, and the recursive validity contract of serialized
 * VDOM (the element schema).
 */
module Vdom {
  import opened PyValues

  // ---------------------------------------------------------------------------
  // Flattening children
  // ---------------------------------------------------------------------------

  /** `hasattr(value, "__iter__")`: tuples, lists and generators (strings and mappings are handled before). */
  predicate Iterable(v: Value)
  {
    v.TupleV? || v.ListV? || v.IterV?
  }

  /** `_is_single_child`: strings, mappings and non-iterables are single children. */
  predicate IsSingleChild(v: Value)
  {
    IsStr(v) || v.DictV? || !Iterable(v)
  }

  /** The children a non-single child expands to. */
  function FlattenOne(v: Value): (r: seq<Value>)
    ensures forall i :: 0 <= i < |r| ==> IsSingleChild(r[i])
    decreases v
  {
    if IsSingleChild(v) then [v] else Flatten(v.items)
  }

  /** `_flatten_children`: single children in left-to-right order, every other iterable expanded. */
  function Flatten(children: seq<Value>): (r: seq<Value>)
    ensures forall i :: 0 <= i < |r| ==> IsSingleChild(r[i])
    decreases children
  {
    if children == [] then [] else FlattenOne(children[0]) + Flatten(children[1..])
  }

  /** Flattening distributes over concatenation: order is kept. */
  lemma {:induction false} FlattenAppend(s: seq<Value>, t: seq<Value>)
    ensures Flatten(s + t) == Flatten(s) + Flatten(t)
    decreases |s|
  {
    if s == [] {
      assert s + t == t;
    } else {
      assert (s + t)[1..] == s[1..] + t;
      FlattenAppend(s[1..], t);
    }
  }

  /** A list that is already flat comes back unchanged. */
  lemma {:induction false} FlattenFlat(s: seq<Value>)
    requires forall i :: 0 <= i < |s| ==> IsSingleChild(s[i])
    ensures Flatten(s) == s
    decreases |s|
  {
    if s != [] {
      FlattenFlat(s[1..]);
    }
  }

  /** Flattening twice is flattening once. */
  lemma FlattenIdempotent(s: seq<Value>)
    ensures Flatten(Flatten(s)) == Flatten(s)
  {
    FlattenFlat(Flatten(s));
  }

  /** Wrapping children in a list, tuple or generator does not change what they flatten to. */
  lemma FlattenIgnoresNesting(s: seq<Value>, id: nat)
    ensures Flatten([ListV(s)]) == Flatten(s)
    ensures Flatten([TupleV(s)]) == Flatten(s)
    ensures Flatten([IterV(id, s)]) == Flatten(s)
  {
    assert [ListV(s)][1..] == [];
    assert [TupleV(s)][1..] == [];
    assert [IterV(id, s)][1..] == [];
  }

  /** What `_validate_child_key_integrity` warns about. */
  datatype Warning =
    | GeneratorNotChecked(iterable: Value)  // a generator has no length, so its children are not checked
    | MissingKey(child: Value)              // a component or mapping child without a key

  /** A child that needs no key warning: not a component without a key, not a mapping without `"key"`. */
  predicate Keyed(child: Value)
  {
    !(child.ComponentV? && child.key == NoneV) && !(child.DictV? && "key" !in child.fields)
  }

  /** The warnings for the children of a sequence, in order. */
  function MissingKeys(children: seq<Value>): (r: seq<Warning>)
    ensures |r| <= |children|
    ensures r == [] <==> forall i :: 0 <= i < |children| ==> Keyed(children[i])
    decreases |children|
  {
    if children == [] then []
    else (if Keyed(children[0]) then [] else [MissingKey(children[0])]) + MissingKeys(children[1..])
  }

  /** The warnings `_validate_child_key_integrity(value)` gives. */
  function KeyWarnings(value: Value): (r: seq<Warning>)
    requires Iterable(value)
  {
    if value.IterV? then [GeneratorNotChecked(value)] else MissingKeys(value.items)
  }

  lemma MissingKeysFrom(items: seq<Value>, i: nat)
    requires i < |items|
    ensures MissingKeys(items[i..]) == (if Keyed(items[i]) then [] else [MissingKey(items[i])]) + MissingKeys(items[i + 1..])
  {
    assert items[i..][1..] == items[i + 1..];
  }

  /** `_validate_child_key_integrity(value)`: a loop over the children collecting warnings. */
  method ValidateChildKeyIntegrity(value: Value) returns (warnings: seq<Warning>)
    requires Iterable(value)
    ensures warnings == KeyWarnings(value)
  {
    if value.IterV? {
      return [GeneratorNotChecked(value)];
    }
    warnings := [];
    var items := value.items;
    assert items[0..] == items;
    for i := 0 to |items|
      invariant warnings + MissingKeys(items[i..]) == MissingKeys(items)
    {
      MissingKeysFrom(items, i);
      var w := if Keyed(items[i]) then [] else [MissingKey(items[i])];
      assert warnings + w + MissingKeys(items[i + 1..]) == MissingKeys(items);
      warnings := warnings + w;
    }
    assert items[|items|..] == [];
  }

  /**
   * The warnings flattening gives when debugging is on: for each non-single
   * child, its key warnings, then those of its own children.
   */
  function FlattenWarningsOne(v: Value, debug: bool): seq<Warning>
    decreases v
  {
    if IsSingleChild(v) then [] else (if debug then KeyWarnings(v) else []) + FlattenWarnings(v.items, debug)
  }

  function FlattenWarnings(children: seq<Value>, debug: bool): seq<Warning>
    decreases children
  {
    if children == [] then [] else FlattenWarningsOne(children[0], debug) + FlattenWarnings(children[1..], debug)
  }

  /** With debugging off, flattening never warns. */
  lemma {:induction false} NoWarningsWithoutDebug(children: seq<Value>)
    ensures FlattenWarnings(children, false) == []
    decreases children
  {
    if children != [] {
      if !IsSingleChild(children[0]) {
        NoWarningsWithoutDebug(children[0].items);
      }
      NoWarningsWithoutDebug(children[1..]);
    }
  }

  lemma {:induction false} FlattenWarningsAppend(s: seq<Value>, t: seq<Value>, debug: bool)
    ensures FlattenWarnings(s + t, debug) == FlattenWarnings(s, debug) + FlattenWarnings(t, debug)
    decreases |s|
  {
    if s == [] {
      assert s + t == t;
    } else {
      assert (s + t)[1..] == s[1..] + t;
      FlattenWarningsAppend(s[1..], t, debug);
    }
  }

  /** `_is_single_child(value)`, with the warnings it gives when debugging is on. */
  method IsSingleChildWarn(value: Value, debug: bool) returns (single: bool, warnings: seq<Warning>)
    ensures single == IsSingleChild(value)
    ensures warnings == if !single && debug then KeyWarnings(value) else []
  {
    if IsStr(value) || value.DictV? || !Iterable(value) {
      return true, [];
    }
    warnings := [];
    if debug {
      warnings := ValidateChildKeyIntegrity(value);
    }
    single := false;
  }

  /** Flattening one more child appends what that child flattens to. */
  lemma FlattenSnoc(s: seq<Value>, child: Value, debug: bool)
    ensures Flatten(s + [child]) == Flatten(s) + FlattenOne(child)
    ensures FlattenWarnings(s + [child], debug) == FlattenWarnings(s, debug) + FlattenWarningsOne(child, debug)
  {
    FlattenAppend(s, [child]);
    FlattenWarningsAppend(s, [child], debug);
    assert [child][1..] == [];
  }

  /** `_flatten_children(children)`: appends single children, extends with flattened iterables. */
  method FlattenChildren(children: seq<Value>, debug: bool) returns (flat: seq<Value>, warnings: seq<Warning>)
    ensures flat == Flatten(children)
    ensures warnings == FlattenWarnings(children, debug)
    decreases children
  {
    flat, warnings := [], [];
    for i := 0 to |children|
      invariant flat == Flatten(children[..i])
      invariant warnings == FlattenWarnings(children[..i], debug)
    {
      var child := children[i];
      assert children[..i + 1] == children[..i] + [child];
      FlattenSnoc(children[..i], child, debug);
      var single, w := IsSingleChildWarn(child, debug);
      warnings := warnings + w;
      if single {
        flat := flat + [child];
      } else {
        var sub, subWarnings := FlattenChildren(child.items, debug);
        flat := flat + sub;
        warnings := warnings + subWarnings;
      }
    }
    assert children[..|children|] == children;
  }

  // ---------------------------------------------------------------------------
  // Separating attributes from children
  // ---------------------------------------------------------------------------

  datatype Separated = Separated(attributes: map<string, Value>, children: seq<Value>)

  /**
   * `separate_attributes_and_children(values)`: a first argument whose type is
   * exactly `dict` is the attributes, and everything after it is flattened
   * into children; otherwise there are no attributes and every argument is
   * flattened.
   */
  function SeparateAttributesAndChildren(values: seq<Value>): (r: Separated)
    ensures values == [] ==> r == Separated(map[], [])
    ensures values != [] && values[0].DictV? && values[0].kind == PlainDict ==>
              r.attributes == values[0].fields && r.children == Flatten(values[1..])
    ensures (values == [] || !(values[0].DictV? && values[0].kind == PlainDict)) ==>
              r.attributes == map[] && r.children == Flatten(values)
    ensures forall i :: 0 <= i < |r.children| ==> IsSingleChild(r.children[i])
  {
    if values == [] then Separated(map[], [])
    else if values[0].DictV? && values[0].kind == PlainDict then Separated(values[0].fields, Flatten(values[1..]))
    else Separated(map[], Flatten(values))
  }

  /**
   * Separation undoes the way a call is written: attributes followed by
   * single children come back as exactly those attributes and children.
   */
  lemma SeparateRoundTrip(attributes: map<string, Value>, children: seq<Value>)
    requires forall i :: 0 <= i < |children| ==> IsSingleChild(children[i])
    ensures SeparateAttributesAndChildren([DictV(PlainDict, attributes)] + children) == Separated(attributes, children)
  {
    assert ([DictV(PlainDict, attributes)] + children)[1..] == children;
    FlattenFlat(children);
  }

  /** A `VdomDict` (a subclass of `dict`) passed first is a child, not the attributes. */
  lemma VdomDictFirstIsAChild(fields: map<string, Value>, rest: seq<Value>)
    ensures var r := SeparateAttributesAndChildren([DictV(VdomDictKind, fields)] + rest);
      r.attributes == map[] && r.children == [DictV(VdomDictKind, fields)] + Flatten(rest)
  {
    var values := [DictV(VdomDictKind, fields)] + rest;
    assert values[1..] == rest;
    assert Flatten(values) == FlattenOne(values[0]) + Flatten(values[1..]);
  }

  // ---------------------------------------------------------------------------
  // Attributes, event handlers and inline JavaScript
  // ---------------------------------------------------------------------------

  predicate IsAsciiUpper(c: char)
  {
    'A' <= c <= 'Z'
  }

  /** A character `\w` matches, restricted to ASCII: a letter, a digit or `_`. */
  predicate IsWordChar(c: char)
  {
    'a' <= c <= 'z' || 'A' <= c <= 'Z' || '0' <= c <= '9' || c == '_'
  }

  /**
   * `EVENT_ATTRIBUTE_PATTERN.match(k)` for `^on[A-Z]\w+`: `match` anchors at
   * the start only, so it suffices that `on`, an upper-case letter and one
   * word character begin the key.
   */
  predicate EventAttributeName(k: string)
  {
    |k| >= 4 && k[0] == 'o' && k[1] == 'n' && IsAsciiUpper(k[2]) && IsWordChar(k[3])
  }

  lemma EventAttributeNameExamples()
    ensures EventAttributeName("onClick") && EventAttributeName("onKeyDown") && EventAttributeName("onA1-")
    ensures !EventAttributeName("onclick") && !EventAttributeName("onC") && !EventAttributeName("on_Click")
    ensures !EventAttributeName("class") && !EventAttributeName("doClick")
  {
  }

  /** Where one attribute goes. */
  datatype Placement =
    | AsHandler(handler: Value)
    | AsScript(script: Value)
    | AsAttribute(value: Value)

  /**
   * The branch of the attribute loop that takes `k: v`. A callable becomes an
   * event handler (`to_event_handler_function` is not part of this model: the
   * handler wraps the callable itself), an event handler stays one, a string
   * under an event name and any inline JavaScript become inline JavaScript
   * with the same text, and everything else is an attribute, unchanged.
   */
  function Place(k: string, v: Value): (p: Placement)
    ensures p.AsHandler? <==> IsCallable(v) || v.HandlerV?
    ensures p.AsHandler? ==> p.handler.HandlerV? && (v.HandlerV? ==> p.handler == v)
    ensures p.AsScript? <==> !p.AsHandler? && ((IsStr(v) && EventAttributeName(k)) || v.ScriptV?)
    ensures p.AsScript? ==> p.script == ScriptV(Text(v))
    ensures p.AsAttribute? ==> p.value == v
  {
    if IsCallable(v) then AsHandler(HandlerV(v))
    else if v.HandlerV? then AsHandler(v)
    else if EventAttributeName(k) && IsStr(v) then AsScript(ScriptV(Text(v)))
    else if v.ScriptV? then AsScript(v)
    else AsAttribute(v)
  }

  datatype Split = Split(attributes: map<string, Value>, handlers: map<string, Value>, scripts: map<string, Value>)

  /**
   * The three dictionaries of `separate_attributes_handlers_and_inline_javascript`:
   * every key lands in exactly one of them, with the value its placement gives.
   */
  function SplitAttributes(m: map<string, Value>): (r: Split)
    ensures r.attributes.Keys + r.handlers.Keys + r.scripts.Keys == m.Keys
    ensures r.attributes.Keys !! r.handlers.Keys && r.attributes.Keys !! r.scripts.Keys && r.handlers.Keys !! r.scripts.Keys
    ensures forall k :: k in r.attributes ==> Place(k, m[k]) == AsAttribute(r.attributes[k])
    ensures forall k :: k in r.handlers ==> Place(k, m[k]) == AsHandler(r.handlers[k])
    ensures forall k :: k in r.scripts ==> Place(k, m[k]) == AsScript(r.scripts[k])
  {
    Split(map k | k in m && Place(k, m[k]).AsAttribute? :: Place(k, m[k]).value,
          map k | k in m && Place(k, m[k]).AsHandler? :: Place(k, m[k]).handler,
          map k | k in m && Place(k, m[k]).AsScript? :: Place(k, m[k]).script)
  }

  /** `attrs`, `handlers` and `scripts` hold exactly the keys of `m` outside `todo`, each where it is placed. */
  ghost predicate PlacedExcept(m: map<string, Value>, todo: set<string>,
                               attrs: map<string, Value>, handlers: map<string, Value>, scripts: map<string, Value>)
  {
    && (forall k :: k in attrs <==> k in m && k !in todo && Place(k, m[k]).AsAttribute?)
    && (forall k :: k in handlers <==> k in m && k !in todo && Place(k, m[k]).AsHandler?)
    && (forall k :: k in scripts <==> k in m && k !in todo && Place(k, m[k]).AsScript?)
    && (forall k :: k in attrs ==> attrs[k] == Place(k, m[k]).value)
    && (forall k :: k in handlers ==> handlers[k] == Place(k, m[k]).handler)
    && (forall k :: k in scripts ==> scripts[k] == Place(k, m[k]).script)
  }

  lemma PlaceOne(m: map<string, Value>, todo: set<string>, k: string,
                 attrs: map<string, Value>, handlers: map<string, Value>, scripts: map<string, Value>)
    requires k in todo && todo <= m.Keys
    requires PlacedExcept(m, todo, attrs, handlers, scripts)
    ensures match Place(k, m[k])
      case AsHandler(h) => PlacedExcept(m, todo - {k}, attrs, handlers[k := h], scripts)
      case AsScript(s) => PlacedExcept(m, todo - {k}, attrs, handlers, scripts[k := s])
      case AsAttribute(v) => PlacedExcept(m, todo - {k}, attrs[k := v], handlers, scripts)
  {
  }

  lemma PlacedAll(m: map<string, Value>, attrs: map<string, Value>, handlers: map<string, Value>, scripts: map<string, Value>)
    requires PlacedExcept(m, {}, attrs, handlers, scripts)
    ensures Split(attrs, handlers, scripts) == SplitAttributes(m)
  {
    var r := SplitAttributes(m);
    assert attrs == r.attributes;
    assert handlers == r.handlers;
    assert scripts == r.scripts;
  }

  /** The loop of `separate_attributes_handlers_and_inline_javascript`, one key at a time. */
  method SeparateAttributesHandlersAndInlineJavaScript(attributes: map<string, Value>)
    returns (attrs: map<string, Value>, handlers: map<string, Value>, scripts: map<string, Value>)
    ensures Split(attrs, handlers, scripts) == SplitAttributes(attributes)
  {
    attrs, handlers, scripts := map[], map[], map[];
    var todo := attributes.Keys;
    while todo != {}
      invariant todo <= attributes.Keys
      invariant PlacedExcept(attributes, todo, attrs, handlers, scripts)
      decreases |todo|
    {
      var k :| k in todo;
      PlaceOne(attributes, todo, k, attrs, handlers, scripts);
      match Place(k, attributes[k]) {
        case AsHandler(h) => handlers := handlers[k := h];
        case AsScript(s) => scripts := scripts[k := s];
        case AsAttribute(v) => attrs := attrs[k := v];
      }
      todo := todo - {k};
    }
    PlacedAll(attributes, attrs, handlers, scripts);
  }

  // ---------------------------------------------------------------------------
  // Constructors and nodes
  // ---------------------------------------------------------------------------

  /**
   * A `Vdom` constructor: its `__name__`, whether it accepts children, the
   * custom constructor (`NoneV` when there is none) and the import source
   * (`NoneV` when there is none).
   */
  datatype Constructor = Constructor(name: string, allowChildren: bool, custom: Value, importSource: Value)

  datatype VdomError =
    | NotSerializable     // `json.dumps(attributes)` failed
    | CustomNotDict       // the custom constructor returned something `|` cannot merge
    | ChildrenNotAllowed  // `TypeError`: children on a constructor that accepts none
    | NoNestedComponents  // `AttributeError` from `__getattr__`

  datatype Result<T> = Success(value: T) | Failure(error: VdomError)

  /** What `json.dumps` accepts: `None`, booleans, integers, strings, lists, tuples and dicts of these. */
  predicate JsonSerializable(v: Value)
    decreases v
  {
    match v
    case NoneV => true
    case BoolV(_) => true
    case IntV(_) => true
    case StrV(_) => true
    case ScriptV(_) => true
    case TupleV(items) => forall i :: 0 <= i < |items| ==> JsonSerializable(items[i])
    case ListV(items) => forall i :: 0 <= i < |items| ==> JsonSerializable(items[i])
    case DictV(kind, fields) => kind != OtherMapping && forall k :: k in fields ==> JsonSerializable(fields[k])
    case _ => false
  }

  /** `attributes.get("key", None)` */
  function KeyOf(attributes: map<string, Value>): Value
  {
    if "key" in attributes then attributes["key"] else NoneV
  }

  /**
   * The default constructor's dictionary: each entry present only when its
   * value is not `None` (the key) or not empty (the others).
   */
  function DefaultNode(key: Value, children: seq<Value>, split: Split, importSource: Value): (node: map<string, Value>)
    ensures "key" in node <==> key != NoneV
    ensures "children" in node <==> children != []
    ensures "attributes" in node <==> split.attributes != map[]
    ensures "eventHandlers" in node <==> split.handlers != map[]
    ensures "inlineJavaScript" in node <==> split.scripts != map[]
    ensures "importSource" in node <==> Truthy(importSource)
    ensures "key" in node ==> node["key"] == key
    ensures "children" in node ==> node["children"] == ListV(children)
    ensures "attributes" in node ==> node["attributes"] == DictV(PlainDict, split.attributes)
    ensures "eventHandlers" in node ==> node["eventHandlers"] == DictV(PlainDict, split.handlers)
    ensures "inlineJavaScript" in node ==> node["inlineJavaScript"] == DictV(PlainDict, split.scripts)
    ensures "importSource" in node ==> node["importSource"] == importSource
    ensures node.Keys <= {"key", "children", "attributes", "eventHandlers", "inlineJavaScript", "importSource"}
  {
    var n0: map<string, Value> := map[];
    var n1 := if key != NoneV then n0["key" := key] else n0;
    var n2 := if children != [] then n1["children" := ListV(children)] else n1;
    var n3 := if split.attributes != map[] then n2["attributes" := DictV(PlainDict, split.attributes)] else n2;
    var n4 := if split.handlers != map[] then n3["eventHandlers" := DictV(PlainDict, split.handlers)] else n3;
    var n5 := if split.scripts != map[] then n4["inlineJavaScript" := DictV(PlainDict, split.scripts)] else n4;
    if Truthy(importSource) then n5["importSource" := importSource] else n5
  }

  /**
   * `Vdom.__call__(*args)`. `checkJson` is `REACTPY_CHECK_JSON_ATTRS`; `call`
   * runs the custom constructor with the key, children, attributes and event
   * handlers. The node is built before the children check, so a serialization
   * error wins over the children error.
   */
  function Call(c: Constructor, args: seq<Value>, checkJson: bool, call: Caller): (r: Result<Value>)
    ensures r.Success? ==> r.value.DictV? && r.value.kind == VdomDictKind
    ensures r.Success? ==> "tagName" in r.value.fields && r.value.fields["tagName"] == StrV(c.name)
    ensures r.Success? ==> c.allowChildren || SeparateAttributesAndChildren(args).children == []
  {
    var sep := SeparateAttributesAndChildren(args);
    var key := KeyOf(sep.attributes);
    var split := SplitAttributes(sep.attributes);
    if checkJson && !JsonSerializable(DictV(PlainDict, split.attributes)) then Failure(NotSerializable)
    else
      var built :=
        if Truthy(c.custom) then
          call(c.custom, [key, ListV(sep.children), DictV(PlainDict, split.attributes), DictV(PlainDict, split.handlers)])
        else DictV(PlainDict, DefaultNode(key, sep.children, split, c.importSource));
      if !(built.DictV? && built.kind != OtherMapping) then Failure(CustomNotDict)
      else
        var node := built.fields["tagName" := StrV(c.name)];
        if sep.children != [] && !c.allowChildren then Failure(ChildrenNotAllowed)
        else Success(DictV(VdomDictKind, node))
  }

  /**
   * With the default constructor, the node holds exactly the non-empty parts:
   * the key read from the attributes (which stay in the attributes), the
   * flattened children, the three parts of the attributes and the import
   * source.
   */
  lemma DefaultCallFields(c: Constructor, args: seq<Value>, checkJson: bool, call: Caller)
    requires !Truthy(c.custom)
    requires Call(c, args, checkJson, call).Success?
    ensures var fields := Call(c, args, checkJson, call).value.fields;
      var sep := SeparateAttributesAndChildren(args);
      var split := SplitAttributes(sep.attributes);
      && fields == DefaultNode(KeyOf(sep.attributes), sep.children, split, c.importSource)["tagName" := StrV(c.name)]
      && ("key" in fields <==> KeyOf(sep.attributes) != NoneV)
      && ("children" in fields <==> sep.children != [])
      && ("importSource" in fields <==> Truthy(c.importSource))
      && !("error" in fields)
  {
  }

  /**
   * A plain `key` attribute both sets the node's key and stays among its
   * attributes.
   */
  lemma KeyStaysInAttributes(c: Constructor, attributes: map<string, Value>, rest: seq<Value>, checkJson: bool, call: Caller)
    requires !Truthy(c.custom)
    requires "key" in attributes && attributes["key"] != NoneV && Place("key", attributes["key"]).AsAttribute?
    ensures var r := Call(c, [DictV(PlainDict, attributes)] + rest, checkJson, call);
      r.Success? ==>
      var fields := r.value.fields;
      && "key" in fields && fields["key"] == attributes["key"]
      && "attributes" in fields && fields["attributes"].DictV?
      && "key" in fields["attributes"].fields && fields["attributes"].fields["key"] == attributes["key"]
  {
    var args := [DictV(PlainDict, attributes)] + rest;
    var sep := SeparateAttributesAndChildren(args);
    assert sep.attributes == attributes;
    var split := SplitAttributes(attributes);
    assert "key" in split.attributes;
  }

  /**
   * Children on a constructor that accepts none are rejected, whatever
   * constructor builds the node, once the attributes serialize and the node
   * could be built; and without children the default constructor always
   * succeeds when the attributes serialize.
   */
  lemma ChildrenCheck(c: Constructor, args: seq<Value>, checkJson: bool, call: Caller)
    ensures var sep := SeparateAttributesAndChildren(args);
      var r := Call(c, args, checkJson, call);
      && (sep.children != [] && !c.allowChildren ==> r.Failure?)
      && (!Truthy(c.custom) && (sep.children == [] || c.allowChildren)
            && (!checkJson || JsonSerializable(DictV(PlainDict, SplitAttributes(sep.attributes).attributes)))
          ==> r.Success?)
  {
  }

  /**
   * `Vdom.__getattr__(attr)`: without an import source there are no nested
   * components; with one, a constructor named `<name>.<attr>` that keeps
   * `allow_children` and the import source and has no custom constructor.
   */
  function GetAttr(c: Constructor, attr: string): (r: Result<Constructor>)
    ensures r.Failure? <==> !Truthy(c.importSource)
    ensures r.Failure? ==> r.error == NoNestedComponents
    ensures r.Success? ==> r.value == Constructor(c.name + "." + attr, c.allowChildren, NoneV, c.importSource)
  {
    if !Truthy(c.importSource) then Failure(NoNestedComponents)
    else Success(Constructor(c.name + "." + attr, c.allowChildren, NoneV, c.importSource))
  }

  // ---------------------------------------------------------------------------
  // The element schema
  // ---------------------------------------------------------------------------

  /** JSON Schema `"object"`: a `dict` (a `Mapping` that is not a `dict` is not one). */
  predicate JsonObject(v: Value)
  {
    v.DictV? && v.kind != OtherMapping
  }

  /** JSON Schema `"array"`: a list or tuple. */
  predicate JsonArray(v: Value)
  {
    v.ListV? || v.TupleV?
  }

  /** JSON Schema `"number"`: an integer that is not a `bool`. */
  predicate JsonNumber(v: Value)
  {
    v.IntV?
  }

  /** The `element` definition. */
  predicate ValidElement(v: Value)
    decreases v, 2
  {
    && JsonObject(v)
    && "tagName" in v.fields && IsStr(v.fields["tagName"])
    && ("key" in v.fields ==> IsStr(v.fields["key"]) || JsonNumber(v.fields["key"]) || v.fields["key"] == NoneV)
    && ("error" in v.fields ==> IsStr(v.fields["error"]) && Text(v.fields["tagName"]) == "")
    && ("children" in v.fields ==> ValidChildren(v.fields["children"]))
    && ("attributes" in v.fields ==> JsonObject(v.fields["attributes"]))
    && ("eventHandlers" in v.fields ==> ValidEventHandlers(v.fields["eventHandlers"]))
    && ("inlineJavaScript" in v.fields ==> JsonObject(v.fields["inlineJavaScript"]))
    && ("importSource" in v.fields ==> ValidImportSource(v.fields["importSource"]))
  }

  /** The `elementChildren` definition. */
  predicate ValidChildren(v: Value)
    decreases v, 1
  {
    JsonArray(v) && forall i :: 0 <= i < |v.items| ==> ElementOrString(v.items[i])
  }

  /** The `elementOrString` definition: a string, or an object that is an element. */
  predicate ElementOrString(v: Value)
    decreases v, 3
  {
    IsStr(v) || (JsonObject(v) && ValidElement(v))
  }

  /** The `eventHandler` definition. */
  predicate ValidEventHandler(v: Value)
  {
    && JsonObject(v)
    && "target" in v.fields && IsStr(v.fields["target"])
    && ("preventDefault" in v.fields ==> v.fields["preventDefault"].BoolV?)
    && ("stopPropagation" in v.fields ==> v.fields["stopPropagation"].BoolV?)
  }

  /** The `elementEventHandlers` definition. */
  predicate ValidEventHandlers(v: Value)
  {
    JsonObject(v) && forall k :: k in v.fields ==> ValidEventHandler(v.fields[k])
  }

  /** The `importSource` definition. */
  predicate ValidImportSource(v: Value)
    decreases v, 1
  {
    && JsonObject(v)
    && "source" in v.fields && IsStr(v.fields["source"])
    && ("sourceType" in v.fields ==> IsStr(v.fields["sourceType"]) && Text(v.fields["sourceType"]) in {"URL", "NAME"})
    && ("fallback" in v.fields ==>
          var f := v.fields["fallback"];
          (JsonObject(f) || IsStr(f) || f == NoneV) && (f != NoneV ==> ElementOrString(f)))
    && ("unmountBeforeUpdate" in v.fields ==> v.fields["unmountBeforeUpdate"].BoolV?)
  }

  /**
   * A node built by the default constructor is a valid element when its
   * children are strings or valid elements, its key is a string, a number or
   * absent, it has no event handlers (which serialize separately), and its
   * import source, if any, is valid.
   */
  lemma CallBuildsValidElement(c: Constructor, args: seq<Value>, checkJson: bool, call: Caller)
    requires !Truthy(c.custom)
    requires Call(c, args, checkJson, call).Success?
    requires var sep := SeparateAttributesAndChildren(args);
      && (forall i :: 0 <= i < |sep.children| ==> ElementOrString(sep.children[i]))
      && (var key := KeyOf(sep.attributes); key == NoneV || IsStr(key) || JsonNumber(key))
      && SplitAttributes(sep.attributes).handlers == map[]
    requires Truthy(c.importSource) ==> ValidImportSource(c.importSource)
    ensures ValidElement(Call(c, args, checkJson, call).value)
  {
    var sep := SeparateAttributesAndChildren(args);
    var split := SplitAttributes(sep.attributes);
    var node := DefaultNode(KeyOf(sep.attributes), sep.children, split, c.importSource)["tagName" := StrV(c.name)];
    DefaultCallFields(c, args, checkJson, call);
    var v := Call(c, args, checkJson, call).value;
    assert v == DictV(VdomDictKind, node);
    if "children" in node {
      assert ValidChildren(node["children"]);
    }
  }
}
