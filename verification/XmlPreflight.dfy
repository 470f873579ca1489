/** The event handlers that bound an XML document before a tree is built. */
module XmlPreflight {
  import opened Basics

  datatype Limits = Limits(
    maxBytes: nat,
    maxDepth: nat,
    maxElements: nat,
    maxAttributes: nat,
    maxAttributesPerElement: nat,
    maxAttributeText: nat,
    maxText: nat,
    maxAttachmentText: nat)

  const DEFAULT_LIMITS := Limits(2 * 1024 * 1024, 64, 20_000, 50_000, 100, 64 * 1024, 2 * 1024 * 1024, 512 * 1024)
  const XINCLUDE_NAMESPACE := "http://www.w3.org/2001/XInclude"
  const ATTACHMENT_LOCAL_NAME := "EmbeddedDocumentBinaryObject"

  /** A document tree; neighbouring Chars nodes are the pieces in which one text is reported. */
  datatype Node =
    | Chars(length: nat)
    | Tree(name: string, attributes: seq<string>, content: seq<Node>)

  /** The calls of the parser: an element is reported with the values of its attributes. */
  datatype Event =
    | StartElement(name: string, attributes: seq<string>)
    | EndElement
    | CharacterData(length: nat)

  function Events(n: Node): (es: seq<Event>)
    decreases n
  {
    match n
    case Chars(length) => [CharacterData(length)]
    case Tree(name, attributes, content) => [StartElement(name, attributes)] + EventsOf(content) + [EndElement]
  }

  function EventsOf(content: seq<Node>): (es: seq<Event>)
    decreases content
  {
    if content == [] then [] else Events(content[0]) + EventsOf(content[1..])
  }

  /** The part after the last closing brace of an expanded name. */
  function LocalName(name: string): (local: string) {
    if '}' in name then LocalName(name[1..]) else name
  }

  /** The part before the last closing brace; empty without one. */
  function Namespace(name: string): (ns: string)
    ensures '}' in name ==> name == ns + "}" + LocalName(name)
  {
    if '}' !in name then ""
    else
      assert name == [name[0]] + name[1..];
      if '}' !in name[1..] then
        assert name[0] == '}';
        ""
      else [name[0]] + Namespace(name[1..])
  }

  predicate IsXInclude(name: string) {
    Namespace(name) == XINCLUDE_NAMESPACE && LocalName(name) in {"include", "fallback"}
  }

  predicate IsAttachment(local: string) {
    local == ATTACHMENT_LOCAL_NAME
  }

  // ---------------------------------------------------------------- the handlers on values

  datatype State =
    | Running(depth: nat, elements: nat, attributes: nat, text: nat, names: seq<string>, texts: seq<nat>)
    | Rejected

  const START := Running(0, 0, 0, 0, [], [])

  predicate AttributesFit(attributes: seq<string>, l: Limits) {
    |attributes| <= l.maxAttributesPerElement && forall i :: 0 <= i < |attributes| ==> |attributes[i]| <= l.maxAttributeText
  }

  function OnStart(s: State, name: string, attributes: seq<string>, l: Limits): (r: State) {
    if s.Rejected? then Rejected
    else if s.depth + 1 > l.maxDepth || s.elements + 1 > l.maxElements || s.attributes + |attributes| > l.maxAttributes
         || !AttributesFit(attributes, l) || IsXInclude(name) then Rejected
    else Running(s.depth + 1, s.elements + 1, s.attributes + |attributes|, s.text, s.names + [LocalName(name)], s.texts + [0])
  }

  function OnEnd(s: State): (r: State) {
    if s.Running? && |s.names| > 0 && |s.texts| > 0 && s.depth > 0
    then s.(depth := s.depth - 1, names := s.names[..|s.names| - 1], texts := s.texts[..|s.texts| - 1])
    else Rejected
  }

  function OnChars(s: State, length: nat, l: Limits): (r: State) {
    if s.Rejected? || s.text + length > l.maxText then Rejected
    else if s.texts == [] || s.names == [] then s.(text := s.text + length)
    else
      var top := |s.texts| - 1;
      var own := s.texts[top] + length;
      if IsAttachment(s.names[|s.names| - 1]) && own > l.maxAttachmentText then Rejected
      else s.(text := s.text + length, texts := s.texts[top := own])
  }

  function Handle(s: State, e: Event, l: Limits): (r: State) {
    match e
    case StartElement(name, attributes) => OnStart(s, name, attributes, l)
    case EndElement => OnEnd(s)
    case CharacterData(length) => OnChars(s, length, l)
  }

  function Feed(s: State, es: seq<Event>, l: Limits): (r: State)
    decreases |es|
  {
    if es == [] then s else Feed(Handle(s, es[0], l), es[1..], l)
  }

  // ---------------------------------------------------------------- the handlers in place

  class Preflight {
    const limits: Limits
    var depth: nat
    var elementCount: nat
    var attributeCount: nat
    var textCount: nat
    var elementNames: seq<string>
    var elementText: seq<nat>

    constructor (l: Limits)
      ensures limits == l && Value() == START
    {
      limits := l;
      depth, elementCount, attributeCount, textCount := 0, 0, 0, 0;
      elementNames, elementText := [], [];
    }

    function Value(): (s: State)
      reads this
    {
      Running(depth, elementCount, attributeCount, textCount, elementNames, elementText)
    }

    /** The stacks have one entry for each open element. */
    predicate Balanced()
      reads this
    {
      |elementNames| == |elementText| == depth
    }

    method Start(name: string, attributes: seq<string>) returns (ok: bool)
      requires Balanced()
      modifies this
      ensures ok ==> Balanced() && Value() == OnStart(old(Value()), name, attributes, limits)
      ensures !ok ==> OnStart(old(Value()), name, attributes, limits).Rejected?
    {
      depth := depth + 1;
      elementCount := elementCount + 1;
      attributeCount := attributeCount + |attributes|;
      if depth > limits.maxDepth || elementCount > limits.maxElements || |attributes| > limits.maxAttributesPerElement
         || attributeCount > limits.maxAttributes {
        return false;
      }
      for i := 0 to |attributes|
        invariant forall k :: 0 <= k < i ==> |attributes[k]| <= limits.maxAttributeText
      {
        if |attributes[i]| > limits.maxAttributeText {
          return false;
        }
      }
      if IsXInclude(name) {
        return false;
      }
      elementNames := elementNames + [LocalName(name)];
      elementText := elementText + [0];
      ok := true;
    }

    method End()
      requires Balanced() && depth > 0
      modifies this
      ensures Balanced() && Value() == OnEnd(old(Value()))
    {
      elementNames := elementNames[..|elementNames| - 1];
      elementText := elementText[..|elementText| - 1];
      depth := depth - 1;
    }

    method Characters(length: nat) returns (ok: bool)
      requires Balanced()
      modifies this
      ensures ok ==> Balanced() && Value() == OnChars(old(Value()), length, limits)
      ensures !ok ==> OnChars(old(Value()), length, limits).Rejected?
    {
      textCount := textCount + length;
      if textCount > limits.maxText {
        return false;
      }
      if elementText != [] {
        var top := |elementText| - 1;
        elementText := elementText[top := elementText[top] + length];
        if IsAttachment(elementNames[|elementNames| - 1]) && elementText[top] > limits.maxAttachmentText {
          return false;
        }
      }
      ok := true;
    }

    /** Parsing reports the events of a document one by one; the first rejection ends it. */
    method Parse(root: Node) returns (ok: bool)
      requires root.Tree? && Value() == START
      modifies this
      ensures ok <==> Feed(START, Events(root), limits).Running?
      ensures ok ==> Balanced() && Value() == Feed(START, Events(root), limits)
    {
      hide Events, OnStart, OnChars;
      var es := Events(root);
      assert es[0..] == es;
      for i := 0 to |es|
        invariant Balanced()
        invariant Feed(START, es, limits) == Feed(Value(), es[i..], limits)
      {
        FeedStep(Value(), es, i, limits);
        match es[i] {
          case StartElement(name, attributes) =>
            ok := Start(name, attributes);
            if !ok {
              return;
            }
          case EndElement =>
            if depth == 0 {
              return false;
            }
            End();
          case CharacterData(length) =>
            ok := Characters(length);
            if !ok {
              return;
            }
        }
      }
      assert es[|es|..] == [];
      ok := true;
    }
  }

  lemma {:induction false} FeedStep(s: State, es: seq<Event>, i: nat, l: Limits)
    requires i < |es|
    ensures Feed(s, es[i..], l) == Feed(Handle(s, es[i], l), es[i + 1..], l)
    ensures Handle(s, es[i], l).Rejected? ==> Feed(s, es[i..], l).Rejected?
  {
    hide OnStart, OnEnd, OnChars;
    assert es[i..][0] == es[i] && es[i..][1..] == es[i + 1..];
    if Handle(s, es[i], l).Rejected? {
      StaysRejected(es[i + 1..], l);
    }
  }

  lemma {:induction false} StaysRejected(es: seq<Event>, l: Limits)
    ensures Feed(Rejected, es, l) == Rejected
  {
    if es != [] {
      StaysRejected(es[1..], l);
    }
  }

  lemma {:induction false} FeedAppend(s: State, a: seq<Event>, b: seq<Event>, l: Limits)
    ensures Feed(s, a + b, l) == Feed(Feed(s, a, l), b, l)
    decreases |a|
  {
    hide Handle;
    if a == [] {
      assert a + b == b;
    } else {
      assert (a + b)[0] == a[0] && (a + b)[1..] == a[1..] + b;
      FeedAppend(Handle(s, a[0], l), a[1..], b, l);
    }
  }

  lemma {:induction false} FeedOne(s: State, e: Event, l: Limits)
    ensures Feed(s, [e], l) == Handle(s, e, l)
  {
    hide Handle;
    assert [e][1..] == [];
    assert Feed(Handle(s, e, l), [], l) == Handle(s, e, l);
  }

  // ---------------------------------------------------------------- measures of the tree

  function Max(a: nat, b: nat): (m: nat) {
    if a < b then b else a
  }

  function Depth(n: Node): (d: nat)
    decreases n
  {
    if n.Chars? then 0 else 1 + DepthOf(n.content)
  }

  function DepthOf(content: seq<Node>): (d: nat)
    decreases content
  {
    if content == [] then 0 else Max(Depth(content[0]), DepthOf(content[1..]))
  }

  function Elements(n: Node): (k: nat)
    decreases n
  {
    if n.Chars? then 0 else 1 + ElementsOf(n.content)
  }

  function ElementsOf(content: seq<Node>): (k: nat)
    decreases content
  {
    if content == [] then 0 else Elements(content[0]) + ElementsOf(content[1..])
  }

  function Attributes(n: Node): (k: nat)
    decreases n
  {
    if n.Chars? then 0 else |n.attributes| + AttributesOf(n.content)
  }

  function AttributesOf(content: seq<Node>): (k: nat)
    decreases content
  {
    if content == [] then 0 else Attributes(content[0]) + AttributesOf(content[1..])
  }

  /** All text in the tree. */
  function TextLength(n: Node): (k: nat)
    decreases n
  {
    if n.Chars? then n.length else TextLengthOf(n.content)
  }

  function TextLengthOf(content: seq<Node>): (k: nat)
    decreases content
  {
    if content == [] then 0 else TextLength(content[0]) + TextLengthOf(content[1..])
  }

  /** The text directly inside an element, not that of its children. */
  function OwnText(content: seq<Node>): (k: nat) {
    if content == [] then 0 else (if content[0].Chars? then content[0].length else 0) + OwnText(content[1..])
  }

  /** No XInclude element, no oversized attribute list or value, and no oversized attachment, at any depth. */
  predicate Clean(n: Node, l: Limits)
    decreases n
  {
    n.Tree? ==>
      && AttributesFit(n.attributes, l)
      && !IsXInclude(n.name)
      && (IsAttachment(LocalName(n.name)) ==> OwnText(n.content) <= l.maxAttachmentText)
      && CleanAll(n.content, l)
  }

  predicate CleanAll(content: seq<Node>, l: Limits)
    decreases content
  {
    content == [] || (Clean(content[0], l) && CleanAll(content[1..], l))
  }

  // ---------------------------------------------------------------- exactness

  /** A state in the middle of a document: balanced, and nothing over its limit so far. */
  predicate Inside(s: State, l: Limits) {
    && s.Running? && |s.names| == |s.texts| == s.depth
    && s.depth <= l.maxDepth && s.elements <= l.maxElements && s.attributes <= l.maxAttributes && s.text <= l.maxText
    && TopFits(s, 0, l)
  }

  /** The innermost open element may receive more text. */
  predicate TopFits(s: State, more: nat, l: Limits)
    requires s.Running?
  {
    s.texts != [] && s.names != [] && IsAttachment(s.names[|s.names| - 1]) ==> s.texts[|s.texts| - 1] + more <= l.maxAttachmentText
  }

  /** What a piece of a document adds up to. */
  datatype Weight = Weight(depth: nat, elements: nat, attributes: nat, text: nat, own: nat, clean: bool)

  function NodeWeight(n: Node, l: Limits): (w: Weight) {
    Weight(Depth(n), Elements(n), Attributes(n), TextLength(n), if n.Chars? then n.length else 0, Clean(n, l))
  }

  function ContentWeight(content: seq<Node>, l: Limits): (w: Weight) {
    Weight(DepthOf(content), ElementsOf(content), AttributesOf(content), TextLengthOf(content), OwnText(content), CleanAll(content, l))
  }

  predicate Fits(s: State, w: Weight, l: Limits)
    requires s.Running?
  {
    && s.depth + w.depth <= l.maxDepth && s.elements + w.elements <= l.maxElements
    && s.attributes + w.attributes <= l.maxAttributes && s.text + w.text <= l.maxText
    && TopFits(s, w.own, l) && w.clean
  }

  /** The state after a piece of a document. */
  function After(s: State, w: Weight, l: Limits): (r: State)
    requires s.Running?
  {
    if !Fits(s, w, l) then Rejected
    else Running(s.depth, s.elements + w.elements, s.attributes + w.attributes, s.text + w.text, s.names, Topped(s.texts, w.own))
  }

  function Topped(texts: seq<nat>, own: nat): (r: seq<nat>)
    ensures |r| == |texts|
  {
    if texts == [] then [] else texts[|texts| - 1 := texts[|texts| - 1] + own]
  }

  function Plus(a: Weight, b: Weight): (w: Weight) {
    Weight(Max(a.depth, b.depth), a.elements + b.elements, a.attributes + b.attributes, a.text + b.text, a.own + b.own,
      a.clean && b.clean)
  }

  /** Two pieces in a row. */
  lemma {:induction false} AfterBoth(s: State, a: Weight, b: Weight, l: Limits)
    requires Inside(s, l)
    ensures Fits(s, a, l) ==> Inside(After(s, a, l), l) && After(After(s, a, l), b, l) == After(s, Plus(a, b), l)
    ensures !Fits(s, a, l) ==> After(s, Plus(a, b), l) == Rejected
  {
  }

  lemma {:induction false} CharsExact(s: State, length: nat, l: Limits)
    requires Inside(s, l) && s.depth > 0
    ensures OnChars(s, length, l) == After(s, Weight(0, 0, 0, length, length, true), l)
  {
  }

  /** The content of an element. */
  lemma {:induction false} ContentExact(s: State, content: seq<Node>, l: Limits)
    requires Inside(s, l) && s.depth > 0
    ensures Feed(s, EventsOf(content), l) == After(s, ContentWeight(content, l), l)
    decreases content
  {
    hide OnStart, OnEnd, OnChars, Handle, Events, Depth, Elements, Attributes, TextLength, Clean, Fits, TopFits;
    if content == [] {
      NothingExact(s, l);
    } else {
      var n, rest := content[0], content[1..];
      var a, b := NodeWeight(n, l), ContentWeight(rest, l);
      assert ContentWeight(content, l) == Plus(a, b);
      NodeExact(s, n, l);
      FeedAppend(s, Events(n), EventsOf(rest), l);
      AfterBoth(s, a, b, l);
      if Fits(s, a, l) {
        ContentExact(After(s, a, l), rest, l);
      } else {
        StaysRejected(EventsOf(rest), l);
      }
    }
  }

  lemma {:induction false} NothingExact(s: State, l: Limits)
    requires Inside(s, l)
    ensures After(s, ContentWeight([], l), l) == s
  {
  }

  /** One node: a piece of text, or an element with all its content. */
  lemma {:induction false} NodeExact(s: State, n: Node, l: Limits)
    requires Inside(s, l) && (n.Chars? ==> s.depth > 0)
    ensures Feed(s, Events(n), l) == After(s, NodeWeight(n, l), l)
    decreases n
  {
    hide OnStart, OnEnd, OnChars, Inside, Fits, After, EventsOf, TopFits, ContentWeight;
    match n {
      case Chars(length) =>
        FeedOne(s, CharacterData(length), l);
        CharsExact(s, length, l);
      case Tree(name, attributes, content) =>
        var entered := OnStart(s, name, attributes, l);
        var start, middle, end := [StartElement(name, attributes)], EventsOf(content), [EndElement];
        FeedAppend(s, start + middle, end, l);
        FeedAppend(s, start, middle, l);
        FeedOne(s, start[0], l);
        StartExact(s, n, l);
        if entered.Rejected? {
          StaysRejected(middle, l);
          StaysRejected(end, l);
        } else {
          ContentExact(entered, content, l);
          FeedOne(After(entered, ContentWeight(content, l), l), EndElement, l);
        }
    }
  }

  /** Opening, filling and closing an element. */
  lemma {:induction false} StartExact(s: State, n: Node, l: Limits)
    requires Inside(s, l) && n.Tree?
    ensures var entered := OnStart(s, n.name, n.attributes, l);
      if entered.Rejected? then After(s, NodeWeight(n, l), l).Rejected?
      else
        && Inside(entered, l) && entered.depth > 0
        && OnEnd(After(entered, ContentWeight(n.content, l), l)) == After(s, NodeWeight(n, l), l)
  {
    hide OnStart, OnEnd, After, Inside, NodeWeight, ContentWeight;
    var entered := OnStart(s, n.name, n.attributes, l);
    StartRefused(s, n, l);
    if entered.Running? {
      StartEntered(s, n, l);
    }
  }

  /** An element that cannot be entered does not fit. */
  lemma {:induction false} StartRefused(s: State, n: Node, l: Limits)
    requires Inside(s, l) && n.Tree?
    ensures OnStart(s, n.name, n.attributes, l).Rejected? ==> After(s, NodeWeight(n, l), l).Rejected?
  {
    hide IsXInclude, AttributesFit, LocalName, DepthOf, ElementsOf, AttributesOf, TextLengthOf, OwnText, CleanAll, Topped, TopFits;
  }

  /** An element that is entered, filled and closed is counted whole. */
  lemma {:induction false} StartEntered(s: State, n: Node, l: Limits)
    requires Inside(s, l) && n.Tree? && OnStart(s, n.name, n.attributes, l).Running?
    ensures var entered := OnStart(s, n.name, n.attributes, l);
      && Inside(entered, l) && entered.depth > 0
      && OnEnd(After(entered, ContentWeight(n.content, l), l)) == After(s, NodeWeight(n, l), l)
  {
    hide IsXInclude, AttributesFit, LocalName, DepthOf, ElementsOf, AttributesOf, TextLengthOf, OwnText, CleanAll;
    Unstack(s.names, LocalName(n.name));
    Refill(s.texts, OwnText(n.content));
    Unchanged(s.texts);
  }

  lemma {:induction false} Unstack(names: seq<string>, name: string)
    ensures (names + [name])[..|names|] == names
  {
  }

  lemma {:induction false} Refill(texts: seq<nat>, own: nat)
    ensures Topped(texts + [0], own)[..|texts|] == texts
  {
  }

  lemma {:induction false} Unchanged(texts: seq<nat>)
    ensures Topped(texts, 0) == texts
  {
  }

  /**
   Over any document, in whatever pieces its text is reported, the handlers accept exactly when
   the depth, elements, attributes and text of the tree are within their limits, no attribute list,
   attribute value or attachment is oversized, and no XInclude element occurs. Both stacks are
   then empty again and the counters hold the totals.
   */
  lemma {:induction false} PreflightExact(root: Node, l: Limits)
    requires root.Tree?
    ensures var end := Feed(START, Events(root), l);
      && (end.Running? <==>
            && Depth(root) <= l.maxDepth && Elements(root) <= l.maxElements && Attributes(root) <= l.maxAttributes
            && TextLength(root) <= l.maxText && Clean(root, l))
      && (end.Running? ==> end == Running(0, Elements(root), Attributes(root), TextLength(root), [], []))
  {
    hide Feed, Events, Depth, Elements, Attributes, TextLength, Clean;
    NodeExact(START, root, l);
  }

  /** The document is within all limits, and no XInclude element occurs. */
  predicate WithinLimits(root: Node, l: Limits) {
    && Depth(root) <= l.maxDepth && Elements(root) <= l.maxElements && Attributes(root) <= l.maxAttributes
    && TextLength(root) <= l.maxText && Clean(root, l)
  }

  /** parse_xml_bytes on a well-formed document of the given size: the default limits apply unless others are given. */
  method ParseXml(root: Node, bytes: nat, given: Option<Limits>) returns (ok: bool)
    requires root.Tree?
    ensures given.None? ==> (ok <==> bytes <= 2_097_152 && WithinLimits(root, DEFAULT_LIMITS))
    ensures given.Some? ==> (ok <==> bytes <= given.value.maxBytes && WithinLimits(root, given.value))
  {
    hide Feed, Events, Depth, Elements, Attributes, TextLength, Clean;
    var l := if given.Some? then given.value else DEFAULT_LIMITS;
    if bytes > l.maxBytes {
      return false;
    }
    var preflight := new Preflight(l);
    ok := preflight.Parse(root);
    PreflightExact(root, l);
  }
}
