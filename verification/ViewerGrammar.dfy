/** The tree grammar of an accepted proof viewer, and the proof that the stack machine
    accepts exactly its flattenings. */
module ViewerGrammar {
  import opened Wrappers
  import opened ViewerPolicy

  datatype Node =
    | Text(data: string)
    | Leaf(tag: Tag, attrs: seq<Attribute>, slashed: bool)
    | Element(tag: Tag, attrs: seq<Attribute>, children: seq<Node>)

  function Flatten(n: Node): seq<Token>
    decreases n, 0
  {
    match n
    case Text(data) => [Data(data)]
    case Leaf(tag, attrs, slashed) => [if slashed then StartEnd(tag, attrs) else Start(tag, attrs)]
    case Element(tag, attrs, children) => [Start(tag, attrs)] + FlattenAll(children) + [End(tag)]
  }

  function FlattenAll(nodes: seq<Node>): seq<Token>
    decreases nodes, 1
  {
    if nodes == [] then [] else Flatten(nodes[0]) + FlattenAll(nodes[1..])
  }

  /** Where a node stands: directly in `html`, in `head`, in `body`, or in the raw text of a
      `style` or `title`. */
  datatype Place = InHtml | InHead | InBody | Raw

  /** Where the children of an element stand. */
  function Inside(tag: Tag): Place {
    match tag
    case Html => InHtml
    case Head => InHead
    case Style => Raw
    case Title => Raw
    case _ => InBody
  }

  predicate ElementMayStand(place: Place, tag: Tag) {
    match place
    case InHtml => tag == Head || tag == Body
    case InHead => tag == Style || tag == Title
    case InBody => tag == Style || tag == Title || tag.Flow?
    case Raw => false
  }

  function RawText(nodes: seq<Node>): string {
    if nodes == [] then ""
    else (if nodes[0].Text? then nodes[0].data else "") + RawText(nodes[1..])
  }

  /** The grammar of one node in its place. */
  predicate Good(x: Scanner, place: Place, n: Node)
    decreases n, 0
  {
    match n
    case Text(data) => '\0' !in data
    case Leaf(tag, attrs, _) =>
      && InertAttributes(attrs)
      && if tag == Meta then place == InHead && MetaConforms(x, attrs) else tag.Void? && place == InBody
    case Element(tag, attrs, children) =>
      && InertAttributes(attrs) && ElementMayStand(place, tag) && AllGood(x, Inside(tag), children)
      && (tag == Style ==> !x.activeCss(RawText(children)))
  }

  predicate AllGood(x: Scanner, place: Place, nodes: seq<Node>)
    decreases nodes, 1
  {
    nodes != [] ==> Good(x, place, nodes[0]) && AllGood(x, place, nodes[1..])
  }

  /** The tags of the elements directly in a forest. */
  function ElementTags(nodes: seq<Node>): seq<Tag> {
    if nodes == [] then []
    else (if nodes[0].Element? then [nodes[0].tag] else []) + ElementTags(nodes[1..])
  }

  /** The contents of the policy meta elements, in document order. */
  function Policies(x: Scanner, n: Node): seq<string>
    decreases n, 0
  {
    match n
    case Text(_) => []
    case Leaf(tag, attrs, _) =>
      if tag == Meta && PolicyMeta(x, attrs) then [OrEmpty(Get(attrs, "content"))] else []
    case Element(_, _, children) => AllPolicies(x, children)
  }

  function AllPolicies(x: Scanner, nodes: seq<Node>): seq<string>
    decreases nodes, 1
  {
    if nodes == [] then [] else Policies(x, nodes[0]) + AllPolicies(x, nodes[1..])
  }

  /** Blank text, the doctype, blank text, `html` with one head and then one body, blank
      text; and in the whole of it one policy meta element with the inert policy. */
  datatype Document = Document(
    before: seq<string>, between: seq<string>, attrs: seq<Attribute>, children: seq<Node>, after: seq<string>)

  function Texts(blanks: seq<string>): seq<Token> {
    seq(|blanks|, i requires 0 <= i < |blanks| => Data(blanks[i]))
  }

  predicate Blank(x: Scanner, blanks: seq<string>) {
    forall i :: 0 <= i < |blanks| ==> x.strip(blanks[i]) == "" && '\0' !in blanks[i]
  }

  function FlattenDocument(d: Document): seq<Token> {
    Texts(d.before) + ([Doctype] + (Texts(d.between)
      + ([Start(Html, d.attrs)] + (FlattenAll(d.children) + ([End(Html)] + Texts(d.after))))))
  }

  ghost predicate GoodDocument(x: Scanner, d: Document) {
    && Blank(x, d.before) && Blank(x, d.between) && Blank(x, d.after)
    && InertAttributes(d.attrs)
    && AllGood(x, InHtml, d.children) && ElementTags(d.children) == [Head, Body]
    && var policies := AllPolicies(x, d.children);
       |policies| == 1 && InertPolicy(x.directives(policies[0]))
  }

  /* ---- The stack of a running machine ---- */

  /** The stacks of a run inside `html`: nothing but `html`, or `html`, then `head` or
      `body`, then tags that are none of the three. */
  predicate Shaped(stack: seq<Tag>) {
    && stack != [] && stack[0] == Html
    && (|stack| > 1 ==> stack[1] == Head || stack[1] == Body)
    && forall i :: 2 <= i < |stack| ==> stack[i] == Style || stack[i] == Title || stack[i].Flow?
  }

  function PlaceOf(stack: seq<Tag>): Place
    requires Shaped(stack)
  {
    var last := stack[|stack| - 1];
    if last == Style || last == Title then Raw
    else if |stack| == 1 then InHtml
    else if stack[1] == Head then InHead
    else InBody
  }

  /** Heads and bodies seen so far: none, a head, or a head and a body. */
  function Seen(s: State): seq<Tag> {
    if s.heads == 0 then [] else if s.bodies == 0 then [Head] else [Head, Body]
  }

  predicate Inv(s: State) {
    && Shaped(s.stack) && !s.closed && s.htmls == 1 && s.doctypes == 1
    && s.heads <= 1 && s.bodies <= s.heads
    && (s.inStyle <==> s.stack[|s.stack| - 1] == Style)
    && (!s.inStyle ==> s.css == "")
    && (|s.stack| > 1 ==> s.heads == 1 && (s.stack[1] == Body <==> s.bodies == 1))
  }

  /** What one finished node adds to the machine's fields. */
  function AfterNode(x: Scanner, s: State, n: Node): State {
    match n
    case Text(data) => if s.inStyle then s.(css := s.css + data) else s
    case Leaf(_, _, _) => s.(policies := s.policies + Policies(x, n))
    case Element(tag, _, _) =>
      s.(policies := s.policies + Policies(x, n),
         heads := if tag == Head then 1 else s.heads,
         bodies := if tag == Body then 1 else s.bodies)
  }

  function AfterAll(x: Scanner, s: State, nodes: seq<Node>): State {
    s.(policies := s.policies + AllPolicies(x, nodes),
       css := if s.inStyle then s.css + RawText(nodes) else s.css,
       heads := if Head in ElementTags(nodes) then 1 else s.heads,
       bodies := if Body in ElementTags(nodes) then 1 else s.bodies)
  }

  lemma AfterOneMore(x: Scanner, s: State, nodes: seq<Node>)
    requires nodes != []
    ensures AfterAll(x, AfterNode(x, s, nodes[0]), nodes[1..]) == AfterAll(x, s, nodes)
  {
    var n := nodes[0];
    Joined(s.policies, Policies(x, n), AllPolicies(x, nodes[1..]));
    Joined(s.css, if n.Text? then n.data else "", RawText(nodes[1..]));
    assert s.policies + [] == s.policies && s.css + "" == s.css;
  }

  /** Directly in `html`, a head comes first and a body after it. */
  predicate Ordered(s: State, nodes: seq<Node>)
    requires Shaped(s.stack)
  {
    PlaceOf(s.stack) == InHtml ==> Seen(s) + ElementTags(nodes) <= [Head, Body]
  }

  lemma InStack(stack: seq<Tag>)
    requires Shaped(stack)
    ensures Html in stack
    ensures Head in stack <==> |stack| > 1 && stack[1] == Head
    ensures Body in stack <==> |stack| > 1 && stack[1] == Body
  {}

  lemma OneToken(x: Scanner, s: State, t: Token, rest: seq<Token>)
    requires TokenOk(x, s, t)
    ensures Run(x, s, [t] + rest) == Run(x, Next(x, s, t), rest)
  {
    assert ([t] + rest)[1..] == rest;
  }

  /** Where a start tag is accepted, the grammar lets its element stand. */
  lemma StartMeansPlace(x: Scanner, s: State, tag: Tag, attrs: seq<Attribute>)
    requires Inv(s) && StartOk(x, s, tag, attrs)
    ensures if IsVoid(tag) then Good(x, PlaceOf(s.stack), Leaf(tag, attrs, false))
            else ElementMayStand(PlaceOf(s.stack), tag)
    ensures InertAttributes(attrs)
    ensures tag == Head ==> Seen(s) == []
    ensures tag == Body ==> Seen(s) == [Head]
  {
    InStack(s.stack);
  }

  /** Where the grammar lets an element stand, its start tag is accepted. */
  lemma PlaceMeansStart(x: Scanner, s: State, tag: Tag, attrs: seq<Attribute>)
    requires Inv(s) && InertAttributes(attrs)
    requires if IsVoid(tag) then Good(x, PlaceOf(s.stack), Leaf(tag, attrs, false))
             else ElementMayStand(PlaceOf(s.stack), tag)
    requires tag == Head ==> Seen(s) == []
    requires tag == Body ==> Seen(s) == [Head]
    ensures StartOk(x, s, tag, attrs)
  {
    InStack(s.stack);
  }

  lemma OpenedInv(x: Scanner, s: State, tag: Tag, attrs: seq<Attribute>)
    requires Inv(s) && !IsVoid(tag) && ElementMayStand(PlaceOf(s.stack), tag)
    requires tag == Head ==> Seen(s) == []
    requires tag == Body ==> Seen(s) == [Head]
    ensures var o := Opened(x, s, tag, attrs);
            Inv(o) && PlaceOf(o.stack) == Inside(tag) != InHtml
  {}

  lemma {:induction false} NoHeads(x: Scanner, place: Place, nodes: seq<Node>)
    requires place != InHtml && AllGood(x, place, nodes)
    ensures Head !in ElementTags(nodes) && Body !in ElementTags(nodes)
    decreases |nodes|
  {
    if nodes != [] {
      NoHeads(x, place, nodes[1..]);
    }
  }

  /** The element tags of a forest may still follow what has been seen. */
  predicate MayFollow(s: State, tag: Tag) {
    && (tag == Head ==> Seen(s) == [])
    && (tag == Body ==> Seen(s) == [Head])
  }

  /** Opening an element, running its children and closing it is what the node adds. */
  lemma ElementAdds(x: Scanner, s: State, tag: Tag, attrs: seq<Attribute>, children: seq<Node>)
    requires Inv(s) && !IsVoid(tag) && tag != Html && ElementMayStand(PlaceOf(s.stack), tag) && MayFollow(s, tag)
    requires AllGood(x, Inside(tag), children)
    ensures Closed(AfterAll(x, Opened(x, s, tag, attrs), children), tag)
         == AfterNode(x, s, Element(tag, attrs, children))
  {
    hide AllGood, AllPolicies, ElementTags, RawText, PolicyMeta, HttpEquiv, TEXT_TAGS, BLOCK_TAGS;
    NoHeads(x, Inside(tag), children);
  }

  lemma ElementEnds(x: Scanner, s: State, tag: Tag, attrs: seq<Attribute>, children: seq<Node>)
    requires Inv(s) && !IsVoid(tag) && (tag == Style ==> !x.activeCss(RawText(children)))
    ensures EndOk(x, AfterAll(x, Opened(x, s, tag, attrs), children), tag)
  {
    assert "" + RawText(children) == RawText(children);
  }

  predicate MayStandNext(s: State, n: Node)
    requires Shaped(s.stack)
  {
    n.Element? ==> MayFollow(s, n.tag)
  }

  lemma {:induction false} RunNode(x: Scanner, s: State, n: Node, rest: seq<Token>)
    requires Inv(s) && Good(x, PlaceOf(s.stack), n) && MayStandNext(s, n)
    ensures Run(x, s, Flatten(n) + rest) == Run(x, AfterNode(x, s, n), rest)
    decreases n, 0
  {
    match n {
      case Text(data) =>
        InStack(s.stack);
        OneToken(x, s, Data(data), rest);
      case Leaf(_, _, _) =>
        LeafAdds(x, s, n);
        RunLeaf(x, s, n, rest);
      case Element(tag, attrs, children) =>
        RunElement(x, s, tag, attrs, children, rest);
    }
  }

  function LeafToken(n: Node): Token
    requires n.Leaf?
  {
    if n.slashed then StartEnd(n.tag, n.attrs) else Start(n.tag, n.attrs)
  }

  lemma LeafAdds(x: Scanner, s: State, n: Node)
    requires Inv(s) && n.Leaf? && Good(x, PlaceOf(s.stack), n)
    ensures TokenOk(x, s, LeafToken(n)) && Next(x, s, LeafToken(n)) == AfterNode(x, s, n)
  {
    hide AllGood, AllPolicies, ElementTags, RawText, ElementMayStand, InertAttributes, PolicyMeta, Inv;
    PlaceMeansStart(x, s, n.tag, n.attrs);
  }

  lemma RunLeaf(x: Scanner, s: State, n: Node, rest: seq<Token>)
    requires n.Leaf? && TokenOk(x, s, LeafToken(n)) && Next(x, s, LeafToken(n)) == AfterNode(x, s, n)
    ensures Run(x, s, Flatten(n) + rest) == Run(x, AfterNode(x, s, n), rest)
  {
    OneToken(x, s, LeafToken(n), rest);
  }

  lemma {:induction false} RunElement(x: Scanner, s: State, tag: Tag, attrs: seq<Attribute>,
                                      children: seq<Node>, rest: seq<Token>)
    requires Inv(s) && Good(x, PlaceOf(s.stack), Element(tag, attrs, children)) && MayFollow(s, tag)
    ensures Run(x, s, Flatten(Element(tag, attrs, children)) + rest)
         == Run(x, AfterNode(x, s, Element(tag, attrs, children)), rest)
    decreases children, 2
  {
    var o := Opened(x, s, tag, attrs);
    PlaceMeansStart(x, s, tag, attrs);
    OpenedInv(x, s, tag, attrs);
    RunAll(x, o, children, [End(tag)] + rest);
    ElementAdds(x, s, tag, attrs, children);
    ElementEnds(x, s, tag, attrs, children);
    RunAround(x, s, tag, attrs, children, rest);
  }

  lemma FlattenElement(tag: Tag, attrs: seq<Attribute>, children: seq<Node>, rest: seq<Token>)
    ensures Flatten(Element(tag, attrs, children)) + rest
         == [Start(tag, attrs)] + (FlattenAll(children) + ([End(tag)] + rest))
  {
    Joined([Start(tag, attrs)], FlattenAll(children), [End(tag)]);
    Joined([Start(tag, attrs)] + FlattenAll(children), [End(tag)], rest);
    Joined([Start(tag, attrs)], FlattenAll(children), [End(tag)] + rest);
  }

  /** An element's tags, around children that run to where the machine may close it. */
  lemma RunAround(x: Scanner, s: State, tag: Tag, attrs: seq<Attribute>, children: seq<Node>, rest: seq<Token>)
    requires StartOk(x, s, tag, attrs)
    requires var inner := AfterAll(x, Opened(x, s, tag, attrs), children);
             && EndOk(x, inner, tag)
             && Run(x, Opened(x, s, tag, attrs), FlattenAll(children) + ([End(tag)] + rest))
                == Run(x, inner, [End(tag)] + rest)
    ensures Run(x, s, Flatten(Element(tag, attrs, children)) + rest)
         == Run(x, Closed(AfterAll(x, Opened(x, s, tag, attrs), children), tag), rest)
  {
    FlattenElement(tag, attrs, children, rest);
    OneToken(x, s, Start(tag, attrs), FlattenAll(children) + ([End(tag)] + rest));
    OneToken(x, AfterAll(x, Opened(x, s, tag, attrs), children), End(tag), rest);
  }

  lemma {:induction false} RunAll(x: Scanner, s: State, nodes: seq<Node>, rest: seq<Token>)
    requires Inv(s) && AllGood(x, PlaceOf(s.stack), nodes) && Ordered(s, nodes)
    ensures Run(x, s, FlattenAll(nodes) + rest) == Run(x, AfterAll(x, s, nodes), rest)
    decreases nodes, 1
  {
    if nodes == [] {
      assert [] + rest == rest && s.policies + [] == s.policies && s.css + "" == s.css;
    } else {
      var next := AfterNode(x, s, nodes[0]);
      Joined(Flatten(nodes[0]), FlattenAll(nodes[1..]), rest);
      OrderedStep(x, s, nodes);
      RunNode(x, s, nodes[0], FlattenAll(nodes[1..]) + rest);
      RunAll(x, next, nodes[1..], rest);
      AfterOneMore(x, s, nodes);
    }
  }

  lemma OrderedStep(x: Scanner, s: State, nodes: seq<Node>)
    requires Inv(s) && nodes != [] && Good(x, PlaceOf(s.stack), nodes[0]) && Ordered(s, nodes)
    ensures MayStandNext(s, nodes[0]) && Inv(AfterNode(x, s, nodes[0]))
    ensures AfterNode(x, s, nodes[0]).stack == s.stack
    ensures Ordered(AfterNode(x, s, nodes[0]), nodes[1..])
  {
    if PlaceOf(s.stack) == InHtml && nodes[0].Element? {
      var tags := Seen(s) + ElementTags(nodes);
      assert tags[|Seen(s)|] == nodes[0].tag;
      assert ElementTags(nodes) == [nodes[0].tag] + ElementTags(nodes[1..]);
      Joined(Seen(s), [nodes[0].tag], ElementTags(nodes[1..]));
    } 
  }

  /* ---- Reading the tree back from an accepted stream ---- */

  predicate Ends(x: Scanner, s: State, tokens: seq<Token>) {
    var last := Run(x, s, tokens);
    last.Some? && last.value.stack == []
  }

  /** From inside an element, a stream the machine runs to its end is a forest that the
      grammar allows there, the element's end tag, and the rest. */
  lemma {:induction false} ReadForest(x: Scanner, s: State, tokens: seq<Token>)
      returns (nodes: seq<Node>, rest: seq<Token>)
    requires Inv(s) && Ends(x, s, tokens)
    ensures tokens == FlattenAll(nodes) + ([End(s.stack[|s.stack| - 1])] + rest)
    ensures AllGood(x, PlaceOf(s.stack), nodes) && Ordered(s, nodes)
    decreases |tokens|, 2
  {
    if tokens[0].End? {
      nodes, rest := [], tokens[1..];
      EndFirst(x, s, tokens);
    } else {
      var n, tail := ReadOne(x, s, tokens);
      nodes, rest := ReadForest(x, AfterNode(x, s, n), tail);
      Prepend(x, s, n, nodes, [End(s.stack[|s.stack| - 1])] + rest);
      nodes := [n] + nodes;
    }
  }

  lemma EndFirst(x: Scanner, s: State, tokens: seq<Token>)
    requires Inv(s) && Ends(x, s, tokens) && tokens != [] && tokens[0].End?
    ensures tokens == FlattenAll([]) + ([End(s.stack[|s.stack| - 1])] + tokens[1..])
    ensures Ordered(s, [])
  {
    assert tokens[0].tag == s.stack[|s.stack| - 1];
    assert tokens == [tokens[0]] + tokens[1..];
    assert FlattenAll([]) + tokens == tokens && Seen(s) + [] == Seen(s);
  }

  lemma {:induction false} ReadOne(x: Scanner, s: State, tokens: seq<Token>) returns (n: Node, tail: seq<Token>)
    requires Inv(s) && Ends(x, s, tokens) && tokens != [] && !tokens[0].End?
    ensures tokens == Flatten(n) + tail && |tail| < |tokens|
    ensures Good(x, PlaceOf(s.stack), n) && MayStandNext(s, n)
    ensures Inv(AfterNode(x, s, n)) && AfterNode(x, s, n).stack == s.stack
    ensures Ends(x, AfterNode(x, s, n), tail)
    decreases |tokens|, 1
  {
    n, tail := ReadNode(x, s, tokens);
    RunNode(x, s, n, tail);
    NodeKeeps(x, s, n);
  }

  lemma NodeKeeps(x: Scanner, s: State, n: Node)
    requires Inv(s) && Good(x, PlaceOf(s.stack), n) && MayStandNext(s, n)
    ensures Inv(AfterNode(x, s, n)) && AfterNode(x, s, n).stack == s.stack
    ensures Flatten(n) != []
  {}

  lemma Prepend(x: Scanner, s: State, n: Node, nodes: seq<Node>, tail: seq<Token>)
    requires Inv(s) && Good(x, PlaceOf(s.stack), n) && MayStandNext(s, n)
    requires AllGood(x, PlaceOf(s.stack), nodes) && Ordered(AfterNode(x, s, n), nodes)
    ensures AllGood(x, PlaceOf(s.stack), [n] + nodes) && Ordered(s, [n] + nodes)
    ensures FlattenAll([n] + nodes) + tail == Flatten(n) + (FlattenAll(nodes) + tail)
  {
    assert ([n] + nodes)[1..] == nodes;
    Joined(Flatten(n), FlattenAll(nodes), tail);
    if PlaceOf(s.stack) == InHtml && n.Element? {
      Joined(Seen(s), [n.tag], ElementTags(nodes));
    }
  }

  lemma {:induction false} ReadNode(x: Scanner, s: State, tokens: seq<Token>) returns (n: Node, tail: seq<Token>)
    requires Inv(s) && Ends(x, s, tokens) && tokens != [] && !tokens[0].End?
    ensures tokens == Flatten(n) + tail
    ensures Good(x, PlaceOf(s.stack), n) && MayStandNext(s, n)
    decreases |tokens|, 0
  {
    var t := tokens[0];
    assert TokenOk(x, s, t);
    InStack(s.stack);
    tail := tokens[1..];
    assert tokens == [t] + tail;
    match t {
      case Data(data) => n := Text(data);
      case StartEnd(tag, attrs) =>
        StartMeansPlace(x, s, tag, attrs);
        n := Leaf(tag, attrs, true);
      case Start(tag, attrs) =>
        StartMeansPlace(x, s, tag, attrs);
        if IsVoid(tag) {
          n := Leaf(tag, attrs, false);
        } else {
          n, tail := ReadElement(x, s, tag, attrs, tail);
        }
    }
  }

  lemma {:induction false} ReadElement(x: Scanner, s: State, tag: Tag, attrs: seq<Attribute>, tokens: seq<Token>)
      returns (n: Node, tail: seq<Token>)
    requires Inv(s) && StartOk(x, s, tag, attrs) && !IsVoid(tag) && ElementMayStand(PlaceOf(s.stack), tag)
    requires MayFollow(s, tag) && Ends(x, Opened(x, s, tag, attrs), tokens)
    ensures [Start(tag, attrs)] + tokens == Flatten(n) + tail
    ensures n.Element? && n.tag == tag && Good(x, PlaceOf(s.stack), n)
    decreases |tokens|, 3
  {
    var o := Opened(x, s, tag, attrs);
    OpenedInv(x, s, tag, attrs);
    var children;
    children, tail := ReadForest(x, o, tokens);
    n := Element(tag, attrs, children);
    FlattenElement(tag, attrs, children, tail);
    RunAll(x, o, children, [End(tag)] + tail);
    EndsNeedsEnd(x, AfterAll(x, o, children), tag, tail);
    EndMeansInert(x, s, tag, attrs, children);
  }

  lemma EndMeansInert(x: Scanner, s: State, tag: Tag, attrs: seq<Attribute>, children: seq<Node>)
    requires EndOk(x, AfterAll(x, Opened(x, s, tag, attrs), children), tag)
    ensures tag == Style ==> !x.activeCss(RawText(children))
  {
    assert "" + RawText(children) == RawText(children);
  }

  lemma EndsNeedsEnd(x: Scanner, s: State, tag: Tag, tail: seq<Token>)
    requires Ends(x, s, [End(tag)] + tail)
    ensures EndOk(x, s, tag)
  {
    assert ([End(tag)] + tail)[0] == End(tag);
  }

  /* ---- Whole documents ---- */

  lemma {:induction false} RunBlanks(x: Scanner, s: State, blanks: seq<string>, rest: seq<Token>)
    requires Blank(x, blanks) && !s.inStyle
    ensures Run(x, s, Texts(blanks) + rest) == Run(x, s, rest)
    decreases |blanks|
  {
    if blanks == [] {
      assert Texts(blanks) + rest == rest;
    } else {
      assert Texts(blanks) + rest == [Data(blanks[0])] + (Texts(blanks[1..]) + rest);
      OneToken(x, s, Data(blanks[0]), Texts(blanks[1..]) + rest);
      RunBlanks(x, s, blanks[1..], rest);
    }
  }

  /** Outside `html` only blank text is skipped. */
  lemma {:induction false} ReadBlanks(x: Scanner, s: State, tokens: seq<Token>)
      returns (blanks: seq<string>, rest: seq<Token>)
    requires s.stack == [] && !s.inStyle && Run(x, s, tokens).Some?
    ensures tokens == Texts(blanks) + rest && Blank(x, blanks)
    ensures rest != [] ==> !rest[0].Data?
    ensures Run(x, s, rest) == Run(x, s, tokens)
    decreases |tokens|
  {
    if tokens == [] || !tokens[0].Data? {
      blanks, rest := [], tokens;
      assert Texts([]) + tokens == tokens;
    } else {
      var data := tokens[0].data;
      var others;
      others, rest := ReadBlanks(x, s, tokens[1..]);
      blanks := [data] + others;
      assert Texts(blanks) == [Data(data)] + Texts(others);
      Joined([Data(data)], Texts(others), rest);
    }
  }

  /** The states between the tokens outside the children of `html`. */
  const DECLARED := INITIAL.(doctypes := 1)

  const ENTERED := DECLARED.(htmls := 1, stack := [Html])

  lemma Enter(x: Scanner, attrs: seq<Attribute>, rest: seq<Token>)
    requires InertAttributes(attrs)
    ensures Run(x, DECLARED, [Start(Html, attrs)] + rest) == Run(x, ENTERED, rest)
    ensures Inv(ENTERED) && PlaceOf(ENTERED.stack) == InHtml && Seen(ENTERED) == []
  {
    OneToken(x, DECLARED, Start(Html, attrs), rest);
    EnteredIs(x, attrs);
  }

  lemma EnteredIs(x: Scanner, attrs: seq<Attribute>)
    ensures Opened(x, DECLARED, Html, attrs) == ENTERED
  {
    var none: seq<Tag>, empty: seq<string> := [], [];
    assert none + [Html] == [Html] && empty + [] == empty;
  }

  function Left(x: Scanner, children: seq<Node>): State {
    AfterAll(x, ENTERED, children).(stack := [], closed := true)
  }

  lemma Leave(x: Scanner, children: seq<Node>, rest: seq<Token>)
    ensures Run(x, AfterAll(x, ENTERED, children), [End(Html)] + rest) == Run(x, Left(x, children), rest)
  {
    OneToken(x, AfterAll(x, ENTERED, children), End(Html), rest);
  }

  /** The last state says about the whole document what the grammar says. */
  lemma LastState(x: Scanner, children: seq<Node>)
    requires ElementTags(children) <= [Head, Body]
    ensures FinalOk(x, Left(x, children))
        <==> && ElementTags(children) == [Head, Body]
             && |AllPolicies(x, children)| == 1
             && InertPolicy(x.directives(AllPolicies(x, children)[0]))
  {
    var tags := ElementTags(children);
    assert [] + AllPolicies(x, children) == AllPolicies(x, children);
    assert |tags| == 0 || tags[0] == Head;
    assert |tags| == 2 ==> tags[1] == Body;
  }

  lemma Declare(x: Scanner, rest: seq<Token>)
    ensures Run(x, INITIAL, [Doctype] + rest) == Run(x, DECLARED, rest)
  {
    OneToken(x, INITIAL, Doctype, rest);
  }

  /** Every document of the grammar is accepted. */
  lemma GrammarIsAccepted(x: Scanner, d: Document)
    requires GoodDocument(x, d)
    ensures Accepts(x, FlattenDocument(d))
  {
    hide Run, FlattenAll, Texts, Left, AllPolicies, FinalOk, InertPolicy, ElementTags, Blank, AllGood,
         InertAttributes;
    var tail := Texts(d.after);
    var inner := FlattenAll(d.children) + ([End(Html)] + tail);
    RunBlanks(x, INITIAL, d.before, [Doctype] + (Texts(d.between) + ([Start(Html, d.attrs)] + inner)));
    Declare(x, Texts(d.between) + ([Start(Html, d.attrs)] + inner));
    RunBlanks(x, DECLARED, d.between, [Start(Html, d.attrs)] + inner);
    Enter(x, d.attrs, inner);
    RunChildren(x, d.children, tail);
    LeavesBlank(x, d.children, d.after);
    LastState(x, d.children);
  }

  lemma RunChildren(x: Scanner, children: seq<Node>, tail: seq<Token>)
    requires AllGood(x, InHtml, children) && ElementTags(children) <= [Head, Body]
    ensures Run(x, ENTERED, FlattenAll(children) + ([End(Html)] + tail)) == Run(x, Left(x, children), tail)
  {
    assert Seen(ENTERED) + ElementTags(children) == ElementTags(children);
    RunAll(x, ENTERED, children, [End(Html)] + tail);
    Leave(x, children, tail);
  }

  lemma LeavesBlank(x: Scanner, children: seq<Node>, blanks: seq<string>)
    requires Blank(x, blanks)
    ensures Run(x, Left(x, children), Texts(blanks)) == Some(Left(x, children))
  {
    RunBlanks(x, Left(x, children), blanks, []);
    assert Texts(blanks) + [] == Texts(blanks);
  }

  /** Before `html` there is nothing the machine lets through but blank text and, once, the
      doctype. */
  lemma FirstOutside(x: Scanner, s: State, tokens: seq<Token>)
    requires s.stack == [] && !s.inStyle && s.htmls == 0 && Run(x, s, tokens).Some?
    requires FinalOk(x, Run(x, s, tokens).value)
    requires tokens != [] ==> !tokens[0].Data?
    ensures tokens != []
    ensures s.doctypes == 0 ==> tokens[0] == Doctype
    ensures s.doctypes == 1 ==> tokens[0].Start? && tokens[0].tag == Html && InertAttributes(tokens[0].attrs)
  {
    if tokens != [] { assert TokenOk(x, s, tokens[0]); }
  }

  /** After `html` there is only blank text. */
  lemma NothingAfter(x: Scanner, s: State, tokens: seq<Token>)
    requires s.stack == [] && s.closed && s.htmls == 1 && Run(x, s, tokens).Some?
    requires tokens != [] ==> !tokens[0].Data?
    ensures tokens == []
  {}

  /** Every accepted stream is a document of the grammar. */
  lemma AcceptedIsGrammar(x: Scanner, tokens: seq<Token>) returns (d: Document)
    requires Accepts(x, tokens)
    ensures GoodDocument(x, d) && FlattenDocument(d) == tokens
  {
    var before, t1 := ReadBlanks(x, INITIAL, tokens);
    FirstOutside(x, INITIAL, t1);
    assert t1 == [Doctype] + t1[1..];
    OneToken(x, INITIAL, Doctype, t1[1..]);
    var between, t2 := ReadBlanks(x, DECLARED, t1[1..]);
    FirstOutside(x, DECLARED, t2);
    var attrs := t2[0].attrs;
    assert t2 == [Start(Html, attrs)] + t2[1..];
    Enter(x, attrs, t2[1..]);
    var children, after := ReadInside(x, t2[1..]);
    d := Document(before, between, attrs, children, after);
  }

  lemma ReadInside(x: Scanner, tokens: seq<Token>) returns (children: seq<Node>, after: seq<string>)
    requires Run(x, ENTERED, tokens).Some? && FinalOk(x, Run(x, ENTERED, tokens).value)
    ensures tokens == FlattenAll(children) + ([End(Html)] + Texts(after))
    ensures AllGood(x, InHtml, children) && ElementTags(children) == [Head, Body] && Blank(x, after)
    ensures |AllPolicies(x, children)| == 1 && InertPolicy(x.directives(AllPolicies(x, children)[0]))
  {
    assert Inv(ENTERED) && PlaceOf(ENTERED.stack) == InHtml;
    var rest;
    children, rest := ReadForest(x, ENTERED, tokens);
    assert Seen(ENTERED) + ElementTags(children) == ElementTags(children);
    RunChildren(x, children, rest);
    var t3;
    after, t3 := ReadBlanks(x, Left(x, children), rest);
    NothingAfter(x, Left(x, children), t3);
    assert Texts(after) + [] == Texts(after);
    LastState(x, children);
  }

  /** The policy accepts a token stream exactly when it is a document of the grammar. */
  lemma ViewersAreTheGrammar(x: Scanner, tokens: seq<Token>)
    ensures Accepts(x, tokens) <==> exists d :: GoodDocument(x, d) && FlattenDocument(d) == tokens
  {
    if Accepts(x, tokens) {
      var d := AcceptedIsGrammar(x, tokens);
    }
    forall d | GoodDocument(x, d) && FlattenDocument(d) == tokens ensures Accepts(x, tokens) {
      GrammarIsAccepted(x, d);
    }
  }
}
