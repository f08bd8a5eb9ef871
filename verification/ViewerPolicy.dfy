/** The policy of the offline proof viewer: a stack machine over HTML tokens that reports
    errors and goes on.  What leaves its error list empty is shown to be exactly the
    flattening of one tree grammar. */
module ViewerPolicy {
  import opened Wrappers

  /** A tag name as the policy distinguishes it. */
  datatype Tag =
    | Html | Head | Body | Meta | Style | Title
    | Void(name: string)
    | Flow(name: string)
    | Unsafe(name: string)

  const VOID_TAGS: set<string> := {"br", "col", "hr", "wbr"}
  const TEXT_TAGS: set<string> := {
    "b", "bdi", "bdo", "cite", "code", "dfn", "em", "i", "kbd", "mark", "q", "rp", "rt", "ruby", "s", "samp",
    "small", "span", "strong", "sub", "sup", "time", "u", "var"}
  const BLOCK_TAGS: set<string> := {
    "address", "article", "aside", "blockquote", "caption", "colgroup", "dd", "details", "div", "dl", "dt",
    "figcaption", "figure", "footer", "h1", "h2", "h3", "h4", "h5", "h6", "header", "hgroup", "li", "main",
    "nav", "ol", "p", "pre", "section", "summary", "table", "tbody", "td", "tfoot", "th", "thead", "tr", "ul"}

  /** How the tokens' tag names are classed. */
  function TagOf(name: string): Tag {
    match name
    case "html" => Html
    case "head" => Head
    case "body" => Body
    case "meta" => Meta
    case "style" => Style
    case "title" => Title
    case _ =>
      if name in VOID_TAGS then Void(name)
      else if name in TEXT_TAGS || name in BLOCK_TAGS then Flow(name)
      else Unsafe(name)
  }

  /** The permitted names are six and those of the three tables. */
  lemma PermittedTags(name: string)
    ensures !TagOf(name).Unsafe?
       <==> || name in {"html", "head", "body", "meta", "style", "title"}
            || name in VOID_TAGS || name in TEXT_TAGS || name in BLOCK_TAGS
  {
    hide VOID_TAGS, TEXT_TAGS, BLOCK_TAGS;
  }

  /** What the tables hold: no script, no frame, no form and no image. */
  lemma TextTagsExactly(name: string)
    ensures name in VOID_TAGS <==> name in {"br", "col", "hr", "wbr"}
    ensures name in TEXT_TAGS
       <==> name in {
              "b", "bdi", "bdo", "cite", "code", "dfn", "em", "i", "kbd", "mark", "q", "rp", "rt", "ruby", "s",
              "samp", "small", "span", "strong", "sub", "sup", "time", "u", "var"}
  {}

  lemma BlockTagsExactly(name: string)
    ensures name in BLOCK_TAGS
       <==> name in {
              "address", "article", "aside", "blockquote", "caption", "colgroup", "dd", "details", "div", "dl",
              "dt", "figcaption", "figure", "footer", "h1", "h2", "h3", "h4", "h5", "h6", "header", "hgroup",
              "li", "main", "nav", "ol", "p", "pre", "section", "summary", "table", "tbody", "td", "tfoot",
              "th", "thead", "tr", "ul"}
  {}

  datatype Attribute = Attribute(name: string, value: Option<string>)

  datatype Token =
    | Doctype
    | OtherDeclaration
    | Instruction
    | Comment
    | Start(tag: Tag, attrs: seq<Attribute>)
    | StartEnd(tag: Tag, attrs: seq<Attribute>)
    | End(tag: Tag)
    | Data(data: string)

  /** One directive of a content security policy: its name and its sources. */
  datatype Directive = Directive(name: string, sources: seq<string>)

  /** The text scanning of the standard library: trimming, case folding, splitting a policy
      into its directives, and searching a style sheet for active content. */
  datatype Scanner = Scanner(
    strip: string -> string, fold: string -> string,
    directives: string -> seq<Directive>, activeCss: string -> bool)

  const URL_ATTRIBUTES: set<string> := {
    "about", "action", "archive", "attributionsrc", "background", "cite", "codebase", "data",
    "dynsrc", "formaction", "href", "imagesrcset", "itemid", "longdesc", "lowsrc", "manifest",
    "ping", "poster", "profile", "resource", "src", "srcdoc", "srcset", "usemap", "vocab",
    "xml:base", "xlink:href"}

  const NONE_DIRECTIVES: seq<string> := [
    "base-uri", "connect-src", "default-src", "font-src", "form-action", "frame-src", "img-src",
    "media-src", "object-src", "script-src"]

  /* ---- Attributes, meta elements and the policy ---- */

  predicate InertAttribute(a: Attribute) {
    && a.name != "style"
    && !("on" <= a.name)
    && a.name !in URL_ATTRIBUTES
    && (a.value.Some? ==> '\0' !in a.value.value)
  }

  predicate InertAttributes(attrs: seq<Attribute>) {
    && (forall i :: 0 <= i < |attrs| ==> InertAttribute(attrs[i]))
    && (forall i, j :: 0 <= i < j < |attrs| ==> attrs[i].name != attrs[j].name)
  }

  function Names(attrs: seq<Attribute>): set<string> {
    set i | 0 <= i < |attrs| :: attrs[i].name
  }

  /** `attrs.get(name)`, a missing attribute and a missing value alike. */
  function Get(attrs: seq<Attribute>, name: string): Option<string> {
    if attrs == [] then None
    else if attrs[0].name == name then attrs[0].value
    else Get(attrs[1..], name)
  }

  function OrEmpty(v: Option<string>): string {
    if v.Some? then v.value else ""
  }

  const HTTP_EQUIV := "http-equiv"
  const CSP := "content-security-policy"

  function HttpEquiv(x: Scanner, attrs: seq<Attribute>): string {
    x.fold(x.strip(OrEmpty(Get(attrs, HTTP_EQUIV))))
  }

  predicate PolicyMeta(x: Scanner, attrs: seq<Attribute>) {
    HttpEquiv(x, attrs) == CSP
  }

  predicate MetaConforms(x: Scanner, attrs: seq<Attribute>) {
    var content := OrEmpty(Get(attrs, "content"));
    if HttpEquiv(x, attrs) != "" then
      PolicyMeta(x, attrs) && Names(attrs) == {HTTP_EQUIV, "content"} && x.strip(content) != ""
    else if "charset" in Names(attrs) then
      Names(attrs) == {"charset"} && x.fold(OrEmpty(Get(attrs, "charset"))) == "utf-8"
    else
      x.fold(x.strip(OrEmpty(Get(attrs, "name")))) == "viewport"
      && Names(attrs) == {"name", "content"} && content != ""
  }

  const STYLE_SRC := "style-src"
  const UNSAFE_INLINE := ["'unsafe-inline'"]
  const NONE_SOURCE := ["'none'"]

  predicate DirectiveConforms(name: string, sources: seq<string>) {
    || (name == STYLE_SRC && sources == UNSAFE_INLINE)
    || (name in NONE_DIRECTIVES && sources == NONE_SOURCE)
  }

  /** Each of the eleven directives once, each with the one source it may have. */
  ghost predicate InertPolicy(ds: seq<Directive>) {
    && (forall i :: 0 <= i < |ds| ==> DirectiveConforms(ds[i].name, ds[i].sources))
    && (forall i, j :: 0 <= i < j < |ds| ==> ds[i].name != ds[j].name)
    && (forall n :: n in NONE_DIRECTIVES || n == STYLE_SRC ==> exists i :: 0 <= i < |ds| && ds[i].name == n)
  }

  lemma StyleIsNotNone()
    ensures STYLE_SRC !in NONE_DIRECTIVES
  {
    assert STYLE_SRC[0] == 's';
    forall i | 0 <= i < |NONE_DIRECTIVES| ensures NONE_DIRECTIVES[i] != STYLE_SRC {
      assert NONE_DIRECTIVES[9][1] == 'c' && STYLE_SRC[1] == 't';
    }
  }

  /** `_valid_csp`. */
  method ValidPolicy(ds: seq<Directive>) returns (valid: bool)
    ensures valid <==> InertPolicy(ds)
  {
    var seen: map<string, seq<string>> := map[];
    var i := 0;
    while i < |ds|
      invariant 0 <= i <= |ds|
      invariant forall k :: 0 <= k < i ==> ds[k].name in seen && seen[ds[k].name] == ds[k].sources
      invariant forall n :: n in seen ==> exists k :: 0 <= k < i && ds[k].name == n
      invariant forall j, k :: 0 <= j < k < i ==> ds[j].name != ds[k].name
    {
      if ds[i].name in seen { return false; }
      seen := seen[ds[i].name := ds[i].sources];
      i := i + 1;
    }
    var none := [
      "base-uri", "connect-src", "default-src", "font-src", "form-action", "frame-src", "img-src", "media-src",
      "object-src", "script-src"];
    valid := "style-src" in seen && seen["style-src"] == ["'unsafe-inline'"]
             && (forall n :: n in seen ==> n == "style-src" || n in none)
             && forall n :: n in none ==> n in seen && seen[n] == ["'none'"];
    StyleIsNotNone();
    if valid { MapMeansPolicy(ds, seen); }
    if InertPolicy(ds) { PolicyMeansMap(ds, seen); }
  }

  predicate MapConforms(seen: map<string, seq<string>>) {
    && (forall n :: n in seen ==> n in NONE_DIRECTIVES || n == STYLE_SRC)
    && STYLE_SRC in seen && seen[STYLE_SRC] == UNSAFE_INLINE
    && forall n :: n in NONE_DIRECTIVES ==> n in seen && seen[n] == NONE_SOURCE
  }

  ghost predicate Collects(seen: map<string, seq<string>>, ds: seq<Directive>) {
    && (forall k :: 0 <= k < |ds| ==> ds[k].name in seen && seen[ds[k].name] == ds[k].sources)
    && (forall n :: n in seen ==> exists k :: 0 <= k < |ds| && ds[k].name == n)
    && (forall j, k :: 0 <= j < k < |ds| ==> ds[j].name != ds[k].name)
  }

  lemma MapMeansPolicy(ds: seq<Directive>, seen: map<string, seq<string>>)
    requires Collects(seen, ds) && MapConforms(seen)
    ensures InertPolicy(ds)
  {
    forall k | 0 <= k < |ds| ensures DirectiveConforms(ds[k].name, ds[k].sources) {
      assert ds[k].name in seen;
    }
  }

  lemma PolicyMeansMap(ds: seq<Directive>, seen: map<string, seq<string>>)
    requires Collects(seen, ds) && InertPolicy(ds) && STYLE_SRC !in NONE_DIRECTIVES
    ensures MapConforms(seen)
  {
    forall n | n in seen
      ensures (n in NONE_DIRECTIVES || n == STYLE_SRC) && DirectiveConforms(n, seen[n])
    {
      var k :| 0 <= k < |ds| && ds[k].name == n;
      assert DirectiveConforms(ds[k].name, ds[k].sources);
    }
    forall n | n in NONE_DIRECTIVES || n == STYLE_SRC ensures n in seen {
      var i :| 0 <= i < |ds| && ds[i].name == n;
    }
  }

  /* ---- The machine ---- */

  /** The parser's fields. */
  datatype State = State(
    stack: seq<Tag>, doctypes: nat, htmls: nat, heads: nat, bodies: nat,
    policies: seq<string>, css: string, inStyle: bool, closed: bool)

  const INITIAL := State([], 0, 0, 0, 0, [], "", false, false)

  predicate IsVoid(tag: Tag) {
    tag.Void? || tag.Meta?
  }

  function Parent(stack: seq<Tag>): Option<Tag> {
    if stack == [] then None else Some(stack[|stack| - 1])
  }

  /** `_validate_position`. */
  predicate PositionOk(s: State, tag: Tag) {
    var parent := Parent(s.stack);
    if tag == Html then s.doctypes == 1 && parent == None && s.htmls == 0
    else if Html !in s.stack then false
    else if tag == Head then parent == Some(Html) && s.heads == 0 && s.bodies == 0
    else if tag == Body then parent == Some(Html) && s.heads == 1 && s.bodies == 0
    else
      && parent != Some(Html)
      && (Head in s.stack ==> tag == Meta || tag == Style || tag == Title)
      && (Head in s.stack || Body in s.stack)
      && parent != Some(Style) && parent != Some(Title)
  }

  predicate StartOk(x: Scanner, s: State, tag: Tag, attrs: seq<Attribute>) {
    && !tag.Unsafe?
    && !s.closed
    && PositionOk(s, tag)
    && InertAttributes(attrs)
    && (tag == Meta ==> Head in s.stack && MetaConforms(x, attrs))
  }

  predicate EndOk(x: Scanner, s: State, tag: Tag) {
    && !IsVoid(tag)
    && s.stack != [] && s.stack[|s.stack| - 1] == tag
    && (tag == Style ==> !x.activeCss(s.css))
  }

  predicate DataOk(x: Scanner, s: State, data: string) {
    '\0' !in data && (x.strip(data) != "" ==> Html in s.stack)
  }

  predicate TokenOk(x: Scanner, s: State, t: Token) {
    match t
    case Doctype => s.doctypes == 0 && s.htmls == 0 && s.stack == []
    case Start(tag, attrs) => StartOk(x, s, tag, attrs)
    case StartEnd(tag, attrs) => IsVoid(tag) && StartOk(x, s, tag, attrs)
    case End(tag) => EndOk(x, s, tag)
    case Data(data) => DataOk(x, s, data)
    case _ => false
  }

  function Opened(x: Scanner, s: State, tag: Tag, attrs: seq<Attribute>): State {
    s.(htmls := s.htmls + if tag == Html then 1 else 0,
       heads := s.heads + if tag == Head then 1 else 0,
       bodies := s.bodies + if tag == Body then 1 else 0,
       policies := s.policies + if tag == Meta && PolicyMeta(x, attrs) then [OrEmpty(Get(attrs, "content"))] else [],
       stack := if IsVoid(tag) then s.stack else s.stack + [tag],
       css := if tag == Style then "" else s.css,
       inStyle := s.inStyle || tag == Style)
  }

  function Closed(s: State, tag: Tag): State
    requires s.stack != []
  {
    s.(stack := s.stack[..|s.stack| - 1],
       css := if tag == Style then "" else s.css,
       inStyle := s.inStyle && tag != Style,
       closed := s.closed || tag == Html)
  }

  /** The state after a token that raised no error. */
  function Next(x: Scanner, s: State, t: Token): State
    requires TokenOk(x, s, t)
  {
    match t
    case Doctype => s.(doctypes := s.doctypes + 1)
    case Start(tag, attrs) => Opened(x, s, tag, attrs)
    case StartEnd(tag, attrs) => Opened(x, s, tag, attrs)
    case End(tag) => Closed(s, tag)
    case Data(data) => if s.inStyle then s.(css := s.css + data) else s
  }

  function Run(x: Scanner, s: State, tokens: seq<Token>): Option<State>
    decreases |tokens|
  {
    if tokens == [] then Some(s)
    else if TokenOk(x, s, tokens[0]) then Run(x, Next(x, s, tokens[0]), tokens[1..])
    else None
  }

  /** What `close_and_validate` asks of the last state. */
  ghost predicate FinalOk(x: Scanner, s: State) {
    && s.stack == []
    && s.doctypes == 1 && s.htmls == 1 && s.heads == 1 && s.bodies == 1
    && |s.policies| == 1 && InertPolicy(x.directives(s.policies[0]))
  }

  ghost predicate Accepts(x: Scanner, tokens: seq<Token>) {
    var last := Run(x, INITIAL, tokens);
    last.Some? && FinalOk(x, last.value)
  }

  datatype Problem =
    | Declaration | SecondDoctype | LateDoctype | ForbiddenToken(token: Token)
    | NotPermitted(tag: Tag) | AfterHtml | Misplaced(tag: Tag) | BadAttributes(tag: Tag)
    | MetaOutsideHead | BadMeta | SelfClosing(tag: Tag) | VoidEnd(tag: Tag)
    | UnexpectedEnd(tag: Tag) | MismatchedEnd(tag: Tag) | ActiveCss
    | NulCharacter | TextOutside
    | Unclosed | DoctypeCount | HtmlCount | HeadCount | BodyCount | PolicyCount | BadPolicy

  class Parser {
    const x: Scanner
    var errors: seq<Problem>
    var stack: seq<Tag>
    var doctypes: nat
    var htmls: nat
    var heads: nat
    var bodies: nat
    var policies: seq<string>
    var css: string
    var inStyle: bool
    var closed: bool

    function View(): State
      reads this
    {
      State(stack, doctypes, htmls, heads, bodies, policies, css, inStyle, closed)
    }

    constructor (x: Scanner)
      ensures this.x == x && errors == [] && View() == INITIAL
    {
      this.x := x;
      errors, stack, doctypes, htmls, heads, bodies := [], [], 0, 0, 0, 0;
      policies, css, inStyle, closed := [], "", false, false;
    }

    method Error(p: Problem)
      modifies this`errors
      ensures errors != []
    {
      if p !in errors { errors := errors + [p]; }
    }

    method HandleDoctype()
      modifies this
      ensures errors == [] <==> old(errors) == [] && TokenOk(x, old(View()), Doctype)
      ensures errors == [] ==> View() == Next(x, old(View()), Doctype)
    {
      doctypes := doctypes + 1;
      if doctypes > 1 { Error(SecondDoctype); }
      if htmls > 0 || stack != [] { Error(LateDoctype); }
    }

    method CheckMeta(attrs: seq<Attribute>)
      modifies this`errors, this`policies
      ensures errors == [] <==> old(errors) == [] && Head in stack && MetaConforms(x, attrs)
      ensures errors == [] ==>
        policies == old(policies) + if PolicyMeta(x, attrs) then [OrEmpty(Get(attrs, "content"))] else []
    {
      if Head !in stack { Error(MetaOutsideHead); }
      var content, names := OrEmpty(Get(attrs, "content")), set i | 0 <= i < |attrs| :: attrs[i].name;
      var equiv := x.fold(x.strip(OrEmpty(Get(attrs, "http-equiv"))));
      if equiv != "" {
        if equiv != "content-security-policy" || names != {"http-equiv", "content"} || x.strip(content) == "" {
          Error(BadMeta);
        } else {
          policies := policies + [content];
        }
      } else if "charset" in names {
        if names != {"charset"} || x.fold(OrEmpty(Get(attrs, "charset"))) != "utf-8" { Error(BadMeta); }
      } else if x.fold(x.strip(OrEmpty(Get(attrs, "name")))) != "viewport" || names != {"name", "content"} || content == "" {
        Error(BadMeta);
      }
    }

    method CheckStart(tag: Tag, attrs: seq<Attribute>)
      modifies this`errors
      ensures errors == [] <==>
              old(errors) == [] && !closed && PositionOk(View(), tag) && InertAttributes(attrs)
    {
      if closed { Error(AfterHtml); }
      var placed := MayStand(tag);
      if !placed { Error(Misplaced(tag)); }
      var inert := CheckAttributes(attrs);
      if !inert { Error(BadAttributes(tag)); }
    }

    /** `_validate_position`, by the innermost open element. */
    method MayStand(tag: Tag) returns (ok: bool)
      ensures ok <==> PositionOk(View(), tag)
    {
      if tag == Html { return doctypes == 1 && stack == [] && htmls == 0; }
      if Html !in stack { return false; }
      var parent := stack[|stack| - 1];
      match tag {
        case Head => return parent == Html && heads == 0 && bodies == 0;
        case Body => return parent == Html && heads == 1 && bodies == 0;
        case _ =>
          if parent == Html || parent == Style || parent == Title { return false; }
          if Head in stack { return tag == Meta || tag == Style || tag == Title; }
          return Body in stack;
      }
    }

    /** `_validate_attributes`: no handler, style or URL attribute, no NUL, and none twice. */
    method CheckAttributes(attrs: seq<Attribute>) returns (ok: bool)
      ensures ok <==> InertAttributes(attrs)
    {
      hide URL_ATTRIBUTES;
      var seen: set<string>, i := {}, 0;
      while i < |attrs|
        invariant 0 <= i <= |attrs| && forall k :: 0 <= k < i ==> InertAttribute(attrs[k])
        invariant forall j, k :: 0 <= j < k < i ==> attrs[j].name != attrs[k].name
        invariant seen == set k | 0 <= k < i :: attrs[k].name
      {
        var name, value := attrs[i].name, attrs[i].value;
        if name in seen || name == "style" || name in URL_ATTRIBUTES { return false; }
        if |name| >= 2 && name[..2] == "on" { return false; }
        if value.Some? && '\0' in value.value { return false; }
        seen := seen + {name};
        i := i + 1;
      }
      return true;
    }

    method HandleStart(tag: Tag, attrs: seq<Attribute>)
      modifies this
      ensures errors == [] <==> old(errors) == [] && StartOk(x, old(View()), tag, attrs)
      ensures errors == [] ==> View() == Opened(x, old(View()), tag, attrs)
    {
      if tag.Unsafe? { Error(NotPermitted(tag)); return; }
      CheckStart(tag, attrs);
      if tag == Meta { CheckMeta(attrs); }
      Push(tag);
    }

    method Push(tag: Tag)
      modifies this`htmls, this`heads, this`bodies, this`stack, this`css, this`inStyle
      ensures View() == Opened(x, old(View()), tag, []).(policies := policies)
    {
      if tag == Html { htmls := htmls + 1; }
      else if tag == Head { heads := heads + 1; }
      else if tag == Body { bodies := bodies + 1; }
      if !IsVoid(tag) { stack := stack + [tag]; }
      if tag == Style { inStyle, css := true, ""; }
    }

    method HandleEnd(tag: Tag)
      modifies this
      ensures errors == [] <==> old(errors) == [] && EndOk(x, old(View()), tag)
      ensures errors == [] ==> View() == Closed(old(View()), tag)
    {
      if IsVoid(tag) { Error(VoidEnd(tag)); return; }
      if stack == [] { Error(UnexpectedEnd(tag)); return; }
      if stack[|stack| - 1] != tag { Error(MismatchedEnd(tag)); return; }
      stack := stack[..|stack| - 1];
      if tag == Style {
        inStyle := false;
        if x.activeCss(css) { Error(ActiveCss); }
        css := "";
      } else if tag == Html {
        closed := true;
      }
    }

    method HandleData(data: string)
      modifies this
      ensures errors == [] <==> old(errors) == [] && DataOk(x, old(View()), data)
      ensures errors == [] ==> View() == Next(x, old(View()), Data(data))
    {
      if '\0' in data { Error(NulCharacter); }
      if inStyle { css := css + data; }
      if x.strip(data) != "" && Html !in stack { Error(TextOutside); }
    }

    method Handle(t: Token)
      modifies this
      ensures errors == [] <==> old(errors) == [] && TokenOk(x, old(View()), t)
      ensures errors == [] ==> View() == Next(x, old(View()), t)
    {
      match t {
        case Doctype => HandleDoctype();
        case Start(tag, attrs) => HandleStart(tag, attrs);
        case StartEnd(tag, attrs) =>
          if IsVoid(tag) { HandleStart(tag, attrs); } else { Error(SelfClosing(tag)); }
        case End(tag) => HandleEnd(tag);
        case Data(data) => HandleData(data);
        case _ => Error(ForbiddenToken(t));
      }
    }

    method CloseAndValidate()
      modifies this`errors
      ensures errors == [] <==> old(errors) == [] && FinalOk(x, View())
    {
      if stack != [] { Error(Unclosed); }
      if doctypes != 1 { Error(DoctypeCount); }
      if htmls != 1 { Error(HtmlCount); }
      if heads != 1 { Error(HeadCount); }
      if bodies != 1 { Error(BodyCount); }
      if |policies| != 1 {
        Error(PolicyCount);
      } else {
        var valid := ValidPolicy(x.directives(policies[0]));
        if !valid { Error(BadPolicy); }
      }
    }

    /** Feeding the whole document: no error exactly when the machine accepts. */
    method Validate(tokens: seq<Token>)
      requires errors == [] && View() == INITIAL
      modifies this
      ensures errors == [] <==> Accepts(x, tokens)
    {
      var i := 0;
      while i < |tokens|
        invariant 0 <= i <= |tokens|
        invariant errors == [] ==> Run(x, View(), tokens[i..]) == Run(x, INITIAL, tokens)
        invariant errors != [] ==> !Accepts(x, tokens)
      {
        assert tokens[i..][0] == tokens[i] && tokens[i..][1..] == tokens[i + 1..];
        Handle(tokens[i]);
        i := i + 1;
      }
      CloseAndValidate();
    }
  }

  /* ---- What an accepted viewer cannot hold ---- */

  /** Each token of an accepted document was allowed in the state it was met in. */
  lemma {:induction false} EachTokenOk(x: Scanner, s: State, tokens: seq<Token>, i: nat) returns (met: State)
    requires Run(x, s, tokens).Some? && i < |tokens|
    ensures TokenOk(x, met, tokens[i])
    decreases |tokens|
  {
    if i == 0 {
      met := s;
    } else {
      met := EachTokenOk(x, Next(x, s, tokens[0]), tokens[1..], i - 1);
    }
  }

  /** No comment, no instruction and no declaration but the doctype; no element outside the
      tables; no handler, no style and no attribute that loads. */
  lemma AcceptedIsInert(x: Scanner, tokens: seq<Token>, i: nat)
    requires Accepts(x, tokens) && i < |tokens|
    ensures !tokens[i].Comment? && !tokens[i].Instruction? && !tokens[i].OtherDeclaration?
    ensures tokens[i].Start? || tokens[i].StartEnd? ==>
      && !tokens[i].tag.Unsafe?
      && forall a :: a in tokens[i].attrs ==>
           && a.name != "style" && (|a.name| >= 2 ==> a.name[..2] != "on")
           && a.name !in {
                "about", "action", "archive", "attributionsrc", "background", "cite", "codebase", "data", "dynsrc",
                "formaction", "href", "imagesrcset", "itemid", "longdesc", "lowsrc", "manifest", "ping", "poster",
                "profile", "resource", "src", "srcdoc", "srcset", "usemap", "vocab", "xml:base", "xlink:href"}
  {
    hide PositionOk, MetaConforms, Run;
    var met := EachTokenOk(x, INITIAL, tokens, i);
    if tokens[i].Start? || tokens[i].StartEnd? {
      forall a | a in tokens[i].attrs ensures InertAttribute(a) {
        var k :| 0 <= k < |tokens[i].attrs| && tokens[i].attrs[k] == a;
      }
    }
  }

  /** The one policy of an accepted document: every source is shut, script first of all, and
      only its own inline style is let in. */
  lemma AcceptedPolicyIsInert(x: Scanner, tokens: seq<Token>) returns (ds: seq<Directive>)
    requires Accepts(x, tokens)
    ensures var last := Run(x, INITIAL, tokens).value; last.policies != [] && ds == x.directives(last.policies[0])
    ensures forall d :: d in ds ==>
      || d == Directive("style-src", ["'unsafe-inline'"])
      || (&& d.sources == ["'none'"]
          && d.name in {
               "base-uri", "connect-src", "default-src", "font-src", "form-action", "frame-src", "img-src",
               "media-src", "object-src", "script-src"})
    ensures Directive("script-src", ["'none'"]) in ds && Directive("default-src", ["'none'"]) in ds
  {
    hide Run;
    ds := x.directives(Run(x, INITIAL, tokens).value.policies[0]);
    StyleIsNotNone();
    forall d | d in ds ensures DirectiveConforms(d.name, d.sources) {
      var k :| 0 <= k < |ds| && ds[k] == d;
    }
    assert NONE_DIRECTIVES[9] == "script-src" && NONE_DIRECTIVES[2] == "default-src";
    ShutIn(ds, 9);
    ShutIn(ds, 2);
  }

  lemma ShutIn(ds: seq<Directive>, k: nat)
    requires InertPolicy(ds) && k < |NONE_DIRECTIVES|
    ensures Directive(NONE_DIRECTIVES[k], NONE_SOURCE) in ds
  {
    hide NONE_DIRECTIVES, NONE_SOURCE;
    StyleIsNotNone();
    assert NONE_DIRECTIVES[k] in NONE_DIRECTIVES;
    var i :| 0 <= i < |ds| && ds[i].name == NONE_DIRECTIVES[k];
    assert DirectiveConforms(ds[i].name, ds[i].sources);
    assert ds[i] == Directive(NONE_DIRECTIVES[k], NONE_SOURCE);
  }
}
