/**
 * lib/vd-wrapper.js: `dom(selector, ...args)` builds a node from a CSS-like
 * selector and a list of arguments, and `toHTML(node)` serialises a node
 * tree to a string.  virtual-dom's `h` is not part of this model: the node
 * `dom` hands to it is kept as the plain (tag, properties, children) triple.
 */
module VDom {
  import opened Wrappers
  import JsText
  import Seqs

  /** Property values: the JavaScript values the server puts in properties. */
  datatype Value =
    | VStr(s: string)
    | VNum(n: int)
    | VBool(b: bool)
    | VNull
    | VUndefined
    | VStyle(decls: seq<(string, string)>)   // a `style` object, entries in order

  datatype Prop = Prop(key: string, value: Value)

  /** What `toHTML` may be handed. `Blank` is any other value without a `tagName` (null, undefined, booleans). */
  datatype Node =
    | Text(s: string)
    | Number(n: int)
    | Blank
    | Element(tagName: string, props: seq<Prop>, children: seq<Node>)

  // ---------------------------------------------------------------------
  // toHTML

  /** Template interpolation `${value}`. */
  function ValueText(v: Value): string {
    match v
    case VStr(s) => s
    case VNum(n) => JsText.IntToString(n)
    case VBool(b) => if b then "true" else "false"
    case VNull => "null"
    case VUndefined => "undefined"
    case VStyle(_) => "[object Object]"
  }

  predicate IsUpper(c: char) { 'A' <= c <= 'Z' }

  function Lower(c: char): (r: char)
    ensures !IsUpper(r)
  {
    if IsUpper(c) then (c as int + 32) as char else c
  }

  /** `k.replace(/([A-Z])/g, '-$1').toLowerCase()`: `backgroundColor` to `background-color`. */
  function Kebab(k: string): string {
    if k == [] then []
    else (if IsUpper(k[0]) then ['-', Lower(k[0])] else [Lower(k[0])]) + Kebab(k[1..])
  }

  function CountUpper(k: string): nat {
    if k == [] then 0 else (if IsUpper(k[0]) then 1 else 0) + CountUpper(k[1..])
  }

  /**
   * A style key in kebab case has no upper-case letter left, one `-` more
   * per upper-case letter, and an all-lower-case key is kept as it is.
   */
  lemma {:induction false} KebabShape(k: string)
    ensures forall i :: 0 <= i < |Kebab(k)| ==> !IsUpper(Kebab(k)[i])
    ensures |Kebab(k)| == |k| + CountUpper(k)
    ensures (forall i :: 0 <= i < |k| ==> !IsUpper(k[i])) ==> Kebab(k) == k
  {
    if k != [] {
      KebabShape(k[1..]);
      var head: string := if IsUpper(k[0]) then ['-', Lower(k[0])] else [Lower(k[0])];
      assert Kebab(k) == head + Kebab(k[1..]);
      assert forall i :: 0 <= i < |head| ==> !IsUpper(head[i]);
      if forall i :: 0 <= i < |k| ==> !IsUpper(k[i]) {
        assert forall i :: 0 <= i < |k[1..]| ==> !IsUpper(k[1..][i]) by {
          forall i | 0 <= i < |k[1..]| ensures !IsUpper(k[1..][i]) { assert k[1..][i] == k[i + 1]; }
        }
        assert !IsUpper(k[0]);
        assert [k[0]] + k[1..] == k;
      }
    }
  }

  function Declaration(d: (string, string)): string {
    Kebab(d.0) + ":" + d.1
  }

  /** The entries of a style object as `key:value`, joined by `;`. */
  function StyleText(decls: seq<(string, string)>): string
    decreases |decls|
  {
    if decls == [] then ""
    else if |decls| == 1 then Declaration(decls[0])
    else Declaration(decls[0]) + ";" + StyleText(decls[1..])
  }

  /** A value that is left out of the attributes unless it is `className` or a style object. */
  predicate Omitted(v: Value) {
    v == VNull || v == VUndefined || v == VBool(false)
  }

  /** One attribute as `toHTML` writes it, possibly nothing. */
  function Attr(p: Prop): string {
    if p.key == "className" then " class=\"" + ValueText(p.value) + "\""
    else if p.key == "style" && p.value.VStyle? then " style=\"" + StyleText(p.value.decls) + "\""
    else if !Omitted(p.value) then " " + p.key + "=\"" + ValueText(p.value) + "\""
    else ""
  }

  /**
   * Attribute rules: `className` is always written as `class`, a style
   * object as `style`, and any other property is written under its own
   * name unless it is null, undefined or false.
   */
  lemma AttrRules(p: Prop)
    ensures Attr(p) == "" <==> p.key != "className" && !(p.key == "style" && p.value.VStyle?) && Omitted(p.value)
    ensures p.key == "className" ==> Attr(p) == " class=\"" + ValueText(p.value) + "\""
    ensures p.key == "style" && p.value.VStyle? ==> Attr(p) == " style=\"" + StyleText(p.value.decls) + "\""
  {
  }

  function Attrs(ps: seq<Prop>): string
    decreases |ps|
  {
    if ps == [] then "" else Attrs(ps[..|ps| - 1]) + Attr(ps[|ps| - 1])
  }

  /** The HTML text of a node: the specification `ToHtml` is proved against. */
  function Render(n: Node): string
    decreases n
  {
    match n
    case Text(s) => s
    case Number(k) => JsText.IntToString(k)
    case Blank => ""
    case Element(tag, props, kids) =>
      if tag == "" then "" else "<" + tag + Attrs(props) + ">" + RenderAll(kids) + "</" + tag + ">"
  }

  function RenderAll(kids: seq<Node>): string
    decreases kids
  {
    if kids == [] then "" else RenderAll(kids[..|kids| - 1]) + Render(kids[|kids| - 1])
  }

  /** Children are written one after the other, in order. */
  lemma {:induction false} RenderAllAppend(a: seq<Node>, b: seq<Node>)
    ensures RenderAll(a + b) == RenderAll(a) + RenderAll(b)
    decreases |b|
  {
    if b == [] {
      assert a + b == a;
    } else {
      var b' := b[..|b| - 1];
      assert (a + b)[..|a + b| - 1] == a + b';
      assert (a + b)[|a + b| - 1] == b[|b| - 1];
      RenderAllAppend(a, b');
      Seqs.AppendAssoc(RenderAll(a), RenderAll(b'), Render(b[|b| - 1]));
    }
  }

  /** Strings and numbers are written as they are, with no escaping; values with no tag give nothing. */
  lemma LeavesAndBlanks(s: string, k: int, props: seq<Prop>, kids: seq<Node>)
    ensures Render(Text(s)) == s
    ensures Render(Number(k)) == JsText.IntToString(k)
    ensures Render(Blank) == "" && Render(Element("", props, kids)) == ""
  {
  }

  /** One step of the attribute loop of `toHTML`. */
  method AttrText(p: Prop) returns (attr: string)
    ensures attr == Attr(p)
  {
    attr := "";
    if p.key == "className" {
      attr := " class=\"" + ValueText(p.value) + "\"";
    } else if p.key == "style" && p.value.VStyle? {
      attr := " style=\"" + StyleText(p.value.decls) + "\"";
    } else if !Omitted(p.value) {
      attr := " " + p.key + "=\"" + ValueText(p.value) + "\"";
    }
  }

  /** The attribute loop of `toHTML`: each property's text appended in order. */
  method AttrsText(props: seq<Prop>) returns (attrs: string)
    ensures attrs == Attrs(props)
  {
    attrs := "";
    var i := 0;
    while i < |props|
      invariant 0 <= i <= |props|
      invariant attrs == Attrs(props[..i])
    {
      assert props[..i + 1][..i] == props[..i];
      var attr := AttrText(props[i]);
      attrs := attrs + attr;
      i := i + 1;
    }
    assert props[..|props|] == props;
  }

  /** `toHTML(vdom)`. */
  method ToHtml(n: Node) returns (html: string)
    ensures html == Render(n)
    decreases n
  {
    match n {
      case Text(s) =>
        return s;
      case Number(k) =>
        return JsText.IntToString(k);
      case Blank =>
        return "";
      case Element(tag, props, kids) =>
        if tag == "" {
          return "";
        }
        var attrs := AttrsText(props);
        // the children, each rendered by a recursive call
        var inner := "";
        var j := 0;
        while j < |kids|
          invariant 0 <= j <= |kids|
          invariant inner == RenderAll(kids[..j])
        {
          assert kids[..j + 1][..j] == kids[..j];
          var child := ToHtml(kids[j]);
          inner := inner + child;
          j := j + 1;
        }
        assert kids[..|kids|] == kids;
        html := "<" + tag + attrs + ">" + inner + "</" + tag + ">";
    }
  }

  // ---------------------------------------------------------------------
  // dom

  /** The first argument of `dom`: a string, or anything else. */
  datatype Selector = Sel(s: string) | NotString

  /** One further argument: a properties object, an array of children, or a single child. */
  datatype Arg = PropsArg(props: seq<Prop>) | ListArg(items: seq<Node>) | ChildArg(node: Node)

  /** `s.replace(/\./g, ' ')`. */
  function ReplaceDots(s: string): (r: string)
    ensures |r| == |s|
    ensures forall i :: 0 <= i < |s| ==> r[i] == if s[i] == '.' then ' ' else s[i]
  {
    if s == [] then [] else [if s[0] == '.' then ' ' else s[0]] + ReplaceDots(s[1..])
  }

  function SelectorTag(sel: Selector): string {
    match sel
    case NotString => "div"
    case Sel(s) => if JsText.StartsWith(s, '.') || JsText.StartsWith(s, '#') then "div" else s
  }

  function SelectorProps(sel: Selector): seq<Prop> {
    match sel
    case NotString => []
    case Sel(s) =>
      if JsText.StartsWith(s, '.') then [Prop("className", VStr(ReplaceDots(s[1..])))]
      else if JsText.StartsWith(s, '#') then [Prop("id", VStr(s[1..]))]
      else []
  }

  /** The first value stored under `key`. */
  function Lookup(ps: seq<Prop>, key: string): Option<Value> {
    if ps == [] then None else if ps[0].key == key then Some(ps[0].value) else Lookup(ps[1..], key)
  }

  function Keys(ps: seq<Prop>): seq<string> {
    if ps == [] then [] else [ps[0].key] + Keys(ps[1..])
  }

  /** `obj[key] = value`: an existing key keeps its place, a new one goes last. */
  function SetProp(ps: seq<Prop>, key: string, v: Value): (r: seq<Prop>)
    ensures Lookup(r, key) == Some(v)
    ensures forall k :: k != key ==> Lookup(r, k) == Lookup(ps, k)
    ensures Keys(r) == if key in Keys(ps) then Keys(ps) else Keys(ps) + [key]
  {
    if ps == [] then [Prop(key, v)]
    else if ps[0].key == key then [Prop(key, v)] + ps[1..]
    else [ps[0]] + SetProp(ps[1..], key, v)
  }

  /** The last value `q` gives `key`. */
  function LastLookup(q: seq<Prop>, key: string): Option<Value>
    decreases |q|
  {
    if q == [] then None
    else if q[|q| - 1].key == key then Some(q[|q| - 1].value)
    else LastLookup(q[..|q| - 1], key)
  }

  /** `Object.assign(ps, q)`: the entries of `q` set one after the other. */
  function Assign(ps: seq<Prop>, q: seq<Prop>): (r: seq<Prop>)
    ensures forall k :: Lookup(r, k) == if LastLookup(q, k).Some? then LastLookup(q, k) else Lookup(ps, k)
    decreases |q|
  {
    if q == [] then ps
    else SetProp(Assign(ps, q[..|q| - 1]), q[|q| - 1].key, q[|q| - 1].value)
  }

  /** The properties after the arguments: the selector's, then each properties object merged in. */
  function PropsOf(init: seq<Prop>, args: seq<Arg>): seq<Prop>
    decreases |args|
  {
    if args == [] then init
    else
      var before := PropsOf(init, args[..|args| - 1]);
      match args[|args| - 1]
      case PropsArg(q) => Assign(before, q)
      case _ => before
  }

  /** The children an argument contributes: an array's items, or the value itself; a properties object none. */
  function ArgChildren(a: Arg): seq<Node> {
    match a
    case PropsArg(_) => []
    case ListArg(items) => items
    case ChildArg(node) => [node]
  }

  function ChildrenOf(args: seq<Arg>): seq<Node>
    decreases |args|
  {
    if args == [] then [] else ChildrenOf(args[..|args| - 1]) + ArgChildren(args[|args| - 1])
  }

  /** `dom(selector, ...args)`. */
  method Dom(sel: Selector, args: seq<Arg>) returns (node: Node)
    ensures node == Element(SelectorTag(sel), PropsOf(SelectorProps(sel), args), ChildrenOf(args))
  {
    var tag := "div";
    var props: seq<Prop> := [];
    var children: seq<Node> := [];
    if sel.Sel? {
      if JsText.StartsWith(sel.s, '.') {
        tag := "div";
        props := SetProp(props, "className", VStr(ReplaceDots(sel.s[1..])));
      } else if JsText.StartsWith(sel.s, '#') {
        tag := "div";
        props := SetProp(props, "id", VStr(sel.s[1..]));
      } else {
        tag := sel.s;
      }
    }
    var i := 0;
    while i < |args|
      invariant 0 <= i <= |args|
      invariant props == PropsOf(SelectorProps(sel), args[..i])
      invariant children == ChildrenOf(args[..i])
    {
      assert args[..i + 1][..i] == args[..i];
      match args[i] {
        case PropsArg(q) =>
          props := Assign(props, q);
        case ListArg(items) =>
          children := children + items;
        case ChildArg(child) =>
          children := children + [child];
      }
      i := i + 1;
    }
    assert args[..|args|] == args;
    node := Element(tag, props, children);
  }

  /** The last properties object that sets `key`, if any. */
  function LastPropArg(args: seq<Arg>, key: string): Option<Value>
    decreases |args|
  {
    if args == [] then None
    else
      var a := args[|args| - 1];
      if a.PropsArg? && LastLookup(a.props, key).Some? then LastLookup(a.props, key)
      else LastPropArg(args[..|args| - 1], key)
  }

  /** Properties objects merge in order: a later one overrides an earlier one and the selector. */
  lemma {:induction false} LaterPropsWin(init: seq<Prop>, args: seq<Arg>, key: string)
    ensures Lookup(PropsOf(init, args), key)
      == if LastPropArg(args, key).Some? then LastPropArg(args, key) else Lookup(init, key)
    decreases |args|
  {
    if args != [] {
      LaterPropsWin(init, args[..|args| - 1], key);
    }
  }

  /** Children keep their order: those of earlier arguments come first. */
  lemma {:induction false} ChildrenInOrder(a: seq<Arg>, b: seq<Arg>)
    ensures ChildrenOf(a + b) == ChildrenOf(a) + ChildrenOf(b)
    decreases |b|
  {
    if b == [] {
      assert a + b == a;
    } else {
      var b' := b[..|b| - 1];
      assert (a + b)[..|a + b| - 1] == a + b';
      assert (a + b)[|a + b| - 1] == b[|b| - 1];
      ChildrenInOrder(a, b');
      Seqs.AppendAssoc(ChildrenOf(a), ChildrenOf(b'), ArgChildren(b[|b| - 1]));
    }
  }

  /** Selectors: `.a.b` is a `div` with class `a b`, `#x` a `div` with id `x`, a non-string a `div`. */
  lemma SelectorRules(x: string)
    ensures SelectorTag(Sel(".a.b")) == "div" && Lookup(SelectorProps(Sel(".a.b")), "className") == Some(VStr("a b"))
    ensures SelectorTag(Sel("#" + x)) == "div" && Lookup(SelectorProps(Sel("#" + x)), "id") == Some(VStr(x))
    ensures SelectorTag(NotString) == "div" && SelectorProps(NotString) == []
    ensures !JsText.StartsWith(x, '.') && !JsText.StartsWith(x, '#') ==> SelectorTag(Sel(x)) == x && SelectorProps(Sel(x)) == []
  {
    assert ".a.b"[1..] == "a.b";
    assert ("#" + x)[1..] == x;
    var r := ReplaceDots("a.b");
    assert r == "a b";
  }
}
