/**
 The automaton agrees with the document tree it never builds: reading a
 printed document trips no assertion, enters exactly the tree's locations in
 pre-order, closes its containers in post-order with the right counts, and
 ends where it began.
 */
module JsonCorrect {
  import opened Options
  import opened JsonAutomaton
  import opened JsonDocument
  import opened Sequences

  // String s is printed in text at offset x.
  ghost predicate At(text: string, x: nat, s: string) {
    x + |s| <= |text| && forall i | 0 <= i < |s| :: text[x + i] == s[i]
  }

  lemma AtSplit(text: string, x: nat, a: string, b: string)
    requires At(text, x, a + b)
    ensures At(text, x, a) && At(text, x + |a|, b)
  {
    forall i | 0 <= i < |a|
      ensures text[x + i] == a[i]
    {
      assert (a + b)[i] == a[i];
    }
    forall i | 0 <= i < |b|
      ensures text[x + |a| + i] == b[i]
    {
      assert (a + b)[|a| + i] == b[i];
    }
  }

  lemma AtChar(text: string, x: nat, s: string)
    requires At(text, x, s) && |s| == 1
    ensures x < |text| && text[x] == s[0]
  {
    assert text[x + 0] == s[0];
  }

  // Three consecutive successful runs are one run.
  lemma RunChain(text: string, c: Ctx, i: nat, j: nat, k: nat)
    requires c.x + i + j + k <= |text|
    requires Run(text, c, i).Some? && Run(text, Run(text, c, i).value, j).Some?
    ensures Run(text, c, i + j).Some? && Run(text, c, i + j) == Run(text, Run(text, c, i).value, j)
    ensures Run(text, c, i + j + k) == Run(text, Run(text, Run(text, c, i).value, j).value, k)
  {
    hide Dispatch, Run;
    RunSplit(text, c, i, j);
    RunSplit(text, c, i + j, k);
  }

  // Everything but the read position and the current span, which later steps overwrite.
  datatype View = View(stack: seq<Scope>, path: seq<Span>, acc: seq<nat>, entered: seq<Location>, closed: seq<Closing>)

  function ViewOf(c: Ctx): View {
    View(c.stack, c.path, c.acc, c.entered, c.closed)
  }

  // A primitive that has been read but whose end has not been noticed yet counts as left.
  function Settle(c: Ctx): Ctx {
    if c.stack != [] && Last(c.stack) == Primitive then c.(stack := Init(c.stack)) else c
  }

  predicate InValue(c: Ctx) {
    Settle(c).stack != [] && Last(Settle(c).stack) == Value
  }

  function Bump(acc: seq<nat>): seq<nat>
    requires acc != []
  {
    Init(acc) + [Last(acc) + 1]
  }

  lemma DispatchBlank(text: string, c: Ctx)
    requires c.x < |text| && IsBlank(text[c.x])
    requires c.stack != [] && Last(c.stack) in {Root, Object, Value}
    ensures Dispatch(text, c) == Some(c.(x := c.x + 1))
  {
  }

  lemma {:induction false} RunBlankRange(text: string, c: Ctx, n: nat)
    requires c.x + n <= |text| && forall i | c.x <= i < c.x + n :: IsBlank(text[i])
    requires c.stack != [] && Last(c.stack) in {Root, Object, Value}
    ensures Run(text, c, n) == Some(c.(x := c.x + n))
    decreases n
  {
    hide Handle, IsBlank;
    if n == 0 {
    } else {
      DispatchBlank(text, c);
      RunBlankRange(text, c.(x := c.x + 1), n - 1);
    }
  }

  lemma RunBlanks(text: string, c: Ctx, ws: string)
    requires Blank(ws) && At(text, c.x, ws)
    requires c.stack != [] && Last(c.stack) in {Root, Object, Value}
    ensures Run(text, c, |ws|) == Some(c.(x := c.x + |ws|))
  {
    hide Handle, Run, IsBlank;
    forall i | c.x <= i < c.x + |ws|
      ensures IsBlank(text[i])
    {
      assert text[c.x + (i - c.x)] == ws[i - c.x];
    }
    RunBlankRange(text, c, |ws|);
  }

  // Blanks after a value, also when they are what ends a primitive.
  lemma RunTrailing(text: string, c: Ctx, ws: string)
    requires Blank(ws) && At(text, c.x, ws) && InValue(c)
    ensures Run(text, c, |ws|).Some?
    ensures ViewOf(Settle(Run(text, c, |ws|).value)) == ViewOf(Settle(c))
  {
    if |ws| > 0 {
      assert text[c.x + 0] == ws[0];
      DispatchSettled(text, c);
      RunBlanks(text, Settle(c), ws);
      assert Run(text, c, |ws|) == Run(text, Settle(c), |ws|);
    }
  }

  // A delimiter is read the same whether or not a pending primitive has been left.
  lemma DispatchSettled(text: string, c: Ctx)
    requires c.x < |text| && InValue(c) && !IsPrimitiveChar(text[c.x])
    ensures Dispatch(text, c) == Dispatch(text, Settle(c))
  {
  }

  // The characters that only lengthen the current span of a key, string or primitive.
  predicate Extends(scope: Scope, ch: char) {
    match scope
    case Key => IsAscii(ch) && ch != '"'
    case Str => ch != '"' && ch != '\\'
    case Primitive => IsPrimitiveChar(ch)
    case _ => false
  }

  lemma DispatchExtends(text: string, c: Ctx)
    requires c.x < |text| && c.stack != [] && Extends(Last(c.stack), text[c.x])
    ensures Dispatch(text, c) == Some(c.(x := c.x + 1, spanSz := c.spanSz + 1))
  {
  }

  lemma {:induction false} RunSpan(text: string, c: Ctx, n: nat)
    requires c.x + n <= |text| && c.stack != []
    requires forall i | c.x <= i < c.x + n :: Extends(Last(c.stack), text[i])
    ensures Run(text, c, n) == Some(c.(x := c.x + n, spanSz := c.spanSz + n))
    decreases n
  {
    hide Handle, Extends;
    if n == 0 {
    } else {
      DispatchExtends(text, c);
      RunSpan(text, c.(x := c.x + 1, spanSz := c.spanSz + 1), n - 1);
    }
  }

  lemma DenotePush(text: string, path: seq<Span>, span: Span)
    ensures DenotePath(text, path + [span]) == DenotePath(text, path) + [Denote(text, span)]
  {
  }

  // What reading value t does to the context it starts in.
  ghost predicate ReadsValue(text: string, c: Ctx, t: Tree, r: Option<Ctx>)
    requires c.acc != []
  {
    var p := DenotePath(text, c.path);
    && r.Some?
    && r.value.x == c.x + |Print(t)|
    && ViewOf(Settle(r.value)) == View(c.stack, c.path, Bump(c.acc), c.entered + Locations(t, c.x, p), c.closed + Closings(t, p))
  }

  lemma OpenText(text: string, c: Ctx)
    requires c.x < |text| && text[c.x] == '"' && c.stack != [] && Last(c.stack) == Value && c.acc != []
    ensures Run(text, c, 1) == Some(c.(stack := c.stack + [Str], acc := Bump(c.acc), x := c.x + 1, spanIdx := c.x, spanSz := 0))
  {
  }

  lemma CloseText(text: string, c: Ctx, base: seq<Scope>)
    requires c.x < |text| && text[c.x] == '"' && c.stack == base + [Str]
    ensures Run(text, c, 1) == Some(c.(stack := base, x := c.x + 1))
  {
  }

  lemma RunText(text: string, c: Ctx, s: string)
    requires WellFormed(Text(s)) && At(text, c.x, Print(Text(s)))
    requires c.stack != [] && Last(c.stack) == Value && c.acc != []
    ensures ReadsValue(text, c, Text(s), Run(text, c, |Print(Text(s))|))
  {
    hide Handle, Run;
    AtSplit(text, c.x, "\"" + s, "\"");
    AtSplit(text, c.x, "\"", s);
    AtChar(text, c.x, "\"");
    AtChar(text, c.x + 1 + |s|, "\"");
    OpenText(text, c);
    var inside := Run(text, c, 1).value;
    forall i | inside.x <= i < inside.x + |s|
      ensures Extends(Str, text[i])
    {
      assert text[inside.x + (i - inside.x)] == s[i - inside.x];
    }
    RunSpan(text, inside, |s|);
    CloseText(text, Run(text, inside, |s|).value, c.stack);
    RunChain(text, c, 1, |s|, 1);
    assert |Print(Text(s))| == 1 + |s| + 1;
  }

  lemma OpenPrim(text: string, c: Ctx)
    requires c.x < |text| && IsPrimitiveChar(text[c.x]) && c.stack != [] && Last(c.stack) == Value && c.acc != []
    ensures Run(text, c, 1)
         == Some(c.(stack := c.stack + [Primitive], acc := Bump(c.acc), x := c.x + 1, spanIdx := c.x, spanSz := 1))
  {
  }

  lemma RunPrim(text: string, c: Ctx, s: string)
    requires WellFormed(Prim(s)) && At(text, c.x, s)
    requires c.stack != [] && Last(c.stack) == Value && c.acc != []
    ensures ReadsValue(text, c, Prim(s), Run(text, c, |s|))
  {
    hide Handle, Run, IsPrimitiveChar;
    forall i | c.x <= i < c.x + |s|
      ensures IsPrimitiveChar(text[i])
    {
      assert text[c.x + (i - c.x)] == s[i - c.x];
    }
    OpenPrim(text, c);
    var inside := Run(text, c, 1).value;
    RunSpan(text, inside, |s| - 1);
    RunSplit(text, c, 1, |s| - 1);
    assert Init(inside.stack) == c.stack;
  }

  // The three delimiters that end a value; `span` is the value's own path segment.

  lemma CloseArray(text: string, r: Ctx, base: seq<Scope>, path: seq<Span>, span: Span)
    requires r.x < |text| && text[r.x] == ']' && InValue(r)
    requires Settle(r).stack == base + [Array, Value] && r.path == path + [span] && r.acc != []
    ensures Dispatch(text, r).Some?
    ensures ViewOf(Dispatch(text, r).value)
         == View(base, path, Init(r.acc), r.entered, r.closed + [Closing(DenotePath(text, path), Last(r.acc))])
  {
    DispatchSettled(text, r);
    assert Init(base + [Array, Value]) == base + [Array];
    assert Init(base + [Array]) == base;
    assert Init(path + [span]) == path;
  }

  lemma CloseObject(text: string, r: Ctx, base: seq<Scope>, path: seq<Span>, span: Span)
    requires r.x < |text| && text[r.x] == '}' && InValue(r)
    requires Settle(r).stack == base + [Object, Value] && r.path == path + [span] && r.acc != []
    ensures Dispatch(text, r).Some?
    ensures ViewOf(Dispatch(text, r).value)
         == View(base, path, Init(r.acc), r.entered, r.closed + [Closing(DenotePath(text, path), Last(r.acc))])
  {
    DispatchSettled(text, r);
    assert Init(base + [Object, Value]) == base + [Object];
    assert Init(base + [Object]) == base;
    assert Init(path + [span]) == path;
  }

  lemma NextElement(text: string, r: Ctx, base: seq<Scope>, path: seq<Span>, span: Span)
    requires r.x < |text| && text[r.x] == ',' && InValue(r)
    requires Settle(r).stack == base + [Array, Value] && r.path == path + [span] && r.acc != []
    ensures Dispatch(text, r).Some?
    ensures ViewOf(Dispatch(text, r).value)
         == View(base + [Array, Value], path + [Span(Last(r.acc), 0)], r.acc,
                 r.entered + [Location(r.x + 1, DenotePath(text, path) + [Index(Last(r.acc))])], r.closed)
  {
    DispatchSettled(text, r);
    assert Init(base + [Array, Value]) == base + [Array];
    assert base + [Array] + [Value] == base + [Array, Value];
    assert Init(path + [span]) == path;
    DenotePush(text, path, Span(Last(r.acc), 0));
  }

  lemma NextMember(text: string, r: Ctx, base: seq<Scope>, path: seq<Span>, span: Span)
    requires r.x < |text| && text[r.x] == ',' && InValue(r)
    requires Settle(r).stack == base + [Object, Value] && r.path == path + [span]
    ensures Dispatch(text, r).Some?
    ensures ViewOf(Dispatch(text, r).value) == View(base + [Object], path, r.acc, r.entered, r.closed)
  {
    DispatchSettled(text, r);
    assert Init(base + [Object, Value]) == base + [Object];
    assert Init(path + [span]) == path;
  }

  lemma OpenKey(text: string, c: Ctx)
    requires c.x < |text| && text[c.x] == '"' && c.stack != [] && Last(c.stack) == Object
    ensures Run(text, c, 1) == Some(c.(stack := c.stack + [Key], x := c.x + 1, spanIdx := c.x, spanSz := 0))
  {
  }

  lemma CloseKey(text: string, c: Ctx, base: seq<Scope>)
    requires c.x < |text| && text[c.x] == '"' && c.stack == base + [Key]
    ensures Run(text, c, 1) == Some(c.(stack := base, x := c.x + 1))
  {
  }

  lemma OpenMember(text: string, c: Ctx, span: Span)
    requires c.x < |text| && text[c.x] == ':' && c.stack != [] && Last(c.stack) == Object
    requires span == Span(c.spanIdx + 1, c.spanSz)
    ensures Run(text, c, 1).Some?
    ensures ViewOf(Run(text, c, 1).value)
         == View(c.stack + [Value], c.path + [span], c.acc,
                 c.entered + [Location(c.x + 1, DenotePath(text, c.path) + [Denote(text, span)])], c.closed)
  {
    hide Denote, DenotePath;
    DenotePush(text, c.path, span);
    DispatchIsRun(text, c);
  }

  lemma KeyText(text: string, x: nat, key: string)
    requires GoodKey(key) && At(text, x, "\"" + key + "\"")
    ensures text[x] == '"' && text[x + 1 + |key|] == '"'
    ensures forall i | x + 1 <= i < x + 1 + |key| :: Extends(Key, text[i])
    ensures Denote(text, Span(x + 1, |key|)) == Name(key)
  {
    AtSplit(text, x, "\"" + key, "\"");
    AtSplit(text, x, "\"", key);
    AtChar(text, x, "\"");
    AtChar(text, x + 1 + |key|, "\"");
    forall i | x + 1 <= i < x + 1 + |key|
      ensures Extends(Key, text[i])
    {
      assert text[x + 1 + (i - x - 1)] == key[i - x - 1];
    }
    assert text[x + 1..x + 1 + |key|] == key;
  }

  lemma RunQuoted(text: string, c: Ctx, key: string)
    requires GoodKey(key) && c.stack != [] && Last(c.stack) == Object
    requires At(text, c.x, "\"" + key + "\"")
    ensures Run(text, c, 1 + |key| + 1) == Some(c.(x := c.x + 1 + |key| + 1, spanIdx := c.x, spanSz := |key|))
  {
    hide Handle, Run;
    KeyText(text, c.x, key);
    OpenKey(text, c);
    var inside := c.(stack := c.stack + [Key], x := c.x + 1, spanIdx := c.x, spanSz := 0);
    RunSpan(text, inside, |key|);
    CloseKey(text, inside.(x := inside.x + |key|, spanSz := |key|), c.stack);
    RunChain(text, c, 1, |key|, 1);
  }

  lemma RunToColon(text: string, c: Ctx, pre: string, key: string, mid: string)
    requires Blank(pre) && GoodKey(key) && Blank(mid)
    requires c.stack != [] && Last(c.stack) == Object
    requires At(text, c.x, pre) && At(text, c.x + |pre|, "\"" + key + "\"") && At(text, c.x + |pre| + 1 + |key| + 1, mid)
    ensures Run(text, c, |pre| + (1 + |key| + 1) + |mid|)
         == Some(c.(x := c.x + |pre| + 1 + |key| + 1 + |mid|, spanIdx := c.x + |pre|, spanSz := |key|))
  {
    hide Handle, Run, Blank, GoodKey;
    RunBlanks(text, c, pre);
    var c1 := c.(x := c.x + |pre|);
    RunQuoted(text, c1, key);
    RunBlanks(text, c1.(x := c1.x + 1 + |key| + 1, spanIdx := c1.x, spanSz := |key|), mid);
    RunChain(text, c, |pre|, 1 + |key| + 1, |mid|);
  }

  // From '{' or ',' up to and including the ':' of the next member.
  lemma RunKey(text: string, c: Ctx, pre: string, key: string, mid: string) returns (span: Span)
    requires Blank(pre) && GoodKey(key) && Blank(mid)
    requires c.stack != [] && Last(c.stack) == Object
    requires At(text, c.x, pre + ("\"" + key + "\"") + mid + ":")
    ensures Denote(text, span) == Name(key)
    ensures Run(text, c, |pre| + (1 + |key| + 1) + |mid| + 1).Some?
    ensures ViewOf(Run(text, c, |pre| + (1 + |key| + 1) + |mid| + 1).value)
         == View(c.stack + [Value], c.path + [span], c.acc,
                 c.entered + [Location(c.x + |pre| + 1 + |key| + 1 + |mid| + 1, DenotePath(text, c.path) + [Name(key)])], c.closed)
  {
    hide Handle, Run, Blank;
    var quoted := "\"" + key + "\"";
    AtSplit(text, c.x, pre + quoted + mid, ":");
    AtSplit(text, c.x, pre + quoted, mid);
    AtSplit(text, c.x, pre, quoted);
    RunToColon(text, c, pre, key, mid);
    var n := |pre| + (1 + |key| + 1) + |mid|;
    var c3 := Run(text, c, n).value;
    AtChar(text, c3.x, ":");
    span := Span(c.x + |pre| + 1, |key|);
    KeyText(text, c.x + |pre|, key);
    OpenMember(text, c3, span);
    RunSplit(text, c, n, 1);
  }

  // What reading the rest of an array does, from just after the '[' or ',' to just after the ']'.
  ghost predicate ReadsElems(text: string, c: Ctx, es: Elems, k: nat, base: seq<Scope>, path: seq<Span>,
                             before: seq<Location>, r: Option<Ctx>)
    requires c.acc != []
  {
    var p := DenotePath(text, path);
    && r.Some?
    && r.value.x == c.x + |PrintElems(es)|
    && ViewOf(r.value) == View(base, path, Init(c.acc), before + ElemLocations(es, c.x, k, p),
                               c.closed + (ElemClosings(es, k, p) + [Closing(p, k + ElemCount(es))]))
  }

  ghost predicate ReadsMembers(text: string, c: Ctx, ms: Members, base: seq<Scope>, r: Option<Ctx>)
    requires c.acc != []
  {
    var p := DenotePath(text, c.path);
    && r.Some?
    && r.value.x == c.x + |PrintMembers(ms)|
    && ViewOf(r.value) == View(base, c.path, Init(c.acc), c.entered + MemberLocations(ms, c.x, p),
                               c.closed + (MemberClosings(ms, p) + [Closing(p, Last(c.acc) + MemberCount(ms))]))
  }

  lemma {:induction false} RunValue(text: string, c: Ctx, t: Tree)
    requires WellFormed(t) && At(text, c.x, Print(t))
    requires c.stack != [] && Last(c.stack) == Value && c.acc != []
    ensures ReadsValue(text, c, t, Run(text, c, |Print(t)|))
    decreases t, 0
  {
    hide Handle, Run, Dispatch, At, Blank, DenotePath;
    match t
    case Prim(s) => RunPrim(text, c, s);
    case Text(s) => RunText(text, c, s);
    case EmptyObj(b) =>
      var d := OpenObject(text, c, b + "}");
      RunEmptyObject(text, d, b, c.stack);
      RunSplit(text, c, 1, |b| + 1);
    case Arr(es) => RunArray(text, c, es);
    case Obj(ms) => RunObject(text, c, ms);
  }

  lemma {:induction false} RunArray(text: string, c: Ctx, es: Elems)
    requires WellFormedElems(es) && At(text, c.x, "[" + PrintElems(es))
    requires c.stack != [] && Last(c.stack) == Value && c.acc != []
    ensures ReadsValue(text, c, Arr(es), Run(text, c, |"[" + PrintElems(es)|))
    decreases es, 3
  {
    hide Handle, Run, Dispatch, At, Blank, DenotePath;
    var d := OpenArray(text, c, PrintElems(es));
    RunElems(text, d, es, 0, c.stack, c.path, c.entered);
    RunSplit(text, c, 1, |PrintElems(es)|);
  }

  lemma {:induction false} RunObject(text: string, c: Ctx, ms: Members)
    requires WellFormedMembers(ms) && At(text, c.x, "{" + PrintMembers(ms))
    requires c.stack != [] && Last(c.stack) == Value && c.acc != []
    ensures ReadsValue(text, c, Obj(ms), Run(text, c, |"{" + PrintMembers(ms)|))
    decreases ms, 3
  {
    hide Handle, Run, Dispatch, At, Blank, DenotePath;
    var d := OpenObject(text, c, PrintMembers(ms));
    RunMembers(text, d, ms, c.stack);
    RunSplit(text, c, 1, |PrintMembers(ms)|);
  }

  // A value with the blanks around it.
  lemma {:induction false} RunPadded(text: string, c: Ctx, pre: string, v: Tree, post: string)
    requires Blank(pre) && WellFormed(v) && Blank(post) && At(text, c.x, pre + Print(v) + post)
    requires c.stack != [] && Last(c.stack) == Value && c.acc != []
    ensures var r := Run(text, c, |pre| + |Print(v)| + |post|);
            var p := DenotePath(text, c.path);
            r.Some? && ViewOf(Settle(r.value)) == View(c.stack, c.path, Bump(c.acc),
              c.entered + Locations(v, c.x + |pre|, p), c.closed + Closings(v, p))
    decreases v, 1
  {
    hide Handle, Run, Blank, WellFormed, Locations, Closings;
    AtSplit(text, c.x, pre + Print(v), post);
    AtSplit(text, c.x, pre, Print(v));
    RunBlanks(text, c, pre);
    var c1 := c.(x := c.x + |pre|);
    RunValue(text, c1, v);
    var c2 := Run(text, c1, |Print(v)|).value;
    RunTrailing(text, c2, post);
    RunChain(text, c, |pre|, |Print(v)|, |post|);
  }

  // One element and the delimiter after it.
  lemma {:induction false} RunElem(text: string, c: Ctx, es: Elems, k: nat, base: seq<Scope>, path: seq<Span>)
    returns (d: Ctx)
    requires WellFormedElems(es) && At(text, c.x, PrintElems(es))
    requires c.stack == base + [Array, Value] && c.path == path + [Span(k, 0)] && c.acc != [] && Last(c.acc) == k
    ensures Run(text, c, |es.pre| + |Print(es.v)| + |es.post| + 1) == Some(d)
    ensures d.x == c.x + |es.pre| + |Print(es.v)| + |es.post| + 1
    ensures var p := DenotePath(text, path);
            var entered := c.entered + Locations(es.v, c.x + |es.pre|, p + [Index(k)]);
            var closed := c.closed + Closings(es.v, p + [Index(k)]);
            if es.LastElem? then ViewOf(d) == View(base, path, Init(c.acc), entered, closed + [Closing(p, k + 1)])
            else
              && At(text, d.x, PrintElems(es.tail))
              && ViewOf(d) == View(base + [Array, Value], path + [Span(k + 1, 0)], Bump(c.acc),
                                   entered + [Location(d.x, p + [Index(k + 1)])], closed)
    decreases es, 0
  {
    hide Handle, Run, Dispatch, At, Blank, WellFormed, Locations, Closings, DenotePath;
    var head := es.pre + Print(es.v) + es.post;
    var rest := if es.LastElem? then "]" else "," + PrintElems(es.tail);
    assert PrintElems(es) == head + rest;
    AtSplit(text, c.x, head, rest);
    RunPadded(text, c, es.pre, es.v, es.post);
    DenotePush(text, path, Span(k, 0));
    var n := |es.pre| + |Print(es.v)| + |es.post|;
    var r := Run(text, c, n).value;
    if es.LastElem? {
      AtChar(text, r.x, "]");
      CloseArray(text, r, base, path, Span(k, 0));
    } else {
      AtSplit(text, r.x, ",", PrintElems(es.tail));
      AtChar(text, r.x, ",");
      NextElement(text, r, base, path, Span(k, 0));
    }
    DispatchIsRun(text, r);
    RunSplit(text, c, n, 1);
    d := Dispatch(text, r).value;
  }

  lemma {:induction false} RunElems(text: string, c: Ctx, es: Elems, k: nat, base: seq<Scope>, path: seq<Span>,
                                    before: seq<Location>)
    requires WellFormedElems(es) && At(text, c.x, PrintElems(es))
    requires c.stack == base + [Array, Value] && c.path == path + [Span(k, 0)] && c.acc != [] && Last(c.acc) == k
    requires c.entered == before + [Location(c.x, DenotePath(text, path) + [Index(k)])]
    ensures ReadsElems(text, c, es, k, base, path, before, Run(text, c, |PrintElems(es)|))
    decreases es, 1
  {
    hide Handle, Run, Dispatch, Blank, WellFormed, Locations, Closings, DenotePath;
    var d := RunElem(text, c, es, k, base, path);
    if es.MoreElems? {
      var p := DenotePath(text, path);
      var own := [Location(c.x, p + [Index(k)])] + Locations(es.v, c.x + |es.pre|, p + [Index(k)]);
      RunElems(text, d, es.tail, k + 1, base, path, before + own);
      RunSplit(text, c, |es.pre| + |Print(es.v)| + |es.post| + 1, |PrintElems(es.tail)|);
      Regroup(before, own, ElemLocations(es.tail, d.x, k + 1, p));
      var inner, outer := Closings(es.v, p + [Index(k)]), ElemClosings(es.tail, k + 1, p);
      Regroup(c.closed, inner, outer + [Closing(p, k + ElemCount(es))]);
      Regroup(inner, outer, [Closing(p, k + ElemCount(es))]);
    }
  }

  lemma DispatchIsRun(text: string, c: Ctx)
    requires c.x < |text|
    ensures Run(text, c, 1) == Dispatch(text, c)
  {
    hide Handle;
  }

  // One member up to its delimiter.
  lemma {:induction false} RunMemberBody(text: string, c: Ctx, ms: Members, rest: string) returns (span: Span, r: Ctx)
    requires WellFormedMembers(ms) && c.stack != [] && Last(c.stack) == Object && c.acc != []
    requires At(text, c.x, (ms.pre + ("\"" + ms.key + "\"") + ms.mid + ":") + ((ms.gap + Print(ms.v) + ms.post) + rest))
    ensures Denote(text, span) == Name(ms.key)
    ensures Run(text, c, (|ms.pre| + (1 + |ms.key| + 1) + |ms.mid| + 1) + (|ms.gap| + |Print(ms.v)| + |ms.post|)) == Some(r)
    ensures r.x == ValueOffset(ms, c.x) + |ms.gap| + |Print(ms.v)| + |ms.post| && At(text, r.x, rest)
    ensures var own := DenotePath(text, c.path) + [Name(ms.key)];
            var at := ValueOffset(ms, c.x);
            ViewOf(Settle(r)) == View(c.stack + [Value], c.path + [span], Bump(c.acc),
                                      c.entered + [Location(at, own)] + Locations(ms.v, at + |ms.gap|, own),
                                      c.closed + Closings(ms.v, own))
    decreases ms, 0
  {
    hide Handle, Run, Dispatch, Blank, WellFormed, Locations, Closings, DenotePath, Denote;
    AtSplit(text, c.x, ms.pre + ("\"" + ms.key + "\"") + ms.mid + ":", (ms.gap + Print(ms.v) + ms.post) + rest);
    span := RunKey(text, c, ms.pre, ms.key, ms.mid);
    var m := |ms.pre| + (1 + |ms.key| + 1) + |ms.mid| + 1;
    var c1 := Run(text, c, m).value;
    AtSplit(text, c1.x, ms.gap + Print(ms.v) + ms.post, rest);
    DenotePush(text, c.path, span);
    RunPadded(text, c1, ms.gap, ms.v, ms.post);
    var n := |ms.gap| + |Print(ms.v)| + |ms.post|;
    r := Run(text, c1, n).value;
    RunSplit(text, c, m, n);
  }

  // One member and the delimiter after it.
  lemma {:induction false} RunMember(text: string, c: Ctx, ms: Members, base: seq<Scope>) returns (d: Ctx)
    requires WellFormedMembers(ms) && At(text, c.x, PrintMembers(ms))
    requires c.stack == base + [Object] && c.acc != []
    ensures Run(text, c, (|ms.pre| + (1 + |ms.key| + 1) + |ms.mid| + 1) + (|ms.gap| + |Print(ms.v)| + |ms.post|) + 1) == Some(d)
    ensures d.x == ValueOffset(ms, c.x) + |ms.gap| + |Print(ms.v)| + |ms.post| + 1
    ensures var p := DenotePath(text, c.path);
            var own := p + [Name(ms.key)];
            var at := ValueOffset(ms, c.x);
            var entered := c.entered + [Location(at, own)] + Locations(ms.v, at + |ms.gap|, own);
            var closed := c.closed + Closings(ms.v, own);
            if ms.LastMember? then
              ViewOf(d) == View(base, c.path, Init(c.acc), entered, closed + [Closing(p, Last(c.acc) + 1)])
            else
              && At(text, d.x, PrintMembers(ms.tail))
              && ViewOf(d) == View(base + [Object], c.path, Bump(c.acc), entered, closed)
    decreases ms, 1
  {
    hide Handle, Run, Dispatch, At, Blank, WellFormed, WellFormedMembers, Locations, Closings, DenotePath, Denote;
    var rest := if ms.LastMember? then "}" else "," + PrintMembers(ms.tail);
    var span, r := RunMemberBody(text, c, ms, rest);
    assert c.stack + [Value] == base + [Object, Value];
    if ms.LastMember? {
      AtChar(text, r.x, "}");
      CloseObject(text, r, base, c.path, span);
    } else {
      AtSplit(text, r.x, ",", PrintMembers(ms.tail));
      AtChar(text, r.x, ",");
      NextMember(text, r, base, c.path, span);
    }
    DispatchIsRun(text, r);
    RunSplit(text, c, (|ms.pre| + (1 + |ms.key| + 1) + |ms.mid| + 1) + (|ms.gap| + |Print(ms.v)| + |ms.post|), 1);
    d := Dispatch(text, r).value;
  }

  lemma {:induction false} RunMembers(text: string, c: Ctx, ms: Members, base: seq<Scope>)
    requires WellFormedMembers(ms) && At(text, c.x, PrintMembers(ms))
    requires c.stack == base + [Object] && c.acc != []
    ensures ReadsMembers(text, c, ms, base, Run(text, c, |PrintMembers(ms)|))
    decreases ms, 2
  {
    hide Handle, Run, Dispatch, Blank, WellFormed, Locations, Closings, DenotePath;
    var d := RunMember(text, c, ms, base);
    if ms.MoreMembers? {
      RunMembers(text, d, ms.tail, base);
      RunSplit(text, c, (|ms.pre| + (1 + |ms.key| + 1) + |ms.mid| + 1) + (|ms.gap| + |Print(ms.v)| + |ms.post|) + 1,
               |PrintMembers(ms.tail)|);
      var p := DenotePath(text, c.path);
      var own := p + [Name(ms.key)];
      var at := ValueOffset(ms, c.x);
      Regroup(c.entered, [Location(at, own)], Locations(ms.v, at + |ms.gap|, own));
      Regroup(c.entered, [Location(at, own)] + Locations(ms.v, at + |ms.gap|, own), MemberLocations(ms.tail, d.x, p));
      var last := [Closing(p, Last(c.acc) + MemberCount(ms))];
      Regroup(c.closed, Closings(ms.v, own), MemberClosings(ms.tail, p) + last);
      Regroup(Closings(ms.v, own), MemberClosings(ms.tail, p), last);
    }
  }

  lemma CloseEmptyObject(text: string, c: Ctx, base: seq<Scope>)
    requires c.x < |text| && text[c.x] == '}' && c.stack == base + [Object] && c.acc != []
    ensures Run(text, c, 1).Some?
    ensures ViewOf(Run(text, c, 1).value)
         == View(base, c.path, Init(c.acc), c.entered, c.closed + [Closing(DenotePath(text, c.path), Last(c.acc))])
  {
  }

  lemma RunEmptyObject(text: string, c: Ctx, b: string, base: seq<Scope>)
    requires Blank(b) && At(text, c.x, b + "}")
    requires c.stack == base + [Object] && c.acc != []
    ensures Run(text, c, |b| + 1).Some?
    ensures ViewOf(Run(text, c, |b| + 1).value)
         == View(base, c.path, Init(c.acc), c.entered, c.closed + [Closing(DenotePath(text, c.path), Last(c.acc))])
  {
    hide Handle, Run, Dispatch, Blank, DenotePath;
    AtSplit(text, c.x, b, "}");
    AtChar(text, c.x + |b|, "}");
    RunBlanks(text, c, b);
    CloseEmptyObject(text, c.(x := c.x + |b|), base);
    RunSplit(text, c, |b|, 1);
  }

  // The opening bracket of a container that is itself a value.

  lemma OpenObject(text: string, c: Ctx, rest: string) returns (d: Ctx)
    requires At(text, c.x, "{" + rest) && c.stack != [] && Last(c.stack) == Value && c.acc != []
    ensures Run(text, c, 1) == Some(d) && d.x == c.x + 1 && At(text, d.x, rest)
    ensures ViewOf(d) == View(c.stack + [Object], c.path, Bump(c.acc) + [0], c.entered, c.closed)
  {
    AtSplit(text, c.x, "{", rest);
    AtChar(text, c.x, "{");
    DispatchIsRun(text, c);
    d := Dispatch(text, c).value;
  }

  lemma OpenArray(text: string, c: Ctx, rest: string) returns (d: Ctx)
    requires At(text, c.x, "[" + rest) && c.stack != [] && Last(c.stack) == Value && c.acc != []
    ensures Run(text, c, 1) == Some(d) && d.x == c.x + 1 && At(text, d.x, rest)
    ensures ViewOf(d) == View(c.stack + [Array, Value], c.path + [Span(0, 0)], Bump(c.acc) + [0],
                              c.entered + [Location(c.x + 1, DenotePath(text, c.path) + [Index(0)])], c.closed)
  {
    AtSplit(text, c.x, "[", rest);
    AtChar(text, c.x, "[");
    DispatchIsRun(text, c);
    DenotePush(text, c.path, Span(0, 0));
    d := Dispatch(text, c).value;
  }

  lemma OpenRoot(text: string, c: Ctx, rest: string) returns (d: Ctx)
    requires At(text, c.x, "{" + rest) && c.stack == [Root]
    ensures Run(text, c, 1) == Some(d) && d.x == c.x + 1 && At(text, d.x, rest)
    ensures ViewOf(d) == View([Root, Object], c.path, c.acc + [0], c.entered, c.closed)
  {
    AtSplit(text, c.x, "{", rest);
    AtChar(text, c.x, "{");
    DispatchIsRun(text, c);
    d := Dispatch(text, c).value;
  }

  lemma OpenRootArray(text: string, c: Ctx, rest: string) returns (d: Ctx)
    requires At(text, c.x, "[" + rest) && c.stack == [Root]
    ensures Run(text, c, 1) == Some(d) && d.x == c.x + 1 && At(text, d.x, rest)
    ensures ViewOf(d) == View([Root, Array, Value], c.path + [Span(0, 0)], c.acc + [0],
                              c.entered + [Location(c.x + 1, DenotePath(text, c.path) + [Index(0)])], c.closed)
  {
    AtSplit(text, c.x, "[", rest);
    AtChar(text, c.x, "[");
    DispatchIsRun(text, c);
    DenotePush(text, c.path, Span(0, 0));
    d := Dispatch(text, c).value;
  }

  // The root container, read from the root scope.
  lemma RunRoot(text: string, c: Ctx, t: Tree)
    requires WellFormed(t) && !t.Prim? && !t.Text? && At(text, c.x, Print(t))
    requires ViewOf(c) == View([Root], [], [], [], [])
    ensures Run(text, c, |Print(t)|).Some?
    ensures ViewOf(Run(text, c, |Print(t)|).value) == View([Root], [], [], Locations(t, c.x, []), Closings(t, []))
  {
    hide Handle, Run, Dispatch, At, Blank;
    match t
    case EmptyObj(b) =>
      var d := OpenRoot(text, c, b + "}");
      RunEmptyObject(text, d, b, [Root]);
      RunSplit(text, c, 1, |b| + 1);
    case Arr(es) =>
      var d := OpenRootArray(text, c, PrintElems(es));
      RunElems(text, d, es, 0, [Root], [], []);
      RunSplit(text, c, 1, |PrintElems(es)|);
    case Obj(ms) =>
      var d := OpenRoot(text, c, PrintMembers(ms));
      RunMembers(text, d, ms, [Root]);
      RunSplit(text, c, 1, |PrintMembers(ms)|);
  }

  lemma DocumentParts(doc: Document)
    ensures var text := PrintDocument(doc);
            && |text| == |doc.pre| + |Print(doc.root)| + |doc.post|
            && At(text, 0, doc.pre) && At(text, |doc.pre|, Print(doc.root)) && At(text, |doc.pre| + |Print(doc.root)|, doc.post)
  {
    hide Print;
    AtSplit(PrintDocument(doc), 0, doc.pre + Print(doc.root), doc.post);
    AtSplit(PrintDocument(doc), 0, doc.pre, Print(doc.root));
  }

  // Reading a printed document ends in the root scope with everything popped, having entered and closed the tree's own
  // locations and containers.
  lemma RunDocument(doc: Document)
    requires WellFormedDocument(doc)
    ensures var text := PrintDocument(doc);
            && Run(text, INITIAL, |text|).Some?
            && ViewOf(Run(text, INITIAL, |text|).value)
               == View([Root], [], [], DocumentLocations(doc), DocumentClosings(doc))
  {
    hide Handle, Run, Dispatch, At, Blank, WellFormed, Print, PrintDocument, Locations, Closings, DenotePath;
    var text := PrintDocument(doc);
    DocumentParts(doc);
    RunBlanks(text, INITIAL, doc.pre);
    var c := INITIAL.(x := |doc.pre|);
    RunRoot(text, c, doc.root);
    var r := Run(text, c, |Print(doc.root)|).value;
    RunBlanks(text, r, doc.post);
    RunChain(text, INITIAL, |doc.pre|, |Print(doc.root)|, |doc.post|);
  }
}
