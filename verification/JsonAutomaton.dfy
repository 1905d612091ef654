/**
 The character-at-a-time automaton of json.c as a function on its context.

 A step that would trip one of the program's assertions (or pop an empty
 vector) yields None.  Two history components, `entered` and `closed`, record
 every location entered and every container left; the program itself only
 counts the former and reports the latter to its callback.
 */
module JsonAutomaton {
  import opened Options

  datatype Scope = Root | Object | Key | Value | Str | Array | Primitive

  // A text span when sz > 0, an array index when sz == 0.
  datatype Span = Span(idx: nat, sz: nat)

  datatype PathStep = Name(key: string) | Index(i: nat)

  datatype Location = Location(offset: nat, path: seq<PathStep>)

  datatype Closing = Closing(path: seq<PathStep>, count: nat)

  datatype Ctx = Ctx(
    stack: seq<Scope>,
    path: seq<Span>,
    acc: seq<nat>,
    x: nat,
    spanIdx: nat,
    spanSz: nat,
    entered: seq<Location>,
    closed: seq<Closing>)

  const WHITESPACE := " \r\n\t"

  const INITIAL := Ctx([Root], [], [], 0, 0, 0, [], [])

  predicate IsBlank(ch: char) {
    ch in WHITESPACE
  }

  predicate IsAlnum(ch: char) {
    '0' <= ch <= '9' || 'A' <= ch <= 'Z' || 'a' <= ch <= 'z'
  }

  predicate IsPrimitiveChar(ch: char) {
    IsAlnum(ch) || ch in "-."
  }

  predicate IsAscii(ch: char) {
    ch as int < 128
  }

  function Last<T>(s: seq<T>): T
    requires s != []
  {
    s[|s| - 1]
  }

  function Init<T>(s: seq<T>): seq<T>
    requires s != []
  {
    s[..|s| - 1]
  }

  // What a span means in the text being read.
  function Denote(text: string, span: Span): PathStep {
    if span.sz > 0 && span.idx + span.sz <= |text| then Name(text[span.idx..span.idx + span.sz]) else Index(span.idx)
  }

  function DenotePath(text: string, path: seq<Span>): (p: seq<PathStep>)
    ensures |p| == |path|
  {
    seq(|path|, i requires 0 <= i < |path| => Denote(text, path[i]))
  }

  function Push(text: string, c: Ctx, span: Span): Ctx {
    var path := c.path + [span];
    c.(stack := c.stack + [Value], path := path, entered := c.entered + [Location(c.x + 1, DenotePath(text, path))])
  }

  function Enter(text: string, c: Ctx, scope: Scope): Option<Ctx> {
    match scope
    case Key | Str | Primitive => Some(c.(stack := c.stack + [scope], spanIdx := c.x, spanSz := 0))
    case Object | Array => Some(c.(stack := c.stack + [scope], acc := c.acc + [0]))
    case Value =>
      if c.stack == [] then None
      else if Last(c.stack) == Object then Some(Push(text, c, Span(c.spanIdx + 1, c.spanSz)))
      else if Last(c.stack) == Array && c.acc != [] then Some(Push(text, c, Span(Last(c.acc), 0)))
      else None
    case Root => None
  }

  function Leave(text: string, c: Ctx, scope: Scope): Option<Ctx> {
    if c.stack == [] || Last(c.stack) != scope then None
    else
      var popped := c.(stack := Init(c.stack));
      match scope
      case Object | Array =>
        if c.acc == [] then None
        else Some(popped.(acc := Init(c.acc), closed := c.closed + [Closing(DenotePath(text, c.path), Last(c.acc))]))
      case Value => if c.path == [] then None else Some(popped.(path := Init(c.path)))
      case _ => Some(popped)
  }

  function Tick(c: Ctx): Option<Ctx> {
    if c.acc == [] then None else Some(c.(acc := Init(c.acc) + [Last(c.acc) + 1]))
  }

  function RootStep(text: string, c: Ctx, ch: char): Option<Ctx> {
    if ch !in WHITESPACE + "{[" then None
    else if ch == '{' then Enter(text, c, Object)
    else if ch == '[' then
      var inner :- Enter(text, c, Array);
      Enter(text, inner, Value)
    else Some(c)
  }

  function ObjectStep(text: string, c: Ctx, ch: char): Option<Ctx> {
    if ch !in WHITESPACE + "}\":" then None
    else if ch == '}' then Leave(text, c, Object)
    else if ch == '"' then Enter(text, c, Key)
    else if ch == ':' then Enter(text, c, Value)
    else Some(c)
  }

  function KeyStep(text: string, c: Ctx, ch: char): Option<Ctx> {
    if !IsAscii(ch) then None
    else if ch == '"' then Leave(text, c, Key)
    else Some(c.(spanSz := c.spanSz + 1))
  }

  // The characters of a value scope that do not belong to a primitive.
  function PunctuationStep(text: string, c: Ctx, ch: char): Option<Ctx> {
    if ch == '"' then
      var ticked :- Tick(c);
      Enter(text, ticked, Str)
    else if ch == '{' then
      var ticked :- Tick(c);
      Enter(text, ticked, Object)
    else if ch == '[' then
      var ticked :- Tick(c);
      var inner :- Enter(text, ticked, Array);
      Enter(text, inner, Value)
    else if ch == ',' then
      var left :- Leave(text, c, Value);
      if left.stack == [] then None
      else if Last(left.stack) == Array then Enter(text, left, Value)
      else Some(left)
    else if ch == '}' then
      var left :- Leave(text, c, Value);
      Leave(text, left, Object)
    else if ch == ']' then
      var left :- Leave(text, c, Value);
      Leave(text, left, Array)
    else Some(c)
  }

  function ValueStep(text: string, c: Ctx, ch: char): Option<Ctx> {
    if IsPrimitiveChar(ch) then
      var ticked :- Tick(c);
      var inner :- Enter(text, ticked, Primitive);
      Some(inner.(spanSz := inner.spanSz + 1))
    else PunctuationStep(text, c, ch)
  }

  // A primitive has no closing character: the first foreign one ends it and is then read by the value scope.
  function PrimitiveStep(text: string, c: Ctx, ch: char): Option<Ctx> {
    if IsPrimitiveChar(ch) then Some(c.(spanSz := c.spanSz + 1))
    else
      var left :- Leave(text, c, Primitive);
      PunctuationStep(text, left, ch)
  }

  function StrStep(text: string, c: Ctx, ch: char): Option<Ctx> {
    if ch == '"' then Leave(text, c, Str)
    else if ch == '\\' then None
    else Some(c.(spanSz := c.spanSz + 1))
  }

  function Handle(text: string, c: Ctx, ch: char): Option<Ctx> {
    if c.stack == [] then None
    else
      match Last(c.stack)
      case Root => RootStep(text, c, ch)
      case Object => ObjectStep(text, c, ch)
      case Key => KeyStep(text, c, ch)
      case Value => ValueStep(text, c, ch)
      case Str => StrStep(text, c, ch)
      case Primitive => PrimitiveStep(text, c, ch)
      case Array => None
  }

  function Dispatch(text: string, c: Ctx): Option<Ctx>
    requires c.x < |text|
  {
    var handled :- Handle(text, c, text[c.x]);
    Some(handled.(x := c.x + 1))
  }

  // n characters read from context c.
  function Run(text: string, c: Ctx, n: nat): Option<Ctx>
    requires c.x + n <= |text|
    ensures Run(text, c, n).Some? ==> Run(text, c, n).value.x == c.x + n
    decreases n
  {
    if n == 0 then Some(c)
    else
      var next :- Dispatch(text, c);
      Run(text, next, n - 1)
  }

  lemma {:induction false} RunSplit(text: string, c: Ctx, m: nat, n: nat)
    requires c.x + m + n <= |text|
    requires Run(text, c, m).Some?
    ensures Run(text, c, m + n) == Run(text, Run(text, c, m).value, n)
    decreases m
  {
    hide Dispatch;
    if m == 0 {
    } else {
      RunSplit(text, Dispatch(text, c).value, m - 1, n);
    }
  }
}
