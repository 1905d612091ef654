/**
 json.c itself: the parser context updated in place, one method per handler,
 each proved against its step function, and the two query loops proved
 against the document tree.
 */
module JsonParser {
  import opened Options
  import A = JsonAutomaton
  import opened JsonAutomaton
  import opened JsonQuery
  import opened JsonDocument
  import opened JsonCorrect
  import opened JsonAddressing

  predicate SpansInside(path: seq<Span>, n: nat) {
    forall i | 0 <= i < |path| :: path[i].idx + path[i].sz <= n || path[i].sz == 0
  }

  // What the counting callback has reported: the last matching container, -1 before the first.
  function Reported(closed: seq<Closing>, query: seq<Segment>): int {
    if closed == [] then -1
    else if Matches(Last(closed).path, query) then Last(closed).count
    else Reported(Init(closed), query)
  }

  class Json {
    const text: string
    const counting: bool
    const query: seq<Segment>

    var stack: seq<Scope>
    var path: seq<Span>
    var acc: seq<nat>
    var x: nat
    var locs: nat
    var spanIdx: nat
    var spanSz: nat
    var status: int

    ghost var entered: seq<Location>
    ghost var closed: seq<Closing>

    ghost function Context(): Ctx
      reads this
    {
      Ctx(stack, path, acc, x, spanIdx, spanSz, entered, closed)
    }

    // Every span stays inside the text; a handler may count the character under the read position (slack 1).
    ghost predicate Valid(slack: nat)
      reads this
    {
      && x <= |text| && spanIdx + spanSz <= x + slack && SpansInside(path, |text|)
      && locs == |entered|
      && status == if counting then Reported(closed, query) else -1
    }

    // ok is false exactly where the program would trip an assertion.
    ghost predicate Did(ok: bool, expected: Option<Ctx>, slack: nat)
      reads this
    {
      ok == expected.Some? && (ok ==> Valid(slack) && Context() == expected.value)
    }

    constructor (text: string, counting: bool, query: seq<Segment>)
      ensures this.text == text && this.counting == counting && this.query == query
      ensures Context() == INITIAL && Valid(0)
    {
      this.text, this.counting, this.query := text, counting, query;
      stack, path, acc, x, locs, spanIdx, spanSz, status := [Root], [], [], 0, 0, 0, 0, -1;
      entered, closed := [], [];
    }

    method EnterLocation(span: Span)
      requires Valid(0) && x < |text| && (span.sz > 0 ==> span.idx + span.sz <= |text|)
      modifies this`path, this`locs, this`entered
      ensures Valid(0) && path == old(path) + [span]
      ensures entered == old(entered) + [Location(x + 1, DenotePath(text, path))]
    {
      hide DenotePath, Reported;
      path := path + [span];
      locs := locs + 1;
      entered := entered + [Location(x + 1, DenotePath(text, path))];
    }

    // The callback made when a container closes.
    method ReportClosing()
      requires Valid(0) && acc != []
      modifies this`status, this`closed
      ensures Valid(0) && closed == old(closed) + [Closing(DenotePath(text, path), Last(acc))]
    {
      hide DenotePath, Matches, SpansInside;
      var matched := MatchPath();
      if counting && matched {
        status := Last(acc);
      }
      closed := closed + [Closing(DenotePath(text, path), Last(acc))];
      assert Init(closed) == old(closed);
    }

    method Enter(scope: Scope) returns (ok: bool)
      requires Valid(0) && x < |text|
      modifies this
      ensures Did(ok, A.Enter(text, old(Context()), scope), 0)
      ensures x == old(x)
    {
      match scope {
        case Key | Str | Primitive =>
          spanIdx, spanSz := x, 0;
        case Object | Array =>
          acc := acc + [0];
        case Value =>
          if stack == [] { return false; }
          if Last(stack) == Object {
            EnterLocation(Span(spanIdx + 1, spanSz));
          } else if Last(stack) == Array && acc != [] {
            EnterLocation(Span(Last(acc), 0));
          } else {
            return false;
          }
        case Root =>
          return false;
      }
      stack := stack + [scope];
      ok := true;
    }

    // Compares the path with the query from its last segment to its first.
    method MatchPath() returns (r: bool)
      requires SpansInside(path, |text|)
      ensures r == Matches(DenotePath(text, path), query)
    {
      if |path| != |query| { return false; }
      var i := |path|;
      while i > 0
        invariant 0 <= i <= |path| == |query|
        invariant forall k | i <= k < |path| :: StepMatches(DenotePath(text, path)[k], query[k])
      {
        i := i - 1;
        var span := path[i];
        assert DenotePath(text, path)[i] == Denote(text, span);
        if span.sz > 0 {
          if |query[i].text| != span.sz { return false; }
          if text[span.idx..span.idx + span.sz] != query[i].text { return false; }
        } else {
          if query[i].number != span.idx { return false; }
        }
      }
      r := true;
    }

    method Leave(scope: Scope) returns (ok: bool)
      requires Valid(0)
      modifies this
      ensures Did(ok, A.Leave(text, old(Context()), scope), 0)
      ensures x == old(x)
    {
      hide DenotePath, Reported;
      if stack == [] || Last(stack) != scope { return false; }
      if (scope == Object || scope == Array) && acc == [] { return false; }
      if scope == Value && path == [] { return false; }
      if scope == Object || scope == Array {
        ReportClosing();
      }
      stack := Init(stack);
      match scope {
        case Object | Array =>
          acc := Init(acc);
        case Value =>
          path := Init(path);
        case _ =>
      }
      ok := true;
    }

    method Tick() returns (ok: bool)
      requires Valid(0)
      modifies this
      ensures Did(ok, A.Tick(old(Context())), 0)
      ensures x == old(x)
    {
      if acc == [] { return false; }
      acc := Init(acc) + [Last(acc) + 1];
      ok := true;
    }

    method HandleRoot() returns (ok: bool)
      requires Valid(0) && x < |text|
      modifies this
      ensures Did(ok, RootStep(text, old(Context()), text[old(x)]), 0)
      ensures x == old(x)
    {
      if text[x] !in WHITESPACE + "{[" { return false; }
      ok := true;
      if text[x] == '{' {
        ok := Enter(Object);
      } else if text[x] == '[' {
        ok := Enter(Array);
        if ok { ok := Enter(Value); }
      }
    }

    method HandleObject() returns (ok: bool)
      requires Valid(0) && x < |text|
      modifies this
      ensures Did(ok, ObjectStep(text, old(Context()), text[old(x)]), 0)
      ensures x == old(x)
    {
      if text[x] !in WHITESPACE + "}\":" { return false; }
      ok := true;
      if text[x] == '}' {
        ok := Leave(Object);
      } else if text[x] == '"' {
        ok := Enter(Key);
      } else if text[x] == ':' {
        ok := Enter(Value);
      }
    }

    method HandleKey() returns (ok: bool)
      requires Valid(0) && x < |text|
      modifies this
      ensures Did(ok, KeyStep(text, old(Context()), text[old(x)]), 1)
      ensures x == old(x)
    {
      if !IsAscii(text[x]) { return false; }
      ok := true;
      if text[x] == '"' {
        ok := Leave(Key);
      } else {
        spanSz := spanSz + 1;
      }
    }

    method HandleValue() returns (ok: bool)
      requires Valid(0) && x < |text|
      modifies this
      ensures Did(ok, ValueStep(text, old(Context()), text[old(x)]), 1)
      ensures x == old(x)
      decreases if IsPrimitiveChar(text[x]) then 1 else 0
    {
      hide DenotePath, Reported, SpansInside;
      var ch := text[x];
      ok := true;
      if IsPrimitiveChar(ch) {
        ok := Tick();
        if ok { ok := Enter(Primitive); }
        if ok { ok := HandlePrimitive(); }
      } else if ch == '"' {
        ok := Tick();
        if ok { ok := Enter(Str); }
      } else if ch == '{' {
        ok := Tick();
        if ok { ok := Enter(Object); }
      } else if ch == '[' {
        ok := Tick();
        if ok { ok := Enter(Array); }
        if ok { ok := Enter(Value); }
      } else if ch == ',' {
        ok := Leave(Value);
        if ok && stack == [] { return false; }
        if ok && Last(stack) == Array { ok := Enter(Value); }
      } else if ch == '}' {
        ok := Leave(Value);
        if ok { ok := Leave(Object); }
      } else if ch == ']' {
        ok := Leave(Value);
        if ok { ok := Leave(Array); }
      }
    }

    method HandlePrimitive() returns (ok: bool)
      requires Valid(0) && x < |text|
      modifies this
      ensures Did(ok, PrimitiveStep(text, old(Context()), text[old(x)]), 1)
      ensures x == old(x)
      decreases if IsPrimitiveChar(text[x]) then 0 else 1
    {
      ok := true;
      if IsPrimitiveChar(text[x]) {
        spanSz := spanSz + 1;
      } else {
        ok := Leave(Primitive);
        if ok { ok := HandleValue(); }
      }
    }

    method HandleStr() returns (ok: bool)
      requires Valid(0) && x < |text|
      modifies this
      ensures Did(ok, StrStep(text, old(Context()), text[old(x)]), 1)
      ensures x == old(x)
    {
      ok := true;
      if text[x] == '"' {
        ok := Leave(Str);
      } else if text[x] == '\\' {
        ok := false;
      } else {
        spanSz := spanSz + 1;
      }
    }

    method Step() returns (ok: bool)
      requires Valid(0) && x < |text|
      modifies this
      ensures Did(ok, Dispatch(text, old(Context())), 0)
    {
      hide DenotePath, Reported, SpansInside, RootStep, ObjectStep, KeyStep, ValueStep, StrStep, PrimitiveStep;
      if stack == [] { return false; }
      match Last(stack) {
        case Root => ok := HandleRoot();
        case Object => ok := HandleObject();
        case Key => ok := HandleKey();
        case Value => ok := HandleValue();
        case Str => ok := HandleStr();
        case Primitive => ok := HandlePrimitive();
        case Array => ok := false;
      }
      if ok { x := x + 1; }
    }

    // Advances to just after the next location is entered, or to the end of the text.
    method StepUntilNewLocation() returns (ok: bool)
      requires Valid(0)
      modifies this
      ensures ok ==> Valid(0) && old(x) <= x && Run(text, old(Context()), x - old(x)) == Some(Context())
      ensures ok ==>
                || (x == |text| && entered == old(entered))
                || (old(x) < x && path != [] && entered == old(entered) + [Location(x, DenotePath(text, path))])
      ensures !ok ==> Run(text, old(Context()), |text| - old(x)) == None
    {
      hide Dispatch, Run, DenotePath, Reported, SpansInside;
      ghost var start := Context();
      RunNothing(text, start);
      var prev := locs;
      ok := true;
      while x < |text|
        invariant Valid(0) && locs == prev && entered == old(entered) && start.x <= x
        invariant Run(text, start, x - start.x) == Some(Context())
      {
        ghost var before := Context();
        ok := Step();
        RunExtend(text, start, before.x - start.x);
        if !ok {
          RunFails(text, start, before.x - start.x);
          return;
        }
        DispatchGrows(text, before);
        if locs > prev { return; }
      }
    }
  }

  lemma RunNothing(text: string, c: Ctx)
    requires c.x <= |text|
    ensures Run(text, c, 0) == Some(c)
  {
    hide Dispatch;
  }

  lemma RunExtend(text: string, c: Ctx, n: nat)
    requires c.x + n < |text| && Run(text, c, n).Some?
    ensures Run(text, c, n + 1) == Dispatch(text, Run(text, c, n).value)
  {
    hide Dispatch, Run;
    RunSplit(text, c, n, 1);
    DispatchIsRun(text, Run(text, c, n).value);
  }

  lemma RunFails(text: string, c: Ctx, n: nat)
    requires c.x + n < |text| && Run(text, c, n).Some? && Dispatch(text, Run(text, c, n).value) == None
    ensures Run(text, c, |text| - c.x) == None
  {
    RunSplit(text, c, n, |text| - c.x - n);
  }

  // One character enters at most one location, the one whose path is then current, and leaves at most one container;
  // the path is otherwise only shortened.
  ghost predicate Grew(text: string, c: Ctx, d: Ctx, x: nat) {
    && ((d.entered == c.entered && d.path <= c.path)
        || (d.path != [] && Init(d.path) <= c.path && d.entered == c.entered + [Location(x, DenotePath(text, d.path))]))
    && (d.closed == c.closed || (d.closed != [] && Init(d.closed) == c.closed))
  }

  lemma EnterGrows(text: string, c: Ctx, scope: Scope)
    requires A.Enter(text, c, scope).Some?
    ensures var d := A.Enter(text, c, scope).value;
            && d.closed == c.closed && d.x == c.x
            && ((d.entered == c.entered && d.path == c.path)
                || (d.path != [] && Init(d.path) == c.path
                    && d.entered == c.entered + [Location(c.x + 1, DenotePath(text, d.path))]))
            && (scope != Value ==> d.entered == c.entered)
  {
    hide DenotePath;
  }

  lemma LeaveGrows(text: string, c: Ctx, scope: Scope)
    requires A.Leave(text, c, scope).Some?
    ensures var d := A.Leave(text, c, scope).value;
            && d.entered == c.entered && d.path <= c.path && d.x == c.x
            && (d.closed == c.closed || (d.closed != [] && Init(d.closed) == c.closed && scope != Value))
  {
    hide DenotePath;
  }

  lemma TickGrows(c: Ctx)
    requires A.Tick(c).Some?
    ensures var d := A.Tick(c).value; d.entered == c.entered && d.closed == c.closed && d.path == c.path && d.x == c.x
  {
  }

  lemma PunctuationGrows(text: string, c: Ctx, ch: char)
    requires PunctuationStep(text, c, ch).Some?
    ensures Grew(text, c, PunctuationStep(text, c, ch).value, c.x + 1)
  {
    hide DenotePath, A.Enter, A.Leave, A.Tick, Init;
    if ch == '"' || ch == '{' || ch == '[' {
      var ticked := A.Tick(c).value;
      TickGrows(c);
      if ch == '[' {
        EnterGrows(text, ticked, Array);
        EnterGrows(text, A.Enter(text, ticked, Array).value, Value);
      } else {
        EnterGrows(text, ticked, if ch == '{' then Object else Str);
      }
    } else if ch == ',' || ch == '}' || ch == ']' {
      var left := A.Leave(text, c, Value).value;
      LeaveGrows(text, c, Value);
      if ch != ',' {
        LeaveGrows(text, left, if ch == '}' then Object else Array);
      } else if Last(left.stack) == Array {
        EnterGrows(text, left, Value);
      }
    }
  }

  lemma HandleGrows(text: string, c: Ctx, ch: char)
    requires Handle(text, c, ch).Some?
    ensures Grew(text, c, Handle(text, c, ch).value, c.x + 1)
  {
    hide DenotePath, PunctuationStep, IsPrimitiveChar, IsAscii;
    match Last(c.stack)
    case Value =>
      if !IsPrimitiveChar(ch) {
        PunctuationGrows(text, c, ch);
      }
    case Primitive =>
      if !IsPrimitiveChar(ch) {
        PunctuationGrows(text, A.Leave(text, c, Primitive).value, ch);
      }
    case _ =>
  }

  lemma DispatchGrows(text: string, c: Ctx)
    requires c.x < |text| && Dispatch(text, c).Some?
    ensures Grew(text, c, Dispatch(text, c).value, c.x + 1)
  {
    hide Handle, DenotePath;
    HandleGrows(text, c, text[c.x]);
  }

  lemma {:induction false} RunGrows(text: string, c: Ctx, n: nat)
    requires c.x + n <= |text| && Run(text, c, n).Some?
    ensures c.entered <= Run(text, c, n).value.entered && c.closed <= Run(text, c, n).value.closed
    decreases n
  {
    hide Dispatch;
    if n > 0 {
      DispatchGrows(text, c);
      RunGrows(text, Dispatch(text, c).value, n - 1);
    }
  }

  ghost predicate WasEntered(entered: seq<Location>, path: seq<PathStep>) {
    exists i :: 0 <= i < |entered| && entered[i].path == path
  }

  // The path of every open location is one that was entered.
  ghost predicate PathsEntered(text: string, c: Ctx) {
    forall n | 0 < n <= |c.path| :: WasEntered(c.entered, DenotePath(text, c.path[..n]))
  }

  lemma NothingOpen(text: string)
    ensures PathsEntered(text, INITIAL)
  {
  }

  lemma GrewPaths(text: string, c: Ctx, d: Ctx, x: nat)
    requires Grew(text, c, d, x) && PathsEntered(text, c)
    ensures PathsEntered(text, d)
  {
    hide DenotePath;
    forall n | 0 < n <= |d.path|
      ensures WasEntered(d.entered, DenotePath(text, d.path[..n]))
    {
      if d.entered == c.entered || n < |d.path| {
        assert d.path[..n] == c.path[..n];
        var i :| 0 <= i < |c.entered| && c.entered[i].path == DenotePath(text, c.path[..n]);
        assert d.entered[i] == c.entered[i];
      } else {
        assert d.path[..n] == d.path;
        assert d.entered[|c.entered|].path == DenotePath(text, d.path[..n]);
      }
    }
  }

  lemma {:induction false} RunPaths(text: string, c: Ctx, n: nat)
    requires c.x + n <= |text| && Run(text, c, n).Some? && PathsEntered(text, c)
    ensures PathsEntered(text, Run(text, c, n).value)
    decreases n
  {
    hide Dispatch, PathsEntered, Grew;
    if n > 0 {
      var d := Dispatch(text, c).value;
      DispatchGrows(text, c);
      GrewPaths(text, c, d, c.x + 1);
      RunPaths(text, d, n - 1);
    }
  }

  // What is open matches no query that no location has matched, so that looking once more at the end changes nothing.
  lemma NothingNewAtEnd(text: string, c: Ctx, query: seq<Segment>)
    requires PathsEntered(text, c) && NoLocationMatches(c.entered, query) && query != []
    ensures !Matches(DenotePath(text, c.path), query)
  {
    hide DenotePath, StepMatches;
    if c.path != [] {
      assert c.path[..|c.path|] == c.path;
      assert WasEntered(c.entered, DenotePath(text, c.path));
      var i :| 0 <= i < |c.entered| && c.entered[i].path == DenotePath(text, c.path);
      assert !Matches(c.entered[i].path, query);
    }
  }

  // json_query_location.  ok is false when an assertion trips before an answer is found.
  method QueryLocation(text: string, query: seq<Segment>) returns (ok: bool, r: int)
    ensures var end := Run(text, INITIAL, |text|);
            end.Some? ==>
              && ok
              && (query != [] ==> r == FirstLocation(end.value.entered, query))
              && (query == [] ==> r == if text != [] && end.value.path == [] then |text| else -1)
  {
    hide Dispatch, Run, DenotePath, Reported, StepMatches, PathsEntered;
    assert PathsEntered(text, INITIAL) by { NothingOpen(text); }
    var ctx := new Json(text, false, query);
    RunNothing(text, INITIAL);
    r := -1;
    while ctx.x < |text|
      invariant ctx.text == text && ctx.query == query && ctx.Valid(0)
      invariant Run(text, INITIAL, ctx.x) == Some(ctx.Context())
      invariant NoLocationMatches(ctx.entered, query)
      invariant ctx.x == |text| > 0 ==> query != [] || ctx.path != []
      decreases |text| - ctx.x
    {
      ghost var before := ctx.Context();
      ok := ctx.StepUntilNewLocation();
      if !ok {
        RunSplit(text, INITIAL, before.x, |text| - before.x);
        return;
      }
      RunSplit(text, INITIAL, before.x, ctx.x - before.x);
      var found := ctx.MatchPath();
      if found {
        r := ctx.x;
        RunSplit(text, INITIAL, ctx.x, |text| - ctx.x);
        LocationFound(text, ctx.Context(), before.entered, query);
        if ctx.entered == before.entered && query != [] {
          RunPaths(text, INITIAL, ctx.x);
          NothingNewAtEnd(text, ctx.Context(), query);
        }
        return;
      }
    }
    ok := true;
    FirstLocationAfter(ctx.entered, [], query);
    assert ctx.entered + [] == ctx.entered;
  }

  lemma LocationFound(text: string, c: Ctx, before: seq<Location>, query: seq<Segment>)
    requires c.x <= |text| && Matches(DenotePath(text, c.path), query)
    requires NoLocationMatches(before, query)
    requires c.entered == before + [Location(c.x, DenotePath(text, c.path))] || c.entered == before
    ensures var end := Run(text, c, |text| - c.x);
            end.Some? && c.entered != before ==> FirstLocation(end.value.entered, query) == c.x
  {
    hide Dispatch;
    var end := Run(text, c, |text| - c.x);
    if end.Some? && c.entered != before {
      RunGrows(text, c, |text| - c.x);
      var rest := end.value.entered[|before|..];
      assert end.value.entered == before + rest;
      FirstLocationAfter(before, rest, query);
    }
  }

  // json_query_count.
  method QueryCount(text: string, query: seq<Segment>) returns (ok: bool, r: int)
    ensures var end := Run(text, INITIAL, |text|);
            end.Some? ==> ok && r == FirstCount(end.value.closed, query)
  {
    hide Dispatch, Run, DenotePath, Matches, SpansInside;
    var ctx := new Json(text, true, query);
    r := -1;
    RunNothing(text, INITIAL);
    while ctx.x < |text|
      invariant ctx.text == text && ctx.query == query && ctx.counting && ctx.Valid(0)
      invariant Run(text, INITIAL, ctx.x) == Some(ctx.Context())
      invariant NoClosingMatches(ctx.closed, query) && ctx.status == -1
    {
      ghost var before := ctx.Context();
      ok := ctx.Step();
      RunExtend(text, INITIAL, before.x);
      if !ok {
        RunFails(text, INITIAL, before.x);
        return;
      }
      DispatchGrows(text, before);
      if ctx.status != -1 {
        r := ctx.status;
        RunSplit(text, INITIAL, ctx.x, |text| - ctx.x);
        CountFound(text, ctx.Context(), before.closed, query);
        return;
      }
    }
    ok := true;
    FirstCountAfter(ctx.closed, [], query);
    assert ctx.closed + [] == ctx.closed;
  }

  lemma CountFound(text: string, c: Ctx, before: seq<Closing>, query: seq<Segment>)
    requires c.x <= |text| && NoClosingMatches(before, query)
    requires c.closed != [] && Init(c.closed) == before && Matches(Last(c.closed).path, query)
    ensures var end := Run(text, c, |text| - c.x);
            end.Some? ==> FirstCount(end.value.closed, query) == Last(c.closed).count
  {
    hide Dispatch, Matches;
    var end := Run(text, c, |text| - c.x);
    if end.Some? {
      RunGrows(text, c, |text| - c.x);
      var rest := end.value.closed[|before|..];
      assert c.closed == before + [Last(c.closed)];
      assert end.value.closed == before + rest;
      FirstCountAfter(before, rest, query);
    }
  }

  // The two queries over a printed document, for every document, layout and query.
  method QueryDocument(doc: Document, query: seq<Segment>) returns (location: int, count: int)
    requires WellFormedDocument(doc)
    ensures query != [] ==> location == FirstLocation(DocumentLocations(doc), query)
    ensures query == [] ==> location == |PrintDocument(doc)|
    ensures count == FirstCount(DocumentClosings(doc), query)
    ensures DistinctKeys(doc.root) && query != [] ==> Right(PrintDocument(doc), location, Find(doc.root, query))
    ensures DistinctKeys(doc.root) ==> count == Children(Find(doc.root, query))
  {
    hide Run, Locations, Closings, Print, FirstLocation, FirstCount, DistinctKeys, Right, Find, Children;
    if DistinctKeys(doc.root) {
      CountIsChildren(doc, query);
      if query != [] {
        LocationIsValue(doc, query);
      }
    }
    var text := PrintDocument(doc);
    RunDocument(doc);
    RootPrinted(doc.root);
    var okLocation, okCount;
    okLocation, location := QueryLocation(text, query);
    okCount, count := QueryCount(text, query);
  }

  lemma RootPrinted(t: Tree)
    requires WellFormed(t)
    ensures Print(t) != []
  {
  }
}
