/**
 What a query means on the document tree: following its segments from the
 root, by key into objects and by number into arrays. In a document whose
 objects have distinct keys the first matching location is where the value
 found that way is printed, and the first matching count is its number of
 children.
 */
module JsonAddressing {
  import opened Options
  import opened JsonAutomaton
  import opened JsonDocument
  import opened JsonQuery
  import opened JsonCorrect

  // ---- Following a query through the tree ----

  function Find(t: Tree, q: seq<Segment>): Option<Tree>
    decreases t, 1
  {
    if q == [] then Some(t)
    else
      match t
      case Arr(es) => FindElem(es, q[0].number, q[1..])
      case Obj(ms) => FindMember(ms, q[0].text, q[1..])
      case _ => None
  }

  // Into the j-th element.
  function FindElem(es: Elems, j: nat, rest: seq<Segment>): Option<Tree>
    decreases es, 0
  {
    if j == 0 then Find(es.v, rest) else if es.LastElem? then None else FindElem(es.tail, j - 1, rest)
  }

  // Into the first member with the key.
  function FindMember(ms: Members, key: string, rest: seq<Segment>): Option<Tree>
    decreases ms, 0
  {
    if ms.key == key then Find(ms.v, rest) else if ms.LastMember? then None else FindMember(ms.tail, key, rest)
  }

  function Values(es: Elems): seq<Tree> {
    [es.v] + if es.LastElem? then [] else Values(es.tail)
  }

  function Keys(ms: Members): seq<string> {
    [ms.key] + if ms.LastMember? then [] else Keys(ms.tail)
  }

  // The number of children of a container, -1 for anything else or nothing.
  function Children(found: Option<Tree>): int {
    match found
    case Some(Arr(es)) => |Values(es)|
    case Some(Obj(ms)) => |Keys(ms)|
    case Some(EmptyObj(_)) => 0
    case _ => -1
  }

  // No object has two members with the same key.
  predicate DistinctKeys(t: Tree) {
    match t
    case Arr(es) => DistinctElems(es)
    case Obj(ms) => DistinctMembers(ms)
    case _ => true
  }

  predicate DistinctElems(es: Elems) {
    DistinctKeys(es.v) && (es.MoreElems? ==> DistinctElems(es.tail))
  }

  predicate DistinctMembers(ms: Members) {
    DistinctKeys(ms.v) && (ms.MoreMembers? ==> ms.key !in Keys(ms.tail) && DistinctMembers(ms.tail))
  }

  // ---- What a location is ----

  // Just behind a ':', '[' or ',', and from there on, after blanks, the value is printed.
  ghost predicate Points(text: string, r: int, v: Tree) {
    && 0 < r <= |text| && text[r - 1] in ":[,"
    && exists blank :: Blank(blank) && At(text, r, blank + Print(v))
  }

  ghost predicate Right(text: string, r: int, found: Option<Tree>) {
    match found
    case None => r == -1
    case Some(v) => Points(text, r, v)
  }

  // ---- Queries and paths ----

  // A segment is taken as a key or as a number, whichever the path has there.
  ghost predicate Takes(step: PathStep, q: Segment) {
    match step
    case Name(k) => k == q.text
    case Index(i) => i == q.number
  }

  // The query begins with the path.
  ghost predicate Begins(q: seq<Segment>, path: seq<PathStep>) {
    |path| <= |q| && forall i | 0 <= i < |path| :: Takes(path[i], q[i])
  }

  lemma MatchesIs(path: seq<PathStep>, q: seq<Segment>)
    ensures Matches(path, q) <==> |path| == |q| && Begins(q, path)
  {
    if |path| == |q| && Begins(q, path) {
      forall i | 0 <= i < |path|
        ensures StepMatches(path[i], q[i])
      {
        assert Takes(path[i], q[i]);
      }
    }
    if Matches(path, q) {
      forall i | 0 <= i < |path|
        ensures Takes(path[i], q[i])
      {
        assert StepMatches(path[i], q[i]);
      }
    }
  }

  lemma BeginsLong(q: seq<Segment>, p: seq<PathStep>)
    requires Begins(q, p)
    ensures |p| <= |q|
  {
  }

  lemma BeginsMore(q: seq<Segment>, p: seq<PathStep>, step: PathStep)
    requires Begins(q, p) && |q| > |p|
    ensures Begins(q, p + [step]) <==> Takes(step, q[|p|])
  {
    assert forall i | 0 <= i < |p| :: (p + [step])[i] == p[i];
    assert (p + [step])[|p|] == step;
  }

  lemma {:induction false} FirstOfTwo(a: seq<Location>, b: seq<Location>, q: seq<Segment>)
    ensures FirstLocation(a + b, q) == if FirstLocation(a, q) != -1 then FirstLocation(a, q) else FirstLocation(b, q)
  {
    if a == [] {
      assert a + b == b;
    } else {
      assert (a + b)[1..] == a[1..] + b && (a + b)[0] == a[0];
      FirstOfTwo(a[1..], b, q);
    }
  }

  lemma FirstOfOne(l: Location, q: seq<Segment>)
    ensures FirstLocation([l], q) == if |l.path| == |q| && Begins(q, l.path) then l.offset else -1
  {
    MatchesIs(l.path, q);
    assert [l][1..] == [];
  }

  // ---- Below a value ----

  ghost predicate AllBelow(locations: seq<Location>, p: seq<PathStep>) {
    forall i | 0 <= i < |locations| :: p < locations[i].path
  }

  lemma BelowTwo(a: seq<Location>, b: seq<Location>, p: seq<PathStep>)
    requires AllBelow(a, p) && AllBelow(b, p)
    ensures AllBelow(a + b, p)
  {
  }

  lemma BelowOwn(a: seq<Location>, p: seq<PathStep>, step: PathStep, x: nat)
    requires AllBelow(a, p + [step])
    ensures AllBelow([Location(x, p + [step])] + a, p)
  {
    assert p < p + [step];
  }

  lemma {:induction false} Below(t: Tree, x: nat, p: seq<PathStep>)
    ensures AllBelow(Locations(t, x, p), p)
    decreases t, 1
  {
    match t
    case Arr(es) => ElemsBelow(es, x + 1, 0, p);
    case Obj(ms) => MembersBelow(ms, x + 1, p);
    case _ =>
  }

  lemma {:induction false} ElemsBelow(es: Elems, x: nat, k: nat, p: seq<PathStep>)
    ensures AllBelow(ElemLocations(es, x, k, p), p)
    decreases es, 0
  {
    hide AllBelow, Locations;
    var inner := Locations(es.v, x + |es.pre|, p + [Index(k)]);
    Below(es.v, x + |es.pre|, p + [Index(k)]);
    BelowOwn(inner, p, Index(k), x);
    NoneBelow(p);
    if es.MoreElems? {
      ElemsBelow(es.tail, x + |es.pre| + |Print(es.v)| + |es.post| + 1, k + 1, p);
    }
    BelowTwo([Location(x, p + [Index(k)])] + inner,
             if es.LastElem? then [] else ElemLocations(es.tail, x + |es.pre| + |Print(es.v)| + |es.post| + 1, k + 1, p), p);
  }

  lemma {:induction false} MembersBelow(ms: Members, x: nat, p: seq<PathStep>)
    ensures AllBelow(MemberLocations(ms, x, p), p)
    decreases ms, 0
  {
    hide AllBelow, Locations;
    var own, at := p + [Name(ms.key)], ValueOffset(ms, x);
    var inner := Locations(ms.v, at + |ms.gap|, own);
    Below(ms.v, at + |ms.gap|, own);
    BelowOwn(inner, p, Name(ms.key), at);
    NoneBelow(p);
    if ms.MoreMembers? {
      MembersBelow(ms.tail, at + |ms.gap| + |Print(ms.v)| + |ms.post| + 1, p);
    }
    BelowTwo([Location(at, own)] + inner,
             if ms.LastMember? then [] else MemberLocations(ms.tail, at + |ms.gap| + |Print(ms.v)| + |ms.post| + 1, p), p);
  }

  lemma NoneBelow(p: seq<PathStep>)
    ensures AllBelow([], p)
  {
  }

  // A query that is not longer than the path, or does not begin with it, matches nothing below.
  lemma {:induction false} NothingBelow(locations: seq<Location>, p: seq<PathStep>, q: seq<Segment>)
    requires AllBelow(locations, p) && (|q| <= |p| || !Begins(q, p))
    ensures FirstLocation(locations, q) == -1
  {
    if locations != [] {
      MatchesIs(locations[0].path, q);
      if Begins(q, locations[0].path) {
        BeginsLess(q, locations[0].path, p);
      }
      NothingBelow(locations[1..], p, q);
    }
  }

  lemma BeginsLess(q: seq<Segment>, path: seq<PathStep>, p: seq<PathStep>)
    requires p <= path && Begins(q, path)
    ensures Begins(q, p)
  {
    assert forall i | 0 <= i < |p| :: path[i] == p[i];
  }

  // ---- Locations are where the values found are printed ----

  // The place of one child, what is below it, and the places of its later siblings.
  lemma OneChild(text: string, p: seq<PathStep>, step: PathStep, x: nat, v: Tree, inner: seq<Location>, rest: seq<Location>,
                 q: seq<Segment>)
    requires Begins(q, p) && |q| > |p| && AllBelow(inner, p + [step])
    requires Points(text, x, v)
    requires Takes(step, q[|p|]) && |q| > |p| + 1 ==> Right(text, FirstLocation(inner, q), Find(v, q[|p| + 1..]))
    ensures var r := FirstLocation([Location(x, p + [step])] + inner + rest, q);
            if Takes(step, q[|p|]) then FirstLocation(rest, q) == -1 ==> Right(text, r, Find(v, q[|p| + 1..]))
            else r == FirstLocation(rest, q)
  {
    hide Points;
    var own := p + [step];
    var here := Location(x, own);
    BeginsMore(q, p, step);
    FirstOfTwo([here] + inner, rest, q);
    FirstOfTwo([here], inner, q);
    FirstOfOne(here, q);
    if !Takes(step, q[|p|]) || |q| == |p| + 1 {
      NothingBelow(inner, own, q);
    }
    if |q| == |p| + 1 {
      assert q[|p| + 1..] == [];
    }
  }

  lemma ValueHere(text: string, x: nat, pre: string, v: Tree, post: string, rest: string)
    requires 0 < x <= |text| && text[x - 1] in ":[," && Blank(pre)
    requires At(text, x, pre + Print(v) + post + rest)
    ensures Points(text, x, v) && At(text, x + |pre|, Print(v)) && At(text, x + |pre| + |Print(v)| + |post|, rest)
  {
    hide At, Blank, Print;
    AtSplit(text, x, pre + Print(v) + post, rest);
    AtSplit(text, x, pre + Print(v), post);
    AtSplit(text, x, pre, Print(v));
  }

  lemma {:induction false} Located(text: string, t: Tree, x: nat, p: seq<PathStep>, q: seq<Segment>)
    requires WellFormed(t) && DistinctKeys(t) && At(text, x, Print(t)) && Begins(q, p) && |q| > |p|
    ensures Right(text, FirstLocation(Locations(t, x, p), q), Find(t, q[|p|..]))
    decreases t, 1
  {
    hide At, Begins;
    assert q[|p|..][0] == q[|p|] && q[|p|..][1..] == q[|p| + 1..];
    match t
    case Arr(es) =>
      AtSplit(text, x, "[", PrintElems(es));
      AtChar(text, x, "[");
      AtInside(text, x + 1, PrintElems(es));
      LocatedElems(text, es, x + 1, 0, p, q);
    case Obj(ms) =>
      AtSplit(text, x, "{", PrintMembers(ms));
      LocatedMembers(text, ms, x + 1, p, q);
    case _ =>
  }

  lemma AtInside(text: string, x: nat, s: string)
    requires At(text, x, s)
    ensures x + |s| <= |text|
  {
  }

  lemma {:induction false} LocatedElems(text: string, es: Elems, x: nat, k: nat, p: seq<PathStep>, q: seq<Segment>)
    requires WellFormedElems(es) && DistinctElems(es) && At(text, x, PrintElems(es)) && 0 < x <= |text| && text[x - 1] in ":[,"
    requires Begins(q, p) && |q| > |p|
    ensures var j := q[|p|].number;
            Right(text, FirstLocation(ElemLocations(es, x, k, p), q), if j < k then None else FindElem(es, j - k, q[|p| + 1..]))
    decreases es, 0
  {
    hide At, Begins, Blank, Points, AllBelow, Locations, Print, PrintElems, FirstLocation, WellFormedElems, DistinctKeys, Right;
    var own, j := p + [Index(k)], q[|p|].number;
    var next := x + |es.pre| + |Print(es.v)| + |es.post| + 1;
    var inner := Locations(es.v, x + |es.pre|, own);
    var rest := if es.LastElem? then [] else ElemLocations(es.tail, next, k + 1, p);
    assert ElemLocations(es, x, k, p) == [Location(x, own)] + inner + rest;
    hide ElemLocations;
    ElemPlaces(text, es, x);
    Below(es.v, x + |es.pre|, own);
    BeginsMore(q, p, Index(k));
    if j == k && |q| > |p| + 1 {
      Located(text, es.v, x + |es.pre|, own, q);
    }
    NoLocations(q);
    NoneRight(text);
    if es.MoreElems? {
      LocatedElems(text, es.tail, next, k + 1, p, q);
    }
    if j <= k {
      RightNone(text, FirstLocation(rest, q));
    }
    OneChild(text, p, Index(k), x, es.v, inner, rest, q);
  }

  lemma ElemPlaces(text: string, es: Elems, x: nat)
    requires WellFormedElems(es) && At(text, x, PrintElems(es)) && 0 < x <= |text| && text[x - 1] in ":[,"
    ensures WellFormed(es.v) && Points(text, x, es.v) && At(text, x + |es.pre|, Print(es.v))
    ensures es.MoreElems? ==>
              var next := x + |es.pre| + |Print(es.v)| + |es.post| + 1;
              && WellFormedElems(es.tail) && At(text, next, PrintElems(es.tail)) && next <= |text| && text[next - 1] in ":[,"
  {
    hide At, Print, Blank, Points;
    var after := if es.LastElem? then "]" else "," + PrintElems(es.tail);
    var next := x + |es.pre| + |Print(es.v)| + |es.post| + 1;
    assert PrintElems(es) == es.pre + Print(es.v) + es.post + after;
    hide PrintElems;
    ValueHere(text, x, es.pre, es.v, es.post, after);
    if es.MoreElems? {
      AtSplit(text, next - 1, ",", PrintElems(es.tail));
      AtChar(text, next - 1, ",");
      AtInside(text, next, PrintElems(es.tail));
    }
  }

  lemma NoneRight(text: string)
    ensures Right(text, -1, None)
  {
  }

  lemma RightNone(text: string, r: int)
    ensures Right(text, r, None) <==> r == -1
  {
  }

  lemma NoLocations(q: seq<Segment>)
    ensures FirstLocation([], q) == -1
  {
  }

  lemma {:induction false} LocatedMembers(text: string, ms: Members, x: nat, p: seq<PathStep>, q: seq<Segment>)
    requires WellFormedMembers(ms) && DistinctMembers(ms) && At(text, x, PrintMembers(ms))
    requires Begins(q, p) && |q| > |p|
    ensures Right(text, FirstLocation(MemberLocations(ms, x, p), q), FindMember(ms, q[|p|].text, q[|p| + 1..]))
    decreases ms, 0
  {
    hide At, Begins, Blank, Points, AllBelow, Locations, Print, PrintMembers, ValueOffset, FirstLocation, WellFormedMembers,
         DistinctKeys, Right;
    var own, at, key := p + [Name(ms.key)], ValueOffset(ms, x), q[|p|].text;
    var next := at + |ms.gap| + |Print(ms.v)| + |ms.post| + 1;
    var inner := Locations(ms.v, at + |ms.gap|, own);
    var rest := if ms.LastMember? then [] else MemberLocations(ms.tail, next, p);
    assert MemberLocations(ms, x, p) == [Location(at, own)] + inner + rest;
    assert FindMember(ms, key, q[|p| + 1..])
        == if ms.key == key then Find(ms.v, q[|p| + 1..])
           else if ms.LastMember? then None else FindMember(ms.tail, key, q[|p| + 1..]);
    hide MemberLocations, FindMember, Find;
    MemberPlaces(text, ms, x);
    GapBlank(ms);
    Below(ms.v, at + |ms.gap|, own);
    BeginsMore(q, p, Name(ms.key));
    if ms.key == key && |q| > |p| + 1 {
      Located(text, ms.v, at + |ms.gap|, own, q);
    }
    NoLocations(q);
    NoneRight(text);
    if ms.MoreMembers? {
      LocatedMembers(text, ms.tail, next, p, q);
      if ms.key == key {
        NoSuchKey(ms.tail, key, q[|p| + 1..]);
      }
    }
    RightNone(text, FirstLocation(rest, q));
    OneChild(text, p, Name(ms.key), at, ms.v, inner, rest, q);
  }

  lemma {:induction false} NoSuchKey(ms: Members, key: string, rest: seq<Segment>)
    requires key !in Keys(ms)
    ensures FindMember(ms, key, rest) == None
  {
    assert Keys(ms)[0] == ms.key;
    if ms.MoreMembers? {
      assert forall k | k in Keys(ms.tail) :: k in Keys(ms);
      NoSuchKey(ms.tail, key, rest);
    }
  }

  lemma MemberPlaces(text: string, ms: Members, x: nat)
    requires WellFormedMembers(ms) && At(text, x, PrintMembers(ms))
    ensures var at := ValueOffset(ms, x);
            && Points(text, at, ms.v) && At(text, at + |ms.gap|, Print(ms.v))
            && (ms.MoreMembers? ==> At(text, at + |ms.gap| + |Print(ms.v)| + |ms.post| + 1, PrintMembers(ms.tail)))
  {
    hide At, Print, PrintMembers, Blank, Points, WellFormedMembers, ValueOffset;
    var at := ValueOffset(ms, x);
    GapBlank(ms);
    ColonDelimits();
    var after := if ms.LastMember? then "}" else "," + PrintMembers(ms.tail);
    MemberParts(text, ms, x, after);
    ValueHere(text, at, ms.gap, ms.v, ms.post, after);
    if ms.MoreMembers? {
      AtSplit(text, at + |ms.gap| + |Print(ms.v)| + |ms.post|, ",", PrintMembers(ms.tail));
    }
  }

  lemma GapBlank(ms: Members)
    requires WellFormedMembers(ms)
    ensures Blank(ms.gap) && WellFormed(ms.v) && (ms.MoreMembers? ==> WellFormedMembers(ms.tail))
  {
  }

  lemma ColonDelimits()
    ensures ':' in ":[,"
  {
    assert ":[,"[0] == ':';
  }

  // Up to the colon of a member, and what is behind it.
  lemma MemberParts(text: string, ms: Members, x: nat, after: string)
    requires At(text, x, PrintMembers(ms)) && after == if ms.LastMember? then "}" else "," + PrintMembers(ms.tail)
    ensures var at := ValueOffset(ms, x);
            && 0 < at <= |text| && text[at - 1] == ':' && At(text, at, ms.gap + Print(ms.v) + ms.post + after)
  {
    hide At, Print;
    var head := ms.pre + ("\"" + ms.key + "\"") + ms.mid;
    var behind := (ms.gap + Print(ms.v) + ms.post) + after;
    assert PrintMembers(ms) == (head + ":") + behind;
    AtSplit(text, x, head + ":", behind);
    AtSplit(text, x, head, ":");
    AtChar(text, x + |head|, ":");
    AtInside(text, x + |head| + 1, behind);
    assert ValueOffset(ms, x) == x + |head| + 1;
  }

  // In a document with distinct keys a location query finds exactly the value that following the query finds: the
  // offset just behind the delimiter before its printed form, or -1 when there is no such value.
  lemma LocationIsValue(doc: Document, q: seq<Segment>)
    requires WellFormedDocument(doc) && DistinctKeys(doc.root) && q != []
    ensures Right(PrintDocument(doc), FirstLocation(DocumentLocations(doc), q), Find(doc.root, q))
  {
    hide WellFormed, Print, DistinctKeys, Locations, Find, Right;
    var text := PrintDocument(doc);
    assert At(text, 0, doc.pre + Print(doc.root) + doc.post);
    AtSplit(text, 0, doc.pre + Print(doc.root), doc.post);
    AtSplit(text, 0, doc.pre, Print(doc.root));
    Located(text, doc.root, |doc.pre|, [], q);
    assert q[0..] == q;
  }

  // ---- Counts are numbers of children ----

  lemma {:induction false} FirstOfTwoCounts(a: seq<Closing>, b: seq<Closing>, q: seq<Segment>)
    ensures FirstCount(a + b, q) == if FirstCount(a, q) != -1 then FirstCount(a, q) else FirstCount(b, q)
  {
    if a == [] {
      assert a + b == b;
    } else {
      assert (a + b)[1..] == a[1..] + b && (a + b)[0] == a[0];
      FirstOfTwoCounts(a[1..], b, q);
    }
  }

  lemma FirstOfOneCount(c: Closing, q: seq<Segment>)
    ensures FirstCount([c], q) == if |c.path| == |q| && Begins(q, c.path) then c.count else -1
  {
    MatchesIs(c.path, q);
    assert [c][1..] == [];
  }

  // All at or below the path.
  ghost predicate AllUnder(closings: seq<Closing>, p: seq<PathStep>) {
    forall i | 0 <= i < |closings| :: p <= closings[i].path
  }

  lemma UnderTwo(a: seq<Closing>, b: seq<Closing>, p: seq<PathStep>)
    requires AllUnder(a, p) && AllUnder(b, p)
    ensures AllUnder(a + b, p)
  {
  }

  lemma UnderLess(a: seq<Closing>, p: seq<PathStep>, step: PathStep)
    requires AllUnder(a, p + [step])
    ensures AllUnder(a, p)
  {
    forall i | 0 <= i < |a|
      ensures p <= a[i].path
    {
      assert p <= p + [step] <= a[i].path;
    }
  }

  lemma UnderOne(p: seq<PathStep>, n: nat)
    ensures AllUnder([Closing(p, n)], p) && AllUnder([], p)
  {
  }

  lemma {:induction false} Under(t: Tree, p: seq<PathStep>)
    ensures AllUnder(Closings(t, p), p)
    decreases t, 1
  {
    hide AllUnder;
    match t
    case Arr(es) =>
      ElemsUnder(es, 0, p);
      UnderOne(p, ElemCount(es));
      UnderTwo(ElemClosings(es, 0, p), [Closing(p, ElemCount(es))], p);
    case Obj(ms) =>
      MembersUnder(ms, p);
      UnderOne(p, MemberCount(ms));
      UnderTwo(MemberClosings(ms, p), [Closing(p, MemberCount(ms))], p);
    case _ => UnderOne(p, 0);
  }

  lemma {:induction false} ElemsUnder(es: Elems, k: nat, p: seq<PathStep>)
    ensures AllUnder(ElemClosings(es, k, p), p)
    decreases es, 0
  {
    hide AllUnder, Closings;
    Under(es.v, p + [Index(k)]);
    UnderLess(Closings(es.v, p + [Index(k)]), p, Index(k));
    UnderOne(p, 0);
    if es.MoreElems? {
      ElemsUnder(es.tail, k + 1, p);
    }
    UnderTwo(Closings(es.v, p + [Index(k)]), if es.LastElem? then [] else ElemClosings(es.tail, k + 1, p), p);
  }

  lemma {:induction false} MembersUnder(ms: Members, p: seq<PathStep>)
    ensures AllUnder(MemberClosings(ms, p), p)
    decreases ms, 0
  {
    hide AllUnder, Closings;
    Under(ms.v, p + [Name(ms.key)]);
    UnderLess(Closings(ms.v, p + [Name(ms.key)]), p, Name(ms.key));
    UnderOne(p, 0);
    if ms.MoreMembers? {
      MembersUnder(ms.tail, p);
    }
    UnderTwo(Closings(ms.v, p + [Name(ms.key)]), if ms.LastMember? then [] else MemberClosings(ms.tail, p), p);
  }

  // A query that does not begin with the path, or is shorter, matches nothing at or below it.
  lemma {:induction false} NothingUnder(closings: seq<Closing>, p: seq<PathStep>, q: seq<Segment>)
    requires AllUnder(closings, p) && !Begins(q, p)
    ensures FirstCount(closings, q) == -1
  {
    if closings != [] {
      MatchesIs(closings[0].path, q);
      if Begins(q, closings[0].path) {
        BeginsLess(q, closings[0].path, p);
      }
      NothingUnder(closings[1..], p, q);
    }
  }

  // The containers of one child and of its later siblings.
  lemma OneChildCount(p: seq<PathStep>, step: PathStep, v: Tree, inner: seq<Closing>, rest: seq<Closing>, q: seq<Segment>)
    requires Begins(q, p) && |q| > |p| && AllUnder(inner, p + [step])
    requires Takes(step, q[|p|]) ==> FirstCount(inner, q) == Children(Find(v, q[|p| + 1..])) && FirstCount(rest, q) == -1
    ensures FirstCount(inner + rest, q) == if Takes(step, q[|p|]) then Children(Find(v, q[|p| + 1..])) else FirstCount(rest, q)
  {
    hide Find, Children;
    BeginsMore(q, p, step);
    FirstOfTwoCounts(inner, rest, q);
    if !Takes(step, q[|p|]) {
      NothingUnder(inner, p + [step], q);
    }
  }

  lemma {:induction false} Counted(t: Tree, p: seq<PathStep>, q: seq<Segment>)
    requires DistinctKeys(t) && Begins(q, p)
    ensures FirstCount(Closings(t, p), q) == Children(Find(t, q[|p|..]))
    decreases t, 1
  {
    hide Begins, FirstCount, ElemClosings, MemberClosings;
    var n := |p|;
    BeginsLong(q, p);
    if |q| == n {
      assert q[n..] == [];
    } else {
      assert q[n..][0] == q[n] && q[n..][1..] == q[n + 1..];
    }
    match t
    case Arr(es) =>
      CountedElems(es, 0, p, q);
      ElemCounts(es);
      OwnCount(ElemClosings(es, 0, p), p, ElemCount(es), q);
    case Obj(ms) =>
      CountedMembers(ms, p, q);
      MemberCounts(ms);
      OwnCount(MemberClosings(ms, p), p, MemberCount(ms), q);
    case EmptyObj(_) => FirstOfOneCount(Closing(p, 0), q);
    case _ => NoClosings(q);
  }

  // A container closes after its children.
  lemma OwnCount(inner: seq<Closing>, p: seq<PathStep>, count: nat, q: seq<Segment>)
    requires Begins(q, p) && (|q| == |p| ==> FirstCount(inner, q) == -1)
    ensures FirstCount(inner + [Closing(p, count)], q) == if |q| == |p| then count else FirstCount(inner, q)
  {
    FirstOfTwoCounts(inner, [Closing(p, count)], q);
    FirstOfOneCount(Closing(p, count), q);
  }

  lemma {:induction false} ElemCounts(es: Elems)
    ensures |Values(es)| == ElemCount(es)
  {
    if es.MoreElems? {
      ElemCounts(es.tail);
    }
  }

  lemma {:induction false} MemberCounts(ms: Members)
    ensures |Keys(ms)| == MemberCount(ms)
  {
    if ms.MoreMembers? {
      MemberCounts(ms.tail);
    }
  }

  // A query that ends here finds none of the children.
  lemma TooShort(p: seq<PathStep>, step: PathStep, q: seq<Segment>)
    requires |q| <= |p|
    ensures !Begins(q, p + [step])
  {
  }

  lemma {:induction false} CountedElems(es: Elems, k: nat, p: seq<PathStep>, q: seq<Segment>)
    requires DistinctElems(es) && Begins(q, p)
    ensures FirstCount(ElemClosings(es, k, p), q)
         == if |q| <= |p| || q[|p|].number < k then -1 else Children(FindElem(es, q[|p|].number - k, q[|p| + 1..]))
    decreases es, 0
  {
    hide Begins, AllUnder, Closings, FirstCount, DistinctKeys, Children;
    var own := p + [Index(k)];
    var inner, rest := Closings(es.v, own), if es.LastElem? then [] else ElemClosings(es.tail, k + 1, p);
    Under(es.v, own);
    NoClosings(q);
    if es.MoreElems? {
      CountedElems(es.tail, k + 1, p, q);
    }
    if |q| <= |p| {
      TooShort(p, Index(k), q);
      NothingUnder(inner, own, q);
      FirstOfTwoCounts(inner, rest, q);
    } else {
      BeginsMore(q, p, Index(k));
      if q[|p|].number == k {
        Counted(es.v, own, q);
      }
      OneChildCount(p, Index(k), es.v, inner, rest, q);
    }
  }

  lemma NoClosings(q: seq<Segment>)
    ensures FirstCount([], q) == -1 && Children(None) == -1
  {
  }

  lemma {:induction false} CountedMembers(ms: Members, p: seq<PathStep>, q: seq<Segment>)
    requires DistinctMembers(ms) && Begins(q, p)
    ensures FirstCount(MemberClosings(ms, p), q)
         == if |q| <= |p| then -1 else Children(FindMember(ms, q[|p|].text, q[|p| + 1..]))
    decreases ms, 0
  {
    hide Begins, AllUnder, Closings, FirstCount, DistinctKeys, Children;
    var own := p + [Name(ms.key)];
    var inner, rest := Closings(ms.v, own), if ms.LastMember? then [] else MemberClosings(ms.tail, p);
    Under(ms.v, own);
    NoClosings(q);
    if ms.MoreMembers? {
      CountedMembers(ms.tail, p, q);
    }
    if |q| <= |p| {
      TooShort(p, Name(ms.key), q);
      NothingUnder(inner, own, q);
      FirstOfTwoCounts(inner, rest, q);
    } else {
      BeginsMore(q, p, Name(ms.key));
      if q[|p|].text == ms.key {
        Counted(ms.v, own, q);
        if ms.MoreMembers? {
          NoSuchKey(ms.tail, ms.key, q[|p| + 1..]);
        }
      }
      OneChildCount(p, Name(ms.key), ms.v, inner, rest, q);
    }
  }

  // In a document with distinct keys a count query answers the number of children of the container that following the
  // query finds, or -1 when it finds none.
  lemma CountIsChildren(doc: Document, q: seq<Segment>)
    requires DistinctKeys(doc.root)
    ensures FirstCount(DocumentClosings(doc), q) == Children(Find(doc.root, q))
  {
    hide DistinctKeys, Closings, Find, Children, FirstCount;
    Counted(doc.root, [], q);
    assert q[0..] == q;
  }
}
