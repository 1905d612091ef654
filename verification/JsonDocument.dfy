/**
 Document trees, their printed form with arbitrary whitespace, and what the
 two queries should find in them: locations in pre-order, containers in the
 order they close.
 */
module JsonDocument {
  import opened JsonAutomaton

  datatype Tree =
    | Prim(text: string)
    | Text(text: string)
    | Arr(elems: Elems)
    | EmptyObj(blank: string)
    | Obj(members: Members)

  // One or more array elements; `pre` and `post` are the blanks around a value.
  datatype Elems =
    | LastElem(pre: string, v: Tree, post: string)
    | MoreElems(pre: string, v: Tree, post: string, tail: Elems)

  // One or more members, printed as: pre "key" mid : gap value post.
  datatype Members =
    | LastMember(pre: string, key: string, mid: string, gap: string, v: Tree, post: string)
    | MoreMembers(pre: string, key: string, mid: string, gap: string, v: Tree, post: string, tail: Members)

  datatype Document = Document(pre: string, root: Tree, post: string)

  predicate Blank(s: string) {
    forall i | 0 <= i < |s| :: IsBlank(s[i])
  }

  predicate GoodKey(s: string) {
    s != [] && forall i | 0 <= i < |s| :: IsAscii(s[i]) && s[i] != '"'
  }

  predicate WellFormed(t: Tree) {
    match t
    case Prim(s) => s != [] && forall i | 0 <= i < |s| :: IsPrimitiveChar(s[i])
    case Text(s) => forall i | 0 <= i < |s| :: s[i] != '"' && s[i] != '\\'
    case Arr(es) => WellFormedElems(es)
    case EmptyObj(b) => Blank(b)
    case Obj(ms) => WellFormedMembers(ms)
  }

  predicate WellFormedElems(es: Elems) {
    Blank(es.pre) && WellFormed(es.v) && Blank(es.post) && (es.MoreElems? ==> WellFormedElems(es.tail))
  }

  predicate WellFormedMembers(ms: Members) {
    && Blank(ms.pre) && GoodKey(ms.key) && Blank(ms.mid) && Blank(ms.gap) && WellFormed(ms.v) && Blank(ms.post)
    && (ms.MoreMembers? ==> WellFormedMembers(ms.tail))
  }

  predicate WellFormedDocument(d: Document) {
    Blank(d.pre) && !d.root.Prim? && !d.root.Text? && WellFormed(d.root) && Blank(d.post)
  }

  function Print(t: Tree): string {
    match t
    case Prim(s) => s
    case Text(s) => "\"" + s + "\""
    case Arr(es) => "[" + PrintElems(es)
    case EmptyObj(b) => "{" + (b + "}")
    case Obj(ms) => "{" + PrintMembers(ms)
  }

  // Everything after the '[' or ',' that precedes the first of these elements, the final ']' included.
  function PrintElems(es: Elems): string {
    es.pre + Print(es.v) + es.post + (if es.LastElem? then "]" else "," + PrintElems(es.tail))
  }

  function PrintMembers(ms: Members): string {
    (ms.pre + ("\"" + ms.key + "\"") + ms.mid + ":")
    + ((ms.gap + Print(ms.v) + ms.post) + (if ms.LastMember? then "}" else "," + PrintMembers(ms.tail)))
  }

  function PrintDocument(d: Document): string {
    d.pre + Print(d.root) + d.post
  }

  function ElemCount(es: Elems): nat {
    if es.LastElem? then 1 else 1 + ElemCount(es.tail)
  }

  function MemberCount(ms: Members): nat {
    if ms.LastMember? then 1 else 1 + MemberCount(ms.tail)
  }

  // The locations strictly below a value printed at offset x with path p, in pre-order.
  function Locations(t: Tree, x: nat, p: seq<PathStep>): seq<Location> {
    match t
    case Prim(_) => []
    case Text(_) => []
    case EmptyObj(_) => []
    case Arr(es) => ElemLocations(es, x + 1, 0, p)
    case Obj(ms) => MemberLocations(ms, x + 1, p)
  }

  // An element's location is the offset just after the '[' or ',' before it.
  function ElemLocations(es: Elems, x: nat, k: nat, p: seq<PathStep>): seq<Location> {
    var own := p + [Index(k)];
    [Location(x, own)] + Locations(es.v, x + |es.pre|, own)
    + if es.LastElem? then [] else ElemLocations(es.tail, x + |es.pre| + |Print(es.v)| + |es.post| + 1, k + 1, p)
  }

  function ValueOffset(ms: Members, x: nat): nat {
    x + |ms.pre| + |ms.key| + 2 + |ms.mid| + 1
  }

  // A member's location is the offset just after its ':'.
  function MemberLocations(ms: Members, x: nat, p: seq<PathStep>): seq<Location> {
    var own := p + [Name(ms.key)];
    var at := ValueOffset(ms, x);
    [Location(at, own)] + Locations(ms.v, at + |ms.gap|, own)
    + if ms.LastMember? then [] else MemberLocations(ms.tail, at + |ms.gap| + |Print(ms.v)| + |ms.post| + 1, p)
  }

  // The containers of a value with path p in the order they close, each with its number of children.
  function Closings(t: Tree, p: seq<PathStep>): seq<Closing> {
    match t
    case Prim(_) => []
    case Text(_) => []
    case EmptyObj(_) => [Closing(p, 0)]
    case Arr(es) => ElemClosings(es, 0, p) + [Closing(p, ElemCount(es))]
    case Obj(ms) => MemberClosings(ms, p) + [Closing(p, MemberCount(ms))]
  }

  function ElemClosings(es: Elems, k: nat, p: seq<PathStep>): seq<Closing> {
    Closings(es.v, p + [Index(k)]) + if es.LastElem? then [] else ElemClosings(es.tail, k + 1, p)
  }

  function MemberClosings(ms: Members, p: seq<PathStep>): seq<Closing> {
    Closings(ms.v, p + [Name(ms.key)]) + if ms.LastMember? then [] else MemberClosings(ms.tail, p)
  }

  function DocumentLocations(d: Document): seq<Location> {
    Locations(d.root, |d.pre|, [])
  }

  function DocumentClosings(d: Document): seq<Closing> {
    Closings(d.root, [])
  }
}
