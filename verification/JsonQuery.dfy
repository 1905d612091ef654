/**
 Queries over paths: json_match_path as a relation on denoted paths, and the
 two answers a query asks for.
 */
module JsonQuery {
  import opened JsonAutomaton

  // One query string together with the number strtoul reads from it, as the program converts it.
  datatype Segment = Segment(text: string, number: nat)

  predicate StepMatches(step: PathStep, q: Segment) {
    match step
    case Name(key) => q.text == key
    case Index(i) => q.number == i
  }

  predicate Matches(path: seq<PathStep>, query: seq<Segment>) {
    |path| == |query| && forall i | 0 <= i < |path| :: StepMatches(path[i], query[i])
  }

  // The offset of the first location whose path matches, or -1.
  function FirstLocation(locations: seq<Location>, query: seq<Segment>): int {
    if locations == [] then -1
    else if Matches(locations[0].path, query) then locations[0].offset
    else FirstLocation(locations[1..], query)
  }

  // The child count of the first matching container to close, or -1.
  function FirstCount(closings: seq<Closing>, query: seq<Segment>): int {
    if closings == [] then -1
    else if Matches(closings[0].path, query) then closings[0].count
    else FirstCount(closings[1..], query)
  }

  ghost predicate NoLocationMatches(locations: seq<Location>, query: seq<Segment>) {
    forall i | 0 <= i < |locations| :: !Matches(locations[i].path, query)
  }

  ghost predicate NoClosingMatches(closings: seq<Closing>, query: seq<Segment>) {
    forall i | 0 <= i < |closings| :: !Matches(closings[i].path, query)
  }

  lemma {:induction false} FirstLocationAfter(before: seq<Location>, rest: seq<Location>, query: seq<Segment>)
    requires NoLocationMatches(before, query)
    ensures FirstLocation(before + rest, query) == FirstLocation(rest, query)
  {
    if before == [] {
      assert before + rest == rest;
    } else {
      assert (before + rest)[1..] == before[1..] + rest;
      assert !Matches(before[0].path, query);
      FirstLocationAfter(before[1..], rest, query);
    }
  }

  lemma {:induction false} FirstCountAfter(before: seq<Closing>, rest: seq<Closing>, query: seq<Segment>)
    requires NoClosingMatches(before, query)
    ensures FirstCount(before + rest, query) == FirstCount(rest, query)
  {
    if before == [] {
      assert before + rest == rest;
    } else {
      assert (before + rest)[1..] == before[1..] + rest;
      assert !Matches(before[0].path, query);
      FirstCountAfter(before[1..], rest, query);
    }
  }
}
