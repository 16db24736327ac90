/**
 * The getting-started CSV generator: a line "source,destination,group" becomes an
 * undirected Edge carrying a single `count` property of 1.
 */
module DataGenerator2 {
  import opened Outcomes
  import opened Elements
  import opened StringSplit

  /** The properties of every generated edge: `count` = 1 and nothing else. */
  const COUNT_PROPERTIES: Properties := map["count" := IntValue(1)]

  /**
   * `_apply(line)`: split on commas, then read fields 2, 0 and 1. The group is
   * read first, so a split with fewer than three fields fails on index 2.
   */
  function Apply(line: string): (r: Result<Element, JavaException>)
    ensures r.Success? ==> r.value.properties == COUNT_PROPERTIES
  {
    var t := Split(line);
    if |t| <= 2 then Failure(ArrayIndexOutOfBounds(2, |t|))
    else
      var edge := Edge(t[2], StringValue(t[0]), StringValue(t[1]), false, map[]);
      var counted := PutProperty(edge, "count", IntValue(1));
      assert counted.properties == COUNT_PROPERTIES;
      Success(counted)
  }

  /** A line maps to an edge exactly when one of its fields from the third on is non-empty. */
  lemma ApplySucceedsIff(line: string)
    ensures Apply(line).Success? <==>
      exists k :: 2 <= k < |SplitAll(line)| && SplitAll(line)[k] != ""
  {
    SplitIsPrefix(line);
  }

  /** A failing line fails with an index error on field 2, and its split has fewer than three fields. */
  lemma ApplyFailure(line: string)
    requires Apply(line).Failure?
    ensures |Split(line)| < 3
    ensures Apply(line).error == ArrayIndexOutOfBounds(2, |Split(line)|)
  {
  }

  /**
   * The edge of a line: group from the third comma-separated field, source from
   * the first, destination from the second, undirected, and `count` = 1 its only property.
   */
  lemma ApplySelectsFields(line: string)
    requires Apply(line).Success?
    ensures |SplitAll(line)| >= 3
    ensures Apply(line).value.Edge?
    ensures Apply(line).value.group == SplitAll(line)[2]
    ensures Apply(line).value.source == StringValue(SplitAll(line)[0])
    ensures Apply(line).value.destination == StringValue(SplitAll(line)[1])
    ensures !Apply(line).value.directed
    ensures Apply(line).value.properties.Keys == {"count"}
    ensures Apply(line).value.properties["count"] == IntValue(1)
  {
  }

  /**
   * Round trip with a comma join: the joined line maps to an edge iff some field
   * from the third on is non-empty, and that edge is built from the first three fields.
   */
  lemma ApplyJoin(fields: seq<string>)
    requires |fields| >= 1
    requires forall k :: 0 <= k < |fields| ==> CommaFree(fields[k])
    ensures Apply(Join(fields)).Success? <==> exists k :: 2 <= k < |fields| && fields[k] != ""
    ensures Apply(Join(fields)).Success? ==>
      Apply(Join(fields)).value
        == Edge(fields[2], StringValue(fields[0]), StringValue(fields[1]), false, COUNT_PROPERTIES)
  {
    SplitAllJoin(fields);
    ApplySucceedsIff(Join(fields));
    if Apply(Join(fields)).Success? {
      ApplySelectsFields(Join(fields));
    }
  }

  /** A line whose first three fields are a, b and a non-empty c gives the undirected edge a-b in group c. */
  lemma ApplyFromFields(line: string, a: string, b: string, c: string)
    requires |SplitAll(line)| >= 3
    requires SplitAll(line)[0] == a && SplitAll(line)[1] == b && SplitAll(line)[2] == c
    requires c != ""
    ensures Apply(line)
      == Success(Edge(c, StringValue(a), StringValue(b), false, COUNT_PROPERTIES))
  {
  }

  /** "a,b,c" with comma-free fields and a non-empty group gives the undirected edge a-b in group c. */
  lemma ApplyRoundTrip(a: string, b: string, c: string)
    requires CommaFree(a) && CommaFree(b) && CommaFree(c) && c != ""
    ensures Apply(a + "," + b + "," + c)
      == Success(Edge(c, StringValue(a), StringValue(b), false, COUNT_PROPERTIES))
  {
    SplitAllThree(a, b, c);
    ApplyFromFields(a + "," + b + "," + c, a, b, c);
  }

  /** Fields after the third are ignored: "a,b,c,rest" gives the same edge as "a,b,c". */
  lemma ApplyIgnoresExtraFields(a: string, b: string, c: string, rest: string)
    requires CommaFree(a) && CommaFree(b) && CommaFree(c) && c != ""
    ensures Apply(a + "," + b + "," + c + "," + rest) == Apply(a + "," + b + "," + c)
  {
    SplitAllFirstThree(a, b, c, rest);
    ApplyFromFields(a + "," + b + "," + c + "," + rest, a, b, c);
    ApplyRoundTrip(a, b, c);
  }

  /** Two fields are too few, and so is a third one that is empty: "a,b" and "a,b," both fail. */
  lemma ApplyTooFewFields(a: string, b: string)
    requires CommaFree(a) && CommaFree(b)
    ensures Apply(a + "," + b).Failure?
    ensures Apply(a + "," + b + ",").Failure?
  {
    assert Apply(a + "," + b).Failure? by {
      SplitAllTwo(a, b);
    }
    assert Apply(a + "," + b + ",").Failure? by {
      SplitAllTwoThenEmpty(a, b);
    }
  }

  /** The documented examples. */
  lemma ApplyExamples()
    ensures Apply("A,B,X") == Success(Edge("X", StringValue("A"), StringValue("B"), false, COUNT_PROPERTIES))
    ensures Apply("A,B,X,Y") == Apply("A,B,X")
    ensures Apply("A,B").Failure? && Apply("A,B,").Failure?
  {
    assert "A,B,X" == "A" + "," + "B" + "," + "X";
    assert "A,B,X,Y" == "A" + "," + "B" + "," + "X" + "," + "Y";
    assert "A,B" == "A" + "," + "B";
    assert "A,B," == "A" + "," + "B" + ",";
    ApplyRoundTrip("A", "B", "X");
    ApplyIgnoresExtraFields("A", "B", "X", "Y");
    ApplyTooFewFields("A", "B");
  }
}
