/**
 * `String.split(",")` as Java defines it (a one-character separator, limit 0):
 * a line without a comma splits into the line itself; otherwise the line is cut
 * at every comma, leading and inner empty fields are kept and trailing empty
 * fields are removed.
 */
module StringSplit {

  predicate CommaFree(s: string) {
    ',' !in s
  }

  /** Position of the first comma in `s`, or |s| when there is none. */
  function IndexOfComma(s: string): (i: nat)
    ensures i <= |s|
    ensures CommaFree(s[..i])
    ensures i < |s| ==> s[i] == ','
  {
    if s == [] || s[0] == ',' then 0
    else
      var j := IndexOfComma(s[1..]);
      assert s[..1 + j] == [s[0]] + s[1..][..j];
      1 + j
  }

  /** The fields written back with a comma between each two; the inverse of SplitAll. */
  function Join(fields: seq<string>): (s: string) {
    if |fields| == 0 then ""
    else if |fields| == 1 then fields[0]
    else fields[0] + "," + Join(fields[1..])
  }

  /** Every field between commas, empty ones included (Java's split before trailing empties go). */
  function SplitAll(s: string): (fields: seq<string>)
    ensures |fields| >= 1
    ensures forall k :: 0 <= k < |fields| ==> CommaFree(fields[k])
    decreases |s|
  {
    var i := IndexOfComma(s);
    if i == |s| then
      assert s[..i] == s;
      [s]
    else
      [s[..i]] + SplitAll(s[i + 1..])
  }

  /** Removes the empty fields at the end, and only those. */
  function DropTrailingEmpty(fields: seq<string>): (r: seq<string>)
    ensures |r| <= |fields| && r == fields[..|r|]
    ensures forall k :: |r| <= k < |fields| ==> fields[k] == ""
    ensures r == [] || r[|r| - 1] != ""
  {
    if fields == [] || fields[|fields| - 1] != "" then fields
    else DropTrailingEmpty(fields[..|fields| - 1])
  }

  /**
   * `s.split(",")`: a line without a comma is its own only field; otherwise the full
   * split with every trailing empty field removed, so the result is empty or ends in
   * a non-empty field.
   */
  function Split(s: string): (t: seq<string>)
    ensures CommaFree(s) ==> t == [s]
    ensures !CommaFree(s) ==> t == [] || t[|t| - 1] != ""
    ensures |t| <= |SplitAll(s)| && t == SplitAll(s)[..|t|]
    ensures forall k :: |t| <= k < |SplitAll(s)| ==> SplitAll(s)[k] == ""
  {
    if CommaFree(s) then
      SplitAllCommaFree(s);
      [s]
    else
      DropTrailingEmpty(SplitAll(s))
  }

  lemma SplitAllCommaFree(s: string)
    requires CommaFree(s)
    ensures SplitAll(s) == [s]
  {
  }

  /** A comma-free first field is cut off at the comma that follows it. */
  lemma SplitAllOfField(f: string, rest: string)
    requires CommaFree(f)
    ensures SplitAll(f + "," + rest) == [f] + SplitAll(rest)
  {
    var s := f + "," + rest;
    var i := IndexOfComma(s);
    assert s[|f|] == ',';
    assert s[..|f|] == f;
    assert s[i + 1..] == rest;
  }

  /** Joining a field in front of a non-empty list of fields puts a comma between them. */
  lemma JoinCons(f: string, fields: seq<string>)
    requires fields != []
    ensures Join([f] + fields) == f + "," + Join(fields)
  {
    assert ([f] + fields)[1..] == fields;
  }

  /** A line is the text before a comma, the comma, and the text after it. */
  lemma CutAtComma(s: string, i: nat)
    requires i < |s| && s[i] == ','
    ensures s[..i] + "," + s[i + 1..] == s
  {
    assert s == s[..i] + [s[i]] + s[i + 1..];
  }

  /** Joining the fields of a line gives the line back. */
  lemma {:induction false} JoinSplitAll(s: string)
    ensures Join(SplitAll(s)) == s
    decreases |s|
  {
    var i := IndexOfComma(s);
    if i < |s| {
      var tail := s[i + 1..];
      JoinSplitAll(tail);
      JoinCons(s[..i], SplitAll(tail));
      CutAtComma(s, i);
    }
  }

  /** Three comma-free fields in front of the rest of a line, cut off one after another. */
  lemma SplitAllNested(a: string, b: string, c: string, rest: string)
    requires CommaFree(a) && CommaFree(b) && CommaFree(c)
    ensures SplitAll(a + "," + (b + "," + (c + "," + rest))) == [a] + ([b] + ([c] + SplitAll(rest)))
  {
    var fromC := c + "," + rest;
    var fromB := b + "," + fromC;
    SplitAllOfField(c, rest);
    SplitAllOfField(b, fromC);
    SplitAllOfField(a, fromB);
  }

  /** The first three comma-free fields of a line are cut off in order. */
  lemma SplitAllFirstThree(a: string, b: string, c: string, rest: string)
    requires CommaFree(a) && CommaFree(b) && CommaFree(c)
    ensures SplitAll(a + "," + b + "," + c + "," + rest) == [a, b, c] + SplitAll(rest)
  {
    assert a + "," + b + "," + c + "," + rest == a + "," + (b + "," + (c + "," + rest));
    SplitAllNested(a, b, c, rest);
    assert [a] + ([b] + ([c] + SplitAll(rest))) == [a, b, c] + SplitAll(rest);
  }

  /** Two comma-free fields in front of a last one, cut off one after another. */
  lemma SplitAllNestedThree(a: string, b: string, c: string)
    requires CommaFree(a) && CommaFree(b) && CommaFree(c)
    ensures SplitAll(a + "," + (b + "," + c)) == [a] + ([b] + [c])
  {
    var fromB := b + "," + c;
    SplitAllCommaFree(c);
    SplitAllOfField(b, c);
    SplitAllOfField(a, fromB);
  }

  /** A line of exactly three comma-free fields splits into them. */
  lemma SplitAllThree(a: string, b: string, c: string)
    requires CommaFree(a) && CommaFree(b) && CommaFree(c)
    ensures SplitAll(a + "," + b + "," + c) == [a, b, c]
  {
    assert a + "," + b + "," + c == a + "," + (b + "," + c);
    SplitAllNestedThree(a, b, c);
  }

  /** Two comma-free fields joined by a comma split into exactly those two. */
  lemma SplitAllTwo(a: string, b: string)
    requires CommaFree(a) && CommaFree(b)
    ensures SplitAll(a + "," + b) == [a, b]
  {
    SplitAllCommaFree(b);
    SplitAllOfField(a, b);
  }

  /** Two comma-free fields followed by a comma split into them and one empty field. */
  lemma SplitAllTwoThenEmpty(a: string, b: string)
    requires CommaFree(a) && CommaFree(b)
    ensures SplitAll(a + "," + b + ",") == [a, b, ""]
  {
    assert a + "," + b + "," == a + "," + (b + "," + "");
    SplitAllNestedThree(a, b, "");
  }

  /** Splitting comma-free fields joined by commas gives the fields back. */
  lemma {:induction false} SplitAllJoin(fields: seq<string>)
    requires |fields| >= 1
    requires forall k :: 0 <= k < |fields| ==> CommaFree(fields[k])
    ensures SplitAll(Join(fields)) == fields
  {
    if |fields| == 1 {
      SplitAllCommaFree(fields[0]);
    } else {
      SplitAllJoin(fields[1..]);
      SplitAllOfField(fields[0], Join(fields[1..]));
    }
  }

  /**
   * Java's split is a prefix of the full split that leaves out only empty fields,
   * so it yields at least three fields exactly when some field from the third on
   * is non-empty.
   */
  lemma SplitIsPrefix(s: string)
    ensures |Split(s)| <= |SplitAll(s)| && Split(s) == SplitAll(s)[..|Split(s)|]
    ensures forall k :: |Split(s)| <= k < |SplitAll(s)| ==> SplitAll(s)[k] == ""
    ensures |Split(s)| >= 3 <==> exists k :: 2 <= k < |SplitAll(s)| && SplitAll(s)[k] != ""
  {
  }
}
