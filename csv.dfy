/** The comma join that the JQL search applies to a list of field names,
    and the comma split a server applies to read the list back. */
module Csv {

  const Comma: char := ','

  /** Python's `",".join(parts)`. */
  function Join(parts: seq<string>): (r: string)
    ensures r == "" <==> parts == [] || parts == [""]
    ensures |parts| >= 2 ==> Comma in r
  {
    if parts == [] then ""
    else if |parts| == 1 then parts[0]
    else parts[0] + [Comma] + Join(parts[1..])
  }

  /** Index of the first comma of `s`. */
  function FirstComma(s: string): (i: nat)
    requires Comma in s
    ensures i < |s| && s[i] == Comma
    ensures Comma !in s[..i]
  {
    if s[0] == Comma then 0
    else
      assert s == [s[0]] + s[1..];
      var j := FirstComma(s[1..]);
      assert s[..j + 1] == [s[0]] + s[1..][..j];
      j + 1
  }

  /** Python's `s.split(",")`: the pieces between commas, never an empty list. */
  function Split(s: string): (r: seq<string>)
    ensures |r| >= 1
    ensures forall i :: 0 <= i < |r| ==> Comma !in r[i]
    decreases |s|
  {
    if Comma !in s then [s]
    else
      var i := FirstComma(s);
      [s[..i]] + Split(s[i + 1..])
  }

  /** The first comma of `a + [Comma] + b` is the one after `a` when `a` has none. */
  lemma FirstCommaAfter(a: string, b: string)
    requires Comma !in a
    ensures Comma in a + [Comma] + b
    ensures FirstComma(a + [Comma] + b) == |a|
  {
    var s := a + [Comma] + b;
    assert s[|a|] == Comma;
    assert forall k :: 0 <= k < |a| ==> s[k] == a[k];
    assert forall j :: |a| < j <= |s| ==> s[..j][|a|] == Comma;
    var i := FirstComma(s);
    assert i <= |a| ==> s[..i] == a[..i];
  }

  /** Splitting a join gives the parts back, when no part holds a comma. */
  lemma {:induction false} SplitJoin(parts: seq<string>)
    requires parts != []
    requires forall i :: 0 <= i < |parts| ==> Comma !in parts[i]
    ensures Split(Join(parts)) == parts
  {
    if |parts| > 1 {
      var rest := parts[1..];
      var s := parts[0] + [Comma] + Join(rest);
      FirstCommaAfter(parts[0], Join(rest));
      assert s[..|parts[0]|] == parts[0];
      assert s[|parts[0]| + 1..] == Join(rest);
      SplitJoin(rest);
      assert parts == [parts[0]] + rest;
    }
  }

  /** Joining a split gives the string back. */
  lemma {:induction false} JoinSplit(s: string)
    ensures Join(Split(s)) == s
    decreases |s|
  {
    if Comma in s {
      var i := FirstComma(s);
      var rest := Split(s[i + 1..]);
      JoinSplit(s[i + 1..]);
      var parts := [s[..i]] + rest;
      assert parts[1..] == rest;
      assert Join(parts) == s[..i] + [Comma] + s[i + 1..];
      assert s == s[..i] + [Comma] + s[i + 1..];
    }
  }
}
