/** Texts split at a separator, and joined by it again. */
module Text {

  /** The first place of a character, or the length. */
  function Find(s: string, c: char): (k: nat)
    ensures k <= |s| && (k < |s| ==> s[k] == c) && forall i :: 0 <= i < k ==> s[i] != c
  {
    if s == [] || s[0] == c then 0 else 1 + Find(s[1..], c)
  }

  lemma FindIs(a: string, c: char, b: string)
    requires c !in a
    ensures Find(a + [c] + b, c) == |a|
  {
    var s := a + [c] + b;
    assert s[|a|] == c;
    assert forall i :: 0 <= i < |a| ==> s[i] == a[i] && s[i] in a;
  }

  function Split(s: string, c: char): (parts: seq<string>)
    ensures parts != []
    decreases |s|
  {
    var k := Find(s, c);
    if k == |s| then [s] else [s[..k]] + Split(s[k + 1..], c)
  }

  function Join(parts: seq<string>, c: char): string
    requires parts != []
  {
    if |parts| == 1 then parts[0] else parts[0] + [c] + Join(parts[1..], c)
  }

  /** None of the parts holds the separator. */
  ghost predicate Apart(parts: seq<string>, c: char) {
    forall i :: 0 <= i < |parts| ==> c !in parts[i]
  }

  lemma {:induction false} SplitJoins(s: string, c: char)
    ensures Join(Split(s, c), c) == s && Apart(Split(s, c), c)
    decreases |s|
  {
    var k := Find(s, c);
    if k < |s| {
      SplitJoins(s[k + 1..], c);
      assert ([s[..k]] + Split(s[k + 1..], c))[1..] == Split(s[k + 1..], c);
      assert s == s[..k] + [c] + s[k + 1..];
    }
  }

  lemma {:induction false} JoinSplits(parts: seq<string>, c: char)
    requires parts != [] && Apart(parts, c)
    ensures Split(Join(parts, c), c) == parts
    decreases |parts|
  {
    var s := Join(parts, c);
    if |parts| == 1 {
      assert Find(s, c) == |s|;
      assert parts == [s];
    } else {
      var rest := Join(parts[1..], c);
      assert s == parts[0] + [c] + rest;
      FindIs(parts[0], c, rest);
      assert s[|parts[0]| + 1..] == rest && s[..|parts[0]|] == parts[0];
      JoinSplits(parts[1..], c);
      assert parts == [parts[0]] + parts[1..];
    }
  }
}
