/** Newline-terminated text: how the manifest's lines become one string, and how a
    line-oriented reader splits it again. */
module Lines {

  /** `lines`, each followed by a newline, concatenated in order. */
  function Unlines(lines: seq<string>): string
  {
    if lines == [] then [] else lines[0] + "\n" + Unlines(lines[1..])
  }

  /** Position of the first newline of `s`, or `|s|` when there is none. */
  function NewlineIndex(s: string): (k: nat)
    ensures k <= |s|
    ensures k < |s| ==> s[k] == '\n'
    ensures forall i :: 0 <= i < k ==> s[i] != '\n'
    decreases |s|
  {
    if s == [] then 0 else if s[0] == '\n' then 0 else 1 + NewlineIndex(s[1..])
  }

  /** The lines of a text. A newline ends the line before it; text after the last
      newline, if any, is one more (unterminated) line. */
  function SplitLines(s: string): seq<string>
    decreases |s|
  {
    if s == [] then []
    else
      var k := NewlineIndex(s);
      if k == |s| then [s] else [s[..k]] + SplitLines(s[k + 1..])
  }

  /** No line of `lines` holds a newline of its own. */
  predicate SingleLines(lines: seq<string>)
  {
    forall i :: 0 <= i < |lines| ==> '\n' !in lines[i]
  }

  /** Joining is compatible with concatenation of line lists. */
  lemma {:induction false} UnlinesAppend(a: seq<string>, b: seq<string>)
    ensures Unlines(a + b) == Unlines(a) + Unlines(b)
    decreases |a|
  {
    if a == [] {
      assert a + b == b;
    } else {
      assert (a + b)[1..] == a[1..] + b;
      UnlinesAppend(a[1..], b);
    }
  }

  /** The first newline of a line followed by a newline is the one that ends it. */
  lemma NewlineIndexAfter(l: string, t: string)
    requires '\n' !in l
    ensures NewlineIndex(l + "\n" + t) == |l|
  {
    var s := l + "\n" + t;
    assert s[|l|] == '\n';
    forall i | 0 <= i < |l|
      ensures s[i] != '\n'
    {
      assert s[i] == l[i];
    }
  }

  /** Splitting a newline-terminated line off the front of a text. */
  lemma SplitCons(l: string, t: string)
    requires '\n' !in l
    ensures SplitLines(l + "\n" + t) == [l] + SplitLines(t)
  {
    var s := l + "\n" + t;
    NewlineIndexAfter(l, t);
    assert s[..|l|] == l;
    assert s[|l| + 1..] == t;
  }

  /** Splitting undoes joining, as long as no line holds a newline of its own. */
  lemma {:induction false} SplitUnlines(lines: seq<string>)
    requires SingleLines(lines)
    ensures SplitLines(Unlines(lines)) == lines
    decreases |lines|
  {
    if lines != [] {
      SplitCons(lines[0], Unlines(lines[1..]));
      SplitUnlines(lines[1..]);
    }
  }

  /** A character other than the newline occurs in joined text only if some line holds it. */
  lemma {:induction false} UnlinesChars(lines: seq<string>, c: char)
    requires c != '\n'
    requires forall i :: 0 <= i < |lines| ==> c !in lines[i]
    ensures c !in Unlines(lines)
    decreases |lines|
  {
    if lines != [] {
      UnlinesChars(lines[1..], c);
    }
  }
}
