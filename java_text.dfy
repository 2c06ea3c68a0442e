/** The few pieces of java.lang.String and java.lang.Boolean that the CSV codec relies on:
    `s.split(",")`, `equalsIgnoreCase`, `Boolean.parseBoolean` and the text a `boolean`
    becomes under string concatenation. */
module JavaText {

  /** Position of the first `c` in `s`, or `|s|` when `s` has none. */
  function IndexOf(s: string, c: char): (i: nat)
    ensures i <= |s|
    ensures i < |s| ==> s[i] == c
    ensures c !in s[..i]
    ensures c !in s ==> i == |s|
  {
    if s == [] then 0
    else if s[0] == c then 0
    else 1 + IndexOf(s[1..], c)
  }

  /** The pieces between the commas of `s`, empty ones included: `n` commas give `n + 1` pieces. */
  function Pieces(s: string): (r: seq<string>)
    ensures |r| >= 1
    decreases |s|
  {
    var i := IndexOf(s, ',');
    if i == |s| then [s] else [s[..i]] + Pieces(s[i + 1..])
  }

  /** The pieces put back together with a comma between neighbours. */
  function Join(p: seq<string>): string
    requires |p| >= 1
  {
    if |p| == 1 then p[0] else p[0] + "," + Join(p[1..])
  }

  /** `p` without the empty strings at its end. */
  function DropTrailingEmpty(p: seq<string>): (r: seq<string>)
    ensures |r| <= |p| && r == p[..|r|]
    ensures |r| > 0 ==> r[|r| - 1] != []
    ensures forall k :: |r| <= k < |p| ==> p[k] == []
  {
    if p == [] || p[|p| - 1] != [] then p else DropTrailingEmpty(p[..|p| - 1])
  }

  /** Java's `s.split(",")`: a string without a comma is returned whole (even when it is
      empty); otherwise it is cut at every comma and the trailing empty pieces are dropped. */
  function Split(s: string): seq<string>
  {
    if IndexOf(s, ',') == |s| then [s] else DropTrailingEmpty(Pieces(s))
  }

  predicate CommaFree(p: seq<string>)
  {
    forall k :: 0 <= k < |p| ==> ',' !in p[k]
  }

  lemma {:induction false} IndexOfAfter(a: string, b: string)
    requires ',' !in a
    ensures IndexOf(a + b, ',') == |a| + IndexOf(b, ',')
  {
    if a != [] {
      assert (a + b)[1..] == a[1..] + b;
      IndexOfAfter(a[1..], b);
    } else {
      assert a + b == b;
    }
  }

  /** No piece contains a comma. */
  lemma {:induction false} PiecesCommaFree(s: string)
    ensures CommaFree(Pieces(s))
    decreases |s|
  {
    var i := IndexOf(s, ',');
    if i < |s| {
      PiecesCommaFree(s[i + 1..]);
    }
  }

  /** Joining a piece in front of two or more pieces puts a comma after it. */
  lemma JoinCons(a: string, p: seq<string>)
    requires |p| >= 1
    ensures Join([a] + p) == a + "," + Join(p)
  {
    assert ([a] + p)[1..] == p;
  }

  /** A string is what lies before position `i`, the character there, and what follows. */
  lemma CutAt(s: string, i: nat)
    requires i < |s|
    ensures s[..i] + [s[i]] + s[i + 1..] == s
  {
  }

  /** Cutting at the commas and joining again gives the string back. */
  lemma {:induction false} JoinPieces(s: string)
    ensures Join(Pieces(s)) == s
    decreases |s|
  {
    var i := IndexOf(s, ',');
    if i < |s| {
      var first, rest := s[..i], s[i + 1..];
      calc {
        Join(Pieces(s));
        Join([first] + Pieces(rest));
        { JoinCons(first, Pieces(rest)); }
        first + "," + Join(Pieces(rest));
        { JoinPieces(rest); }
        first + [s[i]] + rest;
        { CutAt(s, i); }
        s;
      }
    }
  }

  /** A comma-free string followed by a comma is the first piece. */
  lemma PiecesAfter(a: string, rest: string)
    requires ',' !in a
    ensures Pieces(a + "," + rest) == [a] + Pieces(rest)
  {
    var s := a + "," + rest;
    assert s == a + ("," + rest);
    IndexOfAfter(a, "," + rest);
    assert IndexOf("," + rest, ',') == 0;
    assert s[..|a|] == a;
    assert s[|a| + 1..] == rest;
  }

  lemma CommaFreeTail(p: seq<string>)
    requires |p| >= 1 && CommaFree(p)
    ensures CommaFree(p[1..])
  {
    forall k | 0 <= k < |p| - 1 ensures ',' !in p[1..][k] {
      assert p[1..][k] == p[k + 1];
    }
  }

  /** A string without a comma is a single piece. */
  lemma PiecesOne(s: string)
    requires ',' !in s
    ensures IndexOf(s, ',') == |s| && Pieces(s) == [s]
  {
  }

  /** Joining comma-free pieces and cutting at the commas gives the pieces back. */
  lemma {:induction false} PiecesJoin(p: seq<string>)
    requires |p| >= 1 && CommaFree(p)
    ensures Pieces(Join(p)) == p
  {
    if |p| == 1 {
      PiecesOne(p[0]);
    } else {
      var rest := p[1..];
      CommaFreeTail(p);
      calc {
        Pieces(Join(p));
        Pieces(p[0] + "," + Join(rest));
        { PiecesAfter(p[0], Join(rest)); }
        [p[0]] + Pieces(Join(rest));
        { PiecesJoin(rest); }
        [p[0]] + rest;
        p;
      }
    }
  }

  /** On text joined from two or more comma-free pieces, `split(",")` gives the pieces back
      without the empty ones at the end. */
  lemma SplitOfJoin(p: seq<string>)
    requires |p| >= 2 && CommaFree(p)
    ensures Split(Join(p)) == DropTrailingEmpty(p)
  {
    PiecesJoin(p);
    assert |Pieces(Join(p))| >= 2;
  }

  /** `split(",")` undoes `Join` on two or more comma-free pieces whose last one is not empty. */
  lemma SplitJoin(p: seq<string>)
    requires |p| >= 2 && CommaFree(p) && p[|p| - 1] != []
    ensures Split(Join(p)) == p
  {
    SplitOfJoin(p);
  }

  lemma JoinThree(a: string, b: string, c: string)
    ensures Join([a, b, c]) == a + "," + b + "," + c
  {
    var p := [a, b, c];
    assert p[1..] == [b, c] && p[1..][1..] == [c];
    assert Join(p[1..]) == b + "," + c;
    assert Join(p) == a + "," + (b + "," + c);
  }

  lemma JoinFour(a: string, b: string, c: string, d: string)
    ensures Join([a, b, c, d]) == a + "," + b + "," + c + "," + d
  {
    var p := [a, b, c, d];
    assert p[1..] == [b, c, d];
    JoinThree(b, c, d);
  }

  /** Java's `Character.toLowerCase`, restricted to the Latin letters. */
  function LowerAscii(c: char): char
  {
    if 'A' <= c <= 'Z' then (c as int + 32) as char else c
  }

  /** Java's `a.equalsIgnoreCase(b)`: same length, and the characters agree position by
      position once folded to lower case. */
  predicate EqualsIgnoreCase(a: string, b: string)
  {
    |a| == |b| && forall i :: 0 <= i < |a| ==> LowerAscii(a[i]) == LowerAscii(b[i])
  }

  /** Java's `Boolean.parseBoolean(s)` for a non-null `s`. */
  predicate ParseBoolean(s: string)
  {
    EqualsIgnoreCase(s, "true")
  }

  /** The sixteen spellings of "true" in upper and lower case. */
  ghost function TrueSpellings(): set<string>
  {
    set a, b, c, d | a in "tT" && b in "rR" && c in "uU" && d in "eE" :: [a, b, c, d]
  }

  /** `parseBoolean` accepts exactly the case variants of "true"; everything else is false. */
  lemma ParseBooleanSpellings(s: string)
    ensures ParseBoolean(s) <==> s in TrueSpellings()
  {
    if ParseBoolean(s) {
      assert LowerAscii(s[0]) == 't' && LowerAscii(s[1]) == 'r';
      assert LowerAscii(s[2]) == 'u' && LowerAscii(s[3]) == 'e';
      assert s == [s[0], s[1], s[2], s[3]];
    }
    if s in TrueSpellings() {
      var a, b, c, d :| a in "tT" && b in "rR" && c in "uU" && d in "eE" && s == [a, b, c, d];
      assert s[0] == a && s[1] == b && s[2] == c && s[3] == d;
    }
  }

  /** The text Java's string concatenation produces for a `boolean`. */
  function BooleanToString(b: bool): (r: string)
    ensures r != [] && ',' !in r
    ensures ParseBoolean(r) == b
  {
    if b then "true" else "false"
  }
}
