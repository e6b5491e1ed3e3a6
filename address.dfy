/** Address tokenising: `_transformToArray` splits an OSC address on '/' and drops the
    empty pieces, so "/a/b", "a/b" and "a//b/" all name the path ["a", "b"]. */
module Address {

  /** `s.split('/')`: the pieces between the slashes, empty ones included. */
  function Split(s: string): (r: seq<string>)
    ensures |r| > 0
    ensures forall i :: 0 <= i < |r| ==> '/' !in r[i]
  {
    if |s| == 0 then [""]
    else
      var rest := Split(s[1..]);
      if s[0] == '/' then [""] + rest else [[s[0]] + rest[0]] + rest[1..]
  }

  /** The pieces put back together, one '/' between neighbours. */
  function Join(r: seq<string>): string
    requires |r| > 0
  {
    if |r| == 1 then r[0] else r[0] + "/" + Join(r[1..])
  }

  /** `filter(item => item.length > 0)`. */
  function NonEmpty(r: seq<string>): (q: seq<string>)
    ensures forall i :: 0 <= i < |q| ==> q[i] != ""
    ensures forall x :: x in q ==> x in r
    ensures forall x :: x != "" ==> multiset(q)[x] == multiset(r)[x]
  {
    assert r != [] ==> r == [r[0]] + r[1..];
    if r == [] then [] else (if r[0] == "" then [] else [r[0]]) + NonEmpty(r[1..])
  }

  /** `_transformToArray`: the path segments of an address string. */
  function TransformToArray(s: string): (r: seq<string>)
    ensures forall i :: 0 <= i < |r| ==> r[i] != "" && '/' !in r[i]
  {
    var pieces := Split(s);
    assert forall x :: x in pieces ==> '/' !in x;
    NonEmpty(pieces)
  }

  /** A path segment as `_transformToArray` produces them. */
  predicate IsSegment(x: string) {
    x != "" && '/' !in x
  }

  /** Splitting loses nothing: joining the pieces gives the string back. */
  lemma {:induction false} JoinSplit(s: string)
    ensures Join(Split(s)) == s
  {
    if |s| > 0 {
      var rest := Split(s[1..]);
      JoinSplit(s[1..]);
      if s[0] == '/' {
        assert Split(s) == [""] + rest;
        assert s == [s[0]] + s[1..];
      } else if |rest| == 1 {
        assert Split(s) == [[s[0]] + rest[0]];
        assert s == [s[0]] + s[1..];
      } else {
        var r := Split(s);
        assert r == [[s[0]] + rest[0]] + rest[1..];
        assert r[1..] == rest[1..];
        assert Join(rest) == rest[0] + "/" + Join(rest[1..]);
        assert s == [s[0]] + s[1..];
      }
    }
  }

  /** A '/' between two strings separates their pieces. */
  lemma {:induction false} SplitAtSlash(a: string, b: string)
    ensures Split(a + "/" + b) == Split(a) + Split(b)
  {
    if |a| == 0 {
      assert a + "/" + b == "/" + b;
      assert ("/" + b)[1..] == b;
    } else {
      assert (a + "/" + b)[0] == a[0];
      assert (a + "/" + b)[1..] == a[1..] + "/" + b;
      SplitAtSlash(a[1..], b);
    }
  }

  lemma {:induction false} NonEmptyConcat(x: seq<string>, y: seq<string>)
    ensures NonEmpty(x + y) == NonEmpty(x) + NonEmpty(y)
  {
    if x != [] {
      assert (x + y)[0] == x[0];
      assert (x + y)[1..] == x[1..] + y;
      NonEmptyConcat(x[1..], y);
    } else {
      assert x + y == y;
    }
  }

  /** Tokenising distributes over '/': the segments of "a/b" are those of a followed by those of b.
      With TransformToArray("") == [] this is why leading, trailing and doubled slashes vanish. */
  lemma TransformAtSlash(a: string, b: string)
    ensures TransformToArray(a + "/" + b) == TransformToArray(a) + TransformToArray(b)
  {
    SplitAtSlash(a, b);
    NonEmptyConcat(Split(a), Split(b));
  }

  /** A single segment tokenises to itself. */
  lemma {:induction false} TransformSegment(x: string)
    requires IsSegment(x)
    ensures TransformToArray(x) == [x]
  {
    SplitNoSlash(x);
    assert NonEmpty([x]) == [x] + NonEmpty([x][1..]);
  }

  lemma {:induction false} SplitNoSlash(x: string)
    requires '/' !in x
    ensures Split(x) == [x]
  {
    if |x| > 0 {
      assert '/' !in x[1..] by {
        forall i | 0 <= i < |x[1..]| ensures x[1..][i] != '/' {
          assert x[1..][i] == x[i + 1];
        }
      }
      SplitNoSlash(x[1..]);
      assert [x[0]] + x[1..] == x;
    }
  }

  /** Round trip: writing a path as an address (with or without a leading '/')
      and tokenising it gives the path back. */
  lemma {:induction false} TransformJoin(p: seq<string>)
    requires |p| > 0
    requires forall i :: 0 <= i < |p| ==> IsSegment(p[i])
    ensures TransformToArray(Join(p)) == p
    ensures TransformToArray("/" + Join(p)) == p
  {
    if |p| == 1 {
      TransformSegment(p[0]);
    } else {
      TransformJoin(p[1..]);
      TransformSegment(p[0]);
      TransformAtSlash(p[0], Join(p[1..]));
      assert [p[0]] + p[1..] == p;
    }
    assert "/" + Join(p) == "" + "/" + Join(p);
    TransformAtSlash("", Join(p));
  }

  /** The three spellings of the same address normalise identically. */
  lemma NormalisationExamples()
    ensures TransformToArray("/a/b") == ["a", "b"]
    ensures TransformToArray("a/b") == ["a", "b"]
    ensures TransformToArray("a//b/") == ["a", "b"]
  {
    TransformJoin(["a", "b"]);
    assert Join(["a", "b"]) == "a/b";
    assert "a//b/" == "a" + "/" + ("" + "/" + ("b" + "/" + ""));
    TransformAtSlash("b", "");
    TransformAtSlash("", "b/");
    TransformAtSlash("a", "/b/");
    TransformSegment("a");
    TransformSegment("b");
  }
}
