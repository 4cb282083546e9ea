/**
 * The scope string of a token response: the scope list joined with single spaces
 * (Java's `String.join(" ", scopes)`), as section 3.3 of RFC 6749 lays out a scope
 * value, and its inverse, splitting on every space.
 */
module ScopeText {

  /** `String.join(" ", xs)`. */
  function Join(xs: seq<string>): (r: string)
    ensures |xs| == 1 ==> r == xs[0]
    ensures |xs| == 0 ==> r == ""
    ensures |xs| >= 1 ==> xs[0] <= r
  {
    if |xs| == 0 then ""
    else if |xs| == 1 then xs[0]
    else xs[0] + " " + Join(xs[1..])
  }

  /** Splits at every space, keeping empty pieces (so the result is never empty). */
  function Split(s: string): (r: seq<string>)
    ensures |r| >= 1
    ensures ' ' !in s ==> r == [s]
  {
    if |s| == 0 then [""]
    else if s[0] == ' ' then [""] + Split(s[1..])
    else
      var rest := Split(s[1..]);
      assert ' ' !in s ==> ' ' !in s[1..] && s == [s[0]] + s[1..];
      [[s[0]] + rest[0]] + rest[1..]
  }

  /** A scope token in the sense of RFC 6749, section 3.3: it holds no space. */
  predicate SpaceFree(x: string) { ' ' !in x }

  /** A non-empty list of scope tokens. */
  predicate ScopeList(xs: seq<string>)
  {
    |xs| >= 1 && forall i :: 0 <= i < |xs| ==> SpaceFree(xs[i])
  }

  lemma {:induction false} SplitAfterWord(w: string, t: string)
    requires SpaceFree(w)
    ensures Split(w + t) == [w + Split(t)[0]] + Split(t)[1..]
  {
    if |w| > 0 {
      assert (w + t)[1..] == w[1..] + t;
      assert (w + t)[0] == w[0];
      SplitAfterWord(w[1..], t);
      assert [w[0]] + (w[1..] + Split(t)[0]) == w + Split(t)[0];
    } else {
      assert w + t == t;
      assert w + Split(t)[0] == Split(t)[0];
      assert Split(t) == [Split(t)[0]] + Split(t)[1..];
    }
  }

  /** Splitting the joined scope list gives the list back, for any non-empty list of scope tokens. */
  lemma {:induction false} SplitJoin(xs: seq<string>)
    requires |xs| >= 1
    requires forall i :: 0 <= i < |xs| ==> SpaceFree(xs[i])
    ensures Split(Join(xs)) == xs
  {
    if |xs| > 1 {
      var tail := " " + Join(xs[1..]);
      assert Join(xs) == xs[0] + tail;
      SplitAfterWord(xs[0], tail);
      assert tail[0] == ' ' && tail[1..] == Join(xs[1..]);
      SplitJoin(xs[1..]);
      assert Split(tail) == [""] + xs[1..];
      assert xs[0] + "" == xs[0];
    }
  }
}
