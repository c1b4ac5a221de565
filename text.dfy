/** Text composition used by the generator: joining a list with a separator,
    its inverse (cutting at a separator), and decorating every element of a list. */
module Text {

  predicate StartsWith(s: string, prefix: string) {
    |prefix| <= |s| && s[..|prefix|] == prefix
  }

  /** A string starts with its first piece. */
  lemma PrefixOfConcat(prefix: string, rest: string)
    ensures StartsWith(prefix + rest, prefix)
  {
  }

  /** Appending text keeps a prefix. */
  lemma ExtendPrefix(s: string, rest: string, prefix: string)
    requires StartsWith(s, prefix)
    ensures StartsWith(s + rest, prefix)
  {
  }

  /** A prefix of a prefix is a prefix. */
  lemma PrefixOfPrefix(s: string, p: string, q: string)
    requires StartsWith(s, p) && StartsWith(p, q)
    ensures StartsWith(s, q)
  {
    assert s[..|q|] == s[..|p|][..|q|];
  }

  /** A prefix of the first of five pieces is a prefix of their concatenation. */
  lemma ExtendPrefix5(prefix: string, a: string, b: string, c: string, d: string, e: string)
    requires StartsWith(a, prefix)
    ensures StartsWith(a + b + c + d + e, prefix)
  {
  }

  /** `xs.join(sep)`: the elements in order, with `sep` between neighbours. */
  function Join(sep: string, xs: seq<string>): string
    decreases |xs|
  {
    if |xs| == 0 then ""
    else if |xs| == 1 then xs[0]
    else xs[0] + sep + Join(sep, xs[1..])
  }

  /** `s.split(sep)`: the pieces of `s` between left-to-right occurrences of `sep`. */
  function Split(sep: string, s: string): (parts: seq<string>)
    requires |sep| > 0
    ensures |parts| > 0
    decreases |s|
  {
    if |s| == 0 then [""]
    else if StartsWith(s, sep) then [""] + Split(sep, s[|sep|..])
    else
      var rest := Split(sep, s[1..]);
      [[s[0]] + rest[0]] + rest[1..]
  }

  /** Every element of `xs` between `before` and `after`, in order
      (`xs.iter().map(|x| format!("{before}{x}{after}"))`). */
  function Wrap(before: string, xs: seq<string>, after: string): (r: seq<string>)
    ensures |r| == |xs|
    ensures forall i :: 0 <= i < |xs| ==> r[i] == before + xs[i] + after
  {
    seq(|xs|, i requires 0 <= i < |xs| => before + xs[i] + after)
  }

  /** Joining two non-empty lists puts exactly one separator between their joins. */
  lemma {:induction false} JoinAppend(sep: string, xs: seq<string>, ys: seq<string>)
    requires |xs| > 0 && |ys| > 0
    ensures Join(sep, xs + ys) == Join(sep, xs) + sep + Join(sep, ys)
    decreases |xs|
  {
    if |xs| == 1 {
      assert (xs + ys)[1..] == ys;
    } else {
      assert (xs + ys)[1..] == xs[1..] + ys;
      JoinAppend(sep, xs[1..], ys);
    }
  }

  /** Order and membership: element `i` sits in the join between the join of the
      elements before it and the join of the elements after it. */
  lemma JoinAt(sep: string, xs: seq<string>, i: nat)
    requires i < |xs|
    ensures Join(sep, xs) == Join(sep, xs[..i]) + (if i == 0 then "" else sep) + xs[i]
                             + (if i == |xs| - 1 then "" else sep) + Join(sep, xs[i + 1..])
  {
    assert xs[..i] + xs[i..] == xs;
    if i > 0 {
      JoinAppend(sep, xs[..i], xs[i..]);
    }
    if i < |xs| - 1 {
      assert xs[i..] == [xs[i]] + xs[i + 1..];
      JoinAppend(sep, [xs[i]], xs[i + 1..]);
    }
  }

  /** Cutting a piece free of the separator's first character off the front. */
  lemma {:induction false} SplitFront(sep: string, x: string, rest: string)
    requires |sep| > 0 && sep[0] !in x
    ensures Split(sep, x + sep + rest) == [x] + Split(sep, rest)
    decreases |x|
  {
    var s := x + sep + rest;
    if |x| == 0 {
      assert s == sep + rest;
      assert s[..|sep|] == sep;
      assert s[|sep|..] == rest;
    } else {
      assert s[0] == x[0];
      assert !StartsWith(s, sep);
      assert s[1..] == x[1..] + sep + rest;
      SplitFront(sep, x[1..], rest);
      assert [x[0]] + x[1..] == x;
    }
  }

  /** A piece free of the separator's first character is not cut at all. */
  lemma {:induction false} SplitWhole(sep: string, x: string)
    requires |sep| > 0 && sep[0] !in x
    ensures Split(sep, x) == [x]
    decreases |x|
  {
    if |x| > 0 {
      assert !StartsWith(x, sep);
      SplitWhole(sep, x[1..]);
      assert [x[0]] + x[1..] == x;
    }
  }

  /** Round trip: cutting a non-empty join at its separator gives back the list,
      provided no element contains the separator's first character. */
  lemma {:induction false} SplitJoin(sep: string, xs: seq<string>)
    requires |sep| > 0 && |xs| > 0
    requires forall x :: x in xs ==> sep[0] !in x
    ensures Split(sep, Join(sep, xs)) == xs
    decreases |xs|
  {
    if |xs| == 1 {
      SplitWhole(sep, xs[0]);
    } else {
      assert xs[0] in xs;
      SplitFront(sep, xs[0], Join(sep, xs[1..]));
      assert forall x :: x in xs[1..] ==> x in xs;
      SplitJoin(sep, xs[1..]);
      assert [xs[0]] + xs[1..] == xs;
    }
  }
}
