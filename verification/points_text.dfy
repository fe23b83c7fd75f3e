/**
  The ordered-points text shared by polygons and polylines: one "x,y" token per
  coordinate pair, joined by ", ". The number-to-text step (Python's "%s") is the
  parameter `fmt`; the decoder below reads such a text back into its pairs.
 */
module PointsText {
  import opened Text

  /** Separator between two vertices. */
  const Sep: string := ", "

  function Min(a: nat, b: nat): nat
  {
    if a <= b then a else b
  }

  /** One vertex, `"%s,%s" % (x, y)`. */
  function Token(fmt: real -> string, x: real, y: real): string
  {
    fmt(x) + "," + fmt(y)
  }

  /** The tokens of `zip(xs, ys)`: the i-th pairs xs[i] with ys[i], and the shorter sequence decides the count. */
  function Tokens(fmt: real -> string, xs: seq<real>, ys: seq<real>): (toks: seq<string>)
    ensures |toks| == Min(|xs|, |ys|)
    ensures forall i :: 0 <= i < |toks| ==> toks[i] == Token(fmt, xs[i], ys[i])
    decreases |xs|
  {
    if |xs| == 0 || |ys| == 0 then []
    else [Token(fmt, xs[0], ys[0])] + Tokens(fmt, xs[1..], ys[1..])
  }

  /** `", ".join(["%s,%s" % (x, y) for x, y in zip(xs, ys)])`. */
  function PointsString(fmt: real -> string, xs: seq<real>, ys: seq<real>): (s: string)
    ensures s == "" <==> Min(|xs|, |ys|) == 0
  {
    var toks := Tokens(fmt, xs, ys);
    assert |toks| > 0 ==> toks[0][|fmt(xs[0])|] == ',';
    Join(Sep, toks)
  }

  /** Numbers written by "%s" carry neither a comma nor a space. */
  ghost predicate PlainNumerals(fmt: real -> string)
  {
    forall r: real :: ',' !in fmt(r) && ' ' !in fmt(r)
  }

  /** Index of the first ", " in `s` at or after `from`, or |s| when there is none. */
  function SepIndex(s: string, from: nat): (k: nat)
    requires from <= |s|
    ensures from <= k <= |s|
    ensures k < |s| ==> k + 1 < |s| && s[k] == ',' && s[k + 1] == ' '
    ensures forall j :: from <= j < k && j + 1 < |s| ==> !(s[j] == ',' && s[j + 1] == ' ')
    decreases |s| - from
  {
    if from + 1 >= |s| then |s|
    else if s[from] == ',' && s[from + 1] == ' ' then from
    else SepIndex(s, from + 1)
  }

  /** Splits a points text at every ", " into its vertex tokens. */
  function SplitTokens(s: string): seq<string>
    decreases |s|
  {
    if |s| == 0 then []
    else
      var k := SepIndex(s, 0);
      if k == |s| then [s] else [s[..k]] + SplitTokens(s[k + 2..])
  }

  /** Splits one "x,y" token at its first comma. */
  function SplitToken(t: string): (string, string)
  {
    var k := IndexOf(t, ',', 0);
    if k == |t| then (t, "") else (t[..k], t[k + 1..])
  }

  /** Reads a points text back as its (x text, y text) pairs. */
  function DecodePoints(s: string): seq<(string, string)>
  {
    var toks := SplitTokens(s);
    seq(|toks|, i requires 0 <= i < |toks| => SplitToken(toks[i]))
  }

  /** A token without spaces has no separator in it, so the first separator after it is the one that follows it. */
  lemma FirstSepAfterToken(p: string, rest: string)
    requires ' ' !in p
    ensures SepIndex(p + Sep + rest, 0) == |p|
  {
    var s := p + Sep + rest;
    assert s[|p|] == ',' && s[|p| + 1] == ' ';
    forall j | 1 <= j <= |p|
      ensures s[j] != ' '
    {
      if j < |p| {
        assert s[j] == p[j];
      }
    }
  }

  lemma NoSepInPlainText(s: string)
    requires ' ' !in s
    ensures SepIndex(s, 0) == |s|
  {
  }

  /** Splitting undoes joining when no token is empty or holds a space. */
  lemma {:induction false} SplitJoin(parts: seq<string>)
    requires forall i :: 0 <= i < |parts| ==> |parts[i]| > 0 && ' ' !in parts[i]
    ensures SplitTokens(Join(Sep, parts)) == parts
    decreases |parts|
  {
    if |parts| == 0 {
    } else if |parts| == 1 {
      NoSepInPlainText(parts[0]);
    } else {
      var p := parts[0];
      var rest := Join(Sep, parts[1..]);
      var s := p + Sep + rest;
      assert Join(Sep, parts) == s;
      FirstSepAfterToken(p, rest);
      assert s[..|p|] == p;
      assert s[|p| + 2..] == rest;
      SplitJoin(parts[1..]);
      assert [p] + parts[1..] == parts;
    }
  }

  /** Splitting a token at its first comma gives back the two numerals. */
  lemma SplitTokenOfToken(fmt: real -> string, x: real, y: real)
    requires PlainNumerals(fmt)
    ensures SplitToken(Token(fmt, x, y)) == (fmt(x), fmt(y))
  {
    var a, b := fmt(x), fmt(y);
    var t := Token(fmt, x, y);
    assert t[|a|] == ',';
    forall j | 0 <= j < |a|
      ensures t[j] != ','
    {
      assert t[j] == a[j];
    }
    assert IndexOf(t, ',', 0) == |a|;
    assert t[..|a|] == a;
    assert t[|a| + 1..] == b;
  }

  /** Decoding a points text gives back, in order, the numerals of the first min(|xs|, |ys|) pairs. */
  lemma PointsRoundTrip(fmt: real -> string, xs: seq<real>, ys: seq<real>)
    requires PlainNumerals(fmt)
    ensures var pairs := DecodePoints(PointsString(fmt, xs, ys));
      && |pairs| == Min(|xs|, |ys|)
      && forall i :: 0 <= i < |pairs| ==> pairs[i] == (fmt(xs[i]), fmt(ys[i]))
  {
    var toks := Tokens(fmt, xs, ys);
    forall i | 0 <= i < |toks|
      ensures |toks[i]| > 0 && ' ' !in toks[i]
    {
      assert toks[i] == fmt(xs[i]) + "," + fmt(ys[i]);
      assert toks[i][|fmt(xs[i])|] == ',';
    }
    SplitJoin(toks);
    forall i | 0 <= i < |toks|
      ensures SplitToken(toks[i]) == (fmt(xs[i]), fmt(ys[i]))
    {
      SplitTokenOfToken(fmt, xs[i], ys[i]);
    }
  }
}
