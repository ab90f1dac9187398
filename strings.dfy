/**
 * `Array.prototype.join`, and the inverse that shows a joined list of names can
 * be read back: splitting at each ", " recovers the names, provided no name
 * contains a comma.
 */
module Strings {

  /** `xs.join(sep)` */
  function Join(xs: seq<string>, sep: string): string
  {
    if |xs| == 0 then ""
    else if |xs| == 1 then xs[0]
    else xs[0] + sep + Join(xs[1..], sep)
  }

  /** Splits `s` at every occurrence of ", ". */
  function Split(s: string): (pieces: seq<string>)
    ensures |pieces| > 0
    decreases |s|
  {
    if |s| == 0 then [""]
    else if |s| >= 2 && s[..2] == ", " then [""] + Split(s[2..])
    else
      var rest := Split(s[1..]);
      [[s[0]] + rest[0]] + rest[1..]
  }

  predicate CommaFree(x: string)
  {
    ',' !in x
  }

  /** A comma-free prefix is glued onto the first piece of what follows it. */
  lemma {:induction false} SplitCommaFreePrefix(x: string, t: string)
    requires CommaFree(x)
    ensures Split(x + t) == [x + Split(t)[0]] + Split(t)[1..]
    decreases |x|
  {
    if |x| == 0 {
      var pieces := Split(t);
      assert x + t == t && x + pieces[0] == pieces[0];
      assert [pieces[0]] + pieces[1..] == pieces;
    } else {
      var s := x + t;
      assert s[0] == x[0] && s[0] != ',';
      assert s[1..] == x[1..] + t;
      SplitCommaFreePrefix(x[1..], t);
      assert [s[0]] + (x[1..] + Split(t)[0]) == x + Split(t)[0];
    }
  }

  /** Joining comma-free names with ", " and splitting again gives the names back. */
  lemma {:induction false} SplitJoin(xs: seq<string>)
    requires |xs| > 0
    requires forall i :: 0 <= i < |xs| ==> CommaFree(xs[i])
    ensures Split(Join(xs, ", ")) == xs
    decreases |xs|
  {
    if |xs| == 1 {
      SplitCommaFreePrefix(xs[0], "");
      assert xs[0] + "" == xs[0];
    } else {
      var tail := Join(xs[1..], ", ");
      SplitJoin(xs[1..]);
      var sepTail := ", " + tail;
      assert sepTail[..2] == ", " && sepTail[2..] == tail;
      assert Split(sepTail) == [""] + xs[1..];
      assert Join(xs, ", ") == xs[0] + sepTail;
      SplitCommaFreePrefix(xs[0], sepTail);
      assert xs[0] + "" == xs[0];
      assert [xs[0]] + xs[1..] == xs;
    }
  }
}
