/**
  `strings.Split` with a one-character separator, which is how a provider's
  `meta.response` is turned into its list of accepted responses, and its
  inverse `strings.Join`.
*/
module Strings {

  /** Number of occurrences of `c` in `s`. */
  function Count(s: string, c: char): nat
  {
    if s == [] then 0 else (if s[0] == c then 1 else 0) + Count(s[1..], c)
  }

  /** The pieces of `s` between occurrences of `sep`; never empty. */
  function Split(s: string, sep: char): (parts: seq<string>)
    ensures |parts| >= 1
    decreases |s|
  {
    if s == [] then [""]
    else if s[0] == sep then [""] + Split(s[1..], sep)
    else
      var rest := Split(s[1..], sep);
      [[s[0]] + rest[0]] + rest[1..]
  }

  /** The pieces joined with `sep` between neighbours. */
  function Join(parts: seq<string>, sep: char): string
  {
    if parts == [] then ""
    else if |parts| == 1 then parts[0]
    else parts[0] + [sep] + Join(parts[1..], sep)
  }

  /** Prefixing the first piece prefixes the joined string. */
  lemma {:induction false} JoinExtendFirst(x: string, parts: seq<string>, sep: char)
    requires |parts| >= 1
    ensures Join([x + parts[0]] + parts[1..], sep) == x + Join(parts, sep)
  {
    var ps := [x + parts[0]] + parts[1..];
    if |parts| == 1 {
      assert ps == [x + parts[0]];
    } else {
      assert ps[1..] == parts[1..];
      calc {
        Join(ps, sep);
        ps[0] + [sep] + Join(ps[1..], sep);
        (x + parts[0]) + [sep] + Join(parts[1..], sep);
        x + (parts[0] + [sep] + Join(parts[1..], sep));
        x + Join(parts, sep);
      }
    }
  }

  /** Joining the pieces of `s` gives back `s`. */
  lemma {:induction false} JoinSplit(s: string, sep: char)
    ensures Join(Split(s, sep), sep) == s
    decreases |s|
  {
    if s == [] {
    } else if s[0] == sep {
      JoinSplit(s[1..], sep);
      var rest := Split(s[1..], sep);
      assert Split(s, sep) == [""] + rest;
      assert ([""] + rest)[1..] == rest;
      assert Join([""] + rest, sep) == "" + [sep] + Join(rest, sep);
      assert s == [sep] + s[1..];
    } else {
      JoinSplit(s[1..], sep);
      var rest := Split(s[1..], sep);
      JoinExtendFirst([s[0]], rest, sep);
      assert s == [s[0]] + s[1..];
    }
  }

  /** There is one more piece than there are separators. */
  lemma {:induction false} SplitLength(s: string, sep: char)
    ensures |Split(s, sep)| == Count(s, sep) + 1
    decreases |s|
  {
    if s != [] {
      SplitLength(s[1..], sep);
    }
  }

  /** No piece contains the separator. */
  lemma {:induction false} SplitPiecesFree(s: string, sep: char)
    ensures forall i :: 0 <= i < |Split(s, sep)| ==> sep !in Split(s, sep)[i]
    decreases |s|
  {
    if s != [] {
      SplitPiecesFree(s[1..], sep);
    }
  }

  /** A separator-free prefix sticks to the first piece. */
  lemma {:induction false} SplitPrefix(p: string, t: string, sep: char)
    requires sep !in p
    ensures Split(p + t, sep) == [p + Split(t, sep)[0]] + Split(t, sep)[1..]
    decreases |p|
  {
    if p == [] {
      assert p + t == t;
      assert p + Split(t, sep)[0] == Split(t, sep)[0];
      assert Split(t, sep) == [Split(t, sep)[0]] + Split(t, sep)[1..];
    } else {
      var rest := Split(t, sep);
      SplitPrefix(p[1..], t, sep);
      assert (p + t)[1..] == p[1..] + t;
      assert (p + t)[0] == p[0];
      var inner := Split(p[1..] + t, sep);
      assert inner == [p[1..] + rest[0]] + rest[1..];
      assert [p[0]] + (p[1..] + rest[0]) == p + rest[0];
    }
  }

  /** Splitting separator-free pieces after joining them gives back the pieces. */
  lemma {:induction false} SplitJoin(parts: seq<string>, sep: char)
    requires |parts| >= 1
    requires forall i :: 0 <= i < |parts| ==> sep !in parts[i]
    ensures Split(Join(parts, sep), sep) == parts
  {
    if |parts| == 1 {
      SplitPrefix(parts[0], "", sep);
      assert parts[0] + "" == parts[0];
    } else {
      var t := Join(parts[1..], sep);
      SplitJoin(parts[1..], sep);
      SplitPrefix(parts[0], [sep] + t, sep);
      assert parts[0] + [sep] + t == parts[0] + ([sep] + t);
      assert ([sep] + t)[1..] == t;
      assert Split([sep] + t, sep) == [""] + parts[1..];
      assert parts[0] + "" == parts[0];
    }
  }

  /** Splitting the empty string gives one empty piece. */
  lemma {:induction false} SplitEmpty(sep: char)
    ensures Split("", sep) == [""]
  {
  }
}
