/**
 * Splitting a line into fields the way repeated calls of
 * std::getline(stream, token, delim) on one string stream do.
 *
 * Each call returns the characters up to the next delimiter and discards the
 * delimiter. The call that reaches the end of the line leaves the stream at
 * end-of-file; every later call fails without touching `token`, so reads past
 * the last field see the last field again (an empty field when the line is
 * empty or ends with the delimiter).
 */
module Tokens {

  /** Position of the first `d` in `s`, or |s| when there is none. */
  function IndexOf(s: string, d: char): (i: nat)
    ensures i <= |s|
    ensures i < |s| ==> s[i] == d
    ensures d !in s[..i]
  {
    if s == [] then 0
    else if s[0] == d then 0
    else
      assert s[1..][..IndexOf(s[1..], d)] == s[..1 + IndexOf(s[1..], d)][1..];
      1 + IndexOf(s[1..], d)
  }

  /** The successive fields of `s` between occurrences of `d`; never empty. */
  function Split(s: string, d: char): (parts: seq<string>)
    ensures |parts| >= 1
    ensures forall k :: 0 <= k < |parts| ==> d !in parts[k]
    decreases |s|
  {
    var i := IndexOf(s, d);
    if i == |s| then [s] else [s[..i]] + Split(s[i + 1..], d)
  }

  /** The value of the token after the (k+1)-th getline call on `s` with delimiter `d`. */
  function Field(s: string, d: char, k: nat): (f: string)
    ensures d !in f
  {
    var parts := Split(s, d);
    if k < |parts| then parts[k] else parts[|parts| - 1]
  }

  /** The line a writer produces by putting `d` between the given fields. */
  function Join(parts: seq<string>, d: char): string
    requires |parts| >= 1
  {
    if |parts| == 1 then parts[0] else parts[0] + [d] + Join(parts[1..], d)
  }

  /** Fields free of the delimiter are recovered, in order, from the line they were joined into. */
  lemma {:induction false} SplitJoin(parts: seq<string>, d: char)
    requires |parts| >= 1
    requires forall k :: 0 <= k < |parts| ==> d !in parts[k]
    ensures Split(Join(parts, d), d) == parts
  {
    var s := Join(parts, d);
    if |parts| == 1 {
      IndexOfAbsent(parts[0], d);
    } else {
      var rest := Join(parts[1..], d);
      IndexOfPrefix(parts[0], d, rest);
      assert s[..|parts[0]|] == parts[0];
      assert s[|parts[0]| + 1..] == rest;
      SplitJoin(parts[1..], d);
    }
  }

  /** Every line is the join of its own fields. */
  lemma {:induction false} JoinSplit(s: string, d: char)
    ensures Join(Split(s, d), d) == s
    decreases |s|
  {
    var i := IndexOf(s, d);
    if i < |s| {
      var rest := Split(s[i + 1..], d);
      assert Split(s, d) == [s[..i]] + rest;
      JoinSplit(s[i + 1..], d);
      assert ([s[..i]] + rest)[1..] == rest;
      assert s == s[..i] + [d] + s[i + 1..];
    } else {
      assert Split(s, d) == [s];
    }
  }

  /** The k-th field of a joined line is the k-th part; past the end, the last part. */
  lemma FieldOfJoin(parts: seq<string>, d: char, k: nat)
    requires |parts| >= 1
    requires forall j :: 0 <= j < |parts| ==> d !in parts[j]
    ensures Field(Join(parts, d), d, k) == if k < |parts| then parts[k] else parts[|parts| - 1]
  {
    SplitJoin(parts, d);
  }

  lemma IndexOfAbsent(s: string, d: char)
    requires d !in s
    ensures IndexOf(s, d) == |s|
  {
  }

  lemma {:induction false} IndexOfPrefix(p: string, d: char, rest: string)
    requires d !in p
    ensures IndexOf(p + [d] + rest, d) == |p|
  {
    if p != [] {
      assert (p + [d] + rest)[1..] == p[1..] + [d] + rest;
      assert p[0] in p;
      IndexOfPrefix(p[1..], d, rest);
    }
  }
}
