/**
  The two string primitives the request handler relies on: searching for a
  character, and JavaScript's `String.prototype.split` with a one-character
  separator (as in `authority.split(":")`).
 */
module Strings {

  /** The index of the first `c` in `s`, or `|s|` when `s` has no `c`. */
  function IndexOf(s: string, c: char): (i: nat)
    ensures i <= |s|
    ensures i < |s| ==> s[i] == c
    ensures forall j :: 0 <= j < i ==> s[j] != c
  {
    if |s| == 0 then 0
    else if s[0] == c then 0
    else 1 + IndexOf(s[1..], c)
  }

  /** `IndexOf` finds the separator right after a separator-free prefix. */
  lemma IndexOfAfterPrefix(prefix: string, c: char, tail: string)
    requires c !in prefix
    ensures IndexOf(prefix + [c] + tail, c) == |prefix|
  {
    var s := prefix + [c] + tail;
    assert s[|prefix|] == c;
    assert forall j :: 0 <= j < |prefix| ==> s[j] == prefix[j];
  }

  /** `IndexOf` stops at the end of a `c`-free prefix that is followed by `c` or by nothing. */
  lemma IndexOfAfterFreePrefix(prefix: string, c: char, tail: string)
    requires c !in prefix
    requires tail == [] || tail[0] == c
    ensures IndexOf(prefix + tail, c) == |prefix|
  {
    var s := prefix + tail;
    assert forall j :: 0 <= j < |prefix| ==> s[j] == prefix[j];
    assert tail != [] ==> s[|prefix|] == c;
  }

  /** `IndexOf` runs to the end of a string that does not hold `c`. */
  lemma IndexOfAbsent(s: string, c: char)
    requires c !in s
    ensures IndexOf(s, c) == |s|
  {
  }

  /**
    JavaScript's `s.split(sep)` for a one-character separator: the maximal
    separator-free pieces of `s`, in order, including empty ones. It never
    returns an empty array, even for the empty string.
   */
  function Split(s: string, sep: char): (parts: seq<string>)
    ensures |parts| >= 1
    ensures forall k :: 0 <= k < |parts| ==> sep !in parts[k]
    decreases |s|
  {
    var i := IndexOf(s, sep);
    if i == |s| then [s]
    else [s[..i]] + Split(s[i + 1..], sep)
  }

  /** JavaScript's `parts.join(sep)`. */
  function Join(parts: seq<string>, sep: char): string
    requires |parts| >= 1
  {
    if |parts| == 1 then parts[0]
    else parts[0] + [sep] + Join(parts[1..], sep)
  }

  /** Joining the pieces with the separator gives back the split string. */
  lemma {:induction false} JoinSplit(s: string, sep: char)
    ensures Join(Split(s, sep), sep) == s
    decreases |s|
  {
    var i := IndexOf(s, sep);
    if i < |s| {
      var rest := Split(s[i + 1..], sep);
      assert Split(s, sep) == [s[..i]] + rest;
      assert ([s[..i]] + rest)[1..] == rest;
      JoinSplit(s[i + 1..], sep);
      assert s == s[..i] + [sep] + s[i + 1..];
    }
  }

  /** Splitting a join of separator-free pieces gives back the pieces. */
  lemma {:induction false} SplitJoin(parts: seq<string>, sep: char)
    requires |parts| >= 1
    requires forall k :: 0 <= k < |parts| ==> sep !in parts[k]
    ensures Split(Join(parts, sep), sep) == parts
    decreases |parts|
  {
    if |parts| == 1 {
      IndexOfAbsent(parts[0], sep);
    } else {
      var tail := Join(parts[1..], sep);
      var s := parts[0] + [sep] + tail;
      IndexOfAfterPrefix(parts[0], sep, tail);
      assert s[..|parts[0]|] == parts[0];
      assert s[|parts[0]| + 1..] == tail;
      SplitJoin(parts[1..], sep);
      assert parts == [parts[0]] + parts[1..];
    }
  }

  /** The first piece is the text before the first separator. */
  lemma SplitFirst(prefix: string, sep: char, tail: string)
    requires sep !in prefix
    ensures Split(prefix + [sep] + tail, sep) == [prefix] + Split(tail, sep)
  {
    var s := prefix + [sep] + tail;
    IndexOfAfterPrefix(prefix, sep, tail);
    assert s[..|prefix|] == prefix;
    assert s[|prefix| + 1..] == tail;
  }

  /** A string without the separator is a single piece. */
  lemma SplitAbsent(s: string, sep: char)
    requires sep !in s
    ensures Split(s, sep) == [s]
  {

  }
}
