/**
 * The two pieces of Python's `str` behaviour that the provider dispatch relies
 * on: `sep in s` for a one-character separator, and `s.split(sep)` with an
 * explicit separator, which cuts at EVERY occurrence and keeps empty pieces
 * (`"a::b".split(':') == ['a', '', 'b']`, `"".split(':') == ['']`).
 */
module PyStr {

  /** Number of occurrences of `c` in `s`. */
  function Occurrences(s: string, c: char): (n: nat)
    ensures n == 0 <==> c !in s
    ensures n <= |s|
  {
    multiset(s)[c]
  }

  /** `sep.join(parts)`: the pieces with one separator between neighbours. */
  function Join(parts: seq<string>, sep: char): (s: string)
    decreases |parts|
  {
    if |parts| == 0 then ""
    else if |parts| == 1 then parts[0]
    else parts[0] + [sep] + Join(parts[1..], sep)
  }

  /** `s.split(sep)` for a one-character separator. */
  function Split(s: string, sep: char): (parts: seq<string>)
    ensures |parts| == Occurrences(s, sep) + 1
    ensures forall k :: 0 <= k < |parts| ==> sep !in parts[k]
    ensures Join(parts, sep) == s
    decreases |s|
  {
    if |s| == 0 then [""]
    else
      var rest := Split(s[1..], sep);
      if s[0] == sep then
        SplitStepSeparator(s, sep, rest);
        [""] + rest
      else
        SplitStepOther(s, sep, rest);
        [[s[0]] + rest[0]] + rest[1..]
  }

  /** What `s.split(sep)` keeps when `s` starts with the separator: an empty first piece. */
  lemma SplitStepSeparator(s: string, sep: char, rest: seq<string>)
    requires |s| > 0 && s[0] == sep
    requires |rest| == Occurrences(s[1..], sep) + 1
    requires forall k :: 0 <= k < |rest| ==> sep !in rest[k]
    requires Join(rest, sep) == s[1..]
    ensures |[""] + rest| == Occurrences(s, sep) + 1
    ensures forall k :: 0 <= k < |[""] + rest| ==> sep !in ([""] + rest)[k]
    ensures Join([""] + rest, sep) == s
  {
    assert s == [s[0]] + s[1..];
    assert multiset(s) == multiset([s[0]]) + multiset(s[1..]);
    JoinCons("", rest, sep);
  }

  /** What `s.split(sep)` keeps when `s` starts with another character: it joins the first piece. */
  lemma SplitStepOther(s: string, sep: char, rest: seq<string>)
    requires |s| > 0 && s[0] != sep
    requires |rest| == Occurrences(s[1..], sep) + 1
    requires forall k :: 0 <= k < |rest| ==> sep !in rest[k]
    requires Join(rest, sep) == s[1..]
    ensures |[[s[0]] + rest[0]] + rest[1..]| == Occurrences(s, sep) + 1
    ensures forall k :: 0 <= k < |rest| ==> sep !in ([[s[0]] + rest[0]] + rest[1..])[k]
    ensures Join([[s[0]] + rest[0]] + rest[1..], sep) == s
  {
    assert s == [s[0]] + s[1..];
    assert multiset(s) == multiset([s[0]]) + multiset(s[1..]);
    var parts := [[s[0]] + rest[0]] + rest[1..];
    forall k | 0 <= k < |rest| ensures sep !in parts[k] {
      if k > 0 { assert parts[k] == rest[k]; }
    }
    JoinHead(s[0], rest, sep);
  }

  /** Joining a head in front of a non-empty list of pieces. */
  lemma JoinCons(head: string, parts: seq<string>, sep: char)
    requires |parts| > 0
    ensures Join([head] + parts, sep) == head + [sep] + Join(parts, sep)
  {
  }

  /** A character put in front of the first piece ends up in front of the join. */
  lemma JoinHead(c: char, parts: seq<string>, sep: char)
    requires |parts| > 0
    ensures Join([[c] + parts[0]] + parts[1..], sep) == [c] + Join(parts, sep)
  {
  }

  /** True when no piece contains the separator. */
  predicate SeparatorFree(parts: seq<string>, sep: char)
  {
    forall p <- parts :: sep !in p
  }

  /**
   * Splitting undoes joining: pieces that do not contain the separator come
   * back exactly as they were joined.
   */
  lemma {:induction false} SplitJoin(parts: seq<string>, sep: char)
    requires |parts| > 0
    requires SeparatorFree(parts, sep)
    ensures Split(Join(parts, sep), sep) == parts
    decreases |parts|
  {
    if |parts| == 1 {
      SplitSeparatorFree(parts[0], sep);
    } else {
      SplitJoin(parts[1..], sep);
      SplitPrefixed(parts[0], Join(parts[1..], sep), sep);
    }
  }

  /** A string without the separator splits into itself. */
  lemma SplitSeparatorFree(s: string, sep: char)
    requires sep !in s
    ensures Split(s, sep) == [s]
  {
  }

  /** Prefixing a separator-free head and a separator adds the head as first piece. */
  lemma {:induction false} SplitPrefixed(head: string, tail: string, sep: char)
    requires sep !in head
    ensures Split(head + [sep] + tail, sep) == [head] + Split(tail, sep)
    decreases |head|
  {
    var s := head + [sep] + tail;
    if |head| == 0 {
      assert s[1..] == tail;
    } else {
      assert s[1..] == head[1..] + [sep] + tail;
      assert sep !in head[1..] by {
        forall k | 0 <= k < |head[1..]| ensures head[1..][k] != sep {
          assert head[1..][k] == head[k + 1];
        }
      }
      SplitPrefixed(head[1..], tail, sep);
      ConsPieces(head[0], head[1..], Split(tail, sep));
      assert [head[0]] + head[1..] == head;
    }
  }

  /** Putting a character in front of the first of several pieces. */
  lemma ConsPieces(c: char, first: string, others: seq<string>)
    ensures var pieces := [first] + others;
            [[c] + pieces[0]] + pieces[1..] == [[c] + first] + others
  {
  }
}
