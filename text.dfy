/**
 * The parts of System.String that the configuration, version and
 * localization code rely on: white-space classification, Trim, StartsWith,
 * Split on one character, and joining.
 */
module Text {

  /** `Char.IsWhiteSpace`: the Unicode space, line and paragraph separators, U+0009..U+000D and U+0085. */
  predicate IsWhiteSpace(c: char)
  {
    || c == ' ' || ('\t' <= c <= '\r') || c == '\U{0085}' || c == '\U{00A0}'
    || c == '\U{1680}' || ('\U{2000}' <= c <= '\U{200A}') || c == '\U{2028}' || c == '\U{2029}'
    || c == '\U{202F}' || c == '\U{205F}' || c == '\U{3000}'
  }

  predicate IsLetter(c: char)
  {
    'A' <= c <= 'Z' || 'a' <= c <= 'z'
  }

  /** A string of ASCII letters only. */
  predicate AllLetters(s: string)
  {
    forall i :: 0 <= i < |s| ==> IsLetter(s[i])
  }

  /** `string.IsNullOrWhiteSpace` for a non-null string. */
  predicate IsBlank(s: string)
  {
    forall i :: 0 <= i < |s| ==> IsWhiteSpace(s[i])
  }

  predicate IsLineBreak(c: char)
  {
    c == '\r' || c == '\n'
  }

  function TrimStart(s: string): (r: string)
    ensures |r| <= |s| && r == s[|s| - |r|..]
    ensures r == [] || !IsWhiteSpace(r[0])
    ensures forall i :: 0 <= i < |s| - |r| ==> IsWhiteSpace(s[i])
  {
    if s != [] && IsWhiteSpace(s[0]) then TrimStart(s[1..]) else s
  }

  function TrimEnd(s: string): (r: string)
    ensures |r| <= |s| && r == s[..|r|]
    ensures r == [] || !IsWhiteSpace(r[|r| - 1])
    ensures forall i :: |r| <= i < |s| ==> IsWhiteSpace(s[i])
  {
    if s != [] && IsWhiteSpace(s[|s| - 1]) then TrimEnd(s[..|s| - 1]) else s
  }

  /** `string.Trim()`: drops leading and trailing white space. */
  function Trim(s: string): string
  {
    TrimEnd(TrimStart(s))
  }

  /** A string with no white space at either end is its own trim. */
  lemma TrimUntrimmed(s: string)
    requires s == [] || (!IsWhiteSpace(s[0]) && !IsWhiteSpace(s[|s| - 1]))
    ensures Trim(s) == s
  {
  }

  /** Trimming never leaves white space at either end. */
  lemma TrimmedHasNoOuterSpace(s: string)
    ensures var t := Trim(s); t == [] || (!IsWhiteSpace(t[0]) && !IsWhiteSpace(t[|t| - 1]))
  {
    var a := TrimStart(s);
    var t := TrimEnd(a);
    if t != [] {
      assert t[0] == a[0];
    }
  }

  /** Trailing white space after a non-white prefix is trimmed from the tail alone. */
  lemma {:induction false} TrimEndAfter(p: string, v: string)
    requires p != [] && !IsWhiteSpace(p[|p| - 1])
    ensures TrimEnd(p + v) == p + TrimEnd(v)
    decreases |v|
  {
    if v != [] && IsWhiteSpace(v[|v| - 1]) {
      assert (p + v)[..|p + v| - 1] == p + v[..|v| - 1];
      TrimEndAfter(p, v[..|v| - 1]);
    } else {
      assert p + v == [] || (p + v)[|p + v| - 1] == (if v == [] then p[|p| - 1] else v[|v| - 1]);
    }
  }

  /** Trimming a line that starts with a non-white prefix only trims the text after the prefix, and only at its end. */
  lemma TrimAfterPrefix(p: string, v: string)
    requires p != [] && !IsWhiteSpace(p[0]) && !IsWhiteSpace(p[|p| - 1])
    ensures Trim(p + v) == p + TrimEnd(v)
  {
    assert (p + v)[0] == p[0];
    assert TrimStart(p + v) == p + v;
    TrimEndAfter(p, v);
  }

  /** Ordinal `StartsWith`. */
  predicate StartsWith(s: string, prefix: string)
  {
    |prefix| <= |s| && s[..|prefix|] == prefix
  }

  /** The index of the first occurrence of `c` in `s`, or |s| if there is none. */
  function IndexOf(s: string, c: char): (i: nat)
    ensures i <= |s|
    ensures i < |s| ==> s[i] == c
    ensures forall j :: 0 <= j < i ==> s[j] != c
    ensures i == |s| <==> c !in s
  {
    if s == [] then 0 else if s[0] == c then 0 else 1 + IndexOf(s[1..], c)
  }

  /**
   * `s.Split(sep)`: the pieces between occurrences of `sep`, empty pieces
   * included; there is always at least one piece.
   */
  function Split(s: string, sep: char): (parts: seq<string>)
    ensures |parts| >= 1
    ensures forall k :: 0 <= k < |parts| ==> sep !in parts[k]
    decreases |s|
  {
    var i := IndexOf(s, sep);
    if i == |s| then [s] else [s[..i]] + Split(s[i + 1..], sep)
  }

  /** The pieces put back together with `sep` between them (`string.Join`). */
  function Join(parts: seq<string>, sep: char): string
  {
    if |parts| == 0 then ""
    else if |parts| == 1 then parts[0]
    else parts[0] + [sep] + Join(parts[1..], sep)
  }

  /** Appending a piece adds one separator, unless it is the first piece. */
  lemma {:induction false} JoinSnoc(parts: seq<string>, p: string, sep: char)
    ensures Join(parts + [p], sep) == if parts == [] then p else Join(parts, sep) + [sep] + p
  {
    if |parts| > 1 {
      assert (parts + [p])[1..] == parts[1..] + [p];
      JoinSnoc(parts[1..], p, sep);
    } else if |parts| == 1 {
      assert (parts + [p])[1..] == [p];
    }
  }

  /** Every character of a join is the separator or a character of one of the pieces. */
  lemma {:induction false} JoinKeeps(parts: seq<string>, sep: char, ok: char -> bool)
    requires ok(sep)
    requires forall k, i :: 0 <= k < |parts| && 0 <= i < |parts[k]| ==> ok(parts[k][i])
    ensures forall i :: 0 <= i < |Join(parts, sep)| ==> ok(Join(parts, sep)[i])
  {
    if |parts| > 1 {
      JoinKeeps(parts[1..], sep, ok);
      var j := Join(parts, sep);
      var rest := Join(parts[1..], sep);
      assert j == parts[0] + [sep] + rest;
      forall i | 0 <= i < |j|
        ensures ok(j[i])
      {
        if i < |parts[0]| {
          assert j[i] == parts[0][i];
        } else if i > |parts[0]| {
          assert j[i] == rest[i - |parts[0]| - 1];
        }
      }
    } else if |parts| == 1 {
      assert Join(parts, sep) == parts[0];
    }
  }

  /** `StringSplitOptions.RemoveEmptyEntries`. */
  function RemoveEmpty(parts: seq<string>): (r: seq<string>)
    ensures forall k :: 0 <= k < |r| ==> r[k] != []
    ensures (forall k :: 0 <= k < |parts| ==> parts[k] != []) ==> r == parts
  {
    if parts == [] then []
    else if parts[0] == [] then RemoveEmpty(parts[1..])
    else [parts[0]] + RemoveEmpty(parts[1..])
  }

  /** The first separator after a separator-free head is the one right after it. */
  lemma {:induction false} IndexOfAfterHead(head: string, sep: char, rest: string)
    requires sep !in head
    ensures IndexOf(head + [sep] + rest, sep) == |head|
  {
    if head != [] {
      assert (head + [sep] + rest)[1..] == head[1..] + [sep] + rest;
      IndexOfAfterHead(head[1..], sep, rest);
    }
  }

  /** Splitting a head, a separator and a rest gives the head, then the pieces of the rest. */
  lemma SplitAfterHead(head: string, sep: char, rest: string)
    requires sep !in head
    ensures Split(head + [sep] + rest, sep) == [head] + Split(rest, sep)
  {
    var s := head + [sep] + rest;
    IndexOfAfterHead(head, sep, rest);
    assert s[..|head|] == head && s[|head| + 1..] == rest;
  }

  /** Joining pieces free of the separator and splitting again gives the pieces back. */
  lemma {:induction false} SplitJoin(parts: seq<string>, sep: char)
    requires |parts| >= 1
    requires forall k :: 0 <= k < |parts| ==> sep !in parts[k]
    ensures Split(Join(parts, sep), sep) == parts
  {
    if |parts| > 1 {
      SplitAfterHead(parts[0], sep, Join(parts[1..], sep));
      SplitJoin(parts[1..], sep);
    }
  }

  /** Splitting and joining again gives the original string. */
  lemma {:induction false} JoinSplit(s: string, sep: char)
    ensures Join(Split(s, sep), sep) == s
    decreases |s|
  {
    var i := IndexOf(s, sep);
    if i < |s| {
      var rest := Split(s[i + 1..], sep);
      var parts := [s[..i]] + rest;
      assert Split(s, sep) == parts;
      assert parts[0] == s[..i] && parts[1..] == rest && |parts| > 1;
      JoinSplit(s[i + 1..], sep);
      assert Join(parts, sep) == s[..i] + [sep] + s[i + 1..];
      assert s == s[..i] + [sep] + s[i + 1..];
    }
  }

  /** Searching past a prefix that lacks the character continues into the rest. */
  lemma {:induction false} IndexOfAppend(s: string, u: string, c: char)
    ensures IndexOf(s + u, c) == if c in s then IndexOf(s, c) else |s| + IndexOf(u, c)
  {
    if s != [] && s[0] != c {
      assert (s + u)[1..] == s[1..] + u;
      IndexOfAppend(s[1..], u, c);
    } else if s == [] {
      assert s + u == u;
    }
  }

  /** A string without the separator is a single piece. */
  lemma SplitWithout(s: string, sep: char)
    requires sep !in s
    ensures Split(s, sep) == [s]
  {
  }

  /** A separator and a separator-free tail appended to a string add one piece to its split. */
  lemma {:induction false} SplitSnoc(s: string, sep: char, t: string)
    requires sep !in t
    ensures Split(s + [sep] + t, sep) == Split(s, sep) + [t]
    decreases |s|
  {
    var whole := s + [sep] + t;
    var i := IndexOf(s, sep);
    if i < |s| {
      IndexOfAppend(s, [sep] + t, sep);
      assert whole == s + ([sep] + t);
      assert IndexOf(whole, sep) == i;
      assert whole[..i] == s[..i];
      assert whole[i + 1..] == s[i + 1..] + [sep] + t;
      SplitSnoc(s[i + 1..], sep, t);
      calc {
        Split(whole, sep);
        [s[..i]] + Split(s[i + 1..] + [sep] + t, sep);
        [s[..i]] + (Split(s[i + 1..], sep) + [t]);
        ([s[..i]] + Split(s[i + 1..], sep)) + [t];
        Split(s, sep) + [t];
      }
    } else {
      SplitTwo(s, sep, t);
    }
  }

  /** Two separator-free pieces around one separator split into exactly those pieces. */
  lemma SplitTwo(s: string, sep: char, t: string)
    requires sep !in s && sep !in t
    ensures Split(s + [sep] + t, sep) == [s, t]
  {
    var whole := s + [sep] + t;
    IndexOfAfterHead(s, sep, t);
    assert whole[..|s|] == s && whole[|s| + 1..] == t;
    SplitWithout(t, sep);
  }

  /** `s.Replace(c, sub)` for single characters. */
  function Replace(s: string, c: char, sub: char): (r: string)
    ensures |r| == |s|
    ensures forall i :: 0 <= i < |s| ==> r[i] == if s[i] == c then sub else s[i]
  {
    seq(|s|, i requires 0 <= i < |s| => if s[i] == c then sub else s[i])
  }
}
