/**
 * `VersionManager`: the installed version read once from `version.txt`
 * and remembered, its display form, the comparison of dotted version
 * numbers, and the decision taken on the text the update server returns.
 *
 * A version component is parsed like `int.Parse`, so it is a 32-bit
 * integer; the difference of two components is taken in unchecked 32-bit
 * arithmetic by the code as written. `CompareVersionsAsWritten` keeps that
 * wrap-around; `CompareVersions`, used everywhere else, takes the exact
 * difference, and the two agree whenever no component is negative.
 */
module Versioning {
  import opened Wrappers
  import opened Text

  const Int32Min: int := -0x8000_0000
  const Int32Max: int := 0x7FFF_FFFF

  predicate InInt32(x: int)
  {
    Int32Min <= x <= Int32Max
  }

  /** Unchecked 32-bit two's-complement truncation of an exact integer. */
  function Wrap32(x: int): (r: int)
    ensures InInt32(r)
    ensures InInt32(x) ==> r == x
  {
    (x + 0x8000_0000) % 0x1_0000_0000 - 0x8000_0000
  }

  // ---------------------------------------------------------------------
  // int.Parse and its decimal inverse
  // ---------------------------------------------------------------------

  predicate IsDigit(c: char)
  {
    '0' <= c <= '9'
  }

  predicate AllDigits(s: string)
  {
    forall i :: 0 <= i < |s| ==> IsDigit(s[i])
  }

  /** The white space `NumberStyles.Integer` allows around a number: U+0009..U+000D and the space. */
  predicate IsNumberSpace(c: char)
  {
    c == ' ' || '\t' <= c <= '\r'
  }

  function StripLeading(s: string): (r: string)
    ensures r == [] || !IsNumberSpace(r[0])
  {
    if s != [] && IsNumberSpace(s[0]) then StripLeading(s[1..]) else s
  }

  function StripTrailing(s: string): (r: string)
    ensures r == [] || !IsNumberSpace(r[|r| - 1])
  {
    if s != [] && IsNumberSpace(s[|s| - 1]) then StripTrailing(s[..|s| - 1]) else s
  }

  /** The value of a string of decimal digits, most significant first, or None if some character is not a digit. */
  function DigitsValue(s: string): (r: Option<nat>)
    ensures r.Some? <==> AllDigits(s)
  {
    if s == [] then Some(0)
    else
      var last := s[|s| - 1];
      match DigitsValue(s[..|s| - 1])
      case Some(v) =>
        if IsDigit(last) then Some(10 * v + (last as int - '0' as int)) else None
      case None =>
        assert !IsDigit(s[..|s| - 1][IndexOfNonDigit(s[..|s| - 1])]);
        None
  }

  /** A position holding a non-digit, in a string that has one. */
  function IndexOfNonDigit(s: string): (i: nat)
    requires !AllDigits(s)
    ensures i < |s| && !IsDigit(s[i])
  {
    if !IsDigit(s[0]) then 0 else 1 + IndexOfNonDigit(s[1..])
  }

  /** The shortest decimal digits of `n`. */
  function Digits(n: nat): (s: string)
    ensures s != [] && AllDigits(s)
    ensures DigitsValue(s) == Some(n)
  {
    var d := ['0' + (n % 10) as char];
    if n < 10 then d
    else
      var s := Digits(n / 10) + d;
      assert s[..|s| - 1] == Digits(n / 10);
      s
  }

  /** `int.ToString()` with the invariant culture. */
  function Show(n: int): (s: string)
    ensures s != [] && (s[0] == '-' || IsDigit(s[0])) && IsDigit(s[|s| - 1])
    ensures forall i :: 0 <= i < |s| ==> s[i] == '-' || IsDigit(s[i])
  {
    if n < 0 then "-" + Digits(-n) else Digits(n)
  }

  /**
   * `int.Parse` with `NumberStyles.Integer`: optional white space, an
   * optional sign, one or more decimal digits, optional white space, and a
   * value that fits in 32 bits; anything else throws (None).
   */
  function ParseInt32(s: string): (r: Option<int>)
    ensures r.Some? ==> InInt32(r.value)
  {
    var body := StripTrailing(StripLeading(s));
    if body == [] then None
    else
      var digits := if body[0] == '-' || body[0] == '+' then body[1..] else body;
      match DigitsValue(digits)
      case Some(magnitude) =>
        var n: int := if body[0] == '-' then -(magnitude as int) else magnitude;
        if digits != [] && InInt32(n) then Some(n) else None
      case None => None
  }

  /** Every 32-bit integer printed in decimal parses back to itself. */
  lemma ParseShow(n: int)
    requires InInt32(n)
    ensures ParseInt32(Show(n)) == Some(n)
  {
    var s := Show(n);
    assert StripLeading(s) == s;
    assert StripTrailing(s) == s;
    if n < 0 {
      assert s[1..] == Digits(-n);
    }
  }

  // ---------------------------------------------------------------------
  // Comparing dotted versions
  // ---------------------------------------------------------------------

  /**
   * `pieces.Select(parse).ToArray()` for a parser that may throw (None):
   * every piece parsed in order, or None when some piece does not parse.
   */
  function ParseAll(pieces: seq<string>, parse: string -> Option<int>): (r: Option<seq<int>>)
    ensures r.Some? <==> forall i :: 0 <= i < |pieces| ==> parse(pieces[i]).Some?
    ensures r.Some? ==> |r.value| == |pieces|
    ensures r.Some? ==> forall i :: 0 <= i < |pieces| ==> parse(pieces[i]) == Some(r.value[i])
  {
    if pieces == [] then Some([])
    else
      var head, tail := parse(pieces[0]), ParseAll(pieces[1..], parse);
      if head.Some? && tail.Some? then Some([head.value] + tail.value) else None
  }

  /** `v.Split('.').Select(int.Parse).ToArray()`. */
  function Parts(v: string): Option<seq<int>>
  {
    ParseAll(Split(v, '.'), ParseInt32)
  }

  /** Component `i`, or 0 past the end: missing trailing components count as zero. */
  function At(p: seq<int>, i: nat): int
  {
    if i < |p| then p[i] else 0
  }

  function Longest(p1: seq<int>, p2: seq<int>): nat
  {
    if |p1| < |p2| then |p2| else |p1|
  }

  /** The comparison loop from index `i` on, with the exact difference of the first differing components. */
  function CompareFrom(p1: seq<int>, p2: seq<int>, i: nat): int
    decreases Longest(p1, p2) - i
  {
    if i >= Longest(p1, p2) then 0
    else if At(p1, i) != At(p2, i) then At(p1, i) - At(p2, i)
    else CompareFrom(p1, p2, i + 1)
  }

  /** The comparison loop as written: `p1 - p2` wraps around in 32 bits. */
  function CompareFromAsWritten(p1: seq<int>, p2: seq<int>, i: nat): int
    decreases Longest(p1, p2) - i
  {
    if i >= Longest(p1, p2) then 0
    else if At(p1, i) != At(p2, i) then Wrap32(At(p1, i) - At(p2, i))
    else CompareFromAsWritten(p1, p2, i + 1)
  }

  /** `CompareVersions(v1, v2)`, or None when a component does not parse. */
  function CompareVersions(v1: string, v2: string): Option<int>
  {
    match (Parts(v1), Parts(v2))
    case (Some(p1), Some(p2)) => Some(CompareFrom(p1, p2, 0))
    case _ => None
  }

  function CompareVersionsAsWritten(v1: string, v2: string): Option<int>
  {
    match (Parts(v1), Parts(v2))
    case (Some(p1), Some(p2)) => Some(CompareFromAsWritten(p1, p2, 0))
    case _ => None
  }

  /** The result is the difference of the first differing components. */
  lemma {:induction false} DecidedByFirstDifference(p1: seq<int>, p2: seq<int>, i: nat, j: nat)
    requires i <= j < Longest(p1, p2)
    requires forall k :: i <= k < j ==> At(p1, k) == At(p2, k)
    requires At(p1, j) != At(p2, j)
    ensures CompareFrom(p1, p2, i) == At(p1, j) - At(p2, j)
    decreases j - i
  {
    if i < j {
      DecidedByFirstDifference(p1, p2, i + 1, j);
    }
  }

  /** The result is zero exactly when every component agrees, padding with zeros. */
  lemma {:induction false} ZeroIffSame(p1: seq<int>, p2: seq<int>, i: nat)
    ensures CompareFrom(p1, p2, i) == 0 <==> forall k :: i <= k < Longest(p1, p2) ==> At(p1, k) == At(p2, k)
    decreases Longest(p1, p2) - i
  {
    if i < Longest(p1, p2) && At(p1, i) == At(p2, i) {
      ZeroIffSame(p1, p2, i + 1);
    }
  }

  /** Only the components, read with zero padding, matter: trailing zeros change nothing. */
  lemma {:induction false} PaddingIrrelevant(p1: seq<int>, p2: seq<int>, q1: seq<int>, q2: seq<int>, i: nat)
    requires forall k: nat :: At(p1, k) == At(q1, k) && At(p2, k) == At(q2, k)
    ensures CompareFrom(p1, p2, i) == CompareFrom(q1, q2, i)
    decreases (if Longest(p1, p2) < Longest(q1, q2) then Longest(q1, q2) else Longest(p1, p2)) - i
  {
    var lp, lq := Longest(p1, p2), Longest(q1, q2);
    if i < lp || i < lq {
      assert At(p1, i) == At(q1, i) && At(p2, i) == At(q2, i);
      if At(p1, i) == At(p2, i) {
        PaddingIrrelevant(p1, p2, q1, q2, i + 1);
      }
    }
  }

  /** Swapping the versions negates the result. */
  lemma {:induction false} Antisymmetric(p1: seq<int>, p2: seq<int>, i: nat)
    ensures CompareFrom(p1, p2, i) == -CompareFrom(p2, p1, i)
    decreases Longest(p1, p2) - i
  {
    if i < Longest(p1, p2) && At(p1, i) == At(p2, i) {
      Antisymmetric(p1, p2, i + 1);
    }
  }

  /** With no negative component the wrapped difference is exact, so the code as written agrees. */
  lemma {:induction false} AsWrittenAgrees(p1: seq<int>, p2: seq<int>, i: nat)
    requires forall k :: 0 <= k < |p1| ==> 0 <= p1[k] <= Int32Max
    requires forall k :: 0 <= k < |p2| ==> 0 <= p2[k] <= Int32Max
    ensures CompareFromAsWritten(p1, p2, i) == CompareFrom(p1, p2, i)
    decreases Longest(p1, p2) - i
  {
    if i < Longest(p1, p2) {
      if At(p1, i) == At(p2, i) {
        AsWrittenAgrees(p1, p2, i + 1);
      } else {
        assert InInt32(At(p1, i) - At(p2, i));
      }
    }
  }

  /** A well-formed version compares equal to itself. */
  lemma Reflexive(v: string)
    requires Parts(v).Some?
    ensures CompareVersions(v, v) == Some(0)
  {
    ZeroIffSame(Parts(v).value, Parts(v).value, 0);
  }

  /** Swapping the arguments negates the comparison, and both fail together. */
  lemma VersionsAntisymmetric(v1: string, v2: string)
    ensures CompareVersions(v1, v2).Some? <==> CompareVersions(v2, v1).Some?
    ensures CompareVersions(v1, v2).Some? ==> CompareVersions(v1, v2).value == -CompareVersions(v2, v1).value
  {
    if Parts(v1).Some? && Parts(v2).Some? {
      Antisymmetric(Parts(v1).value, Parts(v2).value, 0);
    }
  }

  /** Parsing is determined piece by piece, so an extra piece adds one component. */
  lemma {:induction false} ParseAllSnoc(pieces: seq<string>, x: string, parse: string -> Option<int>)
    requires ParseAll(pieces, parse).Some? && parse(x).Some?
    ensures ParseAll(pieces + [x], parse) == Some(ParseAll(pieces, parse).value + [parse(x).value])
  {
    if pieces != [] {
      var all := pieces + [x];
      assert all[0] == pieces[0];
      assert all[1..] == pieces[1..] + [x];
      var h, t := parse(pieces[0]).value, ParseAll(pieces[1..], parse).value;
      assert ParseAll(pieces, parse) == Some([h] + t);
      ParseAllSnoc(pieces[1..], x, parse);
      assert ParseAll(all, parse) == Some([h] + (t + [parse(x).value]));
      assert [h] + (t + [parse(x).value]) == [h] + t + [parse(x).value];
    } else {
      assert pieces + [x] == [x];
      ParseAllSingle(x, parse);
      assert ParseAll(pieces, parse).value + [parse(x).value] == [parse(x).value];
    }
  }

  lemma ParseAllSingle(x: string, parse: string -> Option<int>)
    ensures ParseAll([x], parse) == if parse(x).Some? then Some([parse(x).value]) else None
  {
    var one: seq<string> := [x];
    var none: seq<int> := [];
    assert one[0] == x && one[1..] == [];
    assert ParseAll(one[1..], parse) == Some(none);
    if parse(x).Some? {
      assert [parse(x).value] + none == [parse(x).value];
    }
  }

  /** Appending ".0" to a well-formed version appends a zero component. */
  lemma PartsDotZero(v: string)
    requires Parts(v).Some?
    ensures Parts(v + ".0") == Some(Parts(v).value + [0])
  {
    SplitSnoc(v, '.', "0");
    assert v + ".0" == v + ['.'] + "0";
    ParseShow(0);
    assert Show(0) == "0";
    ParseAllSnoc(Split(v, '.'), "0", ParseInt32);
  }

  /** "1.2" and "1.2.0" are the same version, on either side of the comparison. */
  lemma TrailingZeroComponent(v: string, w: string)
    requires Parts(v).Some?
    ensures CompareVersions(v + ".0", w) == CompareVersions(v, w)
    ensures CompareVersions(w, v + ".0") == CompareVersions(w, v)
  {
    PartsDotZero(v);
    var p := Parts(v).value;
    if Parts(w).Some? {
      var q := Parts(w).value;
      assert forall k: nat :: At(p + [0], k) == At(p, k);
      PaddingIrrelevant(p + [0], q, p, q, 0);
      PaddingIrrelevant(q, p + [0], q, p, 0);
    }
  }

  /** A number with no '.' in it is a one-component version. */
  lemma SingleComponent(n: int)
    requires InInt32(n)
    ensures Parts(Show(n)) == Some([n])
  {
    ShowHasNoDot(n);
    SplitWithout(Show(n), '.');
    ParseShow(n);
    ParseAllSingle(Show(n), ParseInt32);
  }

  lemma ShowHasNoDot(n: int)
    ensures '.' !in Show(n)
  {
    var s := Show(n);
    assert forall i :: 0 <= i < |s| ==> s[i] != '.';
  }

  /** Two components make the two-part versions "a.0" and "b.0". */
  lemma TwoPartVersions(a: int, b: int)
    requires InInt32(a) && InInt32(b) && a != b
    ensures CompareVersions(Show(a) + ".0", Show(b) + ".0") == Some(a - b)
  {
    TwoParts(a);
    TwoParts(b);
    ComparePairs(Show(a) + ".0", Show(b) + ".0", a, b);
  }

  lemma TwoPartVersionsAsWritten(a: int, b: int)
    requires InInt32(a) && InInt32(b) && a != b
    ensures CompareVersionsAsWritten(Show(a) + ".0", Show(b) + ".0") == Some(Wrap32(a - b))
  {
    TwoParts(a);
    TwoParts(b);
    ComparePairs(Show(a) + ".0", Show(b) + ".0", a, b);
  }

  /** Versions whose components are [a, 0] and [b, 0] compare by their first components. */
  lemma ComparePairs(v1: string, v2: string, a: int, b: int)
    requires Parts(v1) == Some([a, 0]) && Parts(v2) == Some([b, 0]) && a != b
    ensures CompareVersions(v1, v2) == Some(a - b)
    ensures CompareVersionsAsWritten(v1, v2) == Some(Wrap32(a - b))
  {
    FirstComponentDecides(a, b);
  }

  lemma FirstComponentDecides(a: int, b: int)
    requires a != b
    ensures CompareFrom([a, 0], [b, 0], 0) == a - b
    ensures CompareFromAsWritten([a, 0], [b, 0], 0) == Wrap32(a - b)
  {
    var p, q := [a, 0], [b, 0];
    assert Longest(p, q) == 2 && At(p, 0) == a && At(q, 0) == b;
  }

  lemma TwoParts(a: int)
    requires InInt32(a)
    ensures Parts(Show(a) + ".0") == Some([a, 0])
  {
    SingleComponent(a);
    PartsDotZero(Show(a));
    assert [a] + [0] == [a, 0];
  }

  /**
   * When two components are further apart than 32 bits can hold, the code
   * as written reports the opposite order: "0.0" against "-2147483648.0"
   * comes out as -2147483648, so the newer version looks older.
   */
  lemma WrapReversesOrder(a: int, b: int)
    requires InInt32(a) && InInt32(b) && !InInt32(a - b)
    ensures CompareVersions(Show(a) + ".0", Show(b) + ".0") == Some(a - b)
    ensures var w := CompareVersionsAsWritten(Show(a) + ".0", Show(b) + ".0");
            w.Some? && (w.value < 0 <==> a - b > 0) && w.value != 0
  {
    TwoPartVersions(a, b);
    TwoPartVersionsAsWritten(a, b);
    WrapFlipsSign(a - b);
  }

  /** A difference of two 32-bit values that overflows wraps to a value of the opposite sign. */
  lemma WrapFlipsSign(d: int)
    requires -0xFFFF_FFFF <= d <= 0xFFFF_FFFF && !InInt32(d)
    ensures Wrap32(d) != 0 && (Wrap32(d) < 0 <==> d > 0)
  {
    if d > Int32Max {
      assert Wrap32(d) == d - 0x1_0000_0000;
    } else {
      assert Wrap32(d) == d + 0x1_0000_0000;
    }
  }

  // ---------------------------------------------------------------------
  // The update check
  // ---------------------------------------------------------------------

  /** What the request for the published version produced. */
  datatype Response =
    | Reply(status: int, text: string)
    | TimedOut
    | NetworkFailure
    | OtherFailure

  /** The failures `CheckForUpdateAsync` reports, each with its message. */
  datatype UpdateError = HttpStatus(code: int) | InvalidFormat | Timeout | NetworkError | UnknownError
  {
    function Message(): string
    {
      match this
      case HttpStatus(code) => "HTTP " + Show(code)
      case InvalidFormat => "Invalid version format"
      case Timeout => "Timeout"
      case NetworkError => "Network error"
      case UnknownError => "Unknown error"
    }
  }

  datatype UpdateCheck = UpdateCheck(isUpdateAvailable: bool, latestVersion: string, error: Option<UpdateError>)

  predicate IsSuccessStatus(status: int)
  {
    200 <= status <= 299
  }

  /** The remote text is accepted as a version when it is not blank and has a '.'. */
  predicate ValidVersionText(latest: string)
  {
    !IsBlank(latest) && '.' in latest
  }

  /** The outcome of `CheckForUpdateAsync` for a response, given the current version. */
  function CheckOutcome(response: Response, current: string): (r: UpdateCheck)
    ensures r.error.None? <==>
              (response.Reply? && IsSuccessStatus(response.status) && ValidVersionText(Trim(response.text))
               && CompareVersions(Trim(response.text), current).Some?)
    ensures r.error.None? ==> r.latestVersion == Trim(response.text)
    ensures r.isUpdateAvailable <==> r.error.None? && CompareVersions(r.latestVersion, current).value > 0
    ensures r.error.Some? ==> r.latestVersion == current
    ensures r.error == Some(InvalidFormat) <==>
              (response.Reply? && IsSuccessStatus(response.status) && !ValidVersionText(Trim(response.text)))
    ensures response.Reply? && !IsSuccessStatus(response.status) ==> r.error == Some(HttpStatus(response.status))
  {
    match response
    case TimedOut => UpdateCheck(false, current, Some(Timeout))
    case NetworkFailure => UpdateCheck(false, current, Some(NetworkError))
    case OtherFailure => UpdateCheck(false, current, Some(UnknownError))
    case Reply(status, text) =>
      if !IsSuccessStatus(status) then
        UpdateCheck(false, current, Some(HttpStatus(status)))
      else
        var latest := Trim(text);
        if !ValidVersionText(latest) then UpdateCheck(false, current, Some(InvalidFormat))
        else
          match CompareVersions(latest, current)
          case None => UpdateCheck(false, current, Some(UnknownError))
          case Some(c) => UpdateCheck(c > 0, latest, None)
  }

  /** A version whose components all parse and none is negative. */
  predicate NonNegativeVersion(v: string)
  {
    Parts(v).Some? && forall k :: 0 <= k < |Parts(v).value| ==> 0 <= Parts(v).value[k] <= Int32Max
  }

  /**
   * `CheckOutcome` decides with the exact comparison; the source's wrapping
   * `CompareVersions` makes the same decision whenever neither version has
   * a negative component.
   */
  lemma CheckOutcomeAsWritten(response: Response, current: string)
    requires NonNegativeVersion(current)
    requires response.Reply? && Parts(Trim(response.text)).Some? ==> NonNegativeVersion(Trim(response.text))
    ensures var r := CheckOutcome(response, current);
            r.isUpdateAvailable <==>
              && r.error.None?
              && CompareVersionsAsWritten(r.latestVersion, current).Some?
              && CompareVersionsAsWritten(r.latestVersion, current).value > 0
  {
    if response.Reply? && Parts(Trim(response.text)).Some? {
      AsWrittenAgrees(Parts(Trim(response.text)).value, Parts(current).value, 0);
    }
  }

  /** Receiving the current version back never announces an update. */
  lemma NoUpdateToSameVersion(current: string, status: int)
    requires Trim(current) == current && Parts(current).Some?
    ensures !CheckOutcome(Reply(status, current), current).isUpdateAvailable
  {
    Reflexive(current);
  }

  /** If b is announced as an update over a, then a is never announced as an update over b. */
  lemma UpdateIsOneWay(a: string, b: string, status: int)
    requires Trim(a) == a && Trim(b) == b
    requires CheckOutcome(Reply(status, b), a).isUpdateAvailable
    ensures !CheckOutcome(Reply(status, a), b).isUpdateAvailable
  {
    VersionsAntisymmetric(b, a);
  }

  // ---------------------------------------------------------------------
  // The installed version
  // ---------------------------------------------------------------------

  /** A candidate `version.txt`. */
  datatype VersionFile = Absent | Readable(text: string) | Unreadable

  /**
   * The version found next to the program, else in the source tree three
   * levels up, else "0.0.0"; a file that exists but cannot be read gives
   * "0.0.0" without trying further.
   */
  function LocatedVersion(baseFile: VersionFile, devFile: VersionFile): (r: string)
    ensures r == [] || (!IsWhiteSpace(r[0]) && !IsWhiteSpace(r[|r| - 1]))
    ensures baseFile.Readable? ==> r == Trim(baseFile.text)
    ensures baseFile.Absent? && devFile.Readable? ==> r == Trim(devFile.text)
    ensures baseFile.Unreadable? || (baseFile.Absent? && !devFile.Readable?) ==> r == "0.0.0"
  {
    match baseFile
    case Readable(t) => TrimmedHasNoOuterSpace(t); Trim(t)
    case Unreadable => "0.0.0"
    case Absent =>
      match devFile
      case Readable(t) => TrimmedHasNoOuterSpace(t); Trim(t)
      case _ => "0.0.0"
  }

  /** The static `_cachedVersion` cache behind `CurrentVersion` and `DisplayVersion`. */
  class VersionInfo {
    var cached: Option<string>

    constructor ()
      ensures cached == None
    {
      cached := None;
    }

    /** The first call locates the version and remembers it; later calls return it unchanged. */
    method CurrentVersion(baseFile: VersionFile, devFile: VersionFile) returns (v: string)
      modifies this
      ensures old(cached).Some? ==> v == old(cached).value && cached == old(cached)
      ensures old(cached).None? ==> v == LocatedVersion(baseFile, devFile) && cached == Some(v)
    {
      if cached.Some? {
        return cached.value;
      }
      v := LocatedVersion(baseFile, devFile);
      cached := Some(v);
    }

    /** "v" followed by the current version. */
    method DisplayVersion(baseFile: VersionFile, devFile: VersionFile) returns (d: string)
      modifies this
      ensures old(cached).Some? ==> d == "v" + old(cached).value && cached == old(cached)
      ensures old(cached).None? ==> d == "v" + LocatedVersion(baseFile, devFile)
                                    && cached == Some(LocatedVersion(baseFile, devFile))
    {
      var v := CurrentVersion(baseFile, devFile);
      d := "v" + v;
    }
  }
}
