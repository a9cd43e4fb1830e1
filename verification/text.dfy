/**
 * The few JavaScript string operations the ledger relies on, with their
 * JavaScript meaning: `startsWith`, `indexOf`, `includes`, `split` on a
 * character, element 1 of `split` on a string, `join`, and the decimal
 * rendering of an integer inside a template literal.
 */
module Text {
  import opened Wrappers

  predicate StartsWith(s: string, prefix: string) {
    |prefix| <= |s| && s[..|prefix|] == prefix
  }

  /** `s.includes(sub)`: some position of `s` starts an occurrence of `sub`. */
  predicate Contains(s: string, sub: string) {
    exists k :: 0 <= k <= |s| && StartsWith(s[k..], sub)
  }

  /** `s.indexOf(sep, from)`, with "not found" as `None`. */
  function IndexFrom(s: string, sep: string, from: nat): (r: Option<nat>)
    requires from <= |s|
    ensures r.Some? ==> from <= r.value <= |s| && StartsWith(s[r.value..], sep)
    ensures r.Some? ==> forall k :: from <= k < r.value ==> !StartsWith(s[k..], sep)
    ensures r.None? ==> forall k :: from <= k <= |s| ==> !StartsWith(s[k..], sep)
    decreases |s| - from
  {
    if StartsWith(s[from..], sep) then Some(from)
    else if from == |s| then None
    else IndexFrom(s, sep, from + 1)
  }

  /** Position of the first occurrence of `c` in `s`. */
  function CharIndex(s: string, c: char): (i: nat)
    requires c in s
    ensures i < |s| && s[i] == c && c !in s[..i]
  {
    if s[0] == c then 0
    else
      assert s == [s[0]] + s[1..];
      var j := CharIndex(s[1..], c);
      assert s[..j + 1] == [s[0]] + s[1..][..j];
      j + 1
  }

  /** An occurrence inside a slice is an occurrence in the text from the slice's start on. */
  lemma {:induction false} StartsWithWidens(s: string, a: nat, b: nat, sep: string)
    requires a <= b <= |s|
    ensures StartsWith(s[a..b], sep) ==> StartsWith(s[a..], sep)
  {
    if StartsWith(s[a..b], sep) {
      assert s[a..][..|sep|] == s[a..b][..|sep|];
    }
  }

  /** `s.split(sep)` for a one-character separator: never empty, and no piece holds `sep`. */
  function Split(s: string, sep: char): (parts: seq<string>)
    ensures |parts| >= 1
    ensures forall i :: 0 <= i < |parts| ==> sep !in parts[i]
    decreases |s|
  {
    if sep !in s then [s]
    else
      var i := CharIndex(s, sep);
      [s[..i]] + Split(s[i + 1..], sep)
  }

  /** `parts.join(sep)`. */
  function Join(parts: seq<string>, sep: string): string
  {
    if |parts| == 0 then ""
    else if |parts| == 1 then parts[0]
    else parts[0] + sep + Join(parts[1..], sep)
  }

  /** Joining the pieces of a split gives back the original text. */
  lemma {:induction false} JoinSplit(s: string, sep: char)
    ensures Join(Split(s, sep), [sep]) == s
    decreases |s|
  {
    if sep in s {
      var i := CharIndex(s, sep);
      var rest := Split(s[i + 1..], sep);
      var parts := Split(s, sep);
      assert parts == [s[..i]] + rest;
      assert |parts| > 1 && parts[0] == s[..i] && parts[1..] == rest;
      JoinSplit(s[i + 1..], sep);
      assert Join(parts, [sep]) == s[..i] + [sep] + Join(rest, [sep]);
      assert s == s[..i] + [sep] + s[i + 1..];
    }
  }

  /** Splitting a join gives back the pieces, when no piece holds the separator. */
  lemma {:induction false} SplitJoin(parts: seq<string>, sep: char)
    requires |parts| >= 1
    requires forall i :: 0 <= i < |parts| ==> sep !in parts[i]
    ensures Split(Join(parts, [sep]), sep) == parts
    decreases |parts|
  {
    if |parts| > 1 {
      var rest := Join(parts[1..], [sep]);
      var s := parts[0] + [sep] + rest;
      assert sep in s by { assert s[|parts[0]|] == sep; }
      var i := CharIndex(s, sep);
      assert s[|parts[0]|] == sep;
      assert s[..i] == parts[0];
      assert s[i + 1..] == rest;
      SplitJoin(parts[1..], sep);
    }
  }

  /** The first piece of a split is the text before the first separator. */
  lemma {:induction false} SplitFirst(a: string, rest: string, sep: char)
    requires sep !in a
    ensures Split(a + [sep] + rest, sep)[0] == a
  {
    var s := a + [sep] + rest;
    assert s[|a|] == sep;
    assert s[..|a|] == a;
    var i := CharIndex(s, sep);
    assert i == |a|;
  }

  /** Element 1 of `s.split(sep)`: the text between the first and the second
      occurrence of `sep` (or the end); `undefined` when `sep` does not occur. */
  function SplitSecond(s: string, sep: string): (r: Option<string>)
    requires |sep| > 0
    ensures r.Some? <==> Contains(s, sep)
    ensures r.Some? ==> !Contains(r.value, sep)
  {
    match IndexFrom(s, sep, 0)
    case None => None
    case Some(p) =>
      var start := p + |sep|;
      var end := match IndexFrom(s, sep, start)
        case None => |s|
        case Some(q) => q;
      var piece := s[start..end];
      assert !Contains(piece, sep) by {
        forall k | 0 <= k <= |piece|
          ensures !StartsWith(piece[k..], sep)
        {
          assert piece[k..] == s[start + k..end];
          StartsWithWidens(s, start + k, end, sep);
        }
      }
      Some(piece)
  }

  /** Taking element 1 of the split of `sep + x` recovers `x` exactly when `x` does not hold `sep`. */
  lemma {:induction false} SplitSecondAfterSeparator(sep: string, x: string)
    requires |sep| > 0
    ensures SplitSecond(sep + x, sep) == Some(x) <==> !Contains(x, sep)
  {
    var s := sep + x;
    assert StartsWith(s[0..], sep);
    assert IndexFrom(s, sep, 0) == Some(0);
    var start := |sep|;
    assert s[start..] == x && s[start..|s|] == x;
    if !Contains(x, sep) {
      forall k | start <= k <= |s|
        ensures !StartsWith(s[k..], sep)
      {
        assert s[k..] == x[k - start..];
      }
      assert IndexFrom(s, sep, start) == None;
    } else {
      var q := IndexFrom(s, sep, start).value;
      assert s[q..] == x[q - start..];
      assert |s[start..q]| < |x|;
    }
  }

  function DigitChar(d: nat): char
    requires d < 10
  {
    "0123456789"[d]
  }

  /** Decimal rendering of a natural number, as a template literal shows it. */
  function NatToString(n: nat): (r: string)
    ensures |r| >= 1
    ensures forall i :: 0 <= i < |r| ==> '0' <= r[i] <= '9'
  {
    if n < 10 then [DigitChar(n)] else NatToString(n / 10) + [DigitChar(n % 10)]
  }

  /** Decimal rendering of an integer: a minus sign before the digits of a negative number. */
  function IntToString(i: int): (r: string)
    ensures '\n' !in r
  {
    if i < 0 then "-" + NatToString(-i) else NatToString(i)
  }
}
