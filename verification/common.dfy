/**
 Shared vocabulary of the model: the Python exceptions the modelled code can
 raise, a failure-compatible `Result`, an `Option` standing for Python's
 `None`, and the small text helpers (ASCII case, decimal rendering of
 integers) that several components need.
 */
module Common {

  /** `None` or a present value. */
  datatype Option<+T> = None | Some(value: T)

  /** The exception classes the modelled code raises (directly, through an
      `assert`, or through a failing Python operation). */
  datatype Error =
    | ValueError
    | RuntimeError
    | TypeError
    | NotImplementedError
    | UnboundLocalError
    | AssertionError
    | KeyError
    | IndexError

  /** Either a value or the exception that was raised instead. */
  datatype Result<+T> = Ok(value: T) | Err(error: Error) {
    predicate IsFailure() {
      Err?
    }

    function PropagateFailure<U>(): Result<U>
      requires Err?
    {
      Err(error)
    }

    function Extract(): T
      requires Ok?
    {
      value
    }
  }

  /** `c.isupper()` restricted to ASCII letters. */
  predicate IsUpper(c: char) {
    'A' <= c <= 'Z'
  }

  /** True when some character of `s` is upper case. */
  predicate HasUpper(s: string) {
    exists i :: 0 <= i < |s| && IsUpper(s[i])
  }

  /** `c.lower()` restricted to ASCII letters. */
  function LowerChar(c: char): (r: char)
    ensures !IsUpper(r)
    ensures !IsUpper(c) ==> r == c
  {
    if IsUpper(c) then (c as int - 'A' as int + 'a' as int) as char else c
  }

  /** `s.lower()`: every character lowered, length kept. */
  function Lower(s: string): (r: string)
    ensures |r| == |s|
    ensures !HasUpper(r)
    ensures forall i :: 0 <= i < |s| ==> r[i] == LowerChar(s[i])
  {
    if |s| == 0 then "" else [LowerChar(s[0])] + Lower(s[1..])
  }

  function Digit(d: nat): (c: char)
    requires d < 10
    ensures '0' <= c <= '9'
  {
    "0123456789"[d]
  }

  predicate IsDigit(c: char) {
    '0' <= c <= '9'
  }

  /** The decimal rendering `"%d" % n` of a natural number. */
  function NatToString(n: nat): (r: string)
    ensures 1 <= |r|
    ensures forall i :: 0 <= i < |r| ==> IsDigit(r[i])
    ensures n >= 10 <==> |r| >= 2
  {
    if n < 10 then [Digit(n)] else NatToString(n / 10) + [Digit(n % 10)]
  }

  lemma DigitInjective(a: nat, b: nat)
    requires a < 10 && b < 10
    ensures Digit(a) == Digit(b) ==> a == b
  {
  }

  /** Distinct numbers render as distinct decimal strings. */
  lemma {:induction false} NatToStringInjective(a: nat, b: nat)
    ensures NatToString(a) == NatToString(b) ==> a == b
  {
    if NatToString(a) == NatToString(b) {
      if a < 10 && b < 10 {
        DigitInjective(a, b);
      } else if a >= 10 && b >= 10 {
        var sa, sb := NatToString(a), NatToString(b);
        assert sa[|sa| - 1] == Digit(a % 10) && sb[|sb| - 1] == Digit(b % 10);
        DigitInjective(a % 10, b % 10);
        assert sa[..|sa| - 1] == NatToString(a / 10);
        assert sb[..|sb| - 1] == NatToString(b / 10);
        NatToStringInjective(a / 10, b / 10);
      }
    }
  }

  /** A set that is not empty has a member to pick. */
  lemma NonEmptyHasMember<T>(s: set<T>)
    requires s != {}
    ensures exists x :: x in s
  {
    if forall y :: y !in s {
      assert false;
    }
  }

  /** Two strings that share a prefix differ exactly when their tails do. */
  lemma PrefixCancel(p: string, s: string, t: string)
    ensures p + s == p + t ==> s == t
  {
    if p + s == p + t {
      assert s == (p + s)[|p|..];
      assert t == (p + t)[|p|..];
    }
  }

  /** `r` is `s` with some entries left out, the rest kept in order. */
  predicate IsSubsequence<T(==)>(r: seq<T>, s: seq<T>)
    decreases |s|
  {
    if |r| == 0 then true
    else if |s| == 0 then false
    else if r[|r| - 1] == s[|s| - 1] then IsSubsequence(r[..|r| - 1], s[..|s| - 1])
    else IsSubsequence(r, s[..|s| - 1])
  }

  /** An entry put in front of both sides keeps a subsequence one. */
  lemma {:induction false} SubsequencePrepend<T>(x: T, r: seq<T>, s: seq<T>)
    requires IsSubsequence(r, s)
    ensures IsSubsequence([x] + r, [x] + s)
    decreases |s|
  {
    var xr, xs := [x] + r, [x] + s;
    if |s| == 0 {
      assert xr == xs;
      assert xr[..0] == [];
    } else {
      assert xs[..|xs| - 1] == [x] + s[..|s| - 1];
      if |r| == 0 {
        assert xr == [x] && xr[..0] == [];
        if x != s[|s| - 1] {
          SubsequencePrepend(x, r, s[..|s| - 1]);
        }
      } else {
        assert xr[..|xr| - 1] == [x] + r[..|r| - 1];
        if r[|r| - 1] == s[|s| - 1] {
          SubsequencePrepend(x, r[..|r| - 1], s[..|s| - 1]);
        } else {
          SubsequencePrepend(x, r, s[..|s| - 1]);
        }
      }
    }
  }

  /** An entry put in front of the larger side only keeps a subsequence
      one. */
  lemma {:induction false} SubsequenceSkip<T>(x: T, r: seq<T>, s: seq<T>)
    requires IsSubsequence(r, s)
    ensures IsSubsequence(r, [x] + s)
    decreases |s|
  {
    if |r| > 0 {
      var xs := [x] + s;
      assert xs[..|xs| - 1] == [x] + s[..|s| - 1];
      if r[|r| - 1] == s[|s| - 1] {
        SubsequenceSkip(x, r[..|r| - 1], s[..|s| - 1]);
      } else {
        SubsequenceSkip(x, r, s[..|s| - 1]);
      }
    }
  }

  /** The reversal `s[::-1]` of a sequence. */
  function Reverse<T>(s: seq<T>): (r: seq<T>)
    ensures |r| == |s|
    ensures forall i :: 0 <= i < |s| ==> r[i] == s[|s| - 1 - i]
  {
    if |s| == 0 then [] else Reverse(s[1..]) + [s[0]]
  }

  /** Reversing twice restores the sequence. */
  lemma ReverseInvolution<T>(s: seq<T>)
    ensures Reverse(Reverse(s)) == s
  {
  }
}
