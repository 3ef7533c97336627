/**
 * The fragment of java.util.regex that the validator's three patterns use:
 * a pattern anchored at both ends that is a sequence of character classes,
 * each repeated between a minimum and a maximum number of times, matched
 * against the whole input (Matcher.matches) with or without CASE_INSENSITIVE.
 */
module JavaRegex {

  /** `.` (any character but a line terminator), a single character, or a range `[lo-hi]`. */
  datatype CharClass = AnyChar | Literal(c: char) | Range(lo: char, hi: char)

  /** A character class followed by the quantifier `{min,max}`. */
  datatype Piece = Piece(cls: CharClass, min: nat, max: nat)

  /** The characters `.` does not match when DOTALL and UNIX_LINES are off. */
  predicate IsLineTerminator(c: char) {
    c == '\n' || c == '\r' || c == '\U{85}' || c == '\U{2028}' || c == '\U{2029}'
  }

  function AsciiLower(c: char): char {
    if 'A' <= c <= 'Z' then (c as int + 32) as char else c
  }

  function AsciiUpper(c: char): char {
    if 'a' <= c <= 'z' then (c as int - 32) as char else c
  }

  /**
   * Membership of one character; CASE_INSENSITIVE without UNICODE_CASE folds
   * ASCII letters only.
   */
  predicate InClass(cls: CharClass, c: char, caseInsensitive: bool) {
    match cls
    case AnyChar => !IsLineTerminator(c)
    case Literal(l) => c == l || (caseInsensitive && c < 128 as char && AsciiLower(c) == AsciiLower(l))
    case Range(lo, hi) =>
      (lo <= c <= hi) ||
      (caseInsensitive && c < 128 as char && (lo <= AsciiUpper(c) <= hi || lo <= AsciiLower(c) <= hi))
  }

  /** The whole of `s` matches the pieces `ps`, in order. */
  predicate Matches(ps: seq<Piece>, s: string, caseInsensitive: bool)
    decreases |ps|, 1, 0
  {
    if ps == [] then s == []
    else Repeat(ps[0].cls, ps[0].min, ps[0].max, ps[1..], s, caseInsensitive)
  }

  /**
   * `s` starts with between `min` and `max` characters of `cls`, and the rest
   * of it matches `rest`.
   */
  predicate Repeat(cls: CharClass, min: nat, max: nat, rest: seq<Piece>, s: string, caseInsensitive: bool)
    decreases |rest| + 1, 0, max
  {
    (min == 0 && Matches(rest, s, caseInsensitive)) ||
    (max > 0 && |s| > 0 && InClass(cls, s[0], caseInsensitive) &&
     Repeat(cls, if min > 0 then min - 1 else 0, max - 1, rest, s[1..], caseInsensitive))
  }

  predicate AllIn(cls: CharClass, s: string, caseInsensitive: bool) {
    forall i :: 0 <= i < |s| ==> InClass(cls, s[i], caseInsensitive)
  }

  /** A digit range is not affected by case folding. */
  lemma DigitRangeIgnoresCase(lo: char, hi: char, c: char)
    requires '0' <= lo && hi <= '9'
    ensures InClass(Range(lo, hi), c, true) <==> lo <= c <= hi
  {
  }

  /** `cls{n}` followed by `rest`: exactly `n` characters of `cls`, then `rest`. */
  lemma {:induction false} RepeatExactly(cls: CharClass, n: nat, rest: seq<Piece>, s: string, ci: bool)
    ensures Repeat(cls, n, n, rest, s, ci) <==>
      |s| >= n && AllIn(cls, s[..n], ci) && Matches(rest, s[n..], ci)
  {
    if n > 0 {
      if |s| > 0 {
        RepeatExactly(cls, n - 1, rest, s[1..], ci);
        if |s| >= n {
          assert s[1..][..n - 1] == s[1..n];
          assert s[1..][n - 1..] == s[n..];
        }
        if |s| >= n && InClass(cls, s[0], ci) && AllIn(cls, s[1..n], ci) {
          assert AllIn(cls, s[..n], ci) by {
            forall i | 0 <= i < n ensures InClass(cls, s[..n][i], ci) {
              if i > 0 { assert s[..n][i] == s[1..n][i - 1]; }
            }
          }
        }
        if |s| >= n && AllIn(cls, s[..n], ci) {
          assert InClass(cls, s[..n][0], ci);
          assert AllIn(cls, s[1..n], ci) by {
            forall i | 0 <= i < n - 1 ensures InClass(cls, s[1..n][i], ci) {
              assert s[1..n][i] == s[..n][i + 1];
            }
          }
        }
      }
    } else {
      assert s[0..] == s;
    }
  }

  /** `cls{0,m}` at the end of a pattern: at most `m` characters, all of `cls`. */
  lemma {:induction false} RepeatUpToAtEnd(cls: CharClass, m: nat, s: string, ci: bool)
    ensures Repeat(cls, 0, m, [], s, ci) <==> |s| <= m && AllIn(cls, s, ci)
  {
    if m > 0 && |s| > 0 {
      RepeatUpToAtEnd(cls, m - 1, s[1..], ci);
      if AllIn(cls, s, ci) {
        assert InClass(cls, s[0], ci);
        assert AllIn(cls, s[1..], ci) by {
          forall i | 0 <= i < |s| - 1 ensures InClass(cls, s[1..][i], ci) {
            assert s[1..][i] == s[i + 1];
          }
        }
      }
      if InClass(cls, s[0], ci) && AllIn(cls, s[1..], ci) {
        assert AllIn(cls, s, ci) by {
          forall i | 0 <= i < |s| ensures InClass(cls, s[i], ci) {
            if i > 0 { assert s[i] == s[1..][i - 1]; }
          }
        }
      }
    }
  }

  /** `cls?` followed by `rest`. */
  lemma Optional(cls: CharClass, rest: seq<Piece>, s: string, ci: bool)
    ensures Repeat(cls, 0, 1, rest, s, ci) <==>
      Matches(rest, s, ci) || (|s| > 0 && InClass(cls, s[0], ci) && Matches(rest, s[1..], ci))
  {
    if |s| > 0 {
      assert Repeat(cls, 0, 0, rest, s[1..], ci) <==> Matches(rest, s[1..], ci);
    }
  }

  /** A pattern made of one mandatory `first` character followed by `cls{0,m}`. */
  lemma HeadThenUpTo(first: CharClass, cls: CharClass, m: nat, s: string, ci: bool)
    ensures Matches([Piece(first, 1, 1), Piece(cls, 0, m)], s, ci) <==>
      1 <= |s| <= m + 1 && InClass(first, s[0], ci) && AllIn(cls, s[1..], ci)
  {
    var ps := [Piece(first, 1, 1), Piece(cls, 0, m)];
    RepeatExactly(first, 1, ps[1..], s, ci);
    if |s| >= 1 {
      RepeatUpToAtEnd(cls, m, s[1..], ci);
      assert ps[1..][1..] == [];
      assert AllIn(first, s[..1], ci) <==> InClass(first, s[0], ci) by {
        assert s[..1][0] == s[0];
      }
    }
  }
}
