/**
 * The text normaliser (`escape_chars` in run.py): every literal two-character
 * sequence backslash, `n` becomes one newline character. The source does this
 * with a regular-expression substitution, which scans left to right and never
 * lets two matches overlap; since a backslash is not an `n`, two occurrences of
 * the pair can never overlap either, so a direct scan is the same rewrite.
 */
module Escape {

  /** True when `s` holds a backslash immediately followed by `n` at index `i`. */
  predicate PairAt(s: string, i: int)
  {
    0 <= i && i + 1 < |s| && s[i] == '\\' && s[i + 1] == 'n'
  }

  /** No backslash-`n` pair occurs anywhere in `s`. */
  predicate NoPair(s: string)
  {
    forall i :: 0 <= i < |s| - 1 ==> !(s[i] == '\\' && s[i + 1] == 'n')
  }

  /** Number of indices at which a backslash-`n` pair starts. */
  function CountPairs(s: string): nat
  {
    if |s| < 2 then 0
    else (if s[0] == '\\' && s[1] == 'n' then 1 else 0) + CountPairs(s[1..])
  }

  /** The normaliser: each backslash-`n` pair becomes a newline, all else is copied. */
  function EscapeChars(s: string): (r: string)
    ensures |r| <= |s|
    ensures |s| > 0 ==> |r| > 0
  {
    if |s| == 0 then []
    else if |s| >= 2 && s[0] == '\\' && s[1] == 'n' then ['\n'] + EscapeChars(s[2..])
    else [s[0]] + EscapeChars(s[1..])
  }

  /** The opposite rewrite: each newline becomes a backslash-`n` pair. */
  function Reescape(r: string): string
  {
    if |r| == 0 then []
    else if r[0] == '\n' then ['\\', 'n'] + Reescape(r[1..])
    else [r[0]] + Reescape(r[1..])
  }

  /** The first character of the normalised text. */
  lemma {:induction false} EscapeCharsHead(s: string)
    requires |s| > 0
    ensures EscapeChars(s)[0] == if PairAt(s, 0) then '\n' else s[0]
  {
  }

  /** The output never contains a backslash-`n` pair. */
  lemma {:induction false} EscapedHasNoPair(s: string)
    ensures NoPair(EscapeChars(s))
    decreases |s|
  {
    if |s| == 0 {
    } else if PairAt(s, 0) {
      var rest := EscapeChars(s[2..]);
      EscapedHasNoPair(s[2..]);
      assert EscapeChars(s) == ['\n'] + rest;
      forall i | 0 <= i < |EscapeChars(s)| - 1
        ensures !(EscapeChars(s)[i] == '\\' && EscapeChars(s)[i + 1] == 'n')
      {
        if i > 0 {
          assert EscapeChars(s)[i] == rest[i - 1] && EscapeChars(s)[i + 1] == rest[i];
        }
      }
    } else {
      var rest := EscapeChars(s[1..]);
      EscapedHasNoPair(s[1..]);
      assert EscapeChars(s) == [s[0]] + rest;
      forall i | 0 <= i < |EscapeChars(s)| - 1
        ensures !(EscapeChars(s)[i] == '\\' && EscapeChars(s)[i + 1] == 'n')
      {
        if i == 0 {
          // A copied backslash is followed by the image of s[1], which is a
          // newline (a pair starts at s[1]) or s[1] itself, and s[1] is not `n`.
          EscapeCharsHead(s[1..]);
        } else {
          assert EscapeChars(s)[i] == rest[i - 1] && EscapeChars(s)[i + 1] == rest[i];
        }
      }
    }
  }

  /** Text without a backslash-`n` pair is left exactly as it is. */
  lemma {:induction false} NoPairUnchanged(s: string)
    requires NoPair(s)
    ensures EscapeChars(s) == s
    decreases |s|
  {
    if |s| > 0 {
      assert !PairAt(s, 0);
      assert NoPair(s[1..]) by {
        forall i | 0 <= i < |s[1..]| - 1 ensures !(s[1..][i] == '\\' && s[1..][i + 1] == 'n') {
          assert s[1..][i] == s[i + 1] && s[1..][i + 1] == s[i + 2];
        }
      }
      NoPairUnchanged(s[1..]);
      assert s == [s[0]] + s[1..];
    }
  }

  /** Normalising twice is the same as normalising once. */
  lemma {:induction false} Idempotent(s: string)
    ensures EscapeChars(EscapeChars(s)) == EscapeChars(s)
  {
    EscapedHasNoPair(s);
    NoPairUnchanged(EscapeChars(s));
  }

  /** The length shrinks by exactly one per replaced pair. */
  lemma {:induction false} LengthAccounting(s: string)
    ensures |EscapeChars(s)| == |s| - CountPairs(s)
    decreases |s|
  {
    if |s| == 0 {
    } else if PairAt(s, 0) {
      LengthAccounting(s[2..]);
      // s[1] is `n`, not a backslash, so no pair starts at index 1.
      assert s[1..][1..] == s[2..];
      assert CountPairs(s[1..]) == CountPairs(s[2..]);
    } else {
      LengthAccounting(s[1..]);
    }
  }

  /** The first character of the re-escaped text. */
  lemma {:induction false} ReescapeHead(r: string)
    requires |r| > 0
    ensures |Reescape(r)| > 0
    ensures Reescape(r)[0] == if r[0] == '\n' then '\\' else r[0]
  {
  }

  /**
   * Only pairs are rewritten and every other character is kept, in order: on
   * text without newline characters, turning each produced newline back into
   * a pair gives back the input.
   */
  lemma {:induction false} ReescapeEscapeChars(s: string)
    requires forall i :: 0 <= i < |s| ==> s[i] != '\n'
    ensures Reescape(EscapeChars(s)) == s
    decreases |s|
  {
    if |s| == 0 {
    } else if PairAt(s, 0) {
      ReescapeEscapeChars(s[2..]);
      assert EscapeChars(s) == ['\n'] + EscapeChars(s[2..]);
      assert s == [s[0], s[1]] + s[2..];
    } else {
      ReescapeEscapeChars(s[1..]);
      assert EscapeChars(s) == [s[0]] + EscapeChars(s[1..]);
      assert s == [s[0]] + s[1..];
    }
  }

  /** Conversely, normalising re-escaped text that holds no pair gives it back. */
  lemma {:induction false} EscapeCharsReescape(r: string)
    requires NoPair(r)
    ensures EscapeChars(Reescape(r)) == r
    decreases |r|
  {
    if |r| > 0 {
      assert NoPair(r[1..]) by {
        forall i | 0 <= i < |r[1..]| - 1 ensures !(r[1..][i] == '\\' && r[1..][i + 1] == 'n') {
          assert r[1..][i] == r[i + 1] && r[1..][i + 1] == r[i + 2];
        }
      }
      EscapeCharsReescape(r[1..]);
      var tail := Reescape(r[1..]);
      if r[0] == '\n' {
        assert Reescape(r) == ['\\', 'n'] + tail;
        assert Reescape(r)[2..] == tail;
      } else {
        assert Reescape(r) == [r[0]] + tail;
        assert Reescape(r)[1..] == tail;
        if |tail| > 0 {
          // tail starts with `n` only when r[1] is `n`, and r has no pair.
          ReescapeHead(r[1..]);
        }
        assert !PairAt(Reescape(r), 0);
      }
      assert r == [r[0]] + r[1..];
    }
  }

  /** Normalising splits at any point that does not follow a backslash. */
  lemma {:induction false} EscapeCharsConcat(a: string, b: string)
    requires |a| == 0 || a[|a| - 1] != '\\'
    ensures EscapeChars(a + b) == EscapeChars(a) + EscapeChars(b)
    decreases |a|
  {
    var ab := a + b;
    if |a| == 0 {
      assert ab == b;
    } else if PairAt(a, 0) {
      assert PairAt(ab, 0) by { assert ab[0] == a[0] && ab[1] == a[1]; }
      assert ab[2..] == a[2..] + b;
      EscapeCharsConcat(a[2..], b);
      calc {
        EscapeChars(ab);
        ['\n'] + EscapeChars(a[2..] + b);
        ['\n'] + (EscapeChars(a[2..]) + EscapeChars(b));
        (['\n'] + EscapeChars(a[2..])) + EscapeChars(b);
      }
    } else {
      assert !PairAt(ab, 0) by {
        if |a| == 1 { assert ab[0] == a[0]; } else { assert ab[0] == a[0] && ab[1] == a[1]; }
      }
      assert ab[1..] == a[1..] + b;
      EscapeCharsConcat(a[1..], b);
      calc {
        EscapeChars(ab);
        [a[0]] + EscapeChars(a[1..] + b);
        [a[0]] + (EscapeChars(a[1..]) + EscapeChars(b));
        ([a[0]] + EscapeChars(a[1..])) + EscapeChars(b);
      }
    }
  }

  /**
   * Worked examples: a literal backslash-`n` becomes a line break, a backslash
   * before the pair does not protect it, and a real line break is kept.
   */
  lemma Examples()
    ensures EscapeChars("a\\nb") == "a\nb"
    ensures EscapeChars("\\\\n") == "\\\n"
    ensures EscapeChars("a\nb") == "a\nb"
  {
  }
}
