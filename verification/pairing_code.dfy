/**
 * The pairing-code formatter of index.js:
 * `code?.match(/.{1,4}/g)?.join("-") || code`.
 * In a JavaScript regular expression `.` matches every character except a
 * line terminator, and a global match takes, from left to right, as many as
 * four such characters at a time, skipping a position where none matches.
 */
module PairingCode {

  const GROUP: nat := 4
  const SEPARATOR: char := '-'

  predicate IsLineTerminator(c: char) {
    c == '\n' || c == '\r' || c == '\U{2028}' || c == '\U{2029}'
  }

  predicate NoLineTerminator(s: string) {
    forall i :: 0 <= i < |s| ==> !IsLineTerminator(s[i])
  }

  /** How many characters `.{1,k}` consumes at the start of `s` (0 when it does not match). */
  function RunLength(s: string, k: nat): (n: nat)
    ensures n <= k && n <= |s|
    ensures NoLineTerminator(s[..n])
    ensures n < k && n < |s| ==> IsLineTerminator(s[n])
    decreases k
  {
    if k == 0 || |s| == 0 || IsLineTerminator(s[0]) then 0
    else
      var m := RunLength(s[1..], k - 1);
      assert s[..m + 1] == [s[0]] + s[1..][..m];
      1 + m
  }

  /** The array `s.match(/.{1,4}/g)` returns, empty where JavaScript returns `null`. */
  function Matches(s: string): (g: seq<string>)
    ensures forall i :: 0 <= i < |g| ==> 1 <= |g[i]| <= GROUP && NoLineTerminator(g[i])
    decreases |s|
  {
    if |s| == 0 then []
    else if IsLineTerminator(s[0]) then Matches(s[1..])
    else
      var n := RunLength(s, GROUP);
      [s[..n]] + Matches(s[n..])
  }

  /** `g.join(sep)` */
  function Join(g: seq<string>, sep: char): string {
    if |g| == 0 then ""
    else if |g| == 1 then g[0]
    else g[0] + [sep] + Join(g[1..], sep)
  }

  /**
   * The formatted code. A raw code made only of line terminators gives no
   * match and is kept as it is; any other code comes out free of line
   * terminators.
   */
  function Format(code: string): (r: string)
    ensures Printable(code) == "" ==> r == code
    ensures Printable(code) != "" ==> NoLineTerminator(r)
  {
    var g := Matches(code);
    MatchesCoverPrintable(code);
    if |g| == 0 then code
    else
      JoinNoLineTerminator(g);
      Join(g, SEPARATOR)
  }

  /** Groups without line terminators, joined by the separator, have none either. */
  lemma {:induction false} JoinNoLineTerminator(g: seq<string>)
    requires forall i :: 0 <= i < |g| ==> NoLineTerminator(g[i])
    ensures NoLineTerminator(Join(g, SEPARATOR))
    decreases |g|
  {
    if |g| > 1 {
      JoinNoLineTerminator(g[1..]);
      var j := g[0] + [SEPARATOR] + Join(g[1..], SEPARATOR);
      forall i | 0 <= i < |j|
        ensures !IsLineTerminator(j[i])
      {
        if i < |g[0]| {
          assert j[i] == g[0][i];
        } else if i > |g[0]| {
          assert j[i] == Join(g[1..], SEPARATOR)[i - |g[0]| - 1];
        }
      }
    }
  }

  function Concat(g: seq<string>): string {
    if |g| == 0 then "" else g[0] + Concat(g[1..])
  }

  /** The characters of `s` that are not line terminators, in order. */
  function Printable(s: string): (r: string)
    ensures NoLineTerminator(r)
    decreases |s|
  {
    if |s| == 0 then ""
    else (if IsLineTerminator(s[0]) then "" else [s[0]]) + Printable(s[1..])
  }

  /** `s` with every hyphen removed: the inverse a reader applies to a formatted code. */
  function StripHyphens(s: string): (r: string)
    ensures SEPARATOR !in r
    decreases |s|
  {
    if |s| == 0 then ""
    else (if s[0] == SEPARATOR then "" else [s[0]]) + StripHyphens(s[1..])
  }

  lemma {:induction false} PrintableOfPlain(s: string)
    requires NoLineTerminator(s)
    ensures Printable(s) == s
    decreases |s|
  {
    if |s| > 0 {
      PrintableOfPlain(s[1..]);
    }
  }

  lemma {:induction false} PrintableConcat(a: string, b: string)
    ensures Printable(a + b) == Printable(a) + Printable(b)
    decreases |a|
  {
    if |a| > 0 {
      assert (a + b)[1..] == a[1..] + b;
      PrintableConcat(a[1..], b);
    } else {
      assert a + b == b;
    }
  }

  /** The matches, laid end to end, are exactly the characters of `s` a `.` can match. */
  lemma {:induction false} MatchesCoverPrintable(s: string)
    ensures Concat(Matches(s)) == Printable(s)
    decreases |s|
  {
    if |s| > 0 {
      if IsLineTerminator(s[0]) {
        MatchesCoverPrintable(s[1..]);
      } else {
        var n := RunLength(s, GROUP);
        MatchesCoverPrintable(s[n..]);
        assert s == s[..n] + s[n..];
        PrintableConcat(s[..n], s[n..]);
        PrintableOfPlain(s[..n]);
      }
    }
  }

  /** Without line terminators, the first match is the first four characters (or all of a shorter code). */
  lemma PlainMatches(s: string)
    requires NoLineTerminator(s) && |s| > 0
    ensures |s| <= GROUP ==> Matches(s) == [s]
    ensures |s| > GROUP ==> Matches(s) == [s[..GROUP]] + Matches(s[GROUP..])
  {
    var n := RunLength(s, GROUP);
    assert n == GROUP || n == |s|;
    if |s| <= GROUP {
      assert s[..n] == s;
      assert Matches(s[n..]) == [];
    }
  }

  /**
   * A code without line terminators is cut into groups of four joined by
   * hyphens: a code of at most four characters is unchanged, a longer one is
   * its first four characters, a hyphen, and the formatted rest.
   */
  lemma FormatGroupsOfFour(code: string)
    requires NoLineTerminator(code) && |code| > 0
    ensures |code| <= GROUP ==> Format(code) == code
    ensures |code| > GROUP ==> Format(code) == code[..GROUP] + [SEPARATOR] + Format(code[GROUP..])
  {
    PlainMatches(code);
    if |code| > GROUP {
      PlainMatches(code[GROUP..]);
    }
  }

  /** Every group but the last has exactly four characters; the last has one to four. */
  lemma {:induction false} GroupSizes(code: string)
    requires NoLineTerminator(code) && |code| > 0
    ensures var g := Matches(code);
      && |g| >= 1
      && (forall i :: 0 <= i < |g| - 1 ==> |g[i]| == GROUP)
      && 1 <= |g[|g| - 1]| <= GROUP
      && Concat(g) == code
    decreases |code|
  {
    PlainMatches(code);
    MatchesCoverPrintable(code);
    PrintableOfPlain(code);
    if |code| > GROUP {
      GroupSizes(code[GROUP..]);
    }
  }

  /** The formatted code is one hyphen longer per full group that is followed by more. */
  lemma {:induction false} FormatLength(code: string)
    requires NoLineTerminator(code) && |code| > 0
    ensures |Format(code)| == |code| + (|code| - 1) / GROUP
    decreases |code|
  {
    FormatGroupsOfFour(code);
    if |code| > GROUP {
      FormatLength(code[GROUP..]);
    }
  }

  lemma {:induction false} StripHyphensConcat(a: string, b: string)
    ensures StripHyphens(a + b) == StripHyphens(a) + StripHyphens(b)
    decreases |a|
  {
    if |a| > 0 {
      assert (a + b)[1..] == a[1..] + b;
      StripHyphensConcat(a[1..], b);
    } else {
      assert a + b == b;
    }
  }

  lemma {:induction false} StripHyphensOfPlain(s: string)
    requires SEPARATOR !in s
    ensures StripHyphens(s) == s
    decreases |s|
  {
    if |s| > 0 {
      assert SEPARATOR !in s[1..];
      StripHyphensOfPlain(s[1..]);
    }
  }

  /** Removing the hyphens from a formatted hyphen-free code gives back the raw code. */
  lemma {:induction false} StripFormatted(code: string)
    requires NoLineTerminator(code) && SEPARATOR !in code
    ensures StripHyphens(Format(code)) == code
    decreases |code|
  {
    if |code| == 0 {
    } else if |code| <= GROUP {
      FormatGroupsOfFour(code);
      StripHyphensOfPlain(code);
    } else {
      FormatGroupsOfFour(code);
      var head := code[..GROUP];
      var tail := code[GROUP..];
      assert SEPARATOR !in head && SEPARATOR !in tail;
      StripFormatted(tail);
      StripGroup(head, tail, Format(tail));
      assert code == head + tail;
    }
  }

  /** Stripping a hyphen-free group, a hyphen and a text that strips to `rest` gives the group then `rest`. */
  lemma StripGroup(head: string, rest: string, f: string)
    requires SEPARATOR !in head && StripHyphens(f) == rest
    ensures StripHyphens(head + [SEPARATOR] + f) == head + rest
  {
    StripHyphensConcat(head + [SEPARATOR], f);
    StripHyphensConcat(head, [SEPARATOR]);
    StripHyphensOfPlain(head);
  }

  /** Hyphens stand exactly at the positions that end a group of five. */
  predicate HyphensEveryFifth(f: string) {
    forall i :: 0 <= i < |f| ==> (f[i] == SEPARATOR <==> i % (GROUP + 1) == GROUP)
  }

  /** Putting a hyphen-free group of four and a hyphen in front keeps the hyphens at every fifth position. */
  lemma HyphensShift(head: string, rest: string)
    requires |head| == GROUP && SEPARATOR !in head && HyphensEveryFifth(rest)
    ensures HyphensEveryFifth(head + [SEPARATOR] + rest)
  {
    var f := head + [SEPARATOR] + rest;
    forall i | 0 <= i < |f|
      ensures f[i] == SEPARATOR <==> i % (GROUP + 1) == GROUP
    {
      if i < GROUP {
        assert f[i] == head[i];
      } else if i > GROUP {
        assert f[i] == rest[i - (GROUP + 1)];
        assert (i - (GROUP + 1)) % (GROUP + 1) == i % (GROUP + 1);
      }
    }
  }

  /** In a formatted hyphen-free code the hyphens stand exactly at every fifth position. */
  lemma {:induction false} HyphenPositions(code: string)
    requires NoLineTerminator(code) && SEPARATOR !in code && |code| > 0
    ensures HyphensEveryFifth(Format(code))
    decreases |code|
  {
    FormatGroupsOfFour(code);
    if |code| > GROUP {
      var tail := code[GROUP..];
      assert SEPARATOR !in tail;
      HyphenPositions(tail);
      assert HyphensEveryFifth(Format(tail));
      HyphensShift(code[..GROUP], Format(tail));
    } else {
      var f := Format(code);
      forall i | 0 <= i < |f|
        ensures f[i] != SEPARATOR && i % (GROUP + 1) != GROUP
      {
        assert f[i] == code[i];
      }
    }
  }

  /** A code in which nothing matches (the empty code among them) is returned unchanged. */
  lemma {:induction false} FormatWithoutMatch(code: string)
    requires forall i :: 0 <= i < |code| ==> IsLineTerminator(code[i])
    ensures Matches(code) == []
    ensures Format(code) == code
    decreases |code|
  {
    if |code| > 0 {
      FormatWithoutMatch(code[1..]);
    }
  }

  lemma FormatEmpty()
    ensures Format("") == ""
  {
    FormatWithoutMatch("");
  }

  /** A code of five to eight characters becomes two groups. */
  lemma FormatTwoGroups(code: string)
    requires NoLineTerminator(code) && GROUP < |code| <= 2 * GROUP
    ensures Format(code) == code[..GROUP] + [SEPARATOR] + code[GROUP..]
  {
    FormatGroupsOfFour(code);
    FormatGroupsOfFour(code[GROUP..]);
  }

  /** The worked example: `ABCD1234` is shown as `ABCD-1234`. */
  lemma FormatExample(raw: string)
    requires raw == "ABCD1234"
    ensures Format(raw) == "ABCD-1234"
  {
    assert NoLineTerminator(raw);
    FormatTwoGroups(raw);
    assert raw[..GROUP] + [SEPARATOR] + raw[GROUP..] == "ABCD-1234";
  }
}
