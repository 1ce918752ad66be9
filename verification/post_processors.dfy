/**
 * The two regular-expression post-processors of pkg/configen/repository.go.
 *
 * Each is modelled twice: as the left-to-right scan Go's ReplaceAllString
 * performs with its regular expression (leftmost match first, non-overlapping,
 * resuming after each match), and as a character-level description of which
 * bytes survive. The lemmas prove the two agree.
 */
module PostProcessors {
  import opened Wrappers
  import opened ConfigenModel

  const TAB: byte := 9
  const NL: byte := 10
  const FF: byte := 12
  const CR: byte := 13
  const SP: byte := 32
  const COMMA: byte := 44
  const RBRACKET: byte := 93
  const RBRACE: byte := 125

  /** What a post-processor returns. */
  datatype Processed = Processed(bytes: seq<byte>, err: Option<Error>)

  /** Go's `\s`: tab, newline, form feed, carriage return, space. */
  predicate IsSpace(b: byte)
  {
    b == TAB || b == NL || b == FF || b == CR || b == SP
  }

  predicate IsClose(b: byte)
  {
    b == RBRACE || b == RBRACKET
  }

  /** The first index at or after `i` that does not hold a `\s` byte. */
  function SkipSpace(s: seq<byte>, i: nat): (j: nat)
    requires i <= |s|
    ensures i <= j <= |s|
    ensures forall k :: i <= k < j ==> IsSpace(s[k])
    ensures j < |s| ==> !IsSpace(s[j])
    decreases |s| - i
  {
    if i == |s| || !IsSpace(s[i]) then i else SkipSpace(s, i + 1)
  }

  // ---------------------------------------------------------------------
  // removeTrailingCommas: `(\s*),(\s*[}\]])` replaced by `$1$2`

  /** The byte at `i` is a comma whose next non-`\s` byte closes an object or array. */
  predicate TrailingCommaAt(s: seq<byte>, i: nat)
    requires i < |s|
  {
    s[i] == COMMA && var j := SkipSpace(s, i + 1); j < |s| && IsClose(s[j])
  }

  /** The bytes of `s` from `i` on, in order, with every trailing comma left out. */
  function WithoutTrailingCommas(s: seq<byte>, i: nat): seq<byte>
    requires i <= |s|
    decreases |s| - i
  {
    if i == |s| then []
    else (if TrailingCommaAt(s, i) then [] else [s[i]]) + WithoutTrailingCommas(s, i + 1)
  }

  /** A match of the pattern: the index of its comma and the index just past it. */
  datatype CommaMatch = NoCommaMatch | CommaMatch(comma: nat, end: nat)

  /** The match of `(\s*),(\s*[}\]])` that starts exactly at `i`, if any (it is unique). */
  function MatchTrailingComma(s: seq<byte>, i: nat): (m: CommaMatch)
    requires i <= |s|
    ensures m.CommaMatch? ==> i <= m.comma < m.end <= |s|
  {
    var j := SkipSpace(s, i);
    if j < |s| && s[j] == COMMA then
      var k := SkipSpace(s, j + 1);
      if k < |s| && IsClose(s[k]) then CommaMatch(j, k + 1) else NoCommaMatch
    else NoCommaMatch
  }

  /** ReplaceAllString from position `i`: each match keeps its groups `$1$2`, dropping the comma. */
  function ReplaceTrailingCommas(s: seq<byte>, i: nat): (r: seq<byte>)
    requires i <= |s|
    ensures |r| <= |s| - i
    decreases |s| - i
  {
    if i == |s| then []
    else
      match MatchTrailingComma(s, i)
      case CommaMatch(j, e) => s[i..j] + s[j + 1..e] + ReplaceTrailingCommas(s, e)
      case NoCommaMatch => [s[i]] + ReplaceTrailingCommas(s, i + 1)
  }

  lemma {:induction false} KeptCommaRun(s: seq<byte>, a: nat, b: nat)
    requires a <= b <= |s|
    requires forall p :: a <= p < b ==> !TrailingCommaAt(s, p)
    ensures WithoutTrailingCommas(s, a) == s[a..b] + WithoutTrailingCommas(s, b)
    decreases b - a
  {
    if a < b {
      assert !TrailingCommaAt(s, a);
      assert WithoutTrailingCommas(s, a) == [s[a]] + WithoutTrailingCommas(s, a + 1);
      KeptCommaRun(s, a + 1, b);
      assert s[a..b] == [s[a]] + s[a + 1..b];
    }
  }

  /** A match covers spaces, one trailing comma, spaces and a closing bracket; only the comma is dropped. */
  lemma CommaMatchDeletesComma(s: seq<byte>, i: nat)
    requires i <= |s| && MatchTrailingComma(s, i).CommaMatch?
    ensures var m := MatchTrailingComma(s, i);
      && (forall p :: i <= p < m.comma ==> !TrailingCommaAt(s, p))
      && TrailingCommaAt(s, m.comma)
      && (forall p :: m.comma < p < m.end ==> !TrailingCommaAt(s, p))
      && WithoutTrailingCommas(s, m.comma) == WithoutTrailingCommas(s, m.comma + 1)
  {
    var m := MatchTrailingComma(s, i);
    var j := SkipSpace(s, i);
    var k := SkipSpace(s, j + 1);
    assert m.comma == j && m.end == k + 1;
    assert TrailingCommaAt(s, j);
  }

  /** Where no match starts, the byte there is not a trailing comma. */
  lemma NoCommaMatchKeeps(s: seq<byte>, i: nat)
    requires i < |s| && MatchTrailingComma(s, i).NoCommaMatch?
    ensures !TrailingCommaAt(s, i)
    ensures WithoutTrailingCommas(s, i) == [s[i]] + WithoutTrailingCommas(s, i + 1)
  {
    if s[i] == COMMA {
      assert SkipSpace(s, i) == i;
    }
  }

  /** What a match contributes to the character-level result: its bytes without the comma. */
  lemma CommaMatchStep(s: seq<byte>, i: nat)
    requires i <= |s| && MatchTrailingComma(s, i).CommaMatch?
    ensures var m := MatchTrailingComma(s, i);
      WithoutTrailingCommas(s, i) == s[i..m.comma] + s[m.comma + 1..m.end] + WithoutTrailingCommas(s, m.end)
  {
    var m := MatchTrailingComma(s, i);
    var j, e := m.comma, m.end;
    CommaMatchDeletesComma(s, i);
    KeptCommaRun(s, i, j);
    KeptCommaRun(s, j + 1, e);
    calc {
      WithoutTrailingCommas(s, i);
      s[i..j] + WithoutTrailingCommas(s, j + 1);
      s[i..j] + (s[j + 1..e] + WithoutTrailingCommas(s, e));
      s[i..j] + s[j + 1..e] + WithoutTrailingCommas(s, e);
    }
  }

  /** The regular-expression scan deletes exactly the trailing commas. */
  lemma {:induction false} ScanRemovesTrailingCommas(s: seq<byte>, i: nat)
    requires i <= |s|
    ensures ReplaceTrailingCommas(s, i) == WithoutTrailingCommas(s, i)
    decreases |s| - i
  {
    if i < |s| {
      var m := MatchTrailingComma(s, i);
      if m.CommaMatch? {
        CommaMatchStep(s, i);
        ScanRemovesTrailingCommas(s, m.end);
      } else {
        NoCommaMatchKeeps(s, i);
        ScanRemovesTrailingCommas(s, i + 1);
      }
    }
  }

  /** removeTrailingCommas: deletes every trailing comma, keeps all other bytes in order, never fails. */
  function RemoveTrailingCommas(value: seq<byte>): (r: Processed)
    ensures r.err == None
    ensures r.bytes == WithoutTrailingCommas(value, 0)
  {
    ScanRemovesTrailingCommas(value, 0);
    Processed(ReplaceTrailingCommas(value, 0), None)
  }

  /** A single pass: a comma made trailing by a deletion is kept, so the pass is not idempotent. */
  lemma TrailingCommasSinglePass()
    ensures RemoveTrailingCommas([COMMA, COMMA, RBRACKET]).bytes == [COMMA, RBRACKET]
  {
    var s := [COMMA, COMMA, RBRACKET];
    assert SkipSpace(s, 3) == 3;
    assert SkipSpace(s, 2) == 2;
    assert SkipSpace(s, 1) == 1;
    assert TrailingCommaAt(s, 1);
    assert !TrailingCommaAt(s, 0);
    assert !TrailingCommaAt(s, 2);
    assert WithoutTrailingCommas(s, 3) == [];
    assert WithoutTrailingCommas(s, 2) == [RBRACKET];
    assert WithoutTrailingCommas(s, 1) == [RBRACKET];
  }

  /** The whitespace on both sides of a deleted comma stays, as in `"v2"  ,  }`. */
  lemma TrailingCommaKeepsSpace()
    ensures RemoveTrailingCommas([SP, COMMA, SP, RBRACE]).bytes == [SP, SP, RBRACE]
  {
    var s := [SP, COMMA, SP, RBRACE];
    assert SkipSpace(s, 2) == 3;
    assert TrailingCommaAt(s, 1);
    assert WithoutTrailingCommas(s, 4) == [];
    assert WithoutTrailingCommas(s, 3) == [RBRACE];
    assert WithoutTrailingCommas(s, 2) == [SP, RBRACE];
    assert WithoutTrailingCommas(s, 1) == [SP, RBRACE];
  }

  // ---------------------------------------------------------------------
  // removeEmptyLines: `\n(( )*\n)+` replaced by `\n`

  /** The first index at or after `i` that does not hold a space (tabs are not spaces here). */
  function SkipBlanks(s: seq<byte>, i: nat): (j: nat)
    requires i <= |s|
    ensures i <= j <= |s|
    ensures forall k :: i <= k < j ==> s[k] == SP
    ensures j < |s| ==> s[j] != SP
    decreases |s| - i
  {
    if i == |s| || s[i] != SP then i else SkipBlanks(s, i + 1)
  }

  /** The nearest byte before `i` that is not a space exists and is a newline. */
  predicate AfterNewline(s: seq<byte>, i: nat)
    requires i <= |s|
    decreases i
  {
    i > 0 && (s[i - 1] == NL || (s[i - 1] == SP && AfterNewline(s, i - 1)))
  }

  /** The first byte at or after `i` that is not a space exists and is a newline. */
  predicate NewlineAhead(s: seq<byte>, i: nat)
    requires i <= |s|
  {
    var j := SkipBlanks(s, i); j < |s| && s[j] == NL
  }

  /**
   * The byte at `i` belongs to an empty line: it is a space or a newline, only
   * spaces lie between it and the preceding newline, and only spaces lie between
   * it and the next newline. A newline qualifies when the line it ends is empty.
   */
  predicate OnEmptyLine(s: seq<byte>, i: nat)
    requires i < |s|
  {
    AfterNewline(s, i) && NewlineAhead(s, i)
  }

  /** The bytes of `s` from `i` on, in order, with every byte of an empty line left out. */
  function WithoutEmptyLines(s: seq<byte>, i: nat): seq<byte>
    requires i <= |s|
    decreases |s| - i
  {
    if i == |s| then []
    else (if OnEmptyLine(s, i) then [] else [s[i]]) + WithoutEmptyLines(s, i + 1)
  }

  /** No newline in `r` is preceded by a newline with only spaces in between. */
  predicate NoEmptyLine(r: seq<byte>)
  {
    forall p :: 0 <= p < |r| && r[p] == NL ==> !AfterNewline(r, p)
  }

  lemma {:induction false} AfterNewlineRun(s: seq<byte>, k: nat, p: nat)
    requires 0 < k <= p <= |s| && s[k - 1] == NL
    requires forall q :: k <= q < p ==> s[q] == SP
    ensures AfterNewline(s, p)
    decreases p
  {
    if p > k {
      AfterNewlineRun(s, k, p - 1);
    }
  }

  lemma {:induction false} SkipBlanksRun(s: seq<byte>, p: nat, j: nat)
    requires p <= j <= |s|
    requires forall q :: p <= q < j ==> s[q] == SP
    requires j == |s| || s[j] != SP
    ensures SkipBlanks(s, p) == j
    decreases j - p
  {
    if p < j {
      SkipBlanksRun(s, p + 1, j);
    }
  }

  /** Every byte from just after a newline up to and including the next newline is on an empty line, when only spaces lie between. */
  lemma EmptyLineRun(s: seq<byte>, k: nat, j: nat)
    requires 0 < k <= j < |s| && s[k - 1] == NL
    requires j == SkipBlanks(s, k) && s[j] == NL
    ensures forall p :: k <= p <= j ==> OnEmptyLine(s, p)
  {
    forall p | k <= p <= j
      ensures OnEmptyLine(s, p)
    {
      AfterNewlineRun(s, k, p);
      SkipBlanksRun(s, p, j);
    }
  }

  /**
   * The end of the greedy `(( )*\n)*` starting at `k`, just after a newline:
   * all of it lies on empty lines and no further empty line follows.
   */
  function EmptyLinesEnd(s: seq<byte>, k: nat): (e: nat)
    requires 0 < k <= |s| && s[k - 1] == NL
    ensures k <= e <= |s| && s[e - 1] == NL
    ensures !NewlineAhead(s, e)
    ensures NewlineAhead(s, k) ==> e > k
    ensures forall p :: k <= p < e ==> OnEmptyLine(s, p)
    decreases |s| - k
  {
    var j := SkipBlanks(s, k);
    if j < |s| && s[j] == NL then
      EmptyLineRun(s, k, j);
      EmptyLinesEnd(s, j + 1)
    else k
  }

  /** ReplaceAllString from position `i`: each match `\n(( )*\n)+` becomes a single newline. */
  function ReplaceEmptyLines(s: seq<byte>, i: nat): (r: seq<byte>)
    requires i <= |s|
    ensures |r| <= |s| - i
    decreases |s| - i
  {
    if i == |s| then []
    else if s[i] == NL && NewlineAhead(s, i + 1) then [NL] + ReplaceEmptyLines(s, EmptyLinesEnd(s, i + 1))
    else [s[i]] + ReplaceEmptyLines(s, i + 1)
  }

  /** The scan never resumes in the middle of an empty line. */
  predicate ScanPosition(s: seq<byte>, i: nat)
    requires i <= |s|
  {
    !(AfterNewline(s, i) && NewlineAhead(s, i))
  }

  lemma {:induction false} DroppedRun(s: seq<byte>, a: nat, b: nat)
    requires a <= b <= |s|
    requires forall p :: a <= p < b ==> OnEmptyLine(s, p)
    ensures WithoutEmptyLines(s, a) == WithoutEmptyLines(s, b)
    decreases b - a
  {
    if a < b {
      DroppedRun(s, a + 1, b);
    }
  }

  /** Moving the scan past a byte that is not matched keeps it at a valid position. */
  lemma ScanStep(s: seq<byte>, i: nat)
    requires i < |s| && ScanPosition(s, i)
    requires !(s[i] == NL && NewlineAhead(s, i + 1))
    ensures ScanPosition(s, i + 1)
  {
    if s[i] == SP {
      assert AfterNewline(s, i + 1) == AfterNewline(s, i);
      assert SkipBlanks(s, i) == SkipBlanks(s, i + 1);
    }
  }

  /** The regular-expression scan deletes exactly the bytes on empty lines. */
  lemma {:induction false} ScanRemovesEmptyLines(s: seq<byte>, i: nat)
    requires i <= |s| && ScanPosition(s, i)
    ensures ReplaceEmptyLines(s, i) == WithoutEmptyLines(s, i)
    decreases |s| - i
  {
    if i < |s| {
      assert !OnEmptyLine(s, i);
      if s[i] == NL && NewlineAhead(s, i + 1) {
        var e := EmptyLinesEnd(s, i + 1);
        DroppedRun(s, i + 1, e);
        assert AfterNewline(s, e);
        ScanRemovesEmptyLines(s, e);
      } else {
        ScanStep(s, i);
        ScanRemovesEmptyLines(s, i + 1);
      }
    }
  }

  lemma {:induction false} SkipBlanksShift(c: byte, t: seq<byte>, i: nat)
    requires i <= |t|
    ensures SkipBlanks([c] + t, i + 1) == 1 + SkipBlanks(t, i)
    decreases |t| - i
  {
    var r := [c] + t;
    assert r[i + 1..] == t[i..];
    if i < |t| && t[i] == SP {
      SkipBlanksShift(c, t, i + 1);
    }
  }

  lemma {:induction false} AfterNewlineCons(c: byte, t: seq<byte>, p: nat)
    requires p <= |t|
    ensures AfterNewline([c] + t, p + 1) ==> AfterNewline(t, p) || (c == NL && SkipBlanks(t, 0) >= p)
    decreases p
  {
    var r := [c] + t;
    if p > 0 {
      assert r[p] == t[p - 1];
      AfterNewlineCons(c, t, p - 1);
    } else {
      assert r[0] == c;
      assert !AfterNewline(r, 0);
    }
  }

  /** Prefixing a byte keeps a text free of empty lines unless it is a newline before an empty line. */
  lemma NoEmptyLineCons(c: byte, t: seq<byte>)
    requires NoEmptyLine(t)
    requires c == NL ==> !NewlineAhead(t, 0)
    ensures NoEmptyLine([c] + t)
  {
    var r := [c] + t;
    forall p | 0 <= p < |r| && r[p] == NL
      ensures !AfterNewline(r, p)
    {
      if p > 0 {
        assert t[p - 1] == NL;
        AfterNewlineCons(c, t, p - 1);
      }
    }
  }

  /** The scan's output has no empty line, and does not start with one right after a newline. */
  lemma {:induction false} ScanLeavesNoEmptyLine(s: seq<byte>, i: nat)
    requires i <= |s| && ScanPosition(s, i)
    ensures NoEmptyLine(ReplaceEmptyLines(s, i))
    ensures AfterNewline(s, i) ==> !NewlineAhead(ReplaceEmptyLines(s, i), 0)
    decreases |s| - i
  {
    if i < |s| {
      var r := ReplaceEmptyLines(s, i);
      if s[i] == NL && NewlineAhead(s, i + 1) {
        var e := EmptyLinesEnd(s, i + 1);
        assert AfterNewline(s, e);
        ScanLeavesNoEmptyLine(s, e);
        NoEmptyLineCons(NL, ReplaceEmptyLines(s, e));
        assert SkipBlanks(s, i) == i;
      } else {
        ScanStep(s, i);
        var rest := ReplaceEmptyLines(s, i + 1);
        ScanLeavesNoEmptyLine(s, i + 1);
        if s[i] == NL {
          assert SkipBlanks(s, i) == i;
          assert AfterNewline(s, i + 1);
        }
        NoEmptyLineCons(s[i], rest);
        if AfterNewline(s, i) {
          if s[i] == SP {
            assert AfterNewline(s, i + 1);
            SkipBlanksShift(SP, rest, 0);
            assert SkipBlanks(r, 0) == SkipBlanks(r, 1);
          } else {
            assert SkipBlanks(r, 0) == 0;
          }
        }
      }
    }
  }

  /** A newline followed by a blank line and an empty line collapses to one newline. */
  lemma EmptyLinesCollapse()
    ensures RemoveEmptyLines([NL, SP, NL, NL, RBRACE]).bytes == [NL, RBRACE]
  {
    var s := [NL, SP, NL, NL, RBRACE];
    assert SkipBlanks(s, 4) == 4 && SkipBlanks(s, 3) == 3 && SkipBlanks(s, 2) == 2;
    assert !AfterNewline(s, 0) && AfterNewline(s, 1);
    assert !NewlineAhead(s, 4);
    assert OnEmptyLine(s, 1) && OnEmptyLine(s, 2) && OnEmptyLine(s, 3);
    assert WithoutEmptyLines(s, 5) == [];
    assert WithoutEmptyLines(s, 4) == [RBRACE];
    assert WithoutEmptyLines(s, 3) == [RBRACE];
    assert WithoutEmptyLines(s, 2) == [RBRACE];
    assert WithoutEmptyLines(s, 1) == [RBRACE];
  }

  /** removeEmptyLines: deletes exactly the bytes of empty lines, leaves none behind, never fails. */
  function RemoveEmptyLines(value: seq<byte>): (r: Processed)
    ensures r.err == None
    ensures r.bytes == WithoutEmptyLines(value, 0)
    ensures NoEmptyLine(r.bytes)
  {
    ScanRemovesEmptyLines(value, 0);
    ScanLeavesNoEmptyLine(value, 0);
    Processed(ReplaceEmptyLines(value, 0), None)
  }
}
