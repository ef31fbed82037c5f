/**
 Cutting UTF-8 text to a byte limit without splitting a character. Well-formedness is that of section 4 of
 RFC 3629.
 */
module Utf8Cut {
  import opened Options

  newtype Byte = b: int | 0 <= b < 0x100

  type Bytes = seq<Byte>

  // ---- well-formed text ----

  predicate Tail(b: Byte) {
    0x80 <= b <= 0xBF
  }

  predicate Two(s: Bytes) {
    |s| >= 2 && 0xC2 <= s[0] <= 0xDF && Tail(s[1])
  }

  predicate Three(s: Bytes) {
    && |s| >= 3 && Tail(s[1]) && Tail(s[2])
    && (|| (s[0] == 0xE0 && 0xA0 <= s[1])
        || 0xE1 <= s[0] <= 0xEC
        || (s[0] == 0xED && s[1] <= 0x9F)
        || 0xEE <= s[0] <= 0xEF)
  }

  predicate Four(s: Bytes) {
    && |s| >= 4 && Tail(s[1]) && Tail(s[2]) && Tail(s[3])
    && (|| (s[0] == 0xF0 && 0x90 <= s[1])
        || 0xF1 <= s[0] <= 0xF3
        || (s[0] == 0xF4 && s[1] <= 0x8F))
  }

  /** The bytes of the character at the start, or 0 where no character is. */
  function CharLen(s: Bytes): (n: nat)
    ensures n <= |s|
  {
    if |s| >= 1 && s[0] <= 0x7F then 1
    else if Two(s) then 2
    else if Three(s) then 3
    else if Four(s) then 4
    else 0
  }

  predicate WellFormed(s: Bytes) {
    s == [] || (CharLen(s) > 0 && WellFormed(s[CharLen(s)..]))
  }

  /** Whole characters lie before `i`. */
  predicate Boundary(s: Bytes, i: nat)
    decreases |s|
  {
    i == 0 || (CharLen(s) > 0 && CharLen(s) <= i && Boundary(s[CharLen(s)..], i - CharLen(s)))
  }

  predicate RuneStart(b: Byte) {
    !Tail(b)
  }

  lemma {:induction false} BoundaryIsRuneStart(s: Bytes, i: nat)
    requires WellFormed(s) && i < |s|
    ensures Boundary(s, i) <==> RuneStart(s[i])
  {
    var n := CharLen(s);
    if i >= n {
      BoundaryIsRuneStart(s[n..], i - n);
    }
  }

  lemma {:induction false} EndIsBoundary(s: Bytes)
    requires WellFormed(s)
    ensures Boundary(s, |s|)
  {
    if s != [] {
      EndIsBoundary(s[CharLen(s)..]);
    }
  }

  lemma CharLenOfPrefix(s: Bytes, i: nat)
    requires 0 < CharLen(s) <= i <= |s|
    ensures CharLen(s[..i]) == CharLen(s)
  {
    var p := s[..i];
    assert p[0] == s[0];
    assert i >= 2 ==> p[1] == s[1];
    assert i >= 3 ==> p[2] == s[2];
    assert i >= 4 ==> p[3] == s[3];
  }

  lemma {:induction false} PrefixIsWellFormed(s: Bytes, i: nat)
    requires WellFormed(s) && Boundary(s, i)
    ensures i <= |s| && WellFormed(s[..i]) && WellFormed(s[i..])
  {
    var n := CharLen(s);
    if i > 0 {
      PrefixIsWellFormed(s[n..], i - n);
      assert s[..i][n..] == s[n..][..i - n];
      assert s[n..][i - n..] == s[i..];
      CharLenOfPrefix(s, i);
    } else {
      assert s[0..] == s;
    }
  }

  lemma CharLenOfSum(a: Bytes, b: Bytes)
    requires CharLen(a) > 0
    ensures CharLen(a + b) == CharLen(a)
  {
  }

  lemma WellFormedBehind(s: Bytes, rest: Bytes)
    requires CharLen(s) > 0 && s[CharLen(s)..] == rest && WellFormed(rest)
    ensures WellFormed(s)
  {
  }

  lemma {:induction false} SumIsWellFormed(a: Bytes, b: Bytes)
    requires WellFormed(a) && WellFormed(b)
    ensures WellFormed(a + b)
  {
    if a == [] {
      assert a + b == b;
    } else {
      var n := CharLen(a);
      SumIsWellFormed(a[n..], b);
      CharLenOfSum(a, b);
      DropOfSum(a, b, n);
      WellFormedBehind(a + b, a[n..] + b);
    }
  }

  lemma DropOfSum(a: Bytes, b: Bytes, n: nat)
    requires n <= |a|
    ensures (a + b)[n..] == a[n..] + b
  {
  }

  lemma BoundaryBehind(s: Bytes, j: nat)
    requires CharLen(s) > 0 && Boundary(s[CharLen(s)..], j)
    ensures Boundary(s, CharLen(s) + j)
  {
    assert CharLen(s) + j - CharLen(s) == j;
  }

  /** The character at a boundary ends at a boundary. */
  lemma {:induction false} NextBoundary(s: Bytes, i: nat)
    requires WellFormed(s) && Boundary(s, i) && i < |s|
    ensures CharLen(s[i..]) > 0 && Boundary(s, i + CharLen(s[i..]))
  {
    var (n, at) := (CharLen(s), s[i..]);
    if i == 0 {
      assert at == s;
      BoundaryBehind(s, 0);
    } else {
      NextBoundary(s[n..], i - n);
      assert s[n..][i - n..] == at;
      BoundaryBehind(s, i - n + CharLen(at));
    }
  }

  // ---- the cut ----

  /** How far back the loop goes from `at`. */
  function StepBack(s: Bytes, at: nat): (r: nat)
    requires at < |s|
    ensures r <= at
  {
    if at > 0 && !RuneStart(s[at]) then StepBack(s, at - 1) else at
  }

  function SafeCut(s: Bytes, limit: int): (r: nat)
    ensures r <= |s| && (limit >= 0 ==> r <= limit)
  {
    if limit <= 0 then 0 else if limit >= |s| then |s| else StepBack(s, limit)
  }

  method SafeCutIndex(s: Bytes, limit: int) returns (r: nat)
    ensures r == SafeCut(s, limit)
  {
    if limit <= 0 {
      return 0;
    }
    if limit >= |s| {
      return |s|;
    }
    var at := limit;
    while at > 0 && !RuneStart(s[at])
      invariant 0 <= at <= limit < |s|
      invariant StepBack(s, limit) == StepBack(s, at)
    {
      at := at - 1;
    }
    return at;
  }

  lemma {:induction false} StepBackIsLargest(s: Bytes, at: nat)
    requires WellFormed(s) && at < |s|
    ensures Boundary(s, StepBack(s, at))
    ensures forall j | StepBack(s, at) < j <= at :: !Boundary(s, j)
  {
    BoundaryIsRuneStart(s, at);
    if at > 0 && !RuneStart(s[at]) {
      StepBackIsLargest(s, at - 1);
    }
  }

  /** The cut is the largest character boundary within the limit. */
  lemma SafeCutIsLargest(s: Bytes, limit: int)
    requires WellFormed(s)
    ensures Boundary(s, SafeCut(s, limit))
    ensures forall j | 0 <= j <= limit && j <= |s| && Boundary(s, j) :: j <= SafeCut(s, limit)
  {
    if limit > 0 {
      if limit >= |s| {
        EndIsBoundary(s);
      } else {
        StepBackIsLargest(s, limit);
      }
    }
  }

  // ---- limiting a text ----

  const Dots: Bytes := [0x2E, 0x2E, 0x2E]

  function Clamped(text: Bytes, limit: int): Bytes {
    if |text| <= limit then text else text[..SafeCut(text, limit - 3)] + Dots
  }

  method ClampRunes(text: Bytes, limit: int) returns (r: Bytes)
    ensures r == Clamped(text, limit)
  {
    if |text| <= limit {
      return text;
    }
    var cut := SafeCutIndex(text, limit - 3);
    return text[..cut] + Dots;
  }

  /** A text cut at a character boundary, with or without dots behind it. */
  ghost predicate CutOf(text: Bytes, r: Bytes) {
    exists cut: nat :: cut <= |text| && Boundary(text, cut) && (r == text[..cut] || r == text[..cut] + Dots)
  }

  lemma CutIsWellFormed(text: Bytes, cut: nat)
    requires WellFormed(text) && Boundary(text, cut)
    ensures cut <= |text| && WellFormed(text[..cut]) && WellFormed(text[..cut] + Dots)
  {
    PrefixIsWellFormed(text, cut);
    SumIsWellFormed(text[..cut], Dots);
  }

  /** The result is well-formed, the text itself if that fits and else a cut of it; it keeps the limit exactly
      when the text fits or the limit has room for the dots. */
  lemma ClampedIsClean(text: Bytes, limit: int)
    requires WellFormed(text)
    ensures var r := Clamped(text, limit);
      && WellFormed(r)
      && (|text| <= limit ==> r == text)
      && CutOf(text, r)
      && (|r| <= limit <==> |text| <= limit || limit >= 3)
      && (|text| > limit ==> |r| >= 3 && r[|r| - 3..] == Dots)
  {
    if |text| <= limit {
      EndIsBoundary(text);
      assert text[..|text|] == text;
    } else {
      SafeCutIsLargest(text, limit - 3);
      CutIsWellFormed(text, SafeCut(text, limit - 3));
    }
  }

  /** Nothing that would still fit is cut away. */
  lemma ClampedIsLongest(text: Bytes, limit: int, j: nat)
    requires WellFormed(text) && |text| > limit && j <= |text| && Boundary(text, j) && j + 3 <= limit
    ensures text[..j] <= Clamped(text, limit)
  {
    SafeCutIsLargest(text, limit - 3);
    var cut := SafeCut(text, limit - 3);
    assert text[..cut][..j] == text[..j];
  }

  // ---- limiting a text at a sentence or a word ----

  /** The six sentence marks: the ideographic full stop, the fullwidth exclamation and question marks, and
      their ASCII forms. */
  function MarkLen(s: Bytes): (n: nat)
    ensures n <= |s|
  {
    if |s| >= 1 && (s[0] == 0x2E || s[0] == 0x21 || s[0] == 0x3F) then 1
    else if |s| >= 3 && s[0] == 0xE3 && s[1] == 0x80 && s[2] == 0x82 then 3
    else if |s| >= 3 && s[0] == 0xEF && s[1] == 0xBC && (s[2] == 0x81 || s[2] == 0x9F) then 3
    else 0
  }

  /** strings.LastIndexAny over the marks: the last of them at an index below `n`, or -1. It decodes backwards,
      and bytes that are no character are none of the marks, so in any text it finds the marks' own bytes. */
  function LastMark(s: Bytes, n: nat): (r: int)
    requires n <= |s|
    ensures -1 <= r < n
    ensures r >= 0 ==> MarkLen(s[r..]) > 0
  {
    if n == 0 then -1 else if MarkLen(s[n - 1..]) > 0 then n - 1 else LastMark(s, n - 1)
  }

  function LastBlank(s: Bytes, n: nat): (r: int)
    requires n <= |s|
    ensures -1 <= r < n
    ensures r >= 0 ==> s[r] == 0x20
  {
    if n == 0 then -1 else if s[n - 1] == 0x20 then n - 1 else LastBlank(s, n - 1)
  }

  lemma {:induction false} LastMarkIsLast(s: Bytes, n: nat, m: nat)
    requires m < n <= |s| && MarkLen(s[m..]) > 0
    ensures m <= LastMark(s, n)
  {
    if MarkLen(s[n - 1..]) == 0 {
      LastMarkIsLast(s, n - 1, m);
    }
  }

  lemma {:induction false} LastBlankIsLast(s: Bytes, n: nat, m: nat)
    requires m < n <= |s| && s[m] == 0x20
    ensures m <= LastBlank(s, n)
  {
    if s[n - 1] != 0x20 {
      LastBlankIsLast(s, n - 1, m);
    }
  }

  /** Division as Go does it, toward zero. */
  function Half(n: int): int {
    if n >= 0 then n / 2 else -((-n) / 2)
  }

  /** `None` stands for the panic of a slice that starts before the text. */
  function Truncated(text: Bytes, limit: int): Option<Bytes> {
    if |text| <= limit then Some(text)
    else
      var kept := text[..SafeCut(text, limit - 3)];
      var mark := LastMark(kept, |kept|);
      var blank := LastBlank(kept, |kept|);
      if mark > Half(limit) then
        if mark < 0 then None else Some(text[..mark + MarkLen(kept[mark..])])
      else if blank > Half(limit) then
        if blank < 0 then None else Some(text[..blank] + Dots)
      else Some(kept + Dots)
  }

  method LastIndexAnyMark(s: Bytes) returns (r: int)
    ensures r == LastMark(s, |s|)
  {
    var n := |s|;
    while n > 0
      invariant 0 <= n <= |s| && LastMark(s, |s|) == LastMark(s, n)
    {
      if MarkLen(s[n - 1..]) > 0 {
        return n - 1;
      }
      n := n - 1;
    }
    return -1;
  }

  method LastIndexBlank(s: Bytes) returns (r: int)
    ensures r == LastBlank(s, |s|)
  {
    var n := |s|;
    while n > 0
      invariant 0 <= n <= |s| && LastBlank(s, |s|) == LastBlank(s, n)
    {
      if s[n - 1] == 0x20 {
        return n - 1;
      }
      n := n - 1;
    }
    return -1;
  }

  /** The mark is decoded from the text again, behind the cut as well as before it. */
  method TruncateText(text: Bytes, limit: int) returns (r: Option<Bytes>)
    ensures r == Truncated(text, limit)
  {
    if |text| <= limit {
      return Some(text);
    }
    var cut := SafeCutIndex(text, limit - 3);
    var truncated := text[..cut];
    var mark := LastIndexAnyMark(truncated);
    if mark > Half(limit) {
      if mark < 0 {
        return None;
      }
      var size := DecodedSize(text, limit, mark);
      return Some(text[..mark + size]);
    }
    var blank := LastIndexBlank(truncated);
    if blank > Half(limit) {
      if blank < 0 {
        return None;
      }
      return Some(text[..blank] + Dots);
    }
    return Some(truncated + Dots);
  }

  /** A mark before the cut is one character of the text and ends at a boundary before the cut. */
  lemma MarkIsChar(text: Bytes, cut: nat, mark: nat)
    requires WellFormed(text) && Boundary(text, cut) && mark < cut <= |text| && MarkLen(text[..cut][mark..]) > 0
    ensures Boundary(text, mark) && CharLen(text[mark..]) == MarkLen(text[..cut][mark..])
    ensures Boundary(text, mark + MarkLen(text[..cut][mark..])) && mark + MarkLen(text[..cut][mark..]) <= cut
  {
    var at := text[..cut][mark..];
    assert at[0] == text[mark] && text[mark..][0] == text[mark];
    BoundaryIsRuneStart(text, mark);
    assert |at| >= 3 ==> text[mark..][1] == at[1] && text[mark..][2] == at[2];
    NextBoundary(text, mark);
  }

  lemma MarkCut(text: Bytes, cut: nat, mark: nat)
    requires WellFormed(text) && Boundary(text, cut) && mark < cut <= |text| && MarkLen(text[..cut][mark..]) > 0
    ensures var end := mark + MarkLen(text[..cut][mark..]);
      end <= cut && WellFormed(text[..end]) && CutOf(text, text[..end])
  {
    MarkIsChar(text, cut, mark);
    CutIsWellFormed(text, mark + MarkLen(text[..cut][mark..]));
  }

  lemma BlankCut(text: Bytes, cut: nat, blank: nat)
    requires WellFormed(text) && blank < cut <= |text| && text[..cut][blank] == 0x20
    ensures WellFormed(text[..blank] + Dots) && CutOf(text, text[..blank] + Dots)
  {
    BoundaryIsRuneStart(text, blank);
    CutIsWellFormed(text, blank);
  }

  /** utf8.DecodeRuneInString on the text behind the cut as well. */
  method DecodedSize(text: Bytes, limit: int, mark: nat) returns (size: nat)
    requires mark < SafeCut(text, limit - 3)
    requires MarkLen(text[..SafeCut(text, limit - 3)][mark..]) > 0
    ensures size == MarkLen(text[..SafeCut(text, limit - 3)][mark..])
  {
    MarkDecodes(text, limit, mark);
    size := CharLen(text[mark..]);
  }

  /** Decoding the mark again in the whole text gives its own length, in ill-formed text as well. */
  lemma MarkDecodes(text: Bytes, limit: int, mark: nat)
    requires mark < SafeCut(text, limit - 3)
    requires MarkLen(text[..SafeCut(text, limit - 3)][mark..]) > 0
    ensures CharLen(text[mark..]) == MarkLen(text[..SafeCut(text, limit - 3)][mark..])
  {
    var (at, whole) := (text[..SafeCut(text, limit - 3)][mark..], text[mark..]);
    assert whole[..|at|] == at;
    assert at[0] == whole[0];
    assert |at| >= 3 ==> at[1] == whole[1] && at[2] == whole[2];
  }

  /** The callers ask for limits above zero only. Below -3 the half of the limit is under -1, so a mark that was
      not found would pass for one. */
  lemma PanicsBelowMinusThree(text: Bytes, limit: int)
    ensures Truncated(text, limit) == None <==> limit < -3
  {
  }

  /** The same as for clamping, at every limit the function survives. */
  lemma TruncatedIsClean(text: Bytes, limit: int)
    requires WellFormed(text) && limit >= -3
    ensures Truncated(text, limit).Some?
    ensures var r := Truncated(text, limit).value;
      && WellFormed(r)
      && (|text| <= limit ==> r == text)
      && CutOf(text, r)
      && (|r| <= limit <==> |text| <= limit || limit >= 3)
  {
    if |text| <= limit {
      EndIsBoundary(text);
      assert text[..|text|] == text;
    } else {
      var cut := SafeCut(text, limit - 3);
      SafeCutIsLargest(text, limit - 3);
      var mark := LastMark(text[..cut], |text[..cut]|);
      var blank := LastBlank(text[..cut], |text[..cut]|);
      if mark > Half(limit) {
        MarkCut(text, cut, mark);
      } else if blank > Half(limit) {
        BlankCut(text, cut, blank);
      } else {
        DotsCut(text, cut);
      }
    }
  }

  lemma DotsCut(text: Bytes, cut: nat)
    requires WellFormed(text) && Boundary(text, cut) && cut <= |text|
    ensures WellFormed(text[..cut] + Dots) && CutOf(text, text[..cut] + Dots)
  {
    CutIsWellFormed(text, cut);
  }

  /** Byte m is in the second half of what fits. */
  predicate Late(text: Bytes, limit: int, m: nat) {
    Half(limit) < m < SafeCut(text, limit - 3)
  }

  /** A sentence mark of the cut text begins at byte m. */
  predicate MarkAt(text: Bytes, limit: int, m: nat) {
    m < SafeCut(text, limit - 3) && MarkLen(text[..SafeCut(text, limit - 3)][m..]) > 0
  }

  lemma NoLateMark(text: Bytes, limit: int)
    requires limit >= 3 && forall n: nat | Late(text, limit, n) :: !MarkAt(text, limit, n)
    ensures var kept := text[..SafeCut(text, limit - 3)]; LastMark(kept, |kept|) <= Half(limit)
  {
    var kept := text[..SafeCut(text, limit - 3)];
    var r := LastMark(kept, |kept|);
    assert r >= 0 ==> MarkAt(text, limit, r);
  }

  /** The last sentence mark in the second half of what fits ends the text, with nothing put behind it. */
  lemma KeepsSentences(text: Bytes, limit: int, m: nat)
    requires |text| > limit >= 3 && Late(text, limit, m) && MarkAt(text, limit, m)
    requires forall n: nat | MarkAt(text, limit, n) :: n <= m
    ensures Truncated(text, limit) == Some(text[..m + MarkLen(text[..SafeCut(text, limit - 3)][m..])])
  {
    var kept := text[..SafeCut(text, limit - 3)];
    LastMarkIsLast(kept, |kept|, m);
    assert MarkAt(text, limit, LastMark(kept, |kept|));
  }

  /** Without such a mark, the last blank in the second half is where the dots go. */
  lemma KeepsWords(text: Bytes, limit: int, m: nat)
    requires |text| > limit >= 3 && Late(text, limit, m) && text[m] == 0x20
    requires forall n: nat | Late(text, limit, n) :: !MarkAt(text, limit, n)
    requires forall n: nat | Late(text, limit, n) && n > m :: text[n] != 0x20
    ensures Truncated(text, limit) == Some(text[..m] + Dots)
  {
    var kept := text[..SafeCut(text, limit - 3)];
    NoLateMark(text, limit);
    LastBlankIsLast(kept, |kept|, m);
    var b := LastBlank(kept, |kept|);
    assert kept[b] == 0x20 && Late(text, limit, b) && text[b] == kept[b];
    assert text[..b] == kept[..b];
  }

  /** With neither, everything that fits together with the dots is kept. */
  lemma KeepsAllThatFits(text: Bytes, limit: int, j: nat)
    requires WellFormed(text) && |text| > limit >= 3
    requires forall n: nat | Late(text, limit, n) :: !MarkAt(text, limit, n) && text[n] != 0x20
    requires j <= |text| && Boundary(text, j) && j + 3 <= limit
    ensures var r := Truncated(text, limit);
      r.Some? && text[..j] <= r.value && r.value == text[..SafeCut(text, limit - 3)] + Dots
  {
    var cut := SafeCut(text, limit - 3);
    DotsAtCut(text, limit);
    SafeCutIsLargest(text, limit - 3);
    PrefixOfCut(text, cut, j, Dots);
  }

  lemma PrefixOfCut(text: Bytes, cut: nat, j: nat, more: Bytes)
    requires j <= cut <= |text|
    ensures text[..j] <= text[..cut] + more
  {
  }

  lemma DotsAtCut(text: Bytes, limit: int)
    requires |text| > limit >= 3
    requires forall n: nat | Late(text, limit, n) :: !MarkAt(text, limit, n) && text[n] != 0x20
    ensures Truncated(text, limit) == Some(text[..SafeCut(text, limit - 3)] + Dots)
  {
    NoLateMark(text, limit);
    NoLateBlank(text, limit);
  }

  lemma NoLateBlank(text: Bytes, limit: int)
    requires limit >= 3 && forall n: nat | Late(text, limit, n) :: text[n] != 0x20
    ensures var kept := text[..SafeCut(text, limit - 3)]; LastBlank(kept, |kept|) <= Half(limit)
  {
    var kept := text[..SafeCut(text, limit - 3)];
    var b := LastBlank(kept, |kept|);
    assert b >= 0 ==> text[b] == kept[b] == 0x20 && (Late(text, limit, b) <==> b > Half(limit));
  }
}
