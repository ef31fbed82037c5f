/**
 Critical keywords: finding a phrase as whole words, and the clean-up of the configured list.
 */
module RoutePhrase {
  /** Text as the bytes Go indexes, already lower-cased and with single blanks. */
  type Text = seq<char>

  predicate IsWordByte(c: char) {
    'a' <= c <= 'z' || '0' <= c <= '9' || c == '_'
  }

  predicate OccursAt(text: Text, phrase: Text, i: nat) {
    i + |phrase| <= |text| && text[i..i + |phrase|] == phrase
  }

  predicate StandsAlone(text: Text, phrase: Text, i: nat)
    requires i + |phrase| <= |text|
  {
    && (i == 0 || !IsWordByte(text[i - 1]))
    && (i + |phrase| == |text| || !IsWordByte(text[i + |phrase|]))
  }

  predicate IsWordPhrase(phrase: Text) {
    && (forall i | 0 <= i < |phrase| :: IsWordByte(phrase[i]) || phrase[i] == ' ')
    && (exists i :: 0 <= i < |phrase| && IsWordByte(phrase[i]))
  }

  /** A phrase of words counts only between word boundaries; any other phrase counts anywhere. */
  ghost predicate Matches(text: Text, phrase: Text) {
    exists i: nat :: OccursAt(text, phrase, i) && (IsWordPhrase(phrase) ==> StandsAlone(text, phrase, i))
  }

  /** strings.Index from an offset: the first occurrence there, or -1. */
  method IndexFrom(text: Text, phrase: Text, offset: nat) returns (index: int)
    ensures index == -1 || (index >= offset && OccursAt(text, phrase, index))
    ensures forall i: nat | offset <= i && (index == -1 || i < index) :: !OccursAt(text, phrase, i)
  {
    var i := offset;
    while i + |phrase| <= |text|
      invariant offset <= i
      invariant forall k: nat | offset <= k < i :: !OccursAt(text, phrase, k)
    {
      if text[i..i + |phrase|] == phrase {
        return i;
      }
      i := i + 1;
    }
    return -1;
  }

  method IsASCIIWordPhrase(value: Text) returns (ok: bool)
    ensures ok <==> IsWordPhrase(value)
  {
    var hasWord := false;
    for i := 0 to |value|
      invariant forall k | 0 <= k < i :: IsWordByte(value[k]) || value[k] == ' '
      invariant hasWord <==> exists k :: 0 <= k < i && IsWordByte(value[k])
    {
      if IsWordByte(value[i]) {
        hasWord := true;
      } else if value[i] != ' ' {
        return false;
      }
    }
    return hasWord;
  }

  /** The search goes on one byte behind a hit that is inside a word, so overlapping hits are not missed. */
  method RoutePhraseMatches(text: Text, phrase: Text) returns (found: bool)
    ensures found <==> Matches(text, phrase)
  {
    var words := IsASCIIWordPhrase(phrase);
    if !words {
      var index := IndexFrom(text, phrase, 0);
      return index >= 0;
    }
    var offset := 0;
    while offset + |phrase| <= |text|
      invariant 0 <= offset
      invariant forall i: nat | i < offset && OccursAt(text, phrase, i) :: !StandsAlone(text, phrase, i)
      decreases |text| - offset
    {
      var index := IndexFrom(text, phrase, offset);
      if index < 0 {
        return false;
      }
      var leftOk := index == 0 || !IsWordByte(text[index - 1]);
      var right := index + |phrase|;
      var rightOk := right == |text| || !IsWordByte(text[right]);
      if leftOk && rightOk {
        return true;
      }
      offset := index + 1;
    }
    return false;
  }

  // ---- the configured list ----

  /** Trimming and case folding as library functions. */
  datatype Folding = Folding(trim: string -> string, fold: string -> string)

  predicate Known(keywords: seq<string>, f: Folding, key: string) {
    exists i :: 0 <= i < |keywords| && f.fold(keywords[i]) == key
  }

  /** Trimmed, without blanks, and each spelling only once, in the order of first appearance. */
  function Compact(keywords: seq<string>, f: Folding): seq<string> {
    if keywords == [] then []
    else
      var (before, k) := (Compact(keywords[..|keywords| - 1], f), f.trim(keywords[|keywords| - 1]));
      if k == "" || Known(before, f, f.fold(k)) then before else before + [k]
  }

  /** No two kept keywords fold alike, none is blank, and every keyword given is still covered. */
  lemma {:induction false} CompactKeepsMeaning(keywords: seq<string>, f: Folding)
    ensures forall i, j | 0 <= i < j < |Compact(keywords, f)| ::
      f.fold(Compact(keywords, f)[i]) != f.fold(Compact(keywords, f)[j])
    ensures forall i | 0 <= i < |Compact(keywords, f)| :: Compact(keywords, f)[i] != ""
    ensures forall i | 0 <= i < |keywords| && f.trim(keywords[i]) != "" ::
      Known(Compact(keywords, f), f, f.fold(f.trim(keywords[i])))
    ensures forall i | 0 <= i < |Compact(keywords, f)| :: TrimmedOf(keywords, f, Compact(keywords, f)[i])
  {
    if keywords != [] {
      var before := keywords[..|keywords| - 1];
      CompactKeepsMeaning(before, f);
      var (c, d) := (Compact(before, f), Compact(keywords, f));
      var last := keywords[|keywords| - 1];
      assert |d| > |c| ==> d[|c|] == f.trim(last);
      forall key | Known(c, f, key) ensures Known(d, f, key) {
        var i :| 0 <= i < |c| && f.fold(c[i]) == key;
        assert d[i] == c[i];
      }
      forall k | TrimmedOf(before, f, k) ensures TrimmedOf(keywords, f, k) {
        var i :| 0 <= i < |before| && f.trim(before[i]) == k;
        assert keywords[i] == before[i];
      }
      forall i | 0 <= i < |keywords| && f.trim(keywords[i]) != "" ensures Known(d, f, f.fold(f.trim(keywords[i]))) {
        if i < |before| {
          assert before[i] == keywords[i];
        }
      }
      assert TrimmedOf(keywords, f, f.trim(last));
    }
  }

  /** Position p of the list given is the first with its folding, and holds the kept spelling k. */
  ghost predicate FirstWith(keywords: seq<string>, f: Folding, p: nat, k: string) {
    && p < |keywords| && f.trim(keywords[p]) == k
    && forall j | 0 <= j < p && f.trim(keywords[j]) != "" :: f.fold(f.trim(keywords[j])) != f.fold(k)
  }

  /** The kept keywords are the first spellings, in the order given: each is found at its own position, the
      positions rise, and no earlier keyword folds alike. */
  lemma {:induction false} FirstSpellingsInOrder(keywords: seq<string>, f: Folding) returns (at: seq<nat>)
    ensures |at| == |Compact(keywords, f)|
    ensures forall i, j | 0 <= i < j < |at| :: at[i] < at[j]
    ensures forall i | 0 <= i < |at| :: FirstWith(keywords, f, at[i], Compact(keywords, f)[i])
  {
    at := [];
    if keywords != [] {
      var (before, last) := (keywords[..|keywords| - 1], |keywords| - 1);
      at := FirstSpellingsInOrder(before, f);
      var (c, d) := (Compact(before, f), Compact(keywords, f));
      forall i | 0 <= i < |at| ensures FirstWith(keywords, f, at[i], c[i]) {
        assert FirstWith(before, f, at[i], c[i]);
      }
      if d != c {
        CompactKeepsMeaning(before, f);
        forall j | 0 <= j < last && f.trim(keywords[j]) != ""
          ensures f.fold(f.trim(keywords[j])) != f.fold(f.trim(keywords[last]))
        {
          assert before[j] == keywords[j];
        }
        at := at + [last];
      }
    }
  }

  ghost predicate TrimmedOf(keywords: seq<string>, f: Folding, k: string) {
    exists i :: 0 <= i < |keywords| && f.trim(keywords[i]) == k
  }

  /** A list that was cleaned up stays as it is, where trimming twice is trimming once. */
  lemma {:induction false} CleanStaysClean(keywords: seq<string>, f: Folding)
    requires forall s :: f.trim(f.trim(s)) == f.trim(s)
    ensures Compact(Compact(keywords, f), f) == Compact(keywords, f)
  {
    CompactKeepsMeaning(keywords, f);
    var c := Compact(keywords, f);
    forall i | 0 <= i < |c| ensures f.trim(c[i]) == c[i] {
      assert TrimmedOf(keywords, f, c[i]);
    }
    DistinctStays(c, f);
  }

  lemma {:induction false} DistinctStays(c: seq<string>, f: Folding)
    requires forall i | 0 <= i < |c| :: f.trim(c[i]) == c[i] && c[i] != ""
    requires forall i, j | 0 <= i < j < |c| :: f.fold(c[i]) != f.fold(c[j])
    ensures Compact(c, f) == c
  {
    if c != [] {
      DistinctStays(c[..|c| - 1], f);
    }
  }

  /** normalizeSourceRouting: the kept keywords are written over the front of the list while it is read. */
  method NormalizeKeywords(a: array<string>, f: Folding) returns (n: nat)
    modifies a
    ensures n <= a.Length && a[..n] == Compact(old(a[..]), f)
  {
    var seen: set<string> := {};
    ghost var was := a[..];
    n := 0;
    for i := 0 to a.Length
      invariant n <= i
      invariant forall k | i <= k < a.Length :: a[k] == was[k]
      invariant a[..n] == Compact(was[..i], f)
      invariant forall key :: key in seen <==> Known(a[..n], f, key)
    {
      assert was[..i + 1][..i] == was[..i];
      var keyword := f.trim(a[i]);
      var key := f.fold(keyword);
      if keyword != "" && key !in seen {
        seen := seen + {key};
        ghost var kept := a[..n];
        a[n] := keyword;
        n := n + 1;
        assert a[..n] == kept + [keyword];
        forall x ensures x in seen <==> Known(a[..n], f, x) {
          KnownOfOneMore(kept, keyword, f, x);
        }
      }
    }
    assert was[..a.Length] == was;
  }

  lemma KnownOfOneMore(kept: seq<string>, k: string, f: Folding, x: string)
    ensures Known(kept + [k], f, x) <==> Known(kept, f, x) || f.fold(k) == x
  {
    var more := kept + [k];
    assert more[|kept|] == k;
    assert forall i | 0 <= i < |kept| :: more[i] == kept[i];
  }
}
