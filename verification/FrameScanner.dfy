/**
 The duplicate-key scanner that every inbound frame passes. It walks the token reader of the JSON library,
 which checks and skips the separators, so what it accepts is compared with the JSON grammar itself.
 */
module FrameScanner {
  import opened Options

  /** One lexical element of the input. Strings are decoded; `Bad` is one the reader cannot decode. */
  datatype Lexeme = LBrace | RBrace | LBracket | RBracket | Colon | Comma | Str(text: string) | Atom(text: string) | Bad

  // ---- the grammar ----

  datatype Json = Scalar(text: string) | Text(text: string) | Object(members: Members) | Array(items: Items)

  datatype Members = NoMembers | Member(key: string, value: Json, rest: Members)

  datatype Items = NoItems | Item(head: Json, tail: Items)

  /** The text of `j` with `rest` behind it. */
  function Lex(j: Json, rest: seq<Lexeme>): seq<Lexeme> {
    match j
    case Scalar(t) => [Atom(t)] + rest
    case Text(t) => [Str(t)] + rest
    case Object(ms) => [LBrace] + LexMembers(ms, true, rest)
    case Array(items) => [LBracket] + LexItems(items, true, rest)
  }

  function Separated(first: bool, text: seq<Lexeme>): seq<Lexeme> {
    if first then text else [Comma] + text
  }

  /** The members still to come, from the separator of the first to the closing brace. */
  function LexMembers(ms: Members, first: bool, rest: seq<Lexeme>): seq<Lexeme> {
    match ms
    case NoMembers => [RBrace] + rest
    case Member(k, v, more) => Separated(first, [Str(k)] + ([Colon] + Lex(v, LexMembers(more, false, rest))))
  }

  function LexItems(items: Items, first: bool, rest: seq<Lexeme>): seq<Lexeme> {
    match items
    case NoItems => [RBracket] + rest
    case Item(j, more) => Separated(first, Lex(j, LexItems(more, false, rest)))
  }

  /** The text of a value does not depend on what follows it. */
  lemma {:induction false} TextThenRest(j: Json, a: seq<Lexeme>, b: seq<Lexeme>)
    ensures Lex(j, a + b) == Lex(j, a) + b
    decreases j
  {
    match j
    case Scalar(_) =>
    case Text(_) =>
    case Object(ms) => MembersThenRest(ms, true, a, b);
    case Array(items) => ItemsThenRest(items, true, a, b);
  }

  lemma {:induction false} MembersThenRest(ms: Members, first: bool, a: seq<Lexeme>, b: seq<Lexeme>)
    ensures LexMembers(ms, first, a + b) == LexMembers(ms, first, a) + b
    decreases ms
  {
    if ms.Member? {
      MembersThenRest(ms.rest, false, a, b);
      TextThenRest(ms.value, LexMembers(ms.rest, false, a), b);
      var value := Lex(ms.value, LexMembers(ms.rest, false, a));
      assert [Colon] + (value + b) == [Colon] + value + b;
      assert [Str(ms.key)] + (([Colon] + value) + b) == [Str(ms.key)] + ([Colon] + value) + b;
    }
  }

  lemma {:induction false} ItemsThenRest(items: Items, first: bool, a: seq<Lexeme>, b: seq<Lexeme>)
    ensures LexItems(items, first, a + b) == LexItems(items, first, a) + b
    decreases items
  {
    if items.Item? {
      ItemsThenRest(items.tail, false, a, b);
      TextThenRest(items.head, LexItems(items.tail, false, a), b);
    }
  }

  function Keys(ms: Members): set<string> {
    match ms
    case NoMembers => {}
    case Member(k, _, rest) => {k} + Keys(rest)
  }

  predicate KeysDistinct(ms: Members) {
    match ms
    case NoMembers => true
    case Member(k, _, rest) => k !in Keys(rest) && KeysDistinct(rest)
  }

  /** No object at any depth names two members alike. */
  ghost predicate NamesUnique(j: Json) {
    match j
    case Scalar(_) => true
    case Text(_) => true
    case Object(ms) => KeysDistinct(ms) && MemberNamesUnique(ms)
    case Array(items) => ItemNamesUnique(items)
  }

  ghost predicate MemberNamesUnique(ms: Members) {
    match ms
    case NoMembers => true
    case Member(_, v, rest) => NamesUnique(v) && MemberNamesUnique(rest)
  }

  ghost predicate ItemNamesUnique(items: Items) {
    match items
    case NoItems => true
    case Item(j, rest) => NamesUnique(j) && ItemNamesUnique(rest)
  }

  // ---- the token reader ----

  datatype Expect =
    | TopValue | ArrayStart | ArrayValue | ArrayComma
    | ObjectStart | ObjectKey | ObjectColon | ObjectValue | ObjectComma

  datatype Token = Delim(lexeme: Lexeme) | Word(text: string) | Other

  /** What the reader has left to read, what it expects next, and the expectations of the open brackets. */
  datatype Reader = Reader(input: seq<Lexeme>, wanted: Expect, open: seq<Expect>)

  datatype TokenResult = Read(token: Token, reader: Reader) | Failed

  predicate ValueAllowed(e: Expect) {
    e.TopValue? || e.ArrayStart? || e.ArrayValue? || e.ObjectValue?
  }

  function ValueEnd(e: Expect): Expect {
    match e
    case ArrayStart => ArrayComma
    case ArrayValue => ArrayComma
    case ObjectValue => ObjectComma
    case _ => e
  }

  function More(r: Reader): bool {
    r.input != [] && r.input[0] != RBrace && r.input[0] != RBracket
  }

  function Opened(r: Reader, bracket: Lexeme, inside: Expect): TokenResult
    requires r.input != []
  {
    if ValueAllowed(r.wanted)
    then Read(Delim(bracket), Reader(r.input[1..], inside, r.open + [r.wanted]))
    else Failed
  }

  function Closed(r: Reader, bracket: Lexeme, fits: bool): TokenResult
    requires r.input != []
  {
    if fits && r.open != []
    then Read(Delim(bracket), Reader(r.input[1..], ValueEnd(r.open[|r.open| - 1]), r.open[..|r.open| - 1]))
    else Failed
  }

  function Plain(r: Reader, token: Token): TokenResult
    requires r.input != []
  {
    if ValueAllowed(r.wanted) then Read(token, Reader(r.input[1..], ValueEnd(r.wanted), r.open)) else Failed
  }

  function Next(r: Reader): (res: TokenResult)
    ensures res.Read? ==> |res.reader.input| < |r.input|
    decreases |r.input|
  {
    if r.input == [] then Failed
    else
      match r.input[0]
      case LBrace => Opened(r, LBrace, ObjectStart)
      case LBracket => Opened(r, LBracket, ArrayStart)
      case RBrace => Closed(r, RBrace, r.wanted.ObjectStart? || r.wanted.ObjectComma?)
      case RBracket => Closed(r, RBracket, r.wanted.ArrayStart? || r.wanted.ArrayComma?)
      case Colon => if r.wanted.ObjectColon? then Next(Reader(r.input[1..], ObjectValue, r.open)) else Failed
      case Comma =>
        if r.wanted.ArrayComma? then Next(Reader(r.input[1..], ArrayValue, r.open))
        else if r.wanted.ObjectComma? then Next(Reader(r.input[1..], ObjectKey, r.open))
        else Failed
      case Str(t) =>
        if r.wanted.ObjectStart? || r.wanted.ObjectKey?
        then Read(Word(t), Reader(r.input[1..], ObjectColon, r.open))
        else Plain(r, Word(t))
      case Atom(_) => Plain(r, Other)
      case Bad => Failed
  }

  // ---- the scanner ----

  function ScanValue(r: Reader): (res: Option<Reader>)
    ensures res.Some? ==> |res.value.input| < |r.input|
    decreases |r.input|, 1
  {
    match Next(r)
    case Failed => None
    case Read(token, next) =>
      if !token.Delim? then Some(next)
      else if token.lexeme.LBrace? then ScanMembers(next, {})
      else if token.lexeme.LBracket? then ScanItems(next)
      else None
  }

  function ScanMembers(r: Reader, seen: set<string>): (res: Option<Reader>)
    ensures res.Some? ==> |res.value.input| < |r.input|
    decreases |r.input|, 0
  {
    match Next(r)
    case Failed => None
    case Read(token, next) =>
      if !More(r) then Some(next)
      else if !token.Word? || token.text in seen then None
      else
        var after := ScanValue(next);
        if after.None? then None else ScanMembers(after.value, seen + {token.text})
  }

  function ScanItems(r: Reader): (res: Option<Reader>)
    ensures res.Some? ==> |res.value.input| < |r.input|
    decreases |r.input|, 2
  {
    if !More(r) then
      match Next(r)
      case Failed => None
      case Read(_, next) => Some(next)
    else
      var after := ScanValue(r);
      if after.None? then None else ScanItems(after.value)
  }

  // ---- what the scanner accepts ----

  /** The expectations under which the scanner asks for a value, and the separator the reader then skips. */
  predicate AsksForValue(e: Expect) {
    e.TopValue? || e.ArrayStart? || e.ArrayComma? || e.ObjectColon?
  }

  function Separator(e: Expect, text: seq<Lexeme>): seq<Lexeme> {
    if e.ArrayComma? then [Comma] + text else if e.ObjectColon? then [Colon] + text else text
  }

  function AfterSeparator(e: Expect): Expect {
    if e.ArrayComma? then ArrayValue else if e.ObjectColon? then ObjectValue else e
  }

  /** The expectation once the value is read. */
  function After(e: Expect): Expect {
    ValueEnd(AfterSeparator(e))
  }

  lemma SkipsSeparator(text: seq<Lexeme>, e: Expect, open: seq<Expect>)
    requires AsksForValue(e)
    ensures Next(Reader(Separator(e, text), e, open)) == Next(Reader(text, AfterSeparator(e), open))
  {
    assert e.ArrayComma? ==> ([Comma] + text)[1..] == text;
    assert e.ObjectColon? ==> ([Colon] + text)[1..] == text;
  }

  /** The key set grows with the members scanned, so distinct names are exactly what passes. */
  ghost predicate FreshNames(ms: Members, seen: set<string>) {
    match ms
    case NoMembers => true
    case Member(k, _, rest) => k !in seen && FreshNames(rest, seen + {k})
  }

  lemma {:induction false} FreshNamesAreUnique(ms: Members, seen: set<string>)
    ensures FreshNames(ms, seen) <==> Keys(ms) !! seen && KeysDistinct(ms)
  {
    if ms.Member? {
      FreshNamesAreUnique(ms.rest, seen + {ms.key});
    }
  }

  lemma KeyIsNext(r: Reader, first: bool, k: string, tail: seq<Lexeme>)
    requires r.wanted == (if first then ObjectStart else ObjectComma)
    requires r.input == Separated(first, [Str(k)] + tail)
    ensures More(r) && Next(r) == Read(Word(k), Reader(tail, ObjectColon, r.open))
  {
    assert ([Str(k)] + tail)[1..] == tail;
    if !first {
      assert r.input[1..] == [Str(k)] + tail;
      assert Next(r) == Next(Reader([Str(k)] + tail, ObjectKey, r.open));
    }
  }

  lemma NextWasKey(r: Reader)
    requires (r.wanted.ObjectStart? || r.wanted.ObjectComma?) && More(r) && Next(r).Read? && Next(r).token.Word?
    ensures r.input == Separated(r.wanted.ObjectStart?, [Str(Next(r).token.text)] + Next(r).reader.input)
    ensures Next(r).reader.wanted == ObjectColon && Next(r).reader.open == r.open
  {
    assert r.input == [r.input[0]] + r.input[1..];
    if r.wanted.ObjectComma? {
      var at := Reader(r.input[1..], ObjectKey, r.open);
      assert Next(r) == Next(at);
      assert at.input == [at.input[0]] + at.input[1..];
    }
  }

  lemma ClosesBracket(r: Reader, outer: Expect, open: seq<Expect>, bracket: Lexeme, tail: seq<Lexeme>)
    requires r.open == open + [outer] && r.input == [bracket] + tail
    requires if bracket.RBrace? then r.wanted.ObjectStart? || r.wanted.ObjectComma?
             else bracket.RBracket? && (r.wanted.ArrayStart? || r.wanted.ArrayComma?)
    ensures !More(r) && Next(r) == Read(Delim(bracket), Reader(tail, ValueEnd(outer), open))
  {
    assert r.input[1..] == tail;
    assert r.open[..|open|] == open;
  }

  lemma {:induction false} ReadsValue(j: Json, e: Expect, open: seq<Expect>, rest: seq<Lexeme>)
    requires AsksForValue(e)
    ensures ScanValue(Reader(Separator(e, Lex(j, rest)), e, open)) ==
      if NamesUnique(j) then Some(Reader(rest, After(e), open)) else None
    decreases j, 1
  {
    SkipsSeparator(Lex(j, rest), e, open);
    var r := Reader(Lex(j, rest), AfterSeparator(e), open);
    match j
    case Scalar(t) => assert r.input[1..] == rest;
    case Text(t) => assert r.input[1..] == rest;
    case Object(ms) =>
      ReadsMembers(ms, true, {}, r.wanted, open, rest);
      FreshNamesAreUnique(ms, {});
    case Array(items) =>
      ReadsItems(items, true, r.wanted, open, rest);
  }

  lemma {:induction false} ReadsMembers(
      ms: Members, first: bool, seen: set<string>, outer: Expect, open: seq<Expect>, rest: seq<Lexeme>)
    requires ValueAllowed(outer)
    ensures ScanMembers(Reader(LexMembers(ms, first, rest),
                               if first then ObjectStart else ObjectComma, open + [outer]), seen) ==
      if FreshNames(ms, seen) && MemberNamesUnique(ms) then Some(Reader(rest, ValueEnd(outer), open)) else None
    decreases ms, 0
  {
    var r := Reader(LexMembers(ms, first, rest), if first then ObjectStart else ObjectComma, open + [outer]);
    match ms
    case NoMembers => ClosesBracket(r, outer, open, RBrace, rest);
    case Member(k, v, more) =>
      var tail := LexMembers(more, false, rest);
      KeyIsNext(r, first, k, [Colon] + Lex(v, tail));
      ReadsValue(v, ObjectColon, open + [outer], tail);
      ReadsMembers(more, false, seen + {k}, outer, open, rest);
  }

  lemma {:induction false} ReadsItems(items: Items, first: bool, outer: Expect, open: seq<Expect>, rest: seq<Lexeme>)
    requires ValueAllowed(outer)
    ensures ScanItems(Reader(LexItems(items, first, rest),
                             if first then ArrayStart else ArrayComma, open + [outer])) ==
      if ItemNamesUnique(items) then Some(Reader(rest, ValueEnd(outer), open)) else None
    decreases items, 0
  {
    var r := Reader(LexItems(items, first, rest), if first then ArrayStart else ArrayComma, open + [outer]);
    match items
    case NoItems => ClosesBracket(r, outer, open, RBracket, rest);
    case Item(j, more) =>
      LexStarts(j, LexItems(more, false, rest));
      assert More(r);
      ReadsValue(j, r.wanted, open + [outer], LexItems(more, false, rest));
      ReadsItems(more, false, outer, open, rest);
  }

  lemma LexStarts(j: Json, rest: seq<Lexeme>)
    ensures Lex(j, rest) != [] && Lex(j, rest)[0] != RBrace && Lex(j, rest)[0] != RBracket
  {
  }

  /** Whatever the scanner gets through is the text of some value without repeated names. */
  lemma {:induction false} ReadWasValue(r: Reader) returns (j: Json)
    requires AsksForValue(r.wanted) && ScanValue(r).Some?
    ensures NamesUnique(j)
    ensures r.input == Separator(r.wanted, Lex(j, ScanValue(r).value.input))
    ensures ScanValue(r).value.wanted == After(r.wanted) && ScanValue(r).value.open == r.open
    decreases |r.input|, 1
  {
    var text := BehindSeparator(r);
    var at := Reader(text, AfterSeparator(r.wanted), r.open);
    assert text == [text[0]] + text[1..];
    match text[0]
    case Str(t) => j := Text(t);
    case Atom(t) => j := Scalar(t);
    case LBrace =>
      var ms := ReadWasMembers(Next(at).reader, {}, at.wanted, r.open);
      FreshNamesAreUnique(ms, {});
      j := Object(ms);
    case LBracket =>
      var items := ReadWasItems(Next(at).reader, at.wanted, r.open);
      j := Array(items);
    case _ =>
      assert false;
  }

  lemma BehindSeparator(r: Reader) returns (text: seq<Lexeme>)
    requires AsksForValue(r.wanted) && ScanValue(r).Some?
    ensures r.input == Separator(r.wanted, text) && |text| <= |r.input| && text != []
    ensures Next(r) == Next(Reader(text, AfterSeparator(r.wanted), r.open))
  {
    assert r.input == [r.input[0]] + r.input[1..];
    text := if r.wanted.ArrayComma? || r.wanted.ObjectColon? then r.input[1..] else r.input;
    SkipsSeparator(text, r.wanted, r.open);
  }

  lemma {:induction false} ReadWasMembers(r: Reader, seen: set<string>, outer: Expect, open: seq<Expect>)
    returns (ms: Members)
    requires ValueAllowed(outer) && r.open == open + [outer]
    requires (r.wanted.ObjectStart? || r.wanted.ObjectComma?) && ScanMembers(r, seen).Some?
    ensures FreshNames(ms, seen) && MemberNamesUnique(ms)
    ensures r.input == LexMembers(ms, r.wanted.ObjectStart?, ScanMembers(r, seen).value.input)
    ensures ScanMembers(r, seen).value.wanted == ValueEnd(outer) && ScanMembers(r, seen).value.open == open
    decreases |r.input|, 0
  {
    if !More(r) {
      ms := NoMembers;
    } else {
      NextWasKey(r);
      var (k, next) := (Next(r).token.text, Next(r).reader);
      var v := ReadWasValue(next);
      var more := ReadWasMembers(ScanValue(next).value, seen + {k}, outer, open);
      ms := Member(k, v, more);
    }
  }

  lemma {:induction false} ReadWasItems(r: Reader, outer: Expect, open: seq<Expect>) returns (items: Items)
    requires ValueAllowed(outer) && r.open == open + [outer]
    requires (r.wanted.ArrayStart? || r.wanted.ArrayComma?) && ScanItems(r).Some?
    ensures ItemNamesUnique(items)
    ensures r.input == LexItems(items, r.wanted.ArrayStart?, ScanItems(r).value.input)
    ensures ScanItems(r).value.wanted == ValueEnd(outer) && ScanItems(r).value.open == open
    decreases |r.input|, 2
  {
    if !More(r) {
      items := NoItems;
    } else {
      var j := ReadWasValue(r);
      var more := ReadWasItems(ScanValue(r).value, outer, open);
      items := Item(j, more);
    }
  }

  /** The scanner accepts a prefix of the input exactly when that prefix is one value of the grammar in which
      no object at any depth has two equal keys; it then stops right behind that value. */
  lemma ScannerAccepts(input: seq<Lexeme>, rest: seq<Lexeme>)
    ensures ScanValue(Reader(input, TopValue, [])) == Some(Reader(rest, TopValue, [])) <==>
      exists j :: NamesUnique(j) && input == Lex(j, rest)
  {
    var r := Reader(input, TopValue, []);
    if ScanValue(r) == Some(Reader(rest, TopValue, [])) {
      var j := ReadWasValue(r);
      assert input == Lex(j, rest);
    }
    if j :| NamesUnique(j) && input == Lex(j, rest) {
      ReadsValue(j, TopValue, [], rest);
    }
  }

  /** A value with a repeated key is refused whatever follows it, and no other value is. */
  lemma RepeatedKeyIsRefused(j: Json, rest: seq<Lexeme>)
    ensures ScanValue(Reader(Lex(j, rest), TopValue, [])) ==
      if NamesUnique(j) then Some(Reader(rest, TopValue, [])) else None
  {
    ReadsValue(j, TopValue, [], rest);
  }

  /** A repeated key cannot hide behind another reading of the same input: all readings agree on it and on
      where the value ends. */
  lemma ReadingsAgree(a: Json, b: Json, restA: seq<Lexeme>, restB: seq<Lexeme>)
    requires NamesUnique(a) && Lex(a, restA) == Lex(b, restB)
    ensures NamesUnique(b) && restA == restB
  {
    RepeatedKeyIsRefused(a, restA);
    RepeatedKeyIsRefused(b, restB);
  }

  // ---- the scanner in its own form ----

  /** The token reader as the scanner uses it: every call moves it forward. */
  class Decoder {
    var reader: Reader

    constructor (input: seq<Lexeme>)
      ensures reader == Reader(input, TopValue, [])
    {
      reader := Reader(input, TopValue, []);
    }

    method Token() returns (res: Option<Token>)
      modifies this
      ensures res.None? <==> Next(old(reader)).Failed?
      ensures res.Some? ==> Next(old(reader)) == Read(res.value, reader)
    {
      var next := Next(reader);
      match next
      case Failed => res := None;
      case Read(token, after) =>
        reader := after;
        res := Some(token);
    }

    method ScanJSONValue() returns (ok: bool)
      modifies this
      ensures ok <==> ScanValue(old(reader)).Some?
      ensures ok ==> reader == ScanValue(old(reader)).value
      decreases |reader.input|, 1
    {
      var token := Token();
      if token.None? {
        return false;
      }
      if !token.value.Delim? {
        return true;
      }
      match token.value.lexeme
      case LBrace =>
        var seen: set<string> := {};
        ghost var start := reader;
        while More(reader)
          invariant |reader.input| <= |start.input|
          invariant ScanMembers(start, {}) == ScanMembers(reader, seen)
          decreases |reader.input|
        {
          ghost var atKey := reader;
          var key := Token();
          if key.None? || !key.value.Word? || key.value.text in seen {
            return false;
          }
          seen := seen + {key.value.text};
          var scanned := ScanJSONValue();
          if !scanned {
            return false;
          }
        }
        var close := Token();
        ok := close.Some?;
      case LBracket =>
        ghost var start := reader;
        while More(reader)
          invariant |reader.input| <= |start.input|
          invariant ScanItems(start) == ScanItems(reader)
          decreases |reader.input|
        {
          var scanned := ScanJSONValue();
          if !scanned {
            return false;
          }
        }
        var close := Token();
        ok := close.Some?;
      case _ =>
        ok := false;
    }
  }

  /** The check on a frame: the decoder is made for this input and nothing else. */
  method RejectDuplicateKeys(input: seq<Lexeme>) returns (ok: bool)
    ensures ok <==> exists j, rest :: NamesUnique(j) && input == Lex(j, rest)
  {
    var decoder := new Decoder(input);
    ok := decoder.ScanJSONValue();
    if ok {
      ghost var rest := ScanValue(Reader(input, TopValue, [])).value;
      ghost var j := ReadWasValue(Reader(input, TopValue, []));
      assert NamesUnique(j) && input == Lex(j, rest.input);
    } else {
      forall j, rest | NamesUnique(j) && input == Lex(j, rest) ensures false {
        RepeatedKeyIsRefused(j, rest);
      }
    }
  }
}
