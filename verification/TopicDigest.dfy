/**
 The digest text: one line per topic, titled by its most useful item, the same whatever order the store
 hands topics and items over in.
 */
module TopicDigest {
  import opened Options
  import opened Sorting

  datatype Message = Message(
    title: string, content: string, shortContent: string,
    imageURLs: seq<string>, imageURL: string, videoURL: string, link: string)

  datatype Item = Item(id: string, source: string, message: Option<Message>, createdAt: int)

  datatype Topic = Topic(key: string, priority: int, items: seq<Item>)

  // ---- text ----

  predicate IsSpace(c: char) {
    '\t' <= c <= '\r' || c == ' ' || c == '\U{85}' || c == '\U{A0}' || c == '\U{1680}' || '\U{2000}' <= c <= '\U{200A}'
    || c == '\U{2028}' || c == '\U{2029}' || c == '\U{202F}' || c == '\U{205F}' || c == '\U{3000}'
  }

  function TrimLeft(s: string): string {
    if s != [] && IsSpace(s[0]) then TrimLeft(s[1..]) else s
  }

  function TrimRight(s: string): string {
    if s != [] && IsSpace(s[|s| - 1]) then TrimRight(s[..|s| - 1]) else s
  }

  function TrimSpace(s: string): string {
    TrimRight(TrimLeft(s))
  }

  const Ellipsis: string := "\U{2026}"

  function Cut(s: string, limit: nat): string {
    if |s| > limit then s[..limit] + Ellipsis else s
  }

  /** Something is left when blanks are not counted. */
  predicate Visible(s: string) {
    exists i :: 0 <= i < |s| && !IsSpace(s[i])
  }

  ghost predicate AllSpace(s: string) {
    forall i | 0 <= i < |s| :: IsSpace(s[i])
  }

  lemma {:induction false} TrimLeftMeans(s: string) returns (left: string)
    ensures s == left + TrimLeft(s) && AllSpace(left)
    ensures TrimLeft(s) != "" ==> !IsSpace(TrimLeft(s)[0])
  {
    if s != [] && IsSpace(s[0]) {
      var rest := TrimLeftMeans(s[1..]);
      left := [s[0]] + rest;
      assert s == [s[0]] + s[1..];
    } else {
      left := "";
    }
  }

  lemma {:induction false} TrimRightMeans(s: string) returns (right: string)
    ensures s == TrimRight(s) + right && AllSpace(right)
    ensures TrimRight(s) != "" ==> !IsSpace(TrimRight(s)[|TrimRight(s)| - 1])
  {
    if s != [] && IsSpace(s[|s| - 1]) {
      var rest := TrimRightMeans(s[..|s| - 1]);
      right := rest + [s[|s| - 1]];
      assert s == s[..|s| - 1] + [s[|s| - 1]];
    } else {
      right := "";
    }
  }

  /** Trimming takes the blanks off both ends and nothing else; nothing is left exactly of a text without visible
      characters. */
  lemma TrimSpaceMeans(s: string) returns (left: string, right: string)
    ensures var t := TrimSpace(s);
      && s == left + t + right && AllSpace(left) && AllSpace(right)
      && (t != "" <==> Visible(s))
      && (t != "" ==> !IsSpace(t[0]) && !IsSpace(t[|t| - 1]))
  {
    left := TrimLeftMeans(s);
    right := TrimRightMeans(TrimLeft(s));
    FirstKept(TrimLeft(s), TrimSpace(s), right);
    BlankEnds(left, TrimSpace(s), right);
    assert s == left + TrimSpace(s) + right;
  }

  lemma FirstKept(s: string, t: string, right: string)
    requires s == t + right
    ensures t != "" ==> t[0] == s[0]
  {
  }

  lemma BlankEnds(left: string, t: string, right: string)
    requires AllSpace(left) && AllSpace(right) && (t != "" ==> !IsSpace(t[0]))
    ensures t != "" <==> Visible(left + t + right)
  {
    var s := left + t + right;
    if t != "" {
      assert s[|left|] == t[0];
    } else {
      forall i | 0 <= i < |s| ensures IsSpace(s[i]) {
        assert s[i] == if i < |left| then left[i] else right[i - |left|];
      }
    }
  }

  lemma TrimmedVisible(s: string)
    ensures TrimSpace(s) != "" <==> Visible(s)
  {
    var _, _ := TrimSpaceMeans(s);
  }

  /** The text up to the limit, and an ellipsis exactly if something was cut off. */
  lemma CutKeepsFront(s: string, limit: nat)
    ensures |s| <= limit ==> Cut(s, limit) == s
    ensures |s| > limit ==> |Cut(s, limit)| == limit + 1 && Cut(s, limit)[limit] == '\U{2026}'
    ensures forall i | 0 <= i < limit && i < |s| :: Cut(s, limit)[i] == s[i]
  {
  }

  // ---- the most useful item ----

  datatype Usefulness = Usefulness(
    hasContent: bool, contentLength: nat, hasShort: bool, shortLength: nat, mediaCount: nat, hasLink: bool)

  function ItemUsefulness(item: Item): Usefulness {
    match item.message
    case None => Usefulness(false, 0, false, 0, 0, false)
    case Some(m) =>
      var (content, short) := (TrimSpace(m.content), TrimSpace(m.shortContent));
      var media := |m.imageURLs| + (if TrimSpace(m.imageURL) != "" then 1 else 0)
                   + (if TrimSpace(m.videoURL) != "" then 1 else 0);
      Usefulness(content != "", |content|, short != "", |short|, media, TrimSpace(m.link) != "")
  }

  /** Content and short content count with the length of what trimming leaves of them, media one by one where they
      are named, and blanks count as nothing. */
  lemma UsefulnessCounts(item: Item)
    ensures var u := ItemUsefulness(item);
      match item.message
      case None => u == Usefulness(false, 0, false, 0, 0, false)
      case Some(m) =>
        && (u.hasContent <==> Visible(m.content)) && u.contentLength == |TrimSpace(m.content)|
        && (u.hasShort <==> Visible(m.shortContent)) && u.shortLength == |TrimSpace(m.shortContent)|
        && u.mediaCount == |m.imageURLs| + (if Visible(m.imageURL) then 1 else 0) + (if Visible(m.videoURL) then 1 else 0)
        && (u.hasLink <==> Visible(m.link))
  {
    if item.message.Some? {
      var m := item.message.value;
      TrimmedVisible(m.content);
      TrimmedVisible(m.shortContent);
      TrimmedVisible(m.imageURL);
      TrimmedVisible(m.videoURL);
      TrimmedVisible(m.link);
    }
  }

  predicate MoreUseful(left: Item, right: Item) {
    var (l, r) := (ItemUsefulness(left), ItemUsefulness(right));
    if l.hasContent != r.hasContent then l.hasContent
    else if l.contentLength != r.contentLength then l.contentLength > r.contentLength
    else if l.hasShort != r.hasShort then l.hasShort
    else if l.shortLength != r.shortLength then l.shortLength > r.shortLength
    else if l.mediaCount != r.mediaCount then l.mediaCount > r.mediaCount
    else if l.hasLink != r.hasLink then l.hasLink
    else if left.createdAt != right.createdAt then left.createdAt > right.createdAt
    else Before(left.id, right.id)
  }

  ghost predicate UniqueIds(items: seq<Item>) {
    forall i, j | 0 <= i < j < |items| :: items[i].id != items[j].id
  }

  lemma MoreUsefulIsTransitive(a: Item, b: Item, c: Item)
    requires MoreUseful(a, b) && MoreUseful(b, c)
    ensures MoreUseful(a, c)
  {
    if Before(a.id, b.id) && Before(b.id, c.id) {
      BeforeIsTransitive(a.id, b.id, c.id);
    }
  }

  /** Usefulness ranks items with distinct ids in one line, and two items tie exactly when they share the id
      and everything else it looks at. */
  lemma MoreUsefulOrders(items: seq<Item>)
    requires UniqueIds(items)
    ensures StrictTotalOn(items, MoreUseful)
  {
    forall x | x in items ensures !MoreUseful(x, x) {
      BeforeIsStrict(x.id);
    }
    forall x, y, z | x in items && y in items && z in items && MoreUseful(x, y) && MoreUseful(y, z)
      ensures MoreUseful(x, z)
    {
      MoreUsefulIsTransitive(x, y, z);
    }
    forall x, y | x in items && y in items && x != y ensures MoreUseful(x, y) || MoreUseful(y, x) {
      BeforeIsTotal(x.id, y.id);
    }
  }

  function Number(b: bool): int {
    if b then 1 else 0
  }

  /** What counts in an item, the weightiest first. */
  function Merits(item: Item): seq<int> {
    var u := ItemUsefulness(item);
    [Number(u.hasContent), u.contentLength, Number(u.hasShort), u.shortLength, u.mediaCount, Number(u.hasLink),
     item.createdAt]
  }

  /** The first merit in which two items differ decides for the larger one; without one the smaller id does. */
  lemma MoreUsefulIsLexicographic(a: Item, b: Item)
    ensures MoreUseful(a, b) <==>
      || (exists k :: 0 <= k < 7 && Merits(a)[k] > Merits(b)[k] && forall l | 0 <= l < k :: Merits(a)[l] == Merits(b)[l])
      || (Merits(a) == Merits(b) && Before(a.id, b.id))
  {
    var (m, n) := (Merits(a), Merits(b));
    if m != n {
      var k := FirstDifference(m, n, 0);
      assert (k > 0 ==> m[0] == n[0]) && (k > 1 ==> m[1] == n[1]) && (k > 2 ==> m[2] == n[2]);
      assert (k > 3 ==> m[3] == n[3]) && (k > 4 ==> m[4] == n[4]) && (k > 5 ==> m[5] == n[5]);
      assert MoreUseful(a, b) <==> m[k] > n[k];
    }
  }

  lemma FirstDifference(m: seq<int>, n: seq<int>, from: nat) returns (k: nat)
    requires |m| == |n| && from < |m| && (forall l | 0 <= l < from :: m[l] == n[l])
    requires exists l :: from <= l < |m| && m[l] != n[l]
    ensures k < |m| && m[k] != n[k] && forall l | 0 <= l < k :: m[l] == n[l]
    decreases |m| - from
  {
    if m[from] != n[from] {
      k := from;
    } else {
      k := FirstDifference(m, n, from + 1);
    }
  }

  lemma TiesOnlyWithinAnId(a: Item, b: Item)
    ensures !MoreUseful(a, b) && !MoreUseful(b, a) <==>
      ItemUsefulness(a) == ItemUsefulness(b) && a.createdAt == b.createdAt && a.id == b.id
  {
    BeforeIsTotal(a.id, b.id);
    BeforeIsStrict(a.id);
  }

  // ---- one line ----

  function TitleOf(item: Item): string {
    match item.message
    case None => ""
    case Some(m) => if TrimSpace(m.title) != "" then TrimSpace(m.title) else TrimSpace(m.content)
  }

  function Title(items: seq<Item>): string {
    var ranked := Sort(items, MoreUseful);
    if ranked == [] then "" else TitleOf(ranked[0])
  }

  /** The sources of the items, each once. */
  function Sources(items: seq<Item>): seq<string> {
    if items == [] then []
    else
      var (rest, source) := (Sources(items[..|items| - 1]), items[|items| - 1].source);
      if source == "" || source in rest then rest else rest + [source]
  }

  function CutAll(names: seq<string>): seq<string> {
    if names == [] then [] else CutAll(names[..|names| - 1]) + [Cut(names[|names| - 1], 24)]
  }

  function Join(parts: seq<string>, sep: string): string {
    if parts == [] then "" else if |parts| == 1 then parts[0] else parts[0] + sep + Join(parts[1..], sep)
  }

  function Decimal(n: nat): string {
    if n < 10 then [('0' as int + n) as char] else Decimal(n / 10) + [('0' as int + n % 10) as char]
  }

  function Attribution(names: seq<string>): string {
    if |names| > 4 then Join(names[..4], "\U{3001}") + "\U{7B49}" + Decimal(|names|) + "\U{6E90}"
    else Join(names, "\U{3001}")
  }

  function Line(title: string, names: seq<string>): string {
    "- " + Cut(title, 100) + "\U{FF08}" + Attribution(names) + "\U{FF09}"
  }

  function TopicLine(items: seq<Item>): Option<string> {
    if Title(items) == "" then None else Some(Line(Title(items), Sort(CutAll(Sources(items)), Before)))
  }

  /** An item has a title exactly if its message has a visible title or content, and the title goes first. */
  lemma TitleOfMeans(item: Item)
    ensures match item.message
      case None => TitleOf(item) == ""
      case Some(m) =>
        && (TitleOf(item) != "" <==> Visible(m.title) || Visible(m.content))
        && TitleOf(item) == TrimSpace(if Visible(m.title) then m.title else m.content)
  {
    if item.message.Some? {
      TrimmedVisible(item.message.value.title);
      TrimmedVisible(item.message.value.content);
    }
  }

  // ---- reading a line back ----

  /** The parts of a text between the separators. */
  function Split(s: string, c: char): (parts: seq<string>)
    ensures |parts| >= 1
  {
    if s == "" then [""]
    else
      var rest := Split(s[1..], c);
      if s[0] == c then [""] + rest else [[s[0]] + rest[0]] + rest[1..]
  }

  lemma {:induction false} SplitWhole(a: string, c: char)
    requires c !in a
    ensures Split(a, c) == [a]
  {
    if a != "" {
      SplitWhole(a[1..], c);
      assert a == [a[0]] + a[1..];
    }
  }

  lemma {:induction false} SplitAtFirst(a: string, c: char, rest: string)
    requires c !in a
    ensures Split(a + [c] + rest, c) == [a] + Split(rest, c)
  {
    var s := a + [c] + rest;
    if a == "" {
      assert s[1..] == rest;
    } else {
      SplitAtFirst(a[1..], c, rest);
      assert s[1..] == a[1..] + [c] + rest;
      assert a == [a[0]] + a[1..];
    }
  }

  /** Splitting undoes joining, where no part has the separator. */
  lemma {:induction false} SplitOfJoin(parts: seq<string>, c: char)
    requires parts != [] && forall p | p in parts :: c !in p
    ensures Split(Join(parts, [c]), c) == parts
  {
    assert parts[0] in parts;
    if |parts| == 1 {
      SplitWhole(parts[0], c);
    } else {
      forall p | p in parts[1..] ensures c !in p {
        assert p in parts;
      }
      SplitOfJoin(parts[1..], c);
      SplitAtFirst(parts[0], c, Join(parts[1..], [c]));
    }
  }

  predicate IsNumeral(s: string) {
    s != "" && forall i | 0 <= i < |s| :: '0' <= s[i] <= '9'
  }

  function NumberOf(s: string): nat
    requires forall i | 0 <= i < |s| :: '0' <= s[i] <= '9'
  {
    if s == "" then 0 else 10 * NumberOf(s[..|s| - 1]) + (s[|s| - 1] as int - '0' as int)
  }

  /** The decimal digits of a number read back as the number. */
  lemma {:induction false} DecimalReadsBack(n: nat)
    ensures IsNumeral(Decimal(n)) && NumberOf(Decimal(n)) == n
  {
    if n >= 10 {
      DecimalReadsBack(n / 10);
      assert Decimal(n)[..|Decimal(n)| - 1] == Decimal(n / 10);
    } else {
      assert Decimal(n)[..0] == "";
    }
  }

  /** The sources are named in order where there are at most four; otherwise the first four and the number of all.
      Where no name has the separator, they are read back by splitting. */
  lemma AttributionShows(names: seq<string>)
    requires forall x | x in names :: '\U{3001}' !in x
    ensures 1 <= |names| <= 4 ==> Split(Attribution(names), '\U{3001}') == names
    ensures |names| > 4 ==>
      && Split(Join(names[..4], "\U{3001}"), '\U{3001}') == names[..4]
      && Attribution(names) == Join(names[..4], "\U{3001}") + "\U{7B49}" + Decimal(|names|) + "\U{6E90}"
  {
    if |names| > 4 {
      forall x | x in names[..4] ensures '\U{3001}' !in x {
        assert x in names;
      }
      SplitOfJoin(names[..4], '\U{3001}');
    } else if names != [] {
      SplitOfJoin(names, '\U{3001}');
    }
  }

  /** A line is a dash, the cut title, and the sources in full-width brackets, in this order. */
  lemma LineShows(title: string, names: seq<string>)
    ensures var (line, end) := (Line(title, names), |Cut(title, 100)| + 2);
      && end < |line|
      && line[..2] == "- " && line[2..end] == Cut(title, 100) && line[end] == '\U{FF08}'
      && line[end + 1..] == Attribution(names) + "\U{FF09}"
  {
    var (cut, credit) := (Cut(title, 100), Attribution(names) + "\U{FF09}");
    assert Line(title, names) == "- " + (cut + ("\U{FF08}" + credit));
  }

  /** Where no line has a break, the lines of the text are those of the topics shown. */
  lemma TextReadsBack(topics: seq<Topic>, limit: int)
    requires Lines(topics, limit) != [] && forall l | l in Lines(topics, limit) :: '\n' !in l
    ensures Split(Render(topics, limit), '\n') == Lines(topics, limit)
  {
    SplitOfJoin(Lines(topics, limit), '\n');
  }

  lemma {:induction false} CutAllAt(names: seq<string>, i: nat)
    requires i < |names|
    ensures |CutAll(names)| == |names| && CutAll(names)[i] == Cut(names[i], 24)
  {
    CutNamesAreShort(names);
    if i < |names| - 1 {
      CutAllAt(names[..|names| - 1], i);
    } else {
      CutNamesAreShort(names[..i]);
    }
  }

  // ---- the text ----

  predicate TopicBefore(a: Topic, b: Topic) {
    if a.priority != b.priority then a.priority > b.priority else Before(a.key, b.key)
  }

  function EffectiveLimit(limit: int): (r: nat)
    ensures 1 <= r <= 12 && (limit > 0 ==> r <= limit)
  {
    if limit <= 0 || limit > 12 then 12 else limit
  }

  /** The first lines there are, up to a limit. */
  function TakeLines(lines: seq<Option<string>>, limit: nat): seq<string> {
    if lines == [] || limit == 0 then []
    else
      match lines[0]
      case None => TakeLines(lines[1..], limit)
      case Some(line) => [line] + TakeLines(lines[1..], limit - 1)
  }

  /** The lines of the topics; a topic without a title has none. */
  function TopicLines(topics: seq<Topic>): seq<Option<string>> {
    seq(|topics|, i requires 0 <= i < |topics| => TopicLine(topics[i].items))
  }

  function Lines(topics: seq<Topic>, limit: int): seq<string> {
    TakeLines(TopicLines(Sort(topics, TopicBefore)), EffectiveLimit(limit))
  }

  function Render(topics: seq<Topic>, limit: int): string {
    Join(Lines(topics, limit), "\n")
  }

  // ---- independence of order ----

  lemma {:induction false} SourcesAreDistinct(items: seq<Item>)
    ensures forall i, j | 0 <= i < j < |Sources(items)| :: Sources(items)[i] != Sources(items)[j]
    ensures forall x :: x in Sources(items) <==> x != "" && exists i | 0 <= i < |items| :: items[i].source == x
  {
    if items != [] {
      var before := items[..|items| - 1];
      SourcesAreDistinct(before);
      var last := items[|items| - 1];
      forall x ensures x in Sources(items) <==> x != "" && exists i | 0 <= i < |items| :: items[i].source == x {
        if i :| 0 <= i < |items| && items[i].source == x {
          assert i < |before| ==> before[i].source == x;
        }
        if x in Sources(before) {
          var i :| 0 <= i < |before| && before[i].source == x;
          assert items[i].source == x;
        }
        if last.source == x {
          assert items[|items| - 1].source == x;
        }
      }
    }
  }

  lemma {:induction false} CutAllOfSum(a: seq<string>, b: seq<string>)
    ensures CutAll(a + b) == CutAll(a) + CutAll(b)
  {
    if b == [] {
      assert a + b == a;
    } else {
      assert (a + b)[..|a + b| - 1] == a + b[..|b| - 1];
      CutAllOfSum(a, b[..|b| - 1]);
    }
  }

  lemma TakenOut(b: seq<string>, x: string) returns (p: seq<string>, q: seq<string>)
    requires x in b
    ensures b == p + ([x] + q) && multiset(p + q) == multiset(b) - multiset{x}
  {
    var k :| 0 <= k < |b| && b[k] == x;
    p, q := b[..k], b[k + 1..];
    assert b == p + ([x] + q);
  }

  lemma CutAllWithOneMore(p: seq<string>, x: string, q: seq<string>)
    ensures multiset(CutAll(p + ([x] + q))) == multiset(CutAll(p + q)) + multiset{Cut(x, 24)}
  {
    CutAllOfSum(p, q);
    CutAllOfSum(p, [x] + q);
    CutAllOfSum([x], q);
    assert CutAll([x]) == [Cut(x, 24)] by { assert [x][..0] == []; }
  }

  lemma {:induction false} CutAllIgnoresOrder(a: seq<string>, b: seq<string>)
    requires multiset(a) == multiset(b)
    ensures multiset(CutAll(a)) == multiset(CutAll(b))
  {
    if a == [] {
      assert |multiset(b)| == |b|;
    } else {
      var (front, x) := (a[..|a| - 1], a[|a| - 1]);
      assert a == front + [x];
      assert x in multiset(b);
      var p, q := TakenOut(b, x);
      assert multiset(p + q) == multiset(front);
      CutAllIgnoresOrder(front, p + q);
      CutAllWithOneMore(p, x, q);
    }
  }

  lemma NamesIgnoreOrder(listed: seq<string>, items: seq<Item>)
    requires forall i, j | 0 <= i < j < |listed| :: listed[i] != listed[j]
    requires forall x :: x in listed <==> x != "" && exists i | 0 <= i < |items| :: items[i].source == x
    ensures Sort(CutAll(listed), Before) == Sort(CutAll(Sources(items)), Before)
  {
    SourcesAreDistinct(items);
    DistinctListings(listed, Sources(items));
    CutAllIgnoresOrder(listed, Sources(items));
    BeforeOrders(CutAll(listed));
    SortIgnoresOrder(CutAll(listed), CutAll(Sources(items)), Before);
  }

  lemma TopicLineIgnoresOrder(a: seq<Item>, b: seq<Item>)
    requires multiset(a) == multiset(b) && UniqueIds(a)
    ensures TopicLine(a) == TopicLine(b)
  {
    MoreUsefulOrders(a);
    SortIgnoresOrder(a, b, MoreUseful);
    SourcesAreDistinct(a);
    forall x ensures x in Sources(a) <==> x != "" && exists i | 0 <= i < |b| :: b[i].source == x {
      if i :| 0 <= i < |a| && a[i].source == x {
        assert a[i] in multiset(b);
        var k :| 0 <= k < |b| && b[k] == a[i];
      }
      if i :| 0 <= i < |b| && b[i].source == x {
        assert b[i] in multiset(a);
        var k :| 0 <= k < |a| && a[k] == b[i];
      }
    }
    NamesIgnoreOrder(Sources(a), b);
  }

  /** The same topics one by one, each with its items in some order. */
  ghost predicate Alike(a: seq<Topic>, b: seq<Topic>) {
    |a| == |b| && forall i | 0 <= i < |a| :: TopicAlike(a[i], b[i])
  }

  ghost predicate TopicAlike(a: Topic, b: Topic) {
    a.key == b.key && a.priority == b.priority && multiset(a.items) == multiset(b.items) && UniqueIds(a.items)
  }

  lemma {:induction false} InsertAlike(x: Topic, y: Topic, a: seq<Topic>, b: seq<Topic>)
    requires TopicAlike(x, y) && Alike(a, b)
    ensures Alike(Insert(x, a, TopicBefore), Insert(y, b, TopicBefore))
  {
    if a != [] {
      AlikeParts(a, b);
      if TopicBefore(x, a[0]) {
        AlikeLonger(x, y, a, b);
      } else {
        InsertAlike(x, y, a[1..], b[1..]);
        AlikeLonger(a[0], b[0], Insert(x, a[1..], TopicBefore), Insert(y, b[1..], TopicBefore));
      }
    }
  }

  lemma AlikeParts(a: seq<Topic>, b: seq<Topic>)
    requires Alike(a, b) && a != []
    ensures b != [] && TopicAlike(a[0], b[0]) && Alike(a[1..], b[1..])
  {
  }

  lemma AlikeLonger(x: Topic, y: Topic, a: seq<Topic>, b: seq<Topic>)
    requires TopicAlike(x, y) && Alike(a, b)
    ensures Alike([x] + a, [y] + b)
  {
  }

  lemma {:induction false} SortAlike(a: seq<Topic>, b: seq<Topic>)
    requires Alike(a, b)
    ensures Alike(Sort(a, TopicBefore), Sort(b, TopicBefore))
  {
    if a != [] {
      AlikeParts(a, b);
      SortAlike(a[1..], b[1..]);
      InsertAlike(a[0], b[0], Sort(a[1..], TopicBefore), Sort(b[1..], TopicBefore));
    }
  }

  lemma LinesAlike(a: seq<Topic>, b: seq<Topic>)
    requires Alike(a, b)
    ensures TopicLines(a) == TopicLines(b)
  {
    forall i | 0 <= i < |a| ensures TopicLines(a)[i] == TopicLines(b)[i] {
      assert TopicAlike(a[i], b[i]);
      TopicLineIgnoresOrder(a[i].items, b[i].items);
    }
  }

  lemma TopicBeforeOrders(topics: seq<Topic>)
    requires forall i, j | 0 <= i < j < |topics| :: topics[i].key != topics[j].key
    ensures StrictTotalOn(topics, TopicBefore)
  {
    forall x | x in topics ensures !TopicBefore(x, x) {
      BeforeIsStrict(x.key);
    }
    forall x, y, z | x in topics && y in topics && z in topics && TopicBefore(x, y) && TopicBefore(y, z)
      ensures TopicBefore(x, z)
    {
      if x.priority == y.priority == z.priority {
        BeforeIsTransitive(x.key, y.key, z.key);
      }
    }
    forall x, y | x in topics && y in topics && x != y ensures TopicBefore(x, y) || TopicBefore(y, x) {
      BeforeIsTotal(x.key, y.key);
    }
  }

  /** Reordering the topics and the items inside each changes nothing, for topics with keys of their own whose
      items have ids of their own. `shuffled` holds the topics of `a` in another order. */
  lemma RenderIgnoresOrder(a: seq<Topic>, shuffled: seq<Topic>, b: seq<Topic>, limit: int)
    requires forall i, j | 0 <= i < j < |a| :: a[i].key != a[j].key
    requires multiset(a) == multiset(shuffled) && Alike(shuffled, b)
    ensures Render(a, limit) == Render(b, limit)
  {
    TopicBeforeOrders(a);
    SortIgnoresOrder(a, shuffled, TopicBefore);
    SortAlike(shuffled, b);
    LinesAlike(Sort(shuffled, TopicBefore), Sort(b, TopicBefore));
  }

  // ---- what is shown ----

  /** The lines of all topics that have one. */
  function AllLines(lines: seq<Option<string>>): seq<string> {
    if lines == [] then []
    else (if lines[0].Some? then [lines[0].value] else []) + AllLines(lines[1..])
  }

  /** Topics without a title use up no place: the text shows the first lines there are, at most twelve, and
      never more than a positive limit. */
  lemma {:induction false} FirstLinesAreShown(lines: seq<Option<string>>, limit: nat)
    ensures TakeLines(lines, limit) ==
      AllLines(lines)[..if |AllLines(lines)| < limit then |AllLines(lines)| else limit]
  {
    if lines != [] && limit > 0 {
      FirstLinesAreShown(lines[1..], limit);
      FirstLinesAreShown(lines[1..], limit - 1);
    }
  }

  /** The topics come by falling priority, and within one priority by rising key. */
  lemma TopicsAreOrdered(topics: seq<Topic>, i: nat, j: nat)
    requires forall k, l | 0 <= k < l < |topics| :: topics[k].key != topics[l].key
    requires i < j < |topics|
    ensures |Sort(topics, TopicBefore)| == |topics|
    ensures var (a, b) := (Sort(topics, TopicBefore)[i], Sort(topics, TopicBefore)[j]);
      a.priority > b.priority || (a.priority == b.priority && !Before(b.key, a.key))
  {
    TopicBeforeOrders(topics);
    SortIsSorted(topics, TopicBefore);
    SameElements(topics, Sort(topics, TopicBefore));
  }

  lemma LinesAreBounded(topics: seq<Topic>, limit: int)
    ensures |Lines(topics, limit)| <= 12 && (limit > 0 ==> |Lines(topics, limit)| <= limit)
  {
    FirstLinesAreShown(TopicLines(Sort(topics, TopicBefore)), EffectiveLimit(limit));
  }

  /** The lines of the text are as many as topics have one, up to twelve and up to a positive limit: the text leaves
      out a line only for one of these two bounds. */
  lemma ShownCount(topics: seq<Topic>, limit: int)
    ensures var (all, shown) := (AllLines(TopicLines(Sort(topics, TopicBefore))), Lines(topics, limit));
      && shown <= all
      && (|shown| < |all| ==> |shown| == 12 || (limit > 0 && |shown| == limit))
      && |shown| <= 12 && (limit > 0 ==> |shown| <= limit)
  {
    FirstLinesAreShown(TopicLines(Sort(topics, TopicBefore)), EffectiveLimit(limit));
  }

  /** The title is that of an item no other item of the topic is more useful than. */
  lemma TitleIsOfMostUseful(items: seq<Item>) returns (best: Item)
    requires items != [] && UniqueIds(items)
    ensures best in items && Title(items) == TitleOf(best)
    ensures forall x | x in items && x != best :: MoreUseful(best, x)
  {
    MoreUsefulOrders(items);
    SortIsSorted(items, MoreUseful);
    var ranked := Sort(items, MoreUseful);
    SameElements(items, ranked);
    best := ranked[0];
    assert best in ranked;
    forall x | x in items && x != best ensures MoreUseful(best, x) {
      assert x in ranked;
      var i :| 0 <= i < |ranked| && ranked[i] == x;
      assert !MoreUseful(ranked[i], ranked[0]);
    }
  }

  lemma {:induction false} CutNamesAreShort(names: seq<string>)
    ensures |CutAll(names)| == |names| && forall x | x in CutAll(names) :: |x| <= 25
  {
    if names != [] {
      CutNamesAreShort(names[..|names| - 1]);
    }
  }

  lemma {:induction false} JoinIsShort(names: seq<string>, sep: string)
    requires |sep| == 1 && forall x | x in names :: |x| <= 25
    ensures |Join(names, sep)| <= 26 * |names|
  {
    if |names| > 1 {
      assert names[0] in names && forall x | x in names[1..] :: x in names;
      JoinIsShort(names[1..], sep);
    } else if |names| == 1 {
      assert names[0] in names;
    }
  }

  /** A line is bounded however long titles and source names are and however many sources a topic has: only the
      digits of their number grow. */
  lemma LineIsBounded(items: seq<Item>)
    ensures TopicLine(items).Some? ==> |TopicLine(items).value| <= 211 + |Decimal(|Sources(items)|)|
  {
    var cut := CutAll(Sources(items));
    CutNamesAreShort(Sources(items));
    var names := Sort(cut, Before);
    SortKeepsElements(cut, Before);
    SameElements(cut, names);
    assert |names| == |Sources(items)|;
    var shown := if |names| > 4 then names[..4] else names;
    assert forall x | x in shown :: x in names;
    JoinIsShort(shown, "\U{3001}");
    LineLength(Title(items), names, shown);
  }

  lemma LineLength(title: string, names: seq<string>, shown: seq<string>)
    requires shown == if |names| > 4 then names[..4] else names
    requires |Join(shown, "\U{3001}")| <= 104
    ensures |Line(title, names)| <= 211 + |Decimal(|names|)|
  {
    assert |Cut(title, 100)| <= 101;
    assert |Attribution(names)| <= 106 + |Decimal(|names|)|;
  }

  function Newlines(s: string): nat {
    if s == "" then 0 else (if s[0] == '\n' then 1 else 0) + Newlines(s[1..])
  }

  function TotalNewlines(lines: seq<string>): nat {
    if lines == [] then 0 else Newlines(lines[0]) + TotalNewlines(lines[1..])
  }

  lemma {:induction false} NewlinesOfSum(a: string, b: string)
    ensures Newlines(a + b) == Newlines(a) + Newlines(b)
  {
    if a == "" {
      assert a + b == b;
    } else {
      assert (a + b)[1..] == a[1..] + b;
      NewlinesOfSum(a[1..], b);
    }
  }

  /** How many lines the text has to its reader: one for each topic shown, and one more for every line break
      that a title or source brings along, since only the ends of a title are trimmed. */
  lemma {:induction false} TextLines(lines: seq<string>)
    ensures Newlines(Join(lines, "\n")) == TotalNewlines(lines) + (if lines == [] then 0 else |lines| - 1)
  {
    if |lines| == 1 {
      assert lines[1..] == [];
    } else if |lines| > 1 {
      TextLines(lines[1..]);
      NewlinesOfSum(lines[0] + "\n", Join(lines[1..], "\n"));
      NewlinesOfSum(lines[0], "\n");
      assert Newlines("\n") == 1 by { assert "\n"[1..] == ""; }
    }
  }

  // ---- how many lines of text a digest has ----

  function ShownNames(names: seq<string>): seq<string> {
    if |names| > 4 then names[..4] else names
  }

  function NamesOf(items: seq<Item>): seq<string> {
    Sort(CutAll(Sources(items)), Before)
  }

  /** The line breaks a topic brings along: in its cut title and in the cut source names it shows. */
  function Breaks(items: seq<Item>): nat {
    Newlines(Cut(Title(items), 100)) + TotalNewlines(ShownNames(NamesOf(items)))
  }

  lemma {:induction false} DecimalHasNoBreak(n: nat)
    ensures Newlines(Decimal(n)) == 0
  {
    if n >= 10 {
      DecimalHasNoBreak(n / 10);
      NewlinesOfSum(Decimal(n / 10), [('0' as int + n % 10) as char]);
    }
  }

  lemma {:induction false} BreaksOfJoin(names: seq<string>, sep: string)
    requires Newlines(sep) == 0
    ensures Newlines(Join(names, sep)) == TotalNewlines(names)
  {
    if |names| > 1 {
      BreaksOfJoin(names[1..], sep);
      NewlinesOfSum(names[0] + sep, Join(names[1..], sep));
      NewlinesOfSum(names[0], sep);
    } else if |names| == 1 {
      assert names[1..] == [];
    }
  }

  lemma OneCharacter(c: char)
    ensures Newlines([c]) == if c == '\n' then 1 else 0
  {
    assert [c][1..] == "";
  }

  lemma BreaksOfAttribution(names: seq<string>)
    ensures Newlines(Attribution(names)) == TotalNewlines(ShownNames(names))
  {
    OneCharacter('\U{3001}');
    BreaksOfJoin(ShownNames(names), "\U{3001}");
    if |names| > 4 {
      var (joined, number) := (Join(names[..4], "\U{3001}"), Decimal(|names|));
      OneCharacter('\U{7B49}');
      OneCharacter('\U{6E90}');
      DecimalHasNoBreak(|names|);
      NewlinesOfSum(joined, "\U{7B49}");
      NewlinesOfSum(joined + "\U{7B49}", number);
      NewlinesOfSum(joined + "\U{7B49}" + number, "\U{6E90}");
    }
  }

  lemma BreaksOfLine(title: string, names: seq<string>)
    ensures Newlines(Line(title, names)) == Newlines(Cut(title, 100)) + TotalNewlines(ShownNames(names))
  {
    var (cut, credit) := (Cut(title, 100), Attribution(names));
    OneCharacter('-');
    OneCharacter(' ');
    assert "- " == "-" + " ";
    NewlinesOfSum("-", " ");
    OneCharacter('\U{FF08}');
    OneCharacter('\U{FF09}');
    BreaksOfAttribution(names);
    NewlinesOfSum("- ", cut);
    NewlinesOfSum("- " + cut, "\U{FF08}");
    NewlinesOfSum("- " + cut + "\U{FF08}", credit);
    NewlinesOfSum("- " + cut + "\U{FF08}" + credit, "\U{FF09}");
  }

  function TopicBreaks(items: seq<Item>): Option<nat> {
    if Title(items) == "" then None else Some(Breaks(items))
  }

  /** The breaks of the topics; a topic without a title is not shown and has none. */
  function BreaksEach(topics: seq<Topic>): seq<Option<nat>> {
    seq(|topics|, i requires 0 <= i < |topics| => TopicBreaks(topics[i].items))
  }

  /** The first numbers there are, up to a limit. */
  function TakeNumbers(numbers: seq<Option<nat>>, limit: nat): seq<nat> {
    if numbers == [] || limit == 0 then []
    else
      match numbers[0]
      case None => TakeNumbers(numbers[1..], limit)
      case Some(n) => [n] + TakeNumbers(numbers[1..], limit - 1)
  }

  function Sum(numbers: seq<nat>): nat {
    if numbers == [] then 0 else numbers[0] + Sum(numbers[1..])
  }

  /** For each topic the text shows, the breaks it brings along: those of the first topics with a title. */
  function ShownBreaks(topics: seq<Topic>, limit: int): seq<nat> {
    var ordered := Sort(topics, TopicBefore);
    TakeNumbers(BreaksEach(ordered), EffectiveLimit(limit))
  }

  predicate HasBreaks(line: Option<string>, breaks: Option<nat>) {
    (line.Some? <==> breaks.Some?) && (line.Some? ==> Newlines(line.value) == breaks.value)
  }

  lemma BreaksOfTopicLine(items: seq<Item>)
    ensures HasBreaks(TopicLine(items), TopicBreaks(items))
  {
    BreaksOfLine(Title(items), NamesOf(items));
  }

  lemma {:induction false} BreaksOfTaken(lines: seq<Option<string>>, breaks: seq<Option<nat>>, limit: nat)
    requires |lines| == |breaks| && forall i | 0 <= i < |lines| :: HasBreaks(lines[i], breaks[i])
    ensures |TakeLines(lines, limit)| == |TakeNumbers(breaks, limit)|
    ensures TotalNewlines(TakeLines(lines, limit)) == Sum(TakeNumbers(breaks, limit))
  {
    if lines != [] && limit > 0 {
      assert HasBreaks(lines[0], breaks[0]);
      if lines[0].None? {
        BreaksOfTaken(lines[1..], breaks[1..], limit);
      } else {
        BreaksOfTaken(lines[1..], breaks[1..], limit - 1);
        assert TakeLines(lines, limit)[1..] == TakeLines(lines[1..], limit - 1);
        assert TakeNumbers(breaks, limit)[1..] == TakeNumbers(breaks[1..], limit - 1);
      }
    }
  }

  lemma BreaksOfTopics(ordered: seq<Topic>, limit: nat)
    ensures |TakeLines(TopicLines(ordered), limit)| == |TakeNumbers(BreaksEach(ordered), limit)|
    ensures TotalNewlines(TakeLines(TopicLines(ordered), limit)) ==
      Sum(TakeNumbers(BreaksEach(ordered), limit))
  {
    var (lines, breaks) := (TopicLines(ordered), BreaksEach(ordered));
    forall i | 0 <= i < |ordered| ensures HasBreaks(lines[i], breaks[i]) {
      BreaksOfTopicLine(ordered[i].items);
    }
    BreaksOfTaken(lines, breaks, limit);
  }

  /** The lines a reader of the text counts. */
  function LineCount(topics: seq<Topic>, limit: int): nat {
    if Lines(topics, limit) == [] then 0 else 1 + Newlines(Render(topics, limit))
  }

  /** A text has one line for each topic shown and one more for every break in their cut titles and in the cut
      source names they show; so it keeps its limit exactly if these together do. */
  lemma TextKeepsLimit(topics: seq<Topic>, limit: int)
    ensures var shown := ShownBreaks(topics, limit);
      && |Lines(topics, limit)| == |shown|
      && LineCount(topics, limit) == |shown| + Sum(shown)
      && (LineCount(topics, limit) <= EffectiveLimit(limit) <==> |shown| + Sum(shown) <= EffectiveLimit(limit))
  {
    BreaksOfTopics(Sort(topics, TopicBefore), EffectiveLimit(limit));
    TextLines(Lines(topics, limit));
  }

  // Texts without breaks.

  predicate OneLined(s: string) {
    '\n' !in s
  }

  lemma {:induction false} OneLinedHasNoBreak(s: string)
    ensures Newlines(s) == 0 <==> OneLined(s)
  {
    if s != "" {
      OneLinedHasNoBreak(s[1..]);
      assert s == [s[0]] + s[1..];
    }
  }

  lemma {:induction false} TrimLeftKeepsOneLined(s: string)
    requires OneLined(s)
    ensures OneLined(TrimLeft(s))
  {
    if s != [] && IsSpace(s[0]) {
      assert forall c | c in s[1..] :: c in s;
      TrimLeftKeepsOneLined(s[1..]);
    }
  }

  lemma {:induction false} TrimRightKeepsOneLined(s: string)
    requires OneLined(s)
    ensures OneLined(TrimRight(s))
  {
    if s != [] && IsSpace(s[|s| - 1]) {
      assert forall c | c in s[..|s| - 1] :: c in s;
      TrimRightKeepsOneLined(s[..|s| - 1]);
    }
  }

  lemma CutKeepsOneLined(s: string, limit: nat)
    requires OneLined(s)
    ensures OneLined(Cut(s, limit))
  {
    if |s| > limit {
      assert forall c | c in s[..limit] :: c in s;
      assert '\n' !in Ellipsis;
    }
  }

  predicate OneLinedItem(item: Item) {
    && OneLined(item.source)
    && (item.message.Some? ==> OneLined(item.message.value.title) && OneLined(item.message.value.content))
  }

  lemma TitleOfKeepsOneLined(item: Item)
    requires OneLinedItem(item)
    ensures OneLined(TitleOf(item))
  {
    if item.message.Some? {
      var m := item.message.value;
      TrimLeftKeepsOneLined(m.title);
      TrimRightKeepsOneLined(TrimLeft(m.title));
      TrimLeftKeepsOneLined(m.content);
      TrimRightKeepsOneLined(TrimLeft(m.content));
    }
  }

  lemma {:induction false} CutAllKeepsOneLined(names: seq<string>)
    requires forall x | x in names :: OneLined(x)
    ensures forall x | x in CutAll(names) :: OneLined(x)
  {
    if names != [] {
      var front := names[..|names| - 1];
      assert forall x | x in front :: x in names;
      CutAllKeepsOneLined(front);
      assert names[|names| - 1] in names;
      CutKeepsOneLined(names[|names| - 1], 24);
    }
  }

  lemma {:induction false} OneLinedTotal(names: seq<string>)
    requires forall x | x in names :: OneLined(x)
    ensures TotalNewlines(names) == 0
  {
    if names != [] {
      assert names[0] in names && forall x | x in names[1..] :: x in names;
      OneLinedHasNoBreak(names[0]);
      OneLinedTotal(names[1..]);
    }
  }

  lemma OneLinedNames(items: seq<Item>)
    requires forall item | item in items :: OneLinedItem(item)
    ensures TotalNewlines(ShownNames(NamesOf(items))) == 0
  {
    SourcesAreDistinct(items);
    forall x | x in Sources(items) ensures OneLined(x) {
      var i :| 0 <= i < |items| && items[i].source == x;
      assert OneLinedItem(items[i]);
    }
    CutAllKeepsOneLined(Sources(items));
    SortKeepsElements(CutAll(Sources(items)), Before);
    SameElements(CutAll(Sources(items)), NamesOf(items));
    assert forall x | x in ShownNames(NamesOf(items)) :: x in NamesOf(items);
    OneLinedTotal(ShownNames(NamesOf(items)));
  }

  lemma OneLinedTopic(items: seq<Item>)
    requires forall item | item in items :: OneLinedItem(item)
    ensures Breaks(items) == 0
  {
    OneLinedNames(items);
    var ranked := Sort(items, MoreUseful);
    SortKeepsElements(items, MoreUseful);
    SameElements(items, ranked);
    if ranked != [] {
      assert ranked[0] in ranked;
      TitleOfKeepsOneLined(ranked[0]);
    }
    CutKeepsOneLined(Title(items), 100);
    OneLinedHasNoBreak(Cut(Title(items), 100));
  }

  lemma {:induction false} NoBreaksTaken(breaks: seq<Option<nat>>, limit: nat)
    requires forall i | 0 <= i < |breaks| :: breaks[i] == None || breaks[i] == Some(0)
    ensures Sum(TakeNumbers(breaks, limit)) == 0 && |TakeNumbers(breaks, limit)| <= limit
  {
    if breaks != [] && limit > 0 {
      NoBreaksTaken(breaks[1..], limit);
      NoBreaksTaken(breaks[1..], limit - 1);
      if breaks[0].Some? {
        assert TakeNumbers(breaks, limit)[1..] == TakeNumbers(breaks[1..], limit - 1);
      }
    }
  }

  lemma OneLinedTopics(ordered: seq<Topic>, limit: nat)
    requires forall i, item | 0 <= i < |ordered| && item in ordered[i].items :: OneLinedItem(item)
    ensures var shown := TakeNumbers(BreaksEach(ordered), limit); Sum(shown) == 0 && |shown| <= limit
  {
    var breaks := BreaksEach(ordered);
    forall i | 0 <= i < |breaks| ensures breaks[i] == None || breaks[i] == Some(0) {
      OneLinedTopic(ordered[i].items);
    }
    NoBreaksTaken(breaks, limit);
  }

  /** Where no title, content or source has a line break, every text has at most twelve lines and never more
      than a positive limit. */
  lemma OneLinedItemsKeepLimit(topics: seq<Topic>, limit: int)
    requires forall i, item | 0 <= i < |topics| && item in topics[i].items :: OneLinedItem(item)
    ensures LineCount(topics, limit) <= 12 && (limit > 0 ==> LineCount(topics, limit) <= limit)
  {
    var ordered := Sort(topics, TopicBefore);
    SortKeepsElements(topics, TopicBefore);
    SameElements(topics, ordered);
    forall i, item | 0 <= i < |ordered| && item in ordered[i].items ensures OneLinedItem(item) {
      assert ordered[i] in ordered;
      var k :| 0 <= k < |topics| && topics[k] == ordered[i];
    }
    OneLinedTopics(ordered, EffectiveLimit(limit));
    TextKeepsLimit(topics, limit);
  }

  /** A title with a break in it: the line of this one topic is two lines of text. */
  lemma BreakInTitle(m: Message, item: Item)
    requires m.title == "a\nb" && item.message == Some(m) && item.source == ""
    ensures TopicLine([item]).Some? && Newlines(TopicLine([item]).value) == 1
  {
    var items := [item];
    assert items[1..] == [] && items[..0] == [];
    assert Sort(items, MoreUseful) == [item];
    assert TrimLeft(m.title) == m.title && TrimRight(m.title) == m.title;
    assert Title(items) == m.title;
    assert Sources(items) == [];
    var line := Line(m.title, []);
    assert TopicLine(items) == Some(line);
    assert line == "- a" + ("\n" + "b\U{FF08}\U{FF09}");
    NewlinesOfSum("- a", "\n" + "b\U{FF08}\U{FF09}");
    NewlinesOfSum("\n", "b\U{FF08}\U{FF09}");
  }

  // ---- the renderer in its own form ----

  method RenderTopics(topics: seq<Topic>, limit: int) returns (text: string)
    ensures text == Render(topics, limit)
  {
    var bound := limit;
    if bound <= 0 || bound > 12 {
      bound := 12;
    }
    var ordered := Sort(topics, TopicBefore);
    var lines := CollectLines(ordered, bound);
    text := Join(lines, "\n");
  }

  /** The loop over the ordered topics, up to the bound. */
  method CollectLines(ordered: seq<Topic>, bound: nat) returns (lines: seq<string>)
    ensures lines == TakeLines(TopicLines(ordered), bound)
  {
    ghost var all := TopicLines(ordered);
    lines := [];
    var i := 0;
    TakeNone(all, bound);
    while i < |ordered| && |lines| < bound
      invariant 0 <= i <= |ordered| && TakenBefore(all, bound, i, lines)
    {
      var line := LineFor(ordered, i);
      TakeOne(all, i, lines, bound);
      if line.Some? {
        lines := lines + [line.value];
      }
      i := i + 1;
    }
    TakeNoMore(all, i, lines, bound);
  }

  /** The text's lines are `lines` and then those of the topics from `i` on. */
  predicate TakenBefore(all: seq<Option<string>>, bound: nat, i: nat, lines: seq<string>) {
    && i <= |all| && |lines| <= bound
    && TakeLines(all, bound) == lines + TakeLines(all[i..], bound - |lines|)
  }

  lemma TakeNone(all: seq<Option<string>>, bound: nat)
    ensures TakenBefore(all, bound, 0, [])
  {
    assert all[0..] == all;
  }

  lemma TakeNoMore(all: seq<Option<string>>, i: nat, lines: seq<string>, bound: nat)
    requires TakenBefore(all, bound, i, lines) && (i == |all| || |lines| == bound)
    ensures lines == TakeLines(all, bound)
  {
  }

  /** The lines taken so far, and the next one if there is one. */
  function WithLine(lines: seq<string>, line: Option<string>): seq<string> {
    if line.Some? then lines + [line.value] else lines
  }

  method LineFor(ordered: seq<Topic>, i: nat) returns (line: Option<string>)
    requires i < |ordered|
    ensures line == TopicLines(ordered)[i]
  {
    line := OneLine(ordered[i].items);
  }

  lemma TakeOne(all: seq<Option<string>>, i: nat, lines: seq<string>, bound: nat)
    requires i < |all| && |lines| < bound && TakenBefore(all, bound, i, lines)
    ensures TakenBefore(all, bound, i + 1, WithLine(lines, all[i]))
  {
    assert all[i..][0] == all[i] && all[i..][1..] == all[i + 1..];
  }

  /** The loop's body for one topic; without a title the topic is skipped. */
  method OneLine(topicItems: seq<Item>) returns (line: Option<string>)
    ensures line == TopicLine(topicItems)
  {
    var items := Sort(topicItems, MoreUseful);
    var title := if items == [] then "" else TitleOf(items[0]);
    if title == "" {
      return None;
    }
    var names := SourceNames(topicItems);
    return Some(Line(title, names));
  }

  /** The sources gathered in a map, cut, and sorted. A map is walked in no particular order. */
  method SourceNames(items: seq<Item>) returns (names: seq<string>)
    ensures names == Sort(CutAll(Sources(items)), Before)
  {
    var sources: set<string> := {};
    for i := 0 to |items|
      invariant forall x :: x in sources <==> x != "" && exists k | 0 <= k < i :: items[k].source == x
    {
      if items[i].source != "" {
        sources := sources + {items[i].source};
      }
    }
    names := [];
    ghost var listed: seq<string> := [];
    ghost var all := sources;
    while sources != {}
      invariant forall x :: x in all <==> x in sources || x in listed
      invariant forall k | 0 <= k < |listed| :: listed[k] !in sources
      invariant forall k, l | 0 <= k < l < |listed| :: listed[k] != listed[l]
      invariant names == CutAll(listed)
    {
      var source :| source in sources;
      sources := sources - {source};
      listed := listed + [source];
      names := names + [Cut(source, 24)];
    }
    NamesIgnoreOrder(listed, items);
    names := Sort(names, Before);
  }
}
