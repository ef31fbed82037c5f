/**
 The one-time topic migration of the digest store: what it may change, what its fence covers, and that running
 it again does nothing.
 */
module DigestMigration {
  import opened Options
  import opened Sorting

  datatype State = Pending | Leased | Delivering | Acked | Expired

  /** `score` is the message's `ai_score` where that is a number, `rest` its other fields in encoded form. */
  datatype Message = Message(link: string, title: string, content: string, score: Option<real>, rest: string)

  /** Expiry, lease, delivery and the end of an item, which the migration reads and writes back only. */
  datatype Custody = Custody(
    expiresAt: int, leaseId: string, leaseUntil: int, deliveryId: string, acknowledgedAt: int, terminalAt: int,
    terminalReason: string)

  datatype Item = Item(
    id: string, source: string, briefing: string, message: Option<Message>, state: State, createdAt: int,
    schema: int, priority: int, topicKey: string, custody: Custody)

  /** A stored value that decodes to an item, or does not. */
  datatype Raw = Stored(item: Item) | Garbage

  const SchemaVersion := 4

  /** What the operator and the library supply: source priorities, and the topic hash of an item's own text. */
  datatype Rules = Rules(priorities: map<string, int>, topicOf: (string, Option<Message>, int) -> string)

  datatype Report = Report(
    apply: bool, applied: bool, markerPresent: bool, alreadyMarked: bool, scanned: nat, updated: nat,
    beforeCount: nat, afterCount: nat, beforeHash: string, afterHash: string)

  datatype Error =
    | NoExpectedHash | Cancelled | BucketMissing | DecodeItem(key: string) | InvalidIdentity(key: string)
    | HashMismatch | NotConserved | WriteFailed

  datatype Result = Done(report: Report) | Refused(error: Error)

  /** The item bucket, if it exists, and whether the migration's marker is set. */
  datatype Db = Db(items: Option<map<string, Raw>>, marked: bool)

  // ---- one item ----

  function Clamp(p: int): int {
    if p < -100 then -100 else if p > 100 then 100 else p
  }

  /** Conversion to int: toward zero. */
  function Truncate(x: real): int {
    if x >= 0.0 then x.Floor else -((-x).Floor)
  }

  function PriorityOf(item: Item, rules: Rules): int {
    var base := Clamp(if item.source in rules.priorities then rules.priorities[item.source] else 0);
    if item.message.Some? && item.message.value.score.Some? then
      var mapped := Clamp(Truncate(item.message.value.score.value * 10.0) - 50);
      if mapped > base then mapped else base
    else base
  }

  function Upgraded(item: Item, rules: Rules): Item {
    item.(schema := SchemaVersion, priority := PriorityOf(item, rules),
          topicKey := rules.topicOf(item.briefing, item.message, item.createdAt))
  }

  predicate Outdated(item: Item, rules: Rules) {
    item.state.Pending? &&
    !(item.schema == SchemaVersion && item.priority == PriorityOf(item, rules)
      && item.topicKey == rules.topicOf(item.briefing, item.message, item.createdAt))
  }

  // ---- the whole bucket ----

  predicate Sound(items: map<string, Raw>) {
    forall k | k in items :: SoundAt(k, items[k])
  }

  predicate SoundAt(k: string, raw: Raw) {
    raw.Stored? && raw.item.id != "" && raw.item.id == k
  }

  function Updates(items: map<string, Raw>, rules: Rules): map<string, Item>
    requires Sound(items)
  {
    map k | k in items && Outdated(items[k].item, rules) :: Upgraded(items[k].item, rules)
  }

  /** What a run has to write: nothing behind the marker. */
  function Due(items: map<string, Raw>, rules: Rules, marked: bool): map<string, Item>
    requires Sound(items)
  {
    if marked then map[] else Updates(items, rules)
  }

  function Written(items: map<string, Raw>, updates: map<string, Item>): map<string, Raw> {
    map k | k in items :: if k in updates then Stored(updates[k]) else items[k]
  }

  /** Stands for the hexadecimal digest: never empty, and different for different inputs. */
  function Hashed(input: string): (hash: string)
    ensures hash != ""
  {
    "#" + input
  }

  /** The digest of the sorted ids, each closed by a NUL. */
  function ConservationHash(ids: seq<string>): string {
    Hashed(Fed(Sort(ids, Before)))
  }

  function Fed(ids: seq<string>): string {
    if ids == [] then "" else ids[0] + "\0" + Fed(ids[1..])
  }

  ghost predicate Lists(ids: seq<string>, keys: set<string>) {
    (forall x :: x in ids <==> x in keys) && (forall i, j | 0 <= i < j < |ids| :: ids[i] != ids[j])
  }

  /** The hash of a set of ids does not depend on the order in which the store lists them. */
  lemma HashIgnoresOrder(a: seq<string>, b: seq<string>, keys: set<string>)
    requires Lists(a, keys) && Lists(b, keys)
    ensures ConservationHash(a) == ConservationHash(b)
  {
    DistinctListings(a, b);
    BeforeOrders(a);
    SortIgnoresOrder(a, b, Before);
  }

  ghost function Listing(keys: set<string>): (ids: seq<string>)
    ensures Lists(ids, keys) && |ids| == |keys|
  {
    if keys == {} then []
    else
      var k :| k in keys;
      Listing(keys - {k}) + [k]
  }

  ghost function HashOf(keys: set<string>): string {
    ConservationHash(Listing(keys))
  }

  // ---- the migration ----

  /** The bucket is walked by rising key. */
  ghost function BucketOrder(items: map<string, Raw>): seq<string> {
    Sort(Listing(items.Keys), Before)
  }

  lemma BucketOrderLists(items: map<string, Raw>)
    ensures Lists(BucketOrder(items), items.Keys) && |BucketOrder(items)| == |items.Keys|
    ensures Sorted(BucketOrder(items), Before)
  {
    var (ids, order) := (Listing(items.Keys), BucketOrder(items));
    BeforeOrders(ids);
    SortIsSorted(ids, Before);
    SameElements(ids, order);
    forall i, j | 0 <= i < j < |order| ensures order[i] != order[j] {
      DistinctFromCounts(ids, order, i, j);
    }
  }

  lemma DistinctFromCounts(ids: seq<string>, order: seq<string>, i: nat, j: nat)
    requires multiset(ids) == multiset(order) && i < j < |order|
    requires forall k, l | 0 <= k < l < |ids| :: ids[k] != ids[l]
    ensures order[i] != order[j]
  {
    CountDistinct(ids, order[i]);
    assert order == order[..i] + [order[i]] + order[i + 1..];
    assert order[j] == order[i + 1..][j - i - 1];
  }

  /** Whether the context is still alive at its `n`-th check; `allowed` checks pass, all of them for None. */
  predicate Alive(allowed: Option<nat>, n: nat) {
    allowed.None? || n < allowed.value
  }

  /** The first error of the walk from the i-th key on: an ended context, an undecodable value or a value that
      names another key. */
  function WalkError(items: map<string, Raw>, order: seq<string>, i: nat, allowed: Option<nat>): Option<Error>
    requires i <= |order| && forall k | k in order :: k in items
    decreases |order| - i
  {
    if i == |order| then None
    else if !Alive(allowed, i + 1) then Some(Cancelled)
    else if items[order[i]].Garbage? then Some(DecodeItem(order[i]))
    else if !SoundAt(order[i], items[order[i]]) then Some(InvalidIdentity(order[i]))
    else WalkError(items, order, i + 1, allowed)
  }

  lemma {:induction false} WalkErrorIff(items: map<string, Raw>, order: seq<string>, i: nat, allowed: Option<nat>)
    requires i <= |order| && (forall k | k in order :: k in items) && Alive(allowed, i)
    ensures WalkError(items, order, i, allowed).None? <==>
      Alive(allowed, |order|) && forall j | i <= j < |order| :: SoundAt(order[j], items[order[j]])
    decreases |order| - i
  {
    if i < |order| && Alive(allowed, i + 1) {
      WalkErrorIff(items, order, i + 1, allowed);
    }
  }

  /** The updates of the first `n` keys. */
  function UpdatesUpTo(items: map<string, Raw>, order: seq<string>, n: nat, rules: Rules, marked: bool): map<string, Item>
    requires n <= |order| && forall k | k in order :: k in items
  {
    if n == 0 then map[]
    else
      var (before, raw) := (UpdatesUpTo(items, order, n - 1, rules, marked), items[order[n - 1]]);
      if !marked && raw.Stored? && Outdated(raw.item, rules) then before[order[n - 1] := Upgraded(raw.item, rules)]
      else before
  }

  predicate NeedsUpdate(raw: Raw, rules: Rules, marked: bool) {
    !marked && raw.Stored? && Outdated(raw.item, rules)
  }

  lemma {:induction false} UpdatesUpToHolds(
      items: map<string, Raw>, order: seq<string>, n: nat, rules: Rules, marked: bool, key: string)
    requires n <= |order| && forall k | k in order :: k in items
    ensures var updates := UpdatesUpTo(items, order, n, rules, marked);
      && (key in updates <==> key in order[..n] && NeedsUpdate(items[key], rules, marked))
      && (key in updates ==> updates[key] == Upgraded(items[key].item, rules))
  {
    if n > 0 {
      UpdatesUpToHolds(items, order, n - 1, rules, marked, key);
      assert order[..n] == order[..n - 1] + [order[n - 1]];
    }
  }

  lemma UpdatesUpToEnd(items: map<string, Raw>, order: seq<string>, rules: Rules, marked: bool)
    requires Sound(items) && forall k :: k in order <==> k in items
    ensures UpdatesUpTo(items, order, |order|, rules, marked) == Due(items, rules, marked)
  {
    var (got, want) := (UpdatesUpTo(items, order, |order|, rules, marked), Due(items, rules, marked));
    forall k ensures (k in got <==> k in want) && (k in got && k in want ==> got[k] == want[k]) {
      UpdatesUpToHolds(items, order, |order|, rules, marked, k);
      assert order[..|order|] == order;
      assert k in items ==> SoundAt(k, items[k]);
    }
  }

  ghost function FirstError(items: map<string, Raw>, allowed: Option<nat>): (e: Option<Error>)
    ensures Alive(allowed, 0) ==> (e.None? <==> Sound(items) && Alive(allowed, |items.Keys|))
  {
    BucketOrderLists(items);
    var order := BucketOrder(items);
    assert Alive(allowed, 0) ==> (WalkError(items, order, 0, allowed).None? <==>
                                    Sound(items) && Alive(allowed, |items.Keys|)) by {
      if Alive(allowed, 0) {
        WalkErrorIff(items, order, 0, allowed);
      }
    }
    WalkError(items, order, 0, allowed)
  }

  ghost function Outcome(
      db: Db, rules: Rules, apply: bool, expected: string, allowed: Option<nat>, writesFail: bool): (Db, Result)
  {
    if apply && expected == "" then (db, Refused(NoExpectedHash))
    else if !Alive(allowed, 0) then (db, Refused(Cancelled))
    else if db.items.None? then (db, Refused(BucketMissing))
    else if FirstError(db.items.value, allowed).Some? then (db, Refused(FirstError(db.items.value, allowed).value))
    else
      var items := db.items.value;
      var updates := Due(items, rules, db.marked);
      var (n, hash) := (|items.Keys|, HashOf(items.Keys));
      var report := Report(apply, false, db.marked, db.marked, n, |updates|, n, n, hash, hash);
      if apply && expected != hash then (db, Refused(HashMismatch))
      else if !apply || db.marked then (db, Done(report))
      else if writesFail then (db, Refused(WriteFailed))
      else (Db(Some(Written(items, updates)), true), Done(report.(applied := true, markerPresent := true)))
  }

  /** An undisturbed run. */
  ghost function Preview(db: Db, rules: Rules): Result {
    Outcome(db, rules, false, "", None, false).1
  }

  ghost function Applied(db: Db, rules: Rules, expected: string): (Db, Result) {
    Outcome(db, rules, true, expected, None, false)
  }

  /** The change of one entry that the migration may make. */
  predicate OnlyTopicFields(before: Raw, after: Raw) {
    before == after ||
    (before.Stored? && after.Stored? && before.item.state.Pending? &&
     after == Stored(before.item.(schema := SchemaVersion, priority := after.item.priority,
                                  topicKey := after.item.topicKey)))
  }

  lemma WrittenChangesTopicsOnly(items: map<string, Raw>, rules: Rules)
    requires Sound(items)
    ensures var written := Written(items, Updates(items, rules));
      written.Keys == items.Keys && forall k | k in items :: OnlyTopicFields(items[k], written[k])
  {
    var written := Written(items, Updates(items, rules));
    forall k | k in items ensures OnlyTopicFields(items[k], written[k]) {
      assert SoundAt(k, items[k]);
    }
  }

  lemma PriorityInRange(item: Item, rules: Rules)
    ensures -100 <= PriorityOf(item, rules) <= 100
  {
  }

  /** Clamping gives the nearest number of the range. */
  lemma ClampIsNearest(p: int, q: int)
    requires -100 <= q <= 100
    ensures -100 <= Clamp(p) <= 100 && (if p < Clamp(p) then Clamp(p) - p else p - Clamp(p)) <= (if p < q then q - p else p - q)
  {
  }

  lemma TruncateDropsFraction(x: real)
    ensures x >= 0.0 ==> Truncate(x) as real <= x < Truncate(x) as real + 1.0
    ensures x < 0.0 ==> Truncate(x) as real - 1.0 < x <= Truncate(x) as real
  {
  }

  function SourcePriority(item: Item, rules: Rules): int {
    if item.source in rules.priorities then rules.priorities[item.source] else 0
  }

  /** An item without a score has the priority of its source; a score counts ten for each point above five, and the
      larger of the two is taken, each held within the range. */
  lemma PriorityIsLarger(item: Item, rules: Rules)
    ensures var (p, source) := (PriorityOf(item, rules), Clamp(SourcePriority(item, rules)));
      if item.message.Some? && item.message.value.score.Some? then
        var scored := Clamp(Truncate(item.message.value.score.value * 10.0) - 50);
        source <= p && scored <= p && (p == source || p == scored)
      else p == source
  {
  }

  /** An item is outdated exactly if it is pending and upgrading it would change it. */
  lemma OutdatedIffChanged(item: Item, rules: Rules)
    ensures Outdated(item, rules) <==> item.state.Pending? && Upgraded(item, rules) != item
  {
  }

  /** After a first apply, with the hash that lets it through, every pending item has the current schema, its own
      topic and its own priority, and keeps all else; every other item is as it was. */
  lemma AppliedItems(items: map<string, Raw>, rules: Rules, k: string)
    requires Sound(items) && k in items
    ensures var (after, res) := Applied(Db(Some(items), false), rules, HashOf(items.Keys));
      && res.Done? && after.items.Some? && k in after.items.value && after.items.value[k].Stored?
      && var before := items[k].item;
      && after.items.value[k].item == (if before.state.Pending?
           then before.(schema := SchemaVersion, priority := PriorityOf(before, rules),
                        topicKey := rules.topicOf(before.briefing, before.message, before.createdAt))
           else before)
  {
    assert SoundAt(k, items[k]);
  }

  /** Every outcome keeps all ids and changes nothing but schema, priority and topic of pending items; a
      refused run, a preview and a run behind the marker change nothing at all. */
  lemma OnlyPendingTopicsChange(
      db: Db, rules: Rules, apply: bool, expected: string, allowed: Option<nat>, fail: bool)
    ensures var (after, res) := Outcome(db, rules, apply, expected, allowed, fail);
      && (res.Refused? || !apply || db.marked ==> after == db)
      && (db.items.Some? <==> after.items.Some?)
      && (db.items.Some? ==>
            && after.items.value.Keys == db.items.value.Keys
            && (forall k | k in db.items.value :: OnlyTopicFields(db.items.value[k], after.items.value[k])))
  {
    var res := Outcome(db, rules, apply, expected, allowed, fail).1;
    if res.Done? && apply && !db.marked {
      WrittenChangesTopicsOnly(db.items.value, rules);
    }
  }

  lemma UpgradeOnce(item: Item, rules: Rules)
    ensures Upgraded(Upgraded(item, rules), rules) == Upgraded(item, rules) && !Outdated(Upgraded(item, rules), rules)
  {
  }

  lemma UpdateIsChange(item: Item, rules: Rules)
    requires Outdated(item, rules)
    ensures Upgraded(item, rules) != item
  {
  }

  lemma WrittenIsUpToDate(items: map<string, Raw>, rules: Rules)
    requires Sound(items)
    ensures var written := Written(items, Updates(items, rules));
      written.Keys == items.Keys && Sound(written) && Updates(written, rules) == map[]
      && Written(written, map[]) == written
  {
    var written := Written(items, Updates(items, rules));
    forall k | k in items ensures SoundAt(k, written[k]) && !Outdated(written[k].item, rules) {
      assert SoundAt(k, items[k]);
      UpgradeOnce(items[k].item, rules);
    }
    assert written.Keys == items.Keys;
  }

  /** What was written is up to date: a second run finds nothing to do even if it does not see the marker, and
      would accept the same hash. */
  lemma SecondRunFindsNothing(db: Db, rules: Rules, expected: string)
    requires Applied(db, rules, expected).1.Done? && !db.marked
    ensures var after := Applied(db, rules, expected).0;
      var again := Applied(after.(marked := false), rules, expected);
      && again.1.Done? && again.1.report.updated == 0
      && again.0 == after
  {
    WrittenIsUpToDate(db.items.value, rules);
  }

  /** The entries an outcome changes. */
  ghost function Changed(before: map<string, Raw>, after: map<string, Raw>): set<string> {
    set k | k in before && (k !in after || before[k] != after[k])
  }

  lemma ChangedAreUpdates(items: map<string, Raw>, rules: Rules)
    requires Sound(items)
    ensures Written(items, Updates(items, rules)).Keys == items.Keys
    ensures Changed(items, Written(items, Updates(items, rules))) == Updates(items, rules).Keys
  {
    var (updates, after) := (Updates(items, rules), Written(items, Updates(items, rules)));
    assert after.Keys == items.Keys;
    forall k | k in items ensures items[k] != after[k] <==> k in updates {
      assert SoundAt(k, items[k]);
      if k in updates {
        UpdateIsChange(items[k].item, rules);
      }
    }
  }

  /** An apply on the state a preview saw is let through by the preview's hash and changes exactly as many
      items as the preview counted. */
  lemma ApplyDoesWhatPreviewSaw(db: Db, rules: Rules)
    requires Preview(db, rules).Done?
    ensures var preview := Preview(db, rules).report;
      var (after, res) := Applied(db, rules, preview.beforeHash);
      && res.Done? && res.report.updated == preview.updated
      && res.report.afterCount == preview.beforeCount && res.report.afterHash == preview.beforeHash
      && after.items.value.Keys == db.items.value.Keys
      && |Changed(db.items.value, after.items.value)| == preview.updated
      && after.marked
  {
    var items := db.items.value;
    ChangedAreUpdates(items, rules);
    assert |Updates(items, rules)| == |Updates(items, rules).Keys|;
    assert db.marked ==> Changed(items, items) == {};
  }

  /** What a report says: how many items there are and how many are due, their hash before and after, and whether
      this run applied anything. */
  lemma ReportTells(db: Db, rules: Rules, apply: bool, expected: string, allowed: Option<nat>, fail: bool)
    requires Outcome(db, rules, apply, expected, allowed, fail).1.Done?
    ensures var (after, res) := Outcome(db, rules, apply, expected, allowed, fail);
      var (report, items) := (res.report, db.items.value);
      && report.scanned == report.beforeCount == report.afterCount == |items.Keys|
      && report.beforeHash == report.afterHash == HashOf(items.Keys)
      && report.updated == |Due(items, rules, db.marked)|
      && report.apply == apply && (report.applied <==> apply && !db.marked)
      && (report.alreadyMarked <==> db.marked) && (report.markerPresent <==> after.marked)
      && (apply ==> expected == report.beforeHash)
  {
  }

  // ---- what the fence covers ----

  predicate NoNul(s: string) {
    forall i | 0 <= i < |s| :: s[i] != '\0'
  }

  lemma {:induction false} SplitAtNul(a: string, b: string, p: string, q: string)
    requires NoNul(a) && NoNul(b) && a + "\0" + p == b + "\0" + q
    ensures a == b && p == q
  {
    var (l, r) := (a + "\0" + p, b + "\0" + q);
    assert l[|a|] == '\0' && r[|b|] == '\0';
    assert forall i | 0 <= i < |a| :: l[i] == a[i];
    assert forall i | 0 <= i < |b| :: r[i] == b[i];
    assert |a| == |b|;
    assert a == l[..|a|] && b == r[..|b|];
    assert p == l[|a| + 1..] && q == r[|b| + 1..];
  }

  lemma {:induction false} FedTellsApart(a: seq<string>, b: seq<string>)
    requires (forall x | x in a :: NoNul(x)) && (forall x | x in b :: NoNul(x)) && Fed(a) == Fed(b)
    ensures a == b
  {
    if a != [] && b != [] {
      SplitAtNul(a[0], b[0], Fed(a[1..]), Fed(b[1..]));
      FedTellsApart(a[1..], b[1..]);
      assert a == [a[0]] + a[1..] && b == [b[0]] + b[1..];
    }
  }

  /** For ids without a NUL the fence lets exactly the previewed set of ids through. */
  lemma FenceTellsIdsApart(a: set<string>, b: set<string>)
    requires (forall x | x in a :: NoNul(x)) && (forall x | x in b :: NoNul(x))
    ensures HashOf(a) == HashOf(b) <==> a == b
  {
    if HashOf(a) == HashOf(b) {
      var (s, t) := (Listing(a), Listing(b));
      SortKeepsElements(s, Before);
      SortKeepsElements(t, Before);
      SameElements(s, Sort(s, Before));
      SameElements(t, Sort(t, Before));
      var (p, q) := (Fed(Sort(s, Before)), Fed(Sort(t, Before)));
      assert Hashed(p)[1..] == p && Hashed(q)[1..] == q;
      FedTellsApart(Sort(s, Before), Sort(t, Before));
      assert forall x :: x in a <==> x in s;
      assert forall x :: x in b <==> x in t;
      assert forall x :: x in a <==> x in b;
    }
  }

  lemma HashOfListing(ids: seq<string>, sorted: seq<string>, keys: set<string>)
    requires Lists(ids, keys) && Sort(ids, Before) == sorted
    ensures HashOf(keys) == Hashed(Fed(sorted))
  {
    HashIgnoresOrder(ids, Listing(keys), keys);
  }

  lemma SortOne(a: string)
    ensures Sort([a], Before) == [a]
  {
    assert [a][1..] == [];
  }

  lemma SortTwo(a: string, b: string)
    requires Before(a, b)
    ensures Sort([a, b], Before) == [a, b]
  {
    assert [a, b][1..] == [b];
    SortOne(b);
  }

  lemma FedJoined(a: string, b: string)
    ensures Fed([a + "\0" + b]) == Fed([a, b])
  {
    var joined := a + "\0" + b;
    assert [joined][1..] == [] && [a, b][1..] == [b] && [b][1..] == [];
    assert Fed([b]) == b + "\0" + "";
    assert joined + "\0" + "" == a + "\0" + (b + "\0" + "");
  }

  /** The restriction to ids without a NUL, which all ids given out by the store meet, is needed: two ids in order
      and the one id made of both with a NUL between them share the hash. */
  lemma NulDefeatsFence(a: string, b: string)
    requires Before(a, b)
    ensures HashOf({a + "\0" + b}) == HashOf({a, b}) && |{a, b}| == 2
  {
    var joined := a + "\0" + b;
    BeforeIsStrict(a);
    SortOne(joined);
    HashOfListing([joined], [joined], {joined});
    SortTwo(a, b);
    HashOfListing([a, b], [a, b], {a, b});
    FedJoined(a, b);
  }

  /** The ids the store gives out: SHA-256 in hexadecimal. */
  predicate IsDigestId(s: string) {
    |s| == 64 && forall i | 0 <= i < |s| :: '0' <= s[i] <= '9' || 'a' <= s[i] <= 'f'
  }

  /** So the fence tells apart all sets of ids that the store can hold. */
  lemma FenceTellsDigestIdsApart(a: set<string>, b: set<string>)
    requires (forall x | x in a :: IsDigestId(x)) && (forall x | x in b :: IsDigestId(x))
    ensures HashOf(a) == HashOf(b) <==> a == b
  {
    forall x | x in a || x in b ensures NoNul(x) {
      assert IsDigestId(x);
    }
    FenceTellsIdsApart(a, b);
  }

  predicate StoredIds(db: Db) {
    db.items.Some? ==> forall k | k in db.items.value :: NoNul(k)
  }

  /** A previewed hash lets an apply through exactly if the bucket is there, every value in it decodes under
      its own key, and the ids are those the preview saw. What else has changed since is not looked at. */
  lemma PreviewedHashLetsThrough(seen: Db, now: Db, rules: Rules)
    requires Preview(seen, rules).Done? && StoredIds(seen) && StoredIds(now)
    ensures Applied(now, rules, Preview(seen, rules).report.beforeHash).1.Done? <==>
      now.items.Some? && Sound(now.items.value) && now.items.value.Keys == seen.items.value.Keys
  {
    if now.items.Some? {
      FenceTellsIdsApart(seen.items.value.Keys, now.items.value.Keys);
    }
  }

  /** What the previewed updates are made of. */
  predicate SameBasis(a: Item, b: Item) {
    && a.source == b.source && a.briefing == b.briefing && a.message == b.message && a.createdAt == b.createdAt
    && a.custody == b.custody
  }

  lemma UpdateShowsBasis(a: Item, b: Item, rules: Rules)
    requires a.id == b.id && a.state == b.state
    ensures Upgraded(a, rules) == Upgraded(b, rules) <==> SameBasis(a, b)
  {
  }

  /** A run changed exactly the previewed items, and to the previewed values. */
  ghost predicate AsPreviewed(previewed: map<string, Item>, before: map<string, Raw>, after: map<string, Raw>) {
    && Changed(before, after) == previewed.Keys
    && forall k | k in previewed && k in after :: after[k] == Stored(previewed[k])
  }

  /** The same items are due as in the past, nothing being due behind the marker, and each of them still has the
      contents it had then. */
  ghost predicate SameIsDue(past: map<string, Raw>, wasMarked: bool, items: map<string, Raw>, marked: bool, rules: Rules)
    requires Sound(past) && Sound(items) && past.Keys == items.Keys
  {
    forall k | k in items ::
      && (NeedsUpdate(past[k], rules, wasMarked) <==> NeedsUpdate(items[k], rules, marked))
      && (NeedsUpdate(items[k], rules, marked) ==> SameBasis(past[k].item, items[k].item))
  }

  /** An apply let through by a previewed hash does what was previewed exactly if what is due has stayed the same. */
  lemma AppliedAsPreviewedIff(seen: Db, now: Db, rules: Rules)
    requires Preview(seen, rules).Done?
    requires now.items.Some? && Sound(now.items.value) && now.items.value.Keys == seen.items.value.Keys
    ensures var (past, items) := (seen.items.value, now.items.value);
      var (after, res) := Applied(now, rules, Preview(seen, rules).report.beforeHash);
      && res.Done? && after.items.Some?
      && (AsPreviewed(Due(past, rules, seen.marked), items, after.items.value) <==>
            SameIsDue(past, seen.marked, items, now.marked, rules))
  {
    AppliedWritesDue(now, rules);
    WrittenAsPreviewedIff(seen.items.value, seen.marked, now.items.value, now.marked, rules);
  }

  lemma WrittenAsPreviewedIff(past: map<string, Raw>, wasMarked: bool, items: map<string, Raw>, marked: bool, rules: Rules)
    requires Sound(past) && Sound(items) && past.Keys == items.Keys
    ensures AsPreviewed(Due(past, rules, wasMarked), items, Written(items, Due(items, rules, marked))) <==>
      SameIsDue(past, wasMarked, items, marked, rules)
  {
    WrittenIsChanged(items, rules, marked);
    DueAgreeIff(past, wasMarked, items, marked, rules);
  }

  lemma WrittenIsChanged(items: map<string, Raw>, rules: Rules, marked: bool)
    requires Sound(items)
    ensures var due := Due(items, rules, marked);
      Written(items, due).Keys == items.Keys && Changed(items, Written(items, due)) == due.Keys <= items.Keys
  {
    if !marked {
      ChangedAreUpdates(items, rules);
    }
  }

  /** The apply writes what is due now. */
  lemma AppliedWritesDue(db: Db, rules: Rules)
    requires db.items.Some? && Sound(db.items.value)
    ensures var (items, due) := (db.items.value, Due(db.items.value, rules, db.marked));
      var (after, res) := Applied(db, rules, HashOf(items.Keys));
      res.Done? && after.items == Some(Written(items, due)) && res.report.updated == |due|
  {
    if db.marked {
      assert Written(db.items.value, map[]) == db.items.value;
    }
  }

  lemma DueAgreeIff(past: map<string, Raw>, wasMarked: bool, items: map<string, Raw>, marked: bool, rules: Rules)
    requires Sound(past) && Sound(items) && past.Keys == items.Keys
    ensures var (a, b) := (Due(past, rules, wasMarked), Due(items, rules, marked));
      (a.Keys == b.Keys && forall k | k in a :: a[k] == b[k]) <==> SameIsDue(past, wasMarked, items, marked, rules)
  {
    var (a, b) := (Due(past, rules, wasMarked), Due(items, rules, marked));
    forall k | k in items
      ensures (k in a <==> NeedsUpdate(past[k], rules, wasMarked)) && (k in b <==> NeedsUpdate(items[k], rules, marked))
      ensures k in a && k in b ==> (a[k] == b[k] <==> SameBasis(past[k].item, items[k].item))
    {
      assert SoundAt(k, past[k]) && SoundAt(k, items[k]);
      if k in a && k in b {
        UpdateShowsBasis(past[k].item, items[k].item, rules);
      }
    }
    if forall k | k in items :: NeedsUpdate(past[k], rules, wasMarked) <==> NeedsUpdate(items[k], rules, marked) {
      assert forall k :: k in a <==> k in b;
    }
  }

  /** A store of one pending item that comes from `source`. */
  function OnePending(id: string, source: string): map<string, Raw> {
    map[id := Stored(Item(id, source, "closing", None, Pending, 0, SchemaVersion, 0, "", Custody(0, "", 0, "", 0, 0, "")))]
  }

  lemma OneIsDue(id: string, source: string, rules: Rules)
    requires id != "" && source in rules.priorities && 0 < rules.priorities[source]
    ensures var items := OnePending(id, source);
      Sound(items) && NeedsUpdate(items[id], rules, false) && |Due(items, rules, false)| == 1
  {
    var items := OnePending(id, source);
    assert Sound(items);
    assert Due(items, rules, false).Keys == {id};
    assert |Due(items, rules, false)| == |Due(items, rules, false).Keys|;
  }

  /** An item whose source changed after the preview: the fence lets the apply through, the report counts one
      update as the preview did, and the priority written is that of the other source. */
  lemma ChangedSourceIsApplied(id: string, topicOf: (string, Option<Message>, int) -> string)
    requires id != ""
    ensures var rules := Rules(map["a" := 10, "b" := 20], topicOf);
      var (past, items) := (OnePending(id, "a"), OnePending(id, "b"));
      var preview := Preview(Db(Some(past), false), rules);
      && Sound(past) && preview.Done? && preview.report.updated == 1
      && var (after, res) := Applied(Db(Some(items), false), rules, preview.report.beforeHash);
      && res.Done? && res.report.updated == 1 && after.items.Some?
      && !AsPreviewed(Due(past, rules, false), items, after.items.value)
  {
    var rules := Rules(map["a" := 10, "b" := 20], topicOf);
    var (past, items) := (OnePending(id, "a"), OnePending(id, "b"));
    OneIsDue(id, "a", rules);
    OneIsDue(id, "b", rules);
    AppliedWritesDue(Db(Some(items), false), rules);
    WrittenAsPreviewedIff(past, false, items, false, rules);
    assert !SameIsDue(past, false, items, false, rules) by {
      assert id in items;
    }
  }

  // ---- the run in its own form ----

  class DigestDb {
    var items: Option<map<string, Raw>>
    var marked: bool

    ghost function Model(): Db
      reads this
    {
      Db(items, marked)
    }

    /** One transaction: a working copy that is kept only if the run ends without an error. */
    method Migrate(rules: Rules, apply: bool, expected: string, allowed: Option<nat>, writesFail: bool)
      returns (res: Result)
      modifies this
      ensures (Model(), res) == Outcome(old(Model()), rules, apply, expected, allowed, writesFail)
    {
      if apply && expected == "" {
        return Refused(NoExpectedHash);
      }
      if !Alive(allowed, 0) {
        return Refused(Cancelled);
      }
      if items.None? {
        return Refused(BucketMissing);
      }
      var after, marks;
      after, marks, res := RunOn(items.value, marked, rules, apply, expected, allowed, writesFail);
      items, marked := Some(after), marks;
    }

    /** The transaction's body on its own copy; an error gives the copy up. */
    method RunOn(before: map<string, Raw>, wasMarked: bool, rules: Rules, apply: bool, expected: string,
                 allowed: Option<nat>, writesFail: bool)
      returns (after: map<string, Raw>, marks: bool, res: Result)
      requires (apply ==> expected != "") && Alive(allowed, 0)
      ensures (Db(Some(after), marks), res) ==
        Outcome(Db(Some(before), wasMarked), rules, apply, expected, allowed, writesFail)
    {
      after, marks := before, wasMarked;
      var error, ids, updates := Scan(before, rules, wasMarked, allowed);
      if error.Some? {
        return after, marks, Refused(error.value);
      }
      var hash := IdsHash(ids, before.Keys);
      var report := Report(apply, false, wasMarked, wasMarked, |ids|, |updates|, |ids|, |ids|, hash, hash);
      if apply && expected != hash {
        return after, marks, Refused(HashMismatch);
      }
      if !apply || wasMarked {
        return after, marks, Done(report);
      }
      if writesFail {
        return after, marks, Refused(WriteFailed);
      }
      var work, afterCount, afterHash := PutAndVerify(before, updates);
      var conserved := |ids| == afterCount && hash == afterHash;
      if conserved {
        after, marks := work, true;
        report := report.(applied := true, markerPresent := true, afterCount := afterCount, afterHash := afterHash);
      }
      res := if conserved then Done(report) else Refused(NotConserved);
    }

    /** The keys as the bucket's cursor hands them out. */
    method Keys(items: map<string, Raw>) returns (keys: seq<string>)
      ensures keys == BucketOrder(items)
    {
      var listed: seq<string> := [];
      var todo := items.Keys;
      while todo != {}
        invariant todo <= items.Keys && Lists(listed, items.Keys - todo)
        decreases todo
      {
        var key :| key in todo;
        listed := listed + [key];
        todo := todo - {key};
      }
      DistinctListings(listed, Listing(items.Keys));
      BeforeOrders(listed);
      SortIgnoresOrder(listed, Listing(items.Keys), Before);
      keys := Sort(listed, Before);
    }

    /** Writes the updates, then counts and hashes the ids again. */
    method PutAndVerify(before: map<string, Raw>, updates: map<string, Item>)
      returns (work: map<string, Raw>, count: nat, hash: string)
      requires updates.Keys <= before.Keys
      requires forall k | k in before :: before[k].Stored? && before[k].item.id == k
      requires forall k | k in updates :: updates[k].id == k
      ensures work == Written(before, updates)
      ensures count == |before.Keys| && hash == HashOf(before.Keys)
    {
      work := Put(before, updates);
      var ids := Verify(work);
      count := |ids|;
      hash := IdsHash(ids, work.Keys);
    }

    method IdsHash(ids: seq<string>, ghost keys: set<string>) returns (hash: string)
      requires Lists(ids, keys)
      ensures hash == HashOf(keys)
    {
      HashIgnoresOrder(ids, Listing(keys), keys);
      hash := ConservationHash(ids);
    }

    /** The first pass: every value must decode and name its own key; pending items are compared. */
    method Scan(work: map<string, Raw>, rules: Rules, alreadyMarked: bool, allowed: Option<nat>)
      returns (error: Option<Error>, ids: seq<string>, updates: map<string, Item>)
      requires Alive(allowed, 0)
      ensures error == FirstError(work, allowed)
      ensures error.None? ==> Sound(work) && Lists(ids, work.Keys) && |ids| == |work.Keys|
      ensures error.None? ==> updates == Due(work, rules, alreadyMarked)
    {
      var order := Keys(work);
      BucketOrderLists(work);
      error, ids, updates := Walk(work, order, rules, alreadyMarked, allowed);
      WalkErrorIff(work, order, 0, allowed);
      if error.None? {
        UpdatesUpToEnd(work, order, rules, alreadyMarked);
      }
    }

    method Walk(work: map<string, Raw>, order: seq<string>, rules: Rules, alreadyMarked: bool, allowed: Option<nat>)
      returns (error: Option<Error>, ids: seq<string>, updates: map<string, Item>)
      requires forall k | k in order :: k in work
      ensures error == WalkError(work, order, 0, allowed)
      ensures error.None? ==> ids == order && updates == UpdatesUpTo(work, order, |order|, rules, alreadyMarked)
    {
      ids, updates := [], map[];
      for i := 0 to |order|
        invariant WalkError(work, order, 0, allowed) == WalkError(work, order, i, allowed)
        invariant ids == order[..i] && updates == UpdatesUpTo(work, order, i, rules, alreadyMarked)
      {
        if !Alive(allowed, i + 1) {
          return Some(Cancelled), ids, updates;
        }
        var key := order[i];
        var raw := work[key];
        if raw.Garbage? {
          return Some(DecodeItem(key)), ids, updates;
        }
        if raw.item.id == "" || raw.item.id != key {
          return Some(InvalidIdentity(key)), ids, updates;
        }
        ids := ids + [raw.item.id];
        var update := Compare(raw.item, rules, alreadyMarked);
        if update.Some? {
          updates := updates[key := update.value];
        }
      }
      return None, ids, updates;
    }

    /** What one item becomes, if it has to change. */
    method Compare(item: Item, rules: Rules, alreadyMarked: bool) returns (update: Option<Item>)
      ensures update == if !alreadyMarked && Outdated(item, rules) then Some(Upgraded(item, rules)) else None
    {
      if alreadyMarked || !item.state.Pending? {
        return None;
      }
      var priority := PriorityOf(item, rules);
      var topicKey := rules.topicOf(item.briefing, item.message, item.createdAt);
      if item.schema == SchemaVersion && item.priority == priority && item.topicKey == topicKey {
        return None;
      }
      return Some(item.(schema := SchemaVersion, priority := priority, topicKey := topicKey));
    }

    method Put(before: map<string, Raw>, updates: map<string, Item>) returns (work: map<string, Raw>)
      requires updates.Keys <= before.Keys
      ensures work == Written(before, updates) && work.Keys == before.Keys
    {
      work := before;
      var todo := updates.Keys;
      while todo != {}
        invariant todo <= updates.Keys && work.Keys == before.Keys
        invariant forall k | k in before ::
          work[k] == if k in updates && k !in todo then Stored(updates[k]) else before[k]
        decreases todo
      {
        var key :| key in todo;
        work := work[key := Stored(updates[key])];
        todo := todo - {key};
      }
    }

    /** The second pass reads the ids back. */
    method Verify(work: map<string, Raw>) returns (ids: seq<string>)
      requires forall k | k in work :: work[k].Stored? && work[k].item.id == k
      ensures Lists(ids, work.Keys) && |ids| == |work.Keys|
    {
      var order := Keys(work);
      BucketOrderLists(work);
      ids := ReadIds(work, order);
    }

    method ReadIds(work: map<string, Raw>, order: seq<string>) returns (ids: seq<string>)
      requires forall i | 0 <= i < |order| ::
        order[i] in work && work[order[i]].Stored? && work[order[i]].item.id == order[i]
      ensures ids == order
    {
      ids := [];
      for i := 0 to |order|
        invariant ids == order[..i]
      {
        ids := ids + [work[order[i]].item.id];
      }
    }
  }
}
