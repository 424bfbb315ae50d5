/** The receiver of agent.data.push (maep/node.go:536-637, 781-806; maep/file_store.go:388-531). */
module DataPush {
  import opened Wrappers
  import opened Text
  import opened Sorting

  // ---- data ----

  datatype Key = Key(peer: string, topic: string, idem: string)

  /** Times count nanoseconds from the zero time, and 0 is the zero time itself. */
  datatype Record = Record(key: Key, created: nat, expires: nat)

  datatype Message = Message(
    key: Key, contentType: string, payload: string, session: string, replyTo: string, at: nat)

  datatype Window = Window(minute: nat, count: nat)

  /** What survives between calls. */
  datatype Mailbox = Mailbox(records: seq<Record>, inbox: seq<Message>, windows: map<string, Window>)

  datatype Options = Options(perMinute: int, ttl: int, maxEntries: int, maxPayload: int)

  const SECOND: nat := 1_000_000_000
  const MINUTE: nat := 60 * SECOND
  const DEFAULT_TTL: nat := 7 * 24 * 60 * MINUTE
  const DEFAULT_MAX_ENTRIES: nat := 10000
  const DEFAULT_PER_MINUTE: nat := 120
  const DEFAULT_MAX_PAYLOAD: nat := 128 * 1024

  /** normalizeNodeOptions: a node never runs with a non-positive option. */
  function Normalized(o: Options): (r: Options)
    ensures r.perMinute > 0 && r.ttl > 0 && r.maxEntries > 0 && r.maxPayload > 0
  {
    Options(if o.perMinute <= 0 then DEFAULT_PER_MINUTE else o.perMinute,
            if o.ttl <= 0 then DEFAULT_TTL else o.ttl,
            if o.maxEntries <= 0 then DEFAULT_MAX_ENTRIES else o.maxEntries,
            if o.maxPayload <= 0 then DEFAULT_MAX_PAYLOAD else o.maxPayload)
  }

  type Settings = o: Options | o.perMinute > 0 && o.ttl > 0 && o.maxEntries > 0 && o.maxPayload > 0
    witness Options(1, 1, 1, 1)

  /** One call: its parameters, the handler's clock reading, the later reading at the record
      lookup, the decoded size (None: not base64) and the envelope (None: not acceptable). */
  datatype Push = Push(
    peer: string, topic: string, contentType: string, payload: string, idem: string,
    now: nat, seen: nat, size: Option<nat>, envelope: Option<(string, string)>)

  datatype Response = InvalidParams | RateLimited | PayloadTooLarge | Accepted(deduped: bool)

  datatype Handled = Handled(box: Mailbox, response: Response)

  // ---- records ----

  predicate Expired(r: Record, now: nat) {
    r.expires != 0 && r.expires <= now
  }

  predicate UniqueKeys(records: seq<Record>) {
    forall i, j :: 0 <= i < j < |records| ==> records[i].key != records[j].key
  }

  /** First record under the key, or the end. */
  function Place(records: seq<Record>, key: Key): (i: nat)
    ensures i <= |records|
    ensures forall j :: 0 <= j < i ==> records[j].key != key
    ensures i < |records| ==> records[i].key == key
  {
    if records == [] then 0
    else if records[0].key == key then 0
    else Place(records[1..], key) + 1
  }

  predicate Knows(records: seq<Record>, key: Key, now: nat) {
    exists i :: 0 <= i < |records| && records[i].key == key && !Expired(records[i], now)
  }

  function Filled(r: Record, now: nat): Record {
    var created := if r.created == 0 then now else r.created;
    Record(r.key, created, if r.expires == 0 then created + DEFAULT_TTL else r.expires)
  }

  function Put(records: seq<Record>, r: Record): seq<Record> {
    var i := Place(records, r.key);
    if i < |records| then records[i := r] else records + [r]
  }

  function Live(records: seq<Record>, now: nat): seq<Record> {
    if records == [] then []
    else
      var n := |records| - 1;
      Live(records[..n], now) + (if Expired(records[n], now) then [] else [records[n]])
  }

  predicate KeyBefore(a: Key, b: Key) {
    if a.peer != b.peer then Before(a.peer, b.peer)
    else if a.topic != b.topic then Before(a.topic, b.topic)
    else Before(a.idem, b.idem)
  }

  /** Newer first; records of one instant by key. */
  predicate NewestFirst(a: Record, b: Record) {
    if a.created == b.created then !KeyBefore(b.key, a.key) else a.created > b.created
  }

  function Kept(records: seq<Record>, now: nat, max: nat): seq<Record> {
    var sorted := Sort(NewestFirst, Live(records, now));
    if |sorted| > max then sorted[..max] else sorted
  }

  function Prune(records: seq<Record>, now: nat, max: nat): seq<Record> {
    var kept := Kept(records, now, max);
    if |records| - |kept| <= 0 then records else kept
  }

  // ---- rate windows ----

  function WindowFor(windows: map<string, Window>, peer: string, minute: nat): Window {
    if peer in windows && windows[peer].minute != 0 && windows[peer].minute == minute then windows[peer]
    else Window(minute, 0)
  }

  function Allow(limit: int, windows: map<string, Window>, peer: string, now: nat): (bool, map<string, Window>) {
    if limit <= 0 then (true, windows)
    else
      var w := WindowFor(windows, peer, now / MINUTE);
      if w.count >= limit then (false, windows[peer := w])
      else (true, windows[peer := w.(count := w.count + 1)])
  }

  // ---- one call ----

  function KeyOf(p: Push): Key {
    Key(Trim(p.peer), Trim(p.topic), Trim(p.idem))
  }

  predicate Complete(p: Push) {
    Trim(p.topic) != "" && Trim(p.contentType) != "" && Trim(p.payload) != "" && Trim(p.idem) != ""
  }

  /** The rate window lets the call through. */
  predicate Passes(o: Settings, box: Mailbox, p: Push) {
    Complete(p) && Allow(o.perMinute, box.windows, Trim(p.peer), p.now).0
  }

  /** The call ends in the inbox. */
  predicate Delivers(o: Settings, box: Mailbox, p: Push) {
    && Passes(o, box, p)
    && p.size.Some? && p.size.value <= o.maxPayload && p.envelope.Some?
    && !Knows(box.records, KeyOf(p), p.seen)
  }

  function RecordOf(o: Settings, p: Push): Record {
    Record(KeyOf(p), p.now, p.now + o.ttl)
  }

  function MessageOf(p: Push): Message
    requires p.envelope.Some?
  {
    Message(KeyOf(p), Trim(p.contentType), Trim(p.payload), Trim(p.envelope.value.0),
            Trim(p.envelope.value.1), p.now)
  }

  function RecordsAfter(o: Settings, records: seq<Record>, p: Push): seq<Record> {
    Prune(Put(records, Filled(RecordOf(o, p), p.seen)), p.now, o.maxEntries)
  }

  function Handle(o: Settings, box: Mailbox, p: Push): Handled {
    if !Complete(p) then Handled(box, InvalidParams)
    else
      var allowed := Allow(o.perMinute, box.windows, Trim(p.peer), p.now);
      var box1 := box.(windows := allowed.1);
      if !allowed.0 then Handled(box1, RateLimited)
      else if p.size.None? then Handled(box1, InvalidParams)
      else if p.size.value > o.maxPayload then Handled(box1, PayloadTooLarge)
      else if p.envelope.None? then Handled(box1, InvalidParams)
      else if Knows(box.records, KeyOf(p), p.seen) then Handled(box1, Accepted(true))
      else
        Handled(box1.(records := RecordsAfter(o, box.records, p), inbox := box.inbox + [MessageOf(p)]),
                Accepted(false))
  }

  class Receiver {
    const o: Settings
    var records: seq<Record>
    var inbox: seq<Message>
    var windows: map<string, Window>

    constructor (options: Options)
      ensures o == Normalized(options) && Box() == EMPTY
    {
      o := Normalized(options);
      records, inbox, windows := [], [], map[];
    }

    ghost function Box(): Mailbox
      reads this
    {
      Mailbox(records, inbox, windows)
    }

    method AllowDataPush(peer: string, now: nat) returns (ok: bool)
      modifies `windows
      ensures (ok, windows) == Allow(o.perMinute, old(windows), Trim(peer), now)
    {
      var minute, id := now / MINUTE, Trim(peer);
      var w := if id in windows then windows[id] else Window(0, 0);
      if w.minute == 0 || w.minute != minute {
        w := Window(minute, 0);
      }
      if w.count >= o.perMinute {
        windows := windows[id := w];
        return false;
      }
      w := w.(count := w.count + 1);
      windows := windows[id := w];
      return true;
    }

    method GetDedupeRecord(key: Key, now: nat) returns (found: Option<Record>)
      ensures found.Some? <==> Knows(records, key, now)
      ensures found.Some? ==> found.value in records && found.value.key == key && !Expired(found.value, now)
    {
      for i := 0 to |records|
        invariant forall j :: 0 <= j < i ==> records[j].key != key || Expired(records[j], now)
      {
        if records[i].key != key {
          continue;
        }
        if Expired(records[i], now) {
          continue;
        }
        return Some(records[i]);
      }
      return None;
    }

    method PutDedupeRecord(record: Record, now: nat)
      modifies `records
      ensures records == Put(old(records), Filled(record, now))
    {
      var r := record;
      if r.created == 0 {
        r := r.(created := now);
      }
      if r.expires == 0 {
        r := r.(expires := r.created + DEFAULT_TTL);
      }
      for i := 0 to |records|
        invariant records == old(records)
        invariant forall j :: 0 <= j < i ==> records[j].key != r.key
      {
        if records[i].key == r.key {
          assert Place(records, r.key) == i;
          records := records[i := r];
          return;
        }
      }
      assert Place(records, r.key) == |records|;
      records := records + [r];
    }

    method PruneDedupeRecords(now: nat, maxEntries: int) returns (removed: nat)
      modifies `records
      ensures records == Prune(old(records), now, if maxEntries <= 0 then DEFAULT_MAX_ENTRIES else maxEntries)
      ensures removed == |old(records)| - |records|
    {
      var max: nat := if maxEntries <= 0 then DEFAULT_MAX_ENTRIES else maxEntries;
      if records == [] {
        return 0;
      }
      var active: seq<Record> := [];
      for i := 0 to |records|
        invariant active == Live(records[..i], now) && |active| <= i
      {
        assert records[..i + 1][..i] == records[..i];
        if Expired(records[i], now) {
          continue;
        }
        active := active + [records[i]];
      }
      assert records[..|records|] == records;
      var kept := Sort(NewestFirst, active);
      if |kept| > max {
        kept := kept[..max];
      }
      removed := |records| - |kept|;
      if removed > 0 {
        records := kept;
      }
    }

    method Deliver(p: Push)
      requires p.envelope.Some?
      modifies `records, `inbox
      ensures records == RecordsAfter(o, old(records), p) && inbox == old(inbox) + [MessageOf(p)]
    {
      PutDedupeRecord(RecordOf(o, p), p.seen);
      var _ := PruneDedupeRecords(p.now, o.maxEntries);
      inbox := inbox + [MessageOf(p)];
    }

    method HandleDataPush(p: Push) returns (response: Response)
      modifies this
      ensures Handled(Box(), response) == Handle(o, old(Box()), p)
    {
      var key := KeyOf(p);
      if key.topic == "" {
        return InvalidParams;
      }
      if Trim(p.contentType) == "" {
        return InvalidParams;
      }
      if Trim(p.payload) == "" {
        return InvalidParams;
      }
      if key.idem == "" {
        return InvalidParams;
      }
      var ok := AllowDataPush(p.peer, p.now);
      if !ok {
        return RateLimited;
      }
      if p.size.None? {
        return InvalidParams;
      }
      if p.size.value > o.maxPayload {
        return PayloadTooLarge;
      }
      if p.envelope.None? {
        return InvalidParams;
      }
      var found := GetDedupeRecord(key, p.seen);
      if found.None? {
        Deliver(p);
      }
      return Accepted(found.Some?);
    }
  }

  const EMPTY := Mailbox([], [], map[])

  // ---- what pruning keeps ----

  lemma {:induction false} LiveMembers(records: seq<Record>, now: nat, r: Record)
    ensures r in Live(records, now) <==> r in records && !Expired(r, now)
  {
    if records != [] {
      var n := |records| - 1;
      LiveMembers(records[..n], now, r);
      assert records == records[..n] + [records[n]];
    }
  }

  lemma {:induction false} LiveKeepsUnique(records: seq<Record>, now: nat)
    requires UniqueKeys(records)
    ensures UniqueKeys(Live(records, now)) && |Live(records, now)| <= |records|
  {
    if records != [] {
      var n := |records| - 1;
      LiveKeepsUnique(records[..n], now);
      var before := Live(records[..n], now);
      forall i | 0 <= i < |before| ensures before[i].key != records[n].key {
        LiveMembers(records[..n], now, before[i]);
      }
    }
  }

  lemma KeyOrder(a: Key, b: Key)
    ensures !(KeyBefore(a, b) && KeyBefore(b, a))
    ensures a == b <==> !KeyBefore(a, b) && !KeyBefore(b, a)
  {
    BeforeIsStrict(a.peer, b.peer);
    BeforeIsStrict(a.topic, b.topic);
    BeforeIsStrict(a.idem, b.idem);
  }

  lemma KeyOrderTransitive(a: Key, b: Key, c: Key)
    requires KeyBefore(a, b) && KeyBefore(b, c)
    ensures KeyBefore(a, c)
  {
    BeforeIsStrict(a.peer, b.peer);
    BeforeIsStrict(a.topic, b.topic);
    if a.peer != b.peer && b.peer != c.peer {
      BeforeIsTransitive(a.peer, b.peer, c.peer);
    } else if a.peer == b.peer == c.peer {
      if a.topic != b.topic && b.topic != c.topic {
        BeforeIsTransitive(a.topic, b.topic, c.topic);
      } else if a.topic == b.topic == c.topic {
        BeforeIsTransitive(a.idem, b.idem, c.idem);
      }
    }
  }

  lemma NewestFirstIsOrder()
    ensures IsOrder(NewestFirst)
  {
    forall x, y ensures NewestFirst(x, y) || NewestFirst(y, x) {
      KeyOrder(x.key, y.key);
    }
    forall x, y, z | NewestFirst(x, y) && NewestFirst(y, z) ensures NewestFirst(x, z) {
      NewestFirstTransitive(x, y, z);
    }
  }

  lemma NewestFirstTransitive(x: Record, y: Record, z: Record)
    requires NewestFirst(x, y) && NewestFirst(y, z)
    ensures NewestFirst(x, z)
  {
    if x.created == y.created == z.created && KeyBefore(z.key, x.key) {
      KeyOrder(x.key, y.key);
      KeyOrder(y.key, z.key);
      if x.key == y.key || y.key == z.key {
      } else {
        KeyOrderTransitive(x.key, y.key, z.key);
        KeyOrder(x.key, z.key);
      }
    }
  }

  lemma UniqueIsStrict(records: seq<Record>)
    requires UniqueKeys(records)
    ensures Distinct(records) && Strict(NewestFirst, records)
  {
    forall x, y | x in records && y in records && NewestFirst(x, y) && NewestFirst(y, x)
      ensures x == y
    {
      KeyOrder(x.key, y.key);
      var i :| 0 <= i < |records| && records[i] == x;
      var j :| 0 <= j < |records| && records[j] == y;
    }
  }

  /** The exact eviction bound: pruning keeps a record if and only if it has not expired and
      fewer than max unexpired records are newer, or as new with a smaller key. */
  lemma PruneKeepsIff(records: seq<Record>, now: nat, max: nat, r: Record)
    requires UniqueKeys(records)
    ensures r in Prune(records, now, max) <==>
              r in records && !Expired(r, now) && |Ahead(NewestFirst, Live(records, now), r)| < max
  {
    var live := Live(records, now);
    var sorted := Sort(NewestFirst, live);
    var n := if |sorted| > max then max else |sorted|;
    LiveKeepsUnique(records, now);
    LiveMembers(records, now, r);
    UniqueIsStrict(live);
    NewestFirstIsOrder();
    KeptIffFewAhead(NewestFirst, live, n, r);
    assert Kept(records, now, max) == sorted[..n];
    if r in live && n < max {
      AheadIsSmall(live, r);
    }
    if |records| <= n {
      LiveIsAll(records, now);
      assert sorted[..n] == sorted;
      SortMembers(NewestFirst, live, r);
    }
  }

  lemma AheadIsSmall(s: seq<Record>, x: Record)
    requires Distinct(s) && x in s
    ensures |Ahead(NewestFirst, s, x)| < |s|
  {
    DistinctSize(s);
    var all := set y | y in s;
    assert x in all && Ahead(NewestFirst, s, x) <= all - {x};
    SubsetSize(Ahead(NewestFirst, s, x), all - {x});
  }

  lemma {:induction false} LiveIsAll(records: seq<Record>, now: nat)
    ensures |Live(records, now)| <= |records|
    ensures |Live(records, now)| == |records| ==> Live(records, now) == records
  {
    if records != [] {
      LiveIsAll(records[..|records| - 1], now);
    }
  }

  lemma PutKeepsUnique(records: seq<Record>, r: Record)
    requires UniqueKeys(records)
    ensures UniqueKeys(Put(records, r))
    ensures forall x :: x in Put(records, r) <==> x == r || (x in records && x.key != r.key)
  {
    var i := Place(records, r.key);
    forall x ensures x in Put(records, r) <==> x == r || (x in records && x.key != r.key) {
      if x in records && x.key != r.key {
        var j :| 0 <= j < |records| && records[j] == x;
        assert Put(records, r)[j] == x;
      }
      assert Put(records, r)[i] == r;
    }
  }

  lemma PruneKeepsUnique(records: seq<Record>, now: nat, max: nat)
    requires UniqueKeys(records)
    ensures UniqueKeys(Prune(records, now, max)) && |Prune(records, now, max)| <= max
  {
    var live := Live(records, now);
    LiveKeepsUnique(records, now);
    UniqueIsStrict(live);
    var sorted := Sort(NewestFirst, live);
    SortKeepsDistinct(NewestFirst, live);
    forall i, j | 0 <= i < j < |sorted| ensures sorted[i].key != sorted[j].key {
      SortMembers(NewestFirst, live, sorted[i]);
      SortMembers(NewestFirst, live, sorted[j]);
      assert sorted[i] != sorted[j];
    }
  }

  // ---- whole runs ----

  function RunPushes(o: Settings, ps: seq<Push>): Mailbox {
    if ps == [] then EMPTY
    else Handle(o, RunPushes(o, ps[..|ps| - 1]), ps[|ps| - 1]).box
  }

  /** The pushes that end in the inbox, in order. */
  function Delivered(o: Settings, ps: seq<Push>): seq<Push> {
    if ps == [] then []
    else
      var n := |ps| - 1;
      Delivered(o, ps[..n]) + (if Delivers(o, RunPushes(o, ps[..n]), ps[n]) then [ps[n]] else [])
  }

  /** Handled one at a time by a clock that never goes back. */
  predicate Serial(ps: seq<Push>) {
    && (forall i :: 0 <= i < |ps| ==> 0 < ps[i].now <= ps[i].seen)
    && (forall i, j :: 0 <= i < j < |ps| ==> ps[i].seen <= ps[j].now)
  }

  lemma {:induction false} InboxIsDelivered(o: Settings, ps: seq<Push>)
    ensures var inbox, ds := RunPushes(o, ps).inbox, Delivered(o, ps);
      && |inbox| == |ds|
      && forall i :: 0 <= i < |ds| ==> ds[i].envelope.Some? && inbox[i] == MessageOf(ds[i])
  {
    if ps != [] {
      InboxIsDelivered(o, ps[..|ps| - 1]);
    }
  }

  /** Recorded no earlier than at `from`. */
  ghost predicate RecordedSince(ds: seq<Push>, key: Key, from: nat) {
    exists n :: 0 <= n < |ds| && KeyOf(ds[n]) == key && from <= ds[n].now
  }

  ghost predicate Crowd(keys: set<Key>, ds: seq<Push>, key: Key, from: nat, max: int) {
    |keys| >= max && key !in keys && forall k :: k in keys ==> RecordedSince(ds, k, from)
  }

  /** At least max other keys were recorded at `from` or later. */
  ghost predicate Crowded(ds: seq<Push>, key: Key, from: nat, max: int) {
    exists keys :: Crowd(keys, ds, key, from, max)
  }

  predicate Holds(records: seq<Record>, key: Key, from: nat) {
    exists i :: 0 <= i < |records| && records[i].key == key && from <= records[i].created
  }

  /** Every record was delivered when it says, and lives for the node's ttl. */
  ghost predicate Sound(o: Settings, records: seq<Record>, ds: seq<Push>, clock: nat) {
    forall r :: r in records ==>
      r.created <= clock && r.expires == r.created + o.ttl && RecordedSince(ds, r.key, r.created)
  }

  /** What became of a delivery: still on record, too old, or crowded out. */
  ghost predicate Accounted(o: Settings, records: seq<Record>, ds: seq<Push>, d: Push, clock: nat) {
    || Holds(records, KeyOf(d), d.now)
    || d.now + o.ttl <= clock
    || Crowded(ds, KeyOf(d), d.now, o.maxEntries)
  }

  ghost predicate Inv(o: Settings, records: seq<Record>, ds: seq<Push>, clock: nat) {
    && UniqueKeys(records) && |records| <= o.maxEntries
    && Sound(o, records, ds, clock)
    && forall i {:trigger ds[i]} :: 0 <= i < |ds| ==>
         ds[i].now <= clock && Accounted(o, records, ds, ds[i], clock)
  }

  lemma RecordedMore(ds: seq<Push>, p: Push, key: Key, from: nat)
    requires RecordedSince(ds, key, from)
    ensures RecordedSince(ds + [p], key, from)
  {
    var n :| 0 <= n < |ds| && KeyOf(ds[n]) == key && from <= ds[n].now;
    assert (ds + [p])[n] == ds[n];
  }

  lemma CrowdedMore(ds: seq<Push>, p: Push, key: Key, from: nat, max: int)
    requires Crowded(ds, key, from, max)
    ensures Crowded(ds + [p], key, from, max)
  {
    var keys :| Crowd(keys, ds, key, from, max);
    forall k | k in keys ensures RecordedSince(ds + [p], k, from) {
      RecordedMore(ds, p, k, from);
    }
    assert Crowd(keys, ds + [p], key, from, max);
  }

  lemma PutKeepsSound(o: Settings, records: seq<Record>, ds: seq<Push>, p: Push, clock: nat)
    requires UniqueKeys(records) && Sound(o, records, ds, clock) && clock <= p.now
    ensures Sound(o, Put(records, RecordOf(o, p)), ds + [p], p.now)
  {
    PutKeepsUnique(records, RecordOf(o, p));
    forall r | r in Put(records, RecordOf(o, p)) ensures RecordedSince(ds + [p], r.key, r.created) {
      if r == RecordOf(o, p) {
        assert (ds + [p])[|ds|] == p;
      } else {
        RecordedMore(ds, p, r.key, r.created);
      }
    }
  }

  function KeysOf(s: set<Record>): set<Key> {
    set r | r in s :: r.key
  }

  lemma {:induction false} KeysOfSize(s: set<Record>)
    requires forall a, b :: a in s && b in s && a.key == b.key ==> a == b
    ensures |KeysOf(s)| == |s|
  {
    if s != {} {
      var x :| x in s;
      KeysOfSize(s - {x});
      assert KeysOf(s) == KeysOf(s - {x}) + {x.key};
    }
  }

  /** A record that pruning drops was too old or crowded out. */
  lemma DroppedIsCrowded(o: Settings, records: seq<Record>, ds: seq<Push>, r: Record, now: nat)
    requires UniqueKeys(records) && Sound(o, records, ds, now)
    requires r in records && r !in Prune(records, now, o.maxEntries)
    ensures r.created + o.ttl <= now || Crowded(ds, r.key, r.created, o.maxEntries)
  {
    PruneKeepsIff(records, now, o.maxEntries, r);
    if !Expired(r, now) {
      var live := Live(records, now);
      var ahead := Ahead(NewestFirst, live, r);
      LiveKeepsUnique(records, now);
      KeysOfSize(ahead);
      forall k | k in KeysOf(ahead) ensures RecordedSince(ds, k, r.created) && k != r.key {
        var x :| x in ahead && x.key == k;
        LiveMembers(records, now, x);
        LiveMembers(records, now, r);
        RecordedEarlier(ds, k, x.created, r.created);
      }
      assert Crowd(KeysOf(ahead), ds, r.key, r.created, o.maxEntries);
    }
  }

  lemma RecordedEarlier(ds: seq<Push>, key: Key, from: nat, from': nat)
    requires RecordedSince(ds, key, from) && from' <= from
    ensures RecordedSince(ds, key, from')
  {
    var n :| 0 <= n < |ds| && KeyOf(ds[n]) == key && from <= ds[n].now;
    assert from' <= ds[n].now;
  }

  lemma CrowdedEarlier(ds: seq<Push>, key: Key, from: nat, from': nat, max: int)
    requires Crowded(ds, key, from, max) && from' <= from
    ensures Crowded(ds, key, from', max)
  {
    var keys :| Crowd(keys, ds, key, from, max);
    forall k | k in keys ensures RecordedSince(ds, k, from') {
      RecordedEarlier(ds, k, from, from');
    }
    assert Crowd(keys, ds, key, from', max);
  }

  /** A delivery held by a record stays accounted for through a prune. */
  lemma PruneAccounts(o: Settings, records: seq<Record>, ds: seq<Push>, d: Push, now: nat)
    requires UniqueKeys(records) && Sound(o, records, ds, now)
    requires Holds(records, KeyOf(d), d.now)
    ensures Accounted(o, Prune(records, now, o.maxEntries), ds, d, now)
  {
    var i :| 0 <= i < |records| && records[i].key == KeyOf(d) && d.now <= records[i].created;
    var r := records[i];
    var after := Prune(records, now, o.maxEntries);
    if r in after {
      var j :| 0 <= j < |after| && after[j] == r;
      assert Holds(after, KeyOf(d), d.now);
    } else {
      DroppedIsCrowded(o, records, ds, r, now);
      if Crowded(ds, r.key, r.created, o.maxEntries) {
        CrowdedEarlier(ds, r.key, r.created, d.now, o.maxEntries);
      }
    }
  }

  lemma PutHolds(records: seq<Record>, r: Record, key: Key, from: nat)
    requires Holds(records, key, from) && from <= r.created
    ensures Holds(Put(records, r), key, from)
  {
    var i :| 0 <= i < |records| && records[i].key == key && from <= records[i].created;
    var k := Place(records, r.key);
    assert Put(records, r)[i] == (if i == k then r else records[i]);
  }

  lemma OldStaysAccounted(o: Settings, records: seq<Record>, ds: seq<Push>, d: Push, p: Push, clock: nat)
    requires UniqueKeys(records) && Sound(o, records, ds, clock) && d.now <= clock <= p.now
    requires Accounted(o, records, ds, d, clock)
    ensures Accounted(o, Prune(Put(records, RecordOf(o, p)), p.now, o.maxEntries), ds + [p], d, p.now)
  {
    if Holds(records, KeyOf(d), d.now) {
      PutHolds(records, RecordOf(o, p), KeyOf(d), d.now);
      PutKeepsUnique(records, RecordOf(o, p));
      PutKeepsSound(o, records, ds, p, clock);
      PruneAccounts(o, Put(records, RecordOf(o, p)), ds + [p], d, p.now);
    } else if !(d.now + o.ttl <= clock) {
      CrowdedMore(ds, p, KeyOf(d), d.now, o.maxEntries);
    }
  }

  lemma NewIsAccounted(o: Settings, records: seq<Record>, ds: seq<Push>, p: Push, clock: nat)
    requires UniqueKeys(records) && Sound(o, records, ds, clock) && clock <= p.now
    ensures Accounted(o, Prune(Put(records, RecordOf(o, p)), p.now, o.maxEntries), ds + [p], p, p.now)
  {
    var put := Put(records, RecordOf(o, p));
    assert put[Place(records, KeyOf(p))] == RecordOf(o, p);
    assert Holds(put, KeyOf(p), p.now);
    PutKeepsUnique(records, RecordOf(o, p));
    PutKeepsSound(o, records, ds, p, clock);
    PruneAccounts(o, put, ds + [p], p, p.now);
  }

  lemma PruneMembers(records: seq<Record>, now: nat, max: nat, r: Record)
    requires UniqueKeys(records) && r in Prune(records, now, max)
    ensures r in records
  {
    PruneKeepsIff(records, now, max, r);
  }

  lemma DeliveryAccounts(o: Settings, records: seq<Record>, ds: seq<Push>, p: Push, clock: nat, i: nat)
    requires Inv(o, records, ds, clock) && clock <= p.now && i <= |ds|
    ensures Accounted(o, Prune(Put(records, RecordOf(o, p)), p.now, o.maxEntries), ds + [p], (ds + [p])[i], p.now)
  {
    if i < |ds| {
      OldStaysAccounted(o, records, ds, ds[i], p, clock);
    } else {
      NewIsAccounted(o, records, ds, p, clock);
    }
  }

  lemma DeliveryIsSound(o: Settings, records: seq<Record>, ds: seq<Push>, p: Push, clock: nat)
    requires UniqueKeys(records) && Sound(o, records, ds, clock) && clock <= p.now
    ensures var after := Prune(Put(records, RecordOf(o, p)), p.now, o.maxEntries);
      UniqueKeys(after) && |after| <= o.maxEntries && Sound(o, after, ds + [p], p.now)
  {
    var put := Put(records, RecordOf(o, p));
    PutKeepsUnique(records, RecordOf(o, p));
    PruneKeepsUnique(put, p.now, o.maxEntries);
    PutKeepsSound(o, records, ds, p, clock);
    forall r | r in Prune(put, p.now, o.maxEntries) ensures r in put {
      PruneMembers(put, p.now, o.maxEntries, r);
    }
  }

  lemma DeliveryKeepsInv(o: Settings, records: seq<Record>, ds: seq<Push>, p: Push, clock: nat)
    requires Inv(o, records, ds, clock) && 0 < p.now && clock <= p.now
    ensures Inv(o, RecordsAfter(o, records, p), ds + [p], p.now)
  {
    DeliveryIsSound(o, records, ds, p, clock);
    var ds', after := ds + [p], RecordsAfter(o, records, p);
    assert Filled(RecordOf(o, p), p.seen) == RecordOf(o, p);
    forall i {:trigger ds'[i]} | 0 <= i < |ds'|
      ensures ds'[i].now <= p.now && Accounted(o, after, ds', ds'[i], p.now)
    {
      DeliveryAccounts(o, records, ds, p, clock, i);
    }
  }

  function Clock(ps: seq<Push>): nat {
    if ps == [] then 0 else ps[|ps| - 1].seen
  }

  lemma {:induction false} RunKeepsInv(o: Settings, ps: seq<Push>)
    requires Serial(ps)
    ensures Inv(o, RunPushes(o, ps).records, Delivered(o, ps), Clock(ps))
  {
    if ps != [] {
      var n := |ps| - 1;
      RunKeepsInv(o, ps[..n]);
      var box, ds, p := RunPushes(o, ps[..n]), Delivered(o, ps[..n]), ps[n];
      assert Clock(ps[..n]) <= p.now by {
        if n > 0 {
          assert ps[..n][n - 1] == ps[n - 1];
        }
      }
      if Delivers(o, box, p) {
        DeliveryKeepsInv(o, box.records, ds, p, Clock(ps[..n]));
        LaterKeepsInv(o, RecordsAfter(o, box.records, p), ds + [p], p.now, p.seen);
      } else {
        LaterKeepsInv(o, box.records, ds, Clock(ps[..n]), p.seen);
        assert ds + [] == ds;
      }
    }
  }

  lemma LaterKeepsInv(o: Settings, records: seq<Record>, ds: seq<Push>, clock: nat, later: nat)
    requires Inv(o, records, ds, clock) && clock <= later
    ensures Inv(o, records, ds, later)
  {
    forall i {:trigger ds[i]} | 0 <= i < |ds| ensures Accounted(o, records, ds, ds[i], later) {
      assert Accounted(o, records, ds, ds[i], clock);
    }
  }

  /** Main result: keys stay unique and the count never exceeds the maximum. */
  lemma RecordsStayBounded(o: Settings, ps: seq<Push>)
    requires Serial(ps)
    ensures UniqueKeys(RunPushes(o, ps).records) && |RunPushes(o, ps).records| <= o.maxEntries
  {
    RunKeepsInv(o, ps);
  }

  /** A key that is delivered although an earlier delivery has not expired was crowded out. */
  lemma RedeliveryWasCrowded(o: Settings, ps: seq<Push>, p: Push, i: nat)
    requires Serial(ps + [p]) && Delivers(o, RunPushes(o, ps), p)
    requires i < |Delivered(o, ps)| && KeyOf(Delivered(o, ps)[i]) == KeyOf(p)
    requires p.seen < Delivered(o, ps)[i].now + o.ttl
    ensures Crowded(Delivered(o, ps), KeyOf(p), Delivered(o, ps)[i].now, o.maxEntries)
  {
    assert (ps + [p])[|ps|] == p;
    SerialPrefix(ps, p);
    RunKeepsInv(o, ps);
    var d := Delivered(o, ps)[i];
    assert Accounted(o, RunPushes(o, ps).records, Delivered(o, ps), d, Clock(ps));
    HeldIsKnown(o, RunPushes(o, ps).records, Delivered(o, ps), Clock(ps), d, p.seen);
  }

  lemma HeldIsKnown(o: Settings, records: seq<Record>, ds: seq<Push>, clock: nat, d: Push, seen: nat)
    requires Sound(o, records, ds, clock) && seen < d.now + o.ttl
    ensures Holds(records, KeyOf(d), d.now) ==> Knows(records, KeyOf(d), seen)
  {
    if Holds(records, KeyOf(d), d.now) {
      var k :| 0 <= k < |records| && records[k].key == KeyOf(d) && d.now <= records[k].created;
      assert records[k] in records;
    }
  }

  lemma SerialPrefix(ps: seq<Push>, p: Push)
    requires Serial(ps + [p])
    ensures Serial(ps) && Clock(ps) <= p.now <= p.seen
  {
    var all := ps + [p];
    assert forall i :: 0 <= i < |ps| ==> all[i] == ps[i];
    assert all[|ps|] == p;
  }

  lemma {:induction false} DeliveredClimbs(o: Settings, ps: seq<Push>, i: nat, j: nat)
    requires Serial(ps) && i <= j < |Delivered(o, ps)|
    ensures Delivered(o, ps)[i].now <= Delivered(o, ps)[j].now <= Clock(ps)
  {
    var n := |ps| - 1;
    SerialPrefix(ps[..n], ps[n]);
    assert ps[..n] + [ps[n]] == ps;
    if j < |Delivered(o, ps[..n])| {
      DeliveredClimbs(o, ps[..n], i, j);
    } else if i < j {
      DeliveredClimbs(o, ps[..n], i, i);
    }
  }

  /** The last push is delivered or not; the earlier deliveries stand. */
  lemma DeliveredLast(o: Settings, ps: seq<Push>)
    requires ps != []
    ensures var n := |ps| - 1; var before := Delivered(o, ps[..n]);
      || Delivered(o, ps) == before
      || (Delivered(o, ps) == before + [ps[n]] && Delivers(o, RunPushes(o, ps[..n]), ps[n]))
  {
  }

  lemma PrefixStands<T>(before: seq<T>, ds: seq<T>, x: T, j: nat)
    requires (ds == before || ds == before + [x]) && j <= |before|
    ensures ds[..j] == before[..j] && forall k :: 0 <= k < |before| ==> ds[k] == before[k]
  {
  }

  lemma {:induction false} RedeliveryInRun(o: Settings, ps: seq<Push>, ds: seq<Push>, i: nat, j: nat)
    requires Serial(ps) && ds == Delivered(o, ps) && i < j < |ds|
    requires KeyOf(ds[i]) == KeyOf(ds[j]) && ds[j].seen < ds[i].now + o.ttl
    ensures Crowded(ds[..j], KeyOf(ds[i]), ds[i].now, o.maxEntries)
    decreases |ps|
  {
    var n := |ps| - 1;
    var before := Delivered(o, ps[..n]);
    DeliveredLast(o, ps);
    SerialPrefix(ps[..n], ps[n]);
    assert ps[..n] + [ps[n]] == ps;
    if j < |before| {
      PrefixStands(before, ds, ps[n], j);
      RedeliveryInRun(o, ps[..n], before, i, j);
    } else {
      PrefixStands(before, ds, ps[n], |before|);
      assert j == |before| && ds[j] == ps[n] && before[..j] == before;
      RedeliveryWasCrowded(o, ps[..n], ps[n], i);
    }
  }

  /** At most once within the ttl, unless crowded out. Main result: if the same key is put in
      the inbox twice and the first record had not expired at the second lookup, then at least
      maxEntries other keys were recorded between the two, at times from the first push on and
      no later than the second. */
  lemma SecondDeliveryMeansEviction(o: Settings, ps: seq<Push>, i: nat, j: nat)
    requires Serial(ps) && i < j < |Delivered(o, ps)|
    requires var ds := Delivered(o, ps);
      KeyOf(ds[i]) == KeyOf(ds[j]) && ds[j].seen < ds[i].now + o.ttl
    ensures var ds := Delivered(o, ps);
      && Crowded(ds[..j], KeyOf(ds[i]), ds[i].now, o.maxEntries)
      && forall n :: 0 <= n < j ==> ds[n].now <= ds[j].now
  {
    RedeliveryInRun(o, ps, Delivered(o, ps), i, j);
    forall n | 0 <= n < j ensures Delivered(o, ps)[n].now <= Delivered(o, ps)[j].now {
      DeliveredClimbs(o, ps, n, j);
    }
  }

  // ---- rate windows over whole runs ----

  /** Calls of a peer that the windows let through within a minute. */
  function Passed(o: Settings, ps: seq<Push>, peer: string, minute: nat): nat {
    if ps == [] then 0
    else
      var n := |ps| - 1;
      Passed(o, ps[..n], peer, minute)
      + (if PassesIn(o, RunPushes(o, ps[..n]), ps[n], peer, minute) then 1 else 0)
  }

  /** The push is a call of the peer that its window lets through in that minute. */
  predicate PassesIn(o: Settings, box: Mailbox, p: Push, peer: string, minute: nat) {
    Trim(p.peer) == peer && p.now / MINUTE == minute && Passes(o, box, p)
  }

  /** The peer's window tells how many calls passed in a minute that is not over. */
  predicate Counted(o: Settings, windows: map<string, Window>, count: nat, peer: string, minute: nat, clock: nat) {
    && count <= o.perMinute
    && (peer !in windows ==> count == 0)
    && (peer in windows && windows[peer].minute < minute ==> count == 0)
    && (peer in windows && windows[peer].minute == minute ==> count == windows[peer].count)
    && (peer in windows ==> 0 < windows[peer].minute <= clock / MINUTE)
  }

  lemma CountedNext(o: Settings, box: Mailbox, p: Push, count: nat, peer: string, minute: nat, clock: nat)
    requires Counted(o, box.windows, count, peer, minute, clock) && clock <= p.now <= p.seen && MINUTE <= p.now
    ensures Counted(o, Handle(o, box, p).box.windows, count + (if PassesIn(o, box, p, peer, minute) then 1 else 0),
                    peer, minute, p.seen)
  {
    MinutesGrow(MINUTE, p.now);
    MinutesGrow(clock, p.now);
    MinutesGrow(p.now, p.seen);
    WindowStep(o, box, p, peer, minute);
  }

  /** Main result: no peer gets more than its limit through in any clock minute. */
  lemma {:induction false} RateIsLimited(o: Settings, ps: seq<Push>, peer: string, minute: nat)
    requires Serial(ps) && forall i :: 0 <= i < |ps| ==> ps[i].now >= MINUTE
    ensures Counted(o, RunPushes(o, ps).windows, Passed(o, ps, peer, minute), peer, minute, Clock(ps))
    ensures Passed(o, ps, peer, minute) <= o.perMinute
  {
    if ps != [] {
      var n := |ps| - 1;
      SerialPrefix(ps[..n], ps[n]);
      assert ps[..n] + [ps[n]] == ps;
      RateIsLimited(o, ps[..n], peer, minute);
      CountedNext(o, RunPushes(o, ps[..n]), ps[n], Passed(o, ps[..n], peer, minute), peer, minute, Clock(ps[..n]));
    }
  }

  lemma MinutesGrow(a: nat, b: nat)
    ensures a <= b ==> a / MINUTE <= b / MINUTE
  {
  }

  lemma WindowStep(o: Settings, box: Mailbox, p: Push, peer: string, minute: nat)
    ensures var windows := Handle(o, box, p).box.windows;
      && (Trim(p.peer) != peer || !Complete(p) ==> (peer in windows <==> peer in box.windows)
                                                   && (peer in windows ==> windows[peer] == box.windows[peer]))
      && (Trim(p.peer) == peer && Complete(p) ==>
            && peer in windows && windows[peer].minute == p.now / MINUTE
            && windows[peer].count == WindowFor(box.windows, peer, p.now / MINUTE).count
                                      + (if Passes(o, box, p) then 1 else 0)
            && (Passes(o, box, p) ==> windows[peer].count <= o.perMinute))
  {
  }
}
