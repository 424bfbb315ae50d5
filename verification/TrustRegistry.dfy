/** The contact registry and its audit log (maep/service.go:76-272; maep/file_store.go:107-216). */
module TrustRegistry {
  import opened Wrappers
  import opened Text
  import Sorting

  // ---- data ----

  /** Unset stands for the empty state, Other for one written by hand into the file. */
  datatype Trust = Unset | Tofu | Verified | Conflicted | Revoked | Other(name: string)

  datatype Contact = Contact(
    uuid: string, peerID: string, nodeID: string, displayName: string, card: string,
    trust: Trust, createdAt: nat, updatedAt: nat, lastSeen: Option<nat>)

  datatype Action = ImportCreated | ImportUpdated | ImportConflict | TrustChanged

  datatype Event = Event(action: Action, peer: string, uuid: string, previous: Trust, next: Trust, at: nat)

  datatype Registry = Registry(contacts: seq<Contact>, audit: seq<Event>)

  /** A card; genuine says whether its format, addresses and signature check out. */
  datatype Card = Card(uuid: string, peerID: string, nodeID: string, rest: string, genuine: bool)

  datatype Op =
    | Import(card: Card, displayName: string, now: nat)
    | MarkVerified(peer: string, now: nat)

  datatype Outcome =
    | Rejected
    | Clash(contact: Contact)
    | Created(contact: Contact)
    | Updated(contact: Contact)
    | Promoted(contact: Contact)

  function PeerOf(c: Contact): string {
    Trim(c.peerID)
  }

  function UuidOf(c: Contact): string {
    Trim(c.uuid)
  }

  // ---- the store ----

  function FindPeer(contacts: seq<Contact>, peer: string): (r: Option<Contact>)
    ensures r.Some? ==> r.value in contacts && PeerOf(r.value) == peer
    ensures r.None? ==> forall c :: c in contacts ==> PeerOf(c) != peer
  {
    if contacts == [] then None
    else if PeerOf(contacts[0]) == peer then Some(contacts[0])
    else FindPeer(contacts[1..], peer)
  }

  function FindUuid(contacts: seq<Contact>, uuid: string): (r: Option<Contact>)
    ensures r.Some? ==> r.value in contacts && UuidOf(r.value) == uuid
    ensures r.None? ==> forall c :: c in contacts ==> UuidOf(c) != uuid
  {
    if contacts == [] then None
    else if UuidOf(contacts[0]) == uuid then Some(contacts[0])
    else FindUuid(contacts[1..], uuid)
  }

  function PlaceOf(contacts: seq<Contact>, peer: string): (i: nat)
    ensures i <= |contacts|
    ensures forall j :: 0 <= j < i ==> PeerOf(contacts[j]) != peer
    ensures i < |contacts| ==> PeerOf(contacts[i]) == peer
  {
    if contacts == [] then 0
    else if PeerOf(contacts[0]) == peer then 0
    else PlaceOf(contacts[1..], peer) + 1
  }

  /** The first creation time wins unless it was never set. */
  function Kept(contacts: seq<Contact>, c: Contact): Contact {
    var i := PlaceOf(contacts, PeerOf(c));
    if i < |contacts| && contacts[i].createdAt != 0 then c.(createdAt := contacts[i].createdAt) else c
  }

  function Replaced(contacts: seq<Contact>, c: Contact): seq<Contact> {
    var i := PlaceOf(contacts, PeerOf(c));
    if i < |contacts| then contacts[i := Kept(contacts, c)] else contacts + [c]
  }

  predicate ByPeer(a: Contact, b: Contact) {
    if PeerOf(a) == PeerOf(b) then a.updatedAt <= b.updatedAt else Sorting.Before(PeerOf(a), PeerOf(b))
  }

  function Put(contacts: seq<Contact>, c: Contact): seq<Contact> {
    Sorting.Sort(ByPeer, Replaced(contacts, c))
  }

  class FileStore {
    var contacts: seq<Contact>
    var audit: seq<Event>

    constructor (contacts: seq<Contact>, audit: seq<Event>)
      ensures this.contacts == contacts && this.audit == audit
    {
      this.contacts, this.audit := contacts, audit;
    }

    method GetContactByPeerID(peerID: string) returns (found: Option<Contact>)
      ensures found == FindPeer(contacts, Trim(peerID))
    {
      var peer := Trim(peerID);
      for i := 0 to |contacts|
        invariant FindPeer(contacts, peer) == FindPeer(contacts[i..], peer)
      {
        if PeerOf(contacts[i]) == peer {
          return Some(contacts[i]);
        }
        assert contacts[i..][1..] == contacts[i + 1..];
      }
      return None;
    }

    method GetContactByNodeUUID(nodeUUID: string) returns (found: Option<Contact>)
      ensures found == FindUuid(contacts, Trim(nodeUUID))
    {
      var uuid := Trim(nodeUUID);
      for i := 0 to |contacts|
        invariant FindUuid(contacts, uuid) == FindUuid(contacts[i..], uuid)
      {
        if UuidOf(contacts[i]) == uuid {
          return Some(contacts[i]);
        }
        assert contacts[i..][1..] == contacts[i + 1..];
      }
      return None;
    }

    method PutContact(contact: Contact)
      modifies `contacts
      ensures contacts == Put(old(contacts), contact)
    {
      var c, loaded, replaced := contact, contacts, false;
      for i := 0 to |loaded|
        invariant loaded == contacts && c == contact && !replaced
        invariant forall j :: 0 <= j < i ==> PeerOf(contacts[j]) != PeerOf(contact)
      {
        if PeerOf(loaded[i]) == PeerOf(c) {
          assert PlaceOf(contacts, PeerOf(contact)) == i;
          if loaded[i].createdAt != 0 {
            c := c.(createdAt := loaded[i].createdAt);
          }
          loaded, replaced := loaded[i := c], true;
          assert loaded == Replaced(contacts, contact);
          break;
        }
      }
      if !replaced {
        assert PlaceOf(contacts, PeerOf(contact)) == |contacts|;
        loaded := loaded + [c];
        assert loaded == Replaced(contacts, contact);
      }
      contacts := Sorting.Sort(ByPeer, loaded);
    }

    method AppendAuditEvent(event: Event)
      modifies `audit
      ensures audit == old(audit) + [event]
    {
      audit := audit + [event];
    }
  }

  // ---- the service ----

  predicate Acceptable(card: Card) {
    card.genuine && Trim(card.uuid) != "" && Trim(card.peerID) != ""
  }

  function Preserved(t: Trust): Trust {
    match t
    case Verified => Verified
    case Conflicted => Conflicted
    case Revoked => Revoked
    case _ => Tofu
  }

  /** The stored contact the card clashes with: another peer under its uuid, or its peer under
      another uuid. */
  function Clashing(contacts: seq<Contact>, card: Card): Option<Contact> {
    var byUuid := FindUuid(contacts, Trim(card.uuid));
    if byUuid.Some? && PeerOf(byUuid.value) != Trim(card.peerID) then byUuid
    else
      var byPeer := FindPeer(contacts, Trim(card.peerID));
      if byPeer.Some? && UuidOf(byPeer.value) != "" && UuidOf(byPeer.value) != Trim(card.uuid) then byPeer else None
  }

  const NODE_ID_PREFIX := "maep:"

  function Fresh(card: Card, displayName: string, now: nat): Contact {
    Contact(card.uuid, card.peerID,
            if card.nodeID == "" then NODE_ID_PREFIX + Trim(card.peerID) else card.nodeID,
            Trim(displayName), card.rest, Tofu, now, now, None)
  }

  function Renewed(c: Contact, old_: Contact): Contact {
    c.(createdAt := old_.createdAt, trust := Preserved(old_.trust),
       displayName := if c.displayName == "" then old_.displayName else c.displayName,
       lastSeen := old_.lastSeen)
  }

  function Logged(action: Action, c: Contact, previous: Trust, now: nat): Event {
    Event(action, PeerOf(c), UuidOf(c), previous, c.trust, now)
  }

  /** Store the contact and log its trust state. */
  function Store(r: Registry, c: Contact, action: Action, previous: Trust, now: nat): Registry {
    Registry(Put(r.contacts, c), r.audit + [Logged(action, c, previous, now)])
  }

  function ImportCard(r: Registry, card: Card, displayName: string, now: nat): (Registry, Outcome) {
    if !Acceptable(card) then (r, Rejected)
    else match Clashing(r.contacts, card)
      case Some(old_) =>
        var c := old_.(trust := Conflicted, updatedAt := now);
        (Store(r, c, ImportConflict, old_.trust, now), Clash(c))
      case None =>
        match FindPeer(r.contacts, Trim(card.peerID))
        case None =>
          var c := Fresh(card, displayName, now);
          (Store(r, c, ImportCreated, Unset, now), Created(c))
        case Some(old_) =>
          var c := Renewed(Fresh(card, displayName, now), old_);
          (Store(r, c, ImportUpdated, old_.trust, now), Updated(c))
  }

  function Mark(r: Registry, peer: string, now: nat): (Registry, Outcome) {
    match FindPeer(r.contacts, Trim(peer))
    case None => (r, Rejected)
    case Some(old_) =>
      if old_.trust.Revoked? || old_.trust.Conflicted? then (r, Rejected)
      else
        var c := old_.(trust := Verified, updatedAt := now);
        (Store(r, c, TrustChanged, old_.trust, now), Promoted(c))
  }

  function Do(r: Registry, op: Op): Registry {
    match op
    case Import(card, displayName, now) => ImportCard(r, card, displayName, now).0
    case MarkVerified(peer, now) => Mark(r, peer, now).0
  }

  class Service {
    const store: FileStore

    constructor (store: FileStore)
      ensures this.store == store
    {
      this.store := store;
    }

    ghost function State(): Registry
      reads this, store
    {
      Registry(store.contacts, store.audit)
    }

    method Save(c: Contact, action: Action, previous: Trust, now: nat)
      modifies store
      ensures State() == Store(old(State()), c, action, previous, now)
    {
      store.PutContact(c);
      store.AppendAuditEvent(Event(action, PeerOf(c), UuidOf(c), previous, c.trust, now));
    }

    method ImportContactCard(card: Card, displayName: string, now: nat) returns (out: Outcome)
      modifies store
      ensures (State(), out) == ImportCard(old(State()), card, displayName, now)
    {
      if !Acceptable(card) {
        return Rejected;
      }
      var byUuid := store.GetContactByNodeUUID(card.uuid);
      if byUuid.Some? && PeerOf(byUuid.value) != Trim(card.peerID) {
        var c := byUuid.value.(trust := Conflicted, updatedAt := now);
        Save(c, ImportConflict, byUuid.value.trust, now);
        return Clash(c);
      }
      var byPeer := store.GetContactByPeerID(card.peerID);
      if byPeer.Some? && UuidOf(byPeer.value) != "" && UuidOf(byPeer.value) != Trim(card.uuid) {
        var c := byPeer.value.(trust := Conflicted, updatedAt := now);
        Save(c, ImportConflict, byPeer.value.trust, now);
        return Clash(c);
      }
      var c := Fresh(card, displayName, now);
      if byPeer.Some? {
        c := Renewed(c, byPeer.value);
        Save(c, ImportUpdated, byPeer.value.trust, now);
        return Updated(c);
      }
      Save(c, ImportCreated, Unset, now);
      return Created(c);
    }

    method MarkContactVerified(peerID: string, now: nat) returns (out: Outcome)
      modifies store
      ensures (State(), out) == Mark(old(State()), peerID, now)
    {
      var found := store.GetContactByPeerID(peerID);
      if found.None? {
        return Rejected;
      }
      var c := found.value;
      if c.trust.Revoked? || c.trust.Conflicted? {
        return Rejected;
      }
      var previous := c.trust;
      c := c.(trust := Verified, updatedAt := now);
      Save(c, TrustChanged, previous, now);
      return Promoted(c);
    }
  }

  // ---- the store as a map from peers to contacts ----

  /** No two contacts share a peer id, nor a node uuid other than the empty one. */
  ghost predicate Unique(contacts: seq<Contact>) {
    && Sorting.Distinct(contacts)
    && (forall a, b :: a in contacts && b in contacts && PeerOf(a) == PeerOf(b) ==> a == b)
    && (forall a, b :: a in contacts && b in contacts && UuidOf(a) == UuidOf(b) != "" ==> a == b)
  }

  lemma ReplacedMembers(contacts: seq<Contact>, c: Contact, x: Contact)
    requires Unique(contacts)
    ensures x in Replaced(contacts, c) <==> x == Kept(contacts, c) || (x in contacts && PeerOf(x) != PeerOf(c))
  {
    var i := PlaceOf(contacts, PeerOf(c));
    var after := Replaced(contacts, c);
    assert after[i] == Kept(contacts, c);
    if x in contacts && PeerOf(x) != PeerOf(c) {
      var j :| 0 <= j < |contacts| && contacts[j] == x;
      assert after[j] == x;
    }
    if x in after && x != Kept(contacts, c) {
      var j :| 0 <= j < |after| && after[j] == x;
      assert contacts[j] == x && j != i;
      if i < |contacts| {
        assert contacts[i] in contacts && contacts[j] in contacts;
      }
    }
  }

  lemma PutMembers(contacts: seq<Contact>, c: Contact, x: Contact)
    requires Unique(contacts)
    ensures x in Put(contacts, c) <==> x == Kept(contacts, c) || (x in contacts && PeerOf(x) != PeerOf(c))
  {
    Sorting.SortMembers(ByPeer, Replaced(contacts, c), x);
    ReplacedMembers(contacts, c, x);
  }

  lemma ReplacedDistinct(contacts: seq<Contact>, c: Contact)
    requires Unique(contacts)
    ensures Sorting.Distinct(Replaced(contacts, c))
  {
    var k := PlaceOf(contacts, PeerOf(c));
    forall j | 0 <= j < |contacts| && j != k ensures PeerOf(contacts[j]) != PeerOf(c) {
      if k < |contacts| {
        assert contacts[k] in contacts && contacts[j] in contacts;
      }
    }
  }

  /** Whoever shares the new contact's uuid is its own former self. */
  ghost predicate Fits(contacts: seq<Contact>, c: Contact) {
    forall x :: x in contacts && UuidOf(x) == UuidOf(c) != "" ==> PeerOf(x) == PeerOf(c)
  }

  lemma PutKeepsUnique(contacts: seq<Contact>, c: Contact)
    requires Unique(contacts) && Fits(contacts, c)
    ensures Unique(Put(contacts, c))
  {
    var after := Put(contacts, c);
    ReplacedDistinct(contacts, c);
    Sorting.SortKeepsDistinct(ByPeer, Replaced(contacts, c));
    forall a, b | a in after && b in after && (PeerOf(a) == PeerOf(b) || UuidOf(a) == UuidOf(b) != "")
      ensures a == b
    {
      PutMembers(contacts, c, a);
      PutMembers(contacts, c, b);
    }
  }

  lemma FindIs(contacts: seq<Contact>, c: Contact)
    requires Unique(contacts) && c in contacts
    ensures FindPeer(contacts, PeerOf(c)) == Some(c)
  {
  }

  /** A put changes what is found under its own peer and nothing else. */
  lemma PutFinds(contacts: seq<Contact>, c: Contact, peer: string)
    requires Unique(contacts) && Fits(contacts, c)
    ensures FindPeer(Put(contacts, c), peer)
         == if peer == PeerOf(c) then Some(Kept(contacts, c)) else FindPeer(contacts, peer)
  {
    var after := Put(contacts, c);
    PutKeepsUnique(contacts, c);
    if peer == PeerOf(c) {
      PutMembers(contacts, c, Kept(contacts, c));
      FindIs(after, Kept(contacts, c));
    } else {
      var now, was := FindPeer(after, peer), FindPeer(contacts, peer);
      if was.Some? {
        PutMembers(contacts, c, was.value);
        FindIs(after, was.value);
      } else if now.Some? {
        PutMembers(contacts, c, now.value);
      }
    }
  }

  // ---- what an operation stores ----

  /** The contact an operation writes, with its trust state before; None when it writes none. */
  function Written(r: Registry, op: Op): Option<(Contact, Trust)> {
    var outcome := OutcomeOf(r, op);
    if outcome.Rejected? then None else Some((outcome.contact, LastEvent(r, op).previous))
  }

  function OutcomeOf(r: Registry, op: Op): Outcome {
    match op
    case Import(card, displayName, now) => ImportCard(r, card, displayName, now).1
    case MarkVerified(peer, now) => Mark(r, peer, now).1
  }

  /** The event the operation logs. */
  function LastEvent(r: Registry, op: Op): Event
    requires !OutcomeOf(r, op).Rejected?
  {
    Do(r, op).audit[|r.audit|]
  }

  lemma DoWrites(r: Registry, op: Op)
    ensures match Written(r, op)
      case None => Do(r, op) == r
      case Some((c, previous)) =>
        && Do(r, op).contacts == Put(r.contacts, c)
        && |Do(r, op).audit| == |r.audit| + 1 && Do(r, op).audit[..|r.audit|] == r.audit
        && var e := Do(r, op).audit[|r.audit|];
           e.peer == PeerOf(c) && e.previous == previous && e.next == c.trust
  {
  }

  /** The state on record for a peer; Unset for a peer without a contact. */
  function StateOf(contacts: seq<Contact>, peer: string): Trust {
    var found := FindPeer(contacts, peer);
    if found.Some? then found.value.trust else Unset
  }

  lemma ClashingIsStored(contacts: seq<Contact>, card: Card)
    ensures Clashing(contacts, card).Some? ==> Clashing(contacts, card).value in contacts
  {
  }

  lemma StoredIsWritten(r: Registry, op: Op, c: Contact, action: Action, previous: Trust, now: nat)
    requires !OutcomeOf(r, op).Rejected? && OutcomeOf(r, op).contact == c
    requires Do(r, op) == Store(r, c, action, previous, now)
    ensures Written(r, op) == Some((c, previous))
  {
  }

  /** What is written fits the registry, and its former state is the one on record. */
  lemma WrittenFits(r: Registry, op: Op)
    requires Unique(r.contacts) && Written(r, op).Some?
    ensures Fits(r.contacts, Written(r, op).value.0)
    ensures Written(r, op).value.1 == StateOf(r.contacts, PeerOf(Written(r, op).value.0))
  {
    match op
    case Import(card, displayName, now) => ImportFits(r, card, displayName, now);
    case MarkVerified(peer, now) => MarkFits(r, peer, now);
  }

  lemma ImportFits(r: Registry, card: Card, displayName: string, now: nat)
    requires Unique(r.contacts) && Acceptable(card)
    ensures var (c, previous) := Written(r, Import(card, displayName, now)).value;
      Fits(r.contacts, c) && previous == StateOf(r.contacts, PeerOf(c))
  {
    var op, c := Import(card, displayName, now), ImportCard(r, card, displayName, now).1.contact;
    var clash := Clashing(r.contacts, card);
    ClashingIsStored(r.contacts, card);
    if clash.Some? {
      SameIdsFit(r.contacts, clash.value, c);
      StoredIsWritten(r, op, c, ImportConflict, clash.value.trust, now);
    } else {
      var old_ := FindPeer(r.contacts, Trim(card.peerID));
      NoClashFits(r.contacts, card);
      if old_.None? {
        StoredIsWritten(r, op, c, ImportCreated, Unset, now);
      } else {
        StoredIsWritten(r, op, c, ImportUpdated, old_.value.trust, now);
      }
    }
  }

  lemma MarkFits(r: Registry, peer: string, now: nat)
    requires Unique(r.contacts) && Written(r, MarkVerified(peer, now)).Some?
    ensures var (c, previous) := Written(r, MarkVerified(peer, now)).value;
      Fits(r.contacts, c) && previous == StateOf(r.contacts, PeerOf(c))
  {
    var old_ := FindPeer(r.contacts, Trim(peer)).value;
    var c := old_.(trust := Verified, updatedAt := now);
    StoredIsWritten(r, MarkVerified(peer, now), c, TrustChanged, old_.trust, now);
    SameIdsFit(r.contacts, old_, c);
  }

  lemma SameIdsFit(contacts: seq<Contact>, old_: Contact, c: Contact)
    requires Unique(contacts) && old_ in contacts && c.peerID == old_.peerID && c.uuid == old_.uuid
    ensures Fits(contacts, c) && old_.trust == StateOf(contacts, PeerOf(c))
  {
    FindIs(contacts, old_);
  }

  lemma NoClashFits(contacts: seq<Contact>, card: Card)
    requires Unique(contacts) && Acceptable(card) && Clashing(contacts, card).None?
    ensures forall x :: x in contacts && UuidOf(x) == Trim(card.uuid) ==> PeerOf(x) == Trim(card.peerID)
  {
    var byUuid := FindUuid(contacts, Trim(card.uuid));
    forall x | x in contacts && UuidOf(x) == Trim(card.uuid) ensures PeerOf(x) == Trim(card.peerID) {
      assert byUuid.Some? && byUuid.value == x;
    }
  }

  // ---- whole runs ----

  function Runs(r: Registry, ops: seq<Op>): Registry {
    if ops == [] then r else Do(Runs(r, ops[..|ops| - 1]), ops[|ops| - 1])
  }

  lemma DoKeepsUnique(r: Registry, op: Op)
    requires Unique(r.contacts)
    ensures Unique(Do(r, op).contacts)
  {
    DoWrites(r, op);
    if Written(r, op).Some? {
      WrittenFits(r, op);
      PutKeepsUnique(r.contacts, Written(r, op).value.0);
    }
  }

  /** Main result: peer ids and non-empty node uuids stay unique over any run. */
  lemma {:induction false} RunsKeepUnique(r: Registry, ops: seq<Op>)
    requires Unique(r.contacts)
    ensures Unique(Runs(r, ops).contacts)
  {
    if ops != [] {
      RunsKeepUnique(r, ops[..|ops| - 1]);
      DoKeepsUnique(Runs(r, ops[..|ops| - 1]), ops[|ops| - 1]);
    }
  }

  /** An operation writes one peer's state at most. */
  lemma DoStates(r: Registry, op: Op, peer: string)
    requires Unique(r.contacts)
    ensures StateOf(Do(r, op).contacts, peer)
         == if Written(r, op).Some? && PeerOf(Written(r, op).value.0) == peer
            then Written(r, op).value.0.trust else StateOf(r.contacts, peer)
  {
    DoWrites(r, op);
    if Written(r, op).Some? {
      WrittenFits(r, op);
      PutFinds(r.contacts, Written(r, op).value.0, peer);
    }
  }

  // ---- trust states over a run ----

  predicate Blocked(t: Trust) {
    t.Conflicted? || t.Revoked?
  }

  /** The moves the trust state of a peer can make in one operation. */
  predicate Moves(before: Trust, after: Trust) {
    || after == before
    || after.Conflicted?
    || (after.Verified? && !Blocked(before))
    || (after.Tofu? && !Blocked(before) && !before.Verified?)
  }

  /** A conflicting import of the peer's contact. */
  predicate Hits(contacts: seq<Contact>, op: Op, peer: string) {
    && op.Import? && Acceptable(op.card)
    && var old_ := Clashing(contacts, op.card);
       old_.Some? && PeerOf(old_.value) == peer
  }

  /** What is written: a conflict exactly for a contact the operation hits; otherwise the state
      is preserved, or an unblocked contact is verified. */
  lemma WrittenKinds(r: Registry, op: Op)
    requires Written(r, op).Some?
    ensures var (c, previous) := Written(r, op).value;
      if Hits(r.contacts, op, PeerOf(c)) then c.trust.Conflicted?
      else c.trust == Preserved(previous) || (c.trust.Verified? && !Blocked(previous))
  {
  }

  lemma DoMoves(r: Registry, op: Op, peer: string)
    requires Unique(r.contacts)
    ensures Moves(StateOf(r.contacts, peer), StateOf(Do(r, op).contacts, peer))
  {
    if Hits(r.contacts, op, peer) {
      HitConflicts(r, op, peer);
    } else {
      MissMoves(r, op, peer);
    }
  }

  /** What a state can never fall back to. */
  predicate NeverBack(before: Trust, after: Trust) {
    && (before.Conflicted? ==> after.Conflicted?)
    && (Blocked(before) ==> Blocked(after))
    && (before.Verified? ==> after.Verified? || after.Conflicted?)
    && (after.Revoked? ==> before.Revoked?)
  }

  /** Main result: over any run Conflicted is never left, Verified never falls back to a weaker
      state, no blocked contact becomes usable again, and no contact becomes Revoked. */
  lemma {:induction false} RunsNeverGoBack(r: Registry, ops: seq<Op>, peer: string)
    requires Unique(r.contacts)
    ensures NeverBack(StateOf(r.contacts, peer), StateOf(Runs(r, ops).contacts, peer))
  {
    if ops != [] {
      var n := |ops| - 1;
      RunsNeverGoBack(r, ops[..n], peer);
      RunsKeepUnique(r, ops[..n]);
      DoMoves(Runs(r, ops[..n]), ops[n], peer);
    }
  }

  lemma HitsIsWritten(r: Registry, op: Op, peer: string)
    requires Hits(r.contacts, op, peer)
    ensures Written(r, op).Some? && PeerOf(Written(r, op).value.0) == peer
  {
  }

  lemma HitConflicts(r: Registry, op: Op, peer: string)
    requires Unique(r.contacts) && Hits(r.contacts, op, peer)
    ensures StateOf(Do(r, op).contacts, peer) == Conflicted
  {
    DoStates(r, op, peer);
    HitsIsWritten(r, op, peer);
    WrittenKinds(r, op);
  }

  lemma MissMoves(r: Registry, op: Op, peer: string)
    requires Unique(r.contacts) && !Hits(r.contacts, op, peer)
    ensures var before, after := StateOf(r.contacts, peer), StateOf(Do(r, op).contacts, peer);
      after == before || after == Preserved(before) || (after.Verified? && !Blocked(before))
  {
    DoStates(r, op, peer);
    if Written(r, op).Some? && PeerOf(Written(r, op).value.0) == peer {
      WrittenFits(r, op);
      WrittenKinds(r, op);
    }
  }

  /** Revoked, however, is left: exactly when a conflicting import hits the contact. */
  lemma RevokedIsLeftIff(r: Registry, op: Op, peer: string)
    requires Unique(r.contacts) && StateOf(r.contacts, peer) == Revoked
    ensures StateOf(Do(r, op).contacts, peer) == if Hits(r.contacts, op, peer) then Conflicted else Revoked
  {
    if Hits(r.contacts, op, peer) {
      HitConflicts(r, op, peer);
    } else {
      MissMoves(r, op, peer);
    }
  }

  lemma RevokedCanBeLeft()
    ensures exists r: Registry, op: Op ::
              Unique(r.contacts) && StateOf(r.contacts, "p") == Revoked && StateOf(Do(r, op).contacts, "p") == Conflicted
  {
    var c := Contact("u", "p", "", "", "", Revoked, 1, 1, None);
    var r := Registry([c], []);
    var op := Import(Card("u", "q", "", "", true), "", 2);
    TrimIdle("u");
    TrimIdle("p");
    TrimIdle("q");
    assert FindUuid(r.contacts, "u") == Some(c);
    assert Hits(r.contacts, op, "p");
    RevokedIsLeftIff(r, op, "p");
  }

  // ---- the audit log ----

  /** The state of a peer according to the log, starting from what was on file before it. */
  function Replay(contacts: seq<Contact>, audit: seq<Event>, peer: string): Trust {
    if audit == [] then StateOf(contacts, peer)
    else
      var e := audit[|audit| - 1];
      if e.peer == peer then e.next else Replay(contacts, audit[..|audit| - 1], peer)
  }

  /** Each event's previous state is the last one before it for that peer. */
  predicate Chains(contacts: seq<Contact>, audit: seq<Event>) {
    audit == [] ||
    var e := audit[|audit| - 1];
    var before := audit[..|audit| - 1];
    Chains(contacts, before) && e.previous == Replay(contacts, before, e.peer)
  }

  ghost predicate Tells(contacts: seq<Contact>, r: Registry) {
    && Unique(r.contacts) && Chains(contacts, r.audit)
    && forall peer :: Replay(contacts, r.audit, peer) == StateOf(r.contacts, peer)
  }

  lemma DoTells(contacts: seq<Contact>, r: Registry, op: Op)
    requires Tells(contacts, r)
    ensures Tells(contacts, Do(r, op))
  {
    var r' := Do(r, op);
    DoWrites(r, op);
    DoKeepsUnique(r, op);
    if Written(r, op).Some? {
      WrittenFits(r, op);
      assert r'.audit[..|r'.audit| - 1] == r.audit;
    }
    forall peer ensures Replay(contacts, r'.audit, peer) == StateOf(r'.contacts, peer) {
      DoStates(r, op, peer);
    }
  }

  /** Main result: the log of any run chains, and replaying it over the contacts the run began
      with gives exactly the stored trust states. */
  lemma {:induction false} AuditTellsTheStates(contacts: seq<Contact>, ops: seq<Op>)
    requires Unique(contacts)
    ensures Tells(contacts, Runs(Registry(contacts, []), ops))
  {
    if ops != [] {
      AuditTellsTheStates(contacts, ops[..|ops| - 1]);
      DoTells(contacts, Runs(Registry(contacts, []), ops[..|ops| - 1]), ops[|ops| - 1]);
    }
  }

  /** A contact is never lost and its first creation time is kept. */
  lemma {:induction false} RunsKeepContacts(r: Registry, ops: seq<Op>, peer: string)
    requires Unique(r.contacts) && FindPeer(r.contacts, peer).Some?
    ensures var was, now := FindPeer(r.contacts, peer), FindPeer(Runs(r, ops).contacts, peer);
      now.Some? && (was.value.createdAt != 0 ==> now.value.createdAt == was.value.createdAt)
  {
    if ops != [] {
      var n := |ops| - 1;
      RunsKeepContacts(r, ops[..n], peer);
      RunsKeepUnique(r, ops[..n]);
      var r1 := Runs(r, ops[..n]);
      DoWrites(r1, ops[n]);
      if Written(r1, ops[n]).Some? {
        WrittenFits(r1, ops[n]);
        PutFinds(r1.contacts, Written(r1, ops[n]).value.0, peer);
        KeptCreation(r1.contacts, Written(r1, ops[n]).value.0);
      }
    }
  }

  lemma KeptCreation(contacts: seq<Contact>, c: Contact)
    requires Unique(contacts)
    ensures var was := FindPeer(contacts, PeerOf(c));
      was.Some? && was.value.createdAt != 0 ==> Kept(contacts, c).createdAt == was.value.createdAt
  {
    var i := PlaceOf(contacts, PeerOf(c));
    if i < |contacts| {
      FindIs(contacts, contacts[i]);
    }
  }
}
