/** The contact store over two files, and its rebalancing (contacts/file_store.go, contacts/service.go:768-805). */
module Contacts {
  import opened Wrappers
  import opened Text
  import opened Sorting

  // ---- data ----

  datatype Status = Active | Inactive | OtherStatus(name: string)

  type Instant = t: nat | t > 0 witness 1

  /** createdAt 0 is the zero time; rest stands for the fields that do not matter here. */
  datatype Contact = Contact(
    id: string, status: Status, createdAt: nat, updatedAt: nat, retainScore: real, rest: string)

  datatype Files = Files(active: seq<Contact>, inactive: seq<Contact>)

  const MAX_ACTIVE: nat := 150

  function NormalStatus(s: Status): (r: Status)
    ensures r == Active || r == Inactive
  {
    if s.Inactive? then Inactive else Active
  }

  function Clamp(x: real, lo: real, hi: real): real {
    if x < lo then lo else if x > hi then hi else x
  }

  function Normal(c: Contact, now: Instant): Contact {
    Contact(Trim(c.id), NormalStatus(c.status), if c.createdAt == 0 then now else c.createdAt, now,
            Clamp(c.retainScore, 0.0, 1.0), c.rest)
  }

  function IdOf(c: Contact): string {
    c.id
  }

  predicate ById(a: Contact, b: Contact) {
    !Before(Trim(b.id), Trim(a.id))
  }

  function NormalAll(items: seq<Contact>, now: Instant): seq<Contact> {
    seq(|items|, i requires 0 <= i < |items| => Normal(items[i], now))
  }

  /** Reading a file normalizes and sorts it; writing one sorts it. */
  function Load(items: seq<Contact>, now: Instant): seq<Contact> {
    Sort(ById, NormalAll(items, now))
  }

  function Saved(items: seq<Contact>): seq<Contact> {
    Sort(ById, items)
  }

  function Remove(items: seq<Contact>, id: string): seq<Contact> {
    if items == [] then []
    else
      var n := |items| - 1;
      Remove(items[..n], id) + (if Trim(items[n].id) == id then [] else [items[n]])
  }

  /** The last set creation time under the id, or the one at hand. */
  function Captured(items: seq<Contact>, id: string, createdAt: nat): nat {
    if items == [] then createdAt
    else
      var n := |items| - 1;
      if Trim(items[n].id) == id && items[n].createdAt != 0 then items[n].createdAt
      else Captured(items[..n], id, createdAt)
  }

  function Filed(f: Files, c: Contact, now: Instant): Contact {
    var c1 := Normal(c, now);
    c1.(createdAt := Captured(Load(f.inactive, now), c1.id, Captured(Load(f.active, now), c1.id, c1.createdAt)))
  }

  function Put(f: Files, c: Contact, now: Instant): Files {
    var c1 := Filed(f, c, now);
    var active, inactive := Remove(Load(f.active, now), c1.id), Remove(Load(f.inactive, now), c1.id);
    if c1.status == Inactive then Files(Saved(active), Saved(inactive + [c1]))
    else Files(Saved(active + [c1]), Saved(inactive))
  }

  /** The listing: every status but Inactive means the active file. */
  function List(f: Files, status: Status, now: Instant): seq<Contact> {
    if NormalStatus(status) == Active then Load(f.active, now) else Load(f.inactive, now)
  }

  class FileStore {
    var files: Files

    constructor (files: Files)
      ensures this.files == files
    {
      this.files := files;
    }

    static method RemoveContactByID(items: seq<Contact>, id: string, createdAt: nat)
      returns (out: seq<Contact>, created: nat)
      ensures out == Remove(items, id) && created == Captured(items, id, createdAt)
    {
      out, created := [], createdAt;
      for i := 0 to |items|
        invariant out == Remove(items[..i], id) && created == Captured(items[..i], id, createdAt)
      {
        assert items[..i + 1][..i] == items[..i];
        if Trim(items[i].id) == id {
          if items[i].createdAt != 0 {
            created := items[i].createdAt;
          }
          continue;
        }
        out := out + [items[i]];
      }
      assert items[..|items|] == items;
    }

    method PutContact(contact: Contact, now: Instant)
      modifies this
      ensures files == Put(old(files), contact, now)
    {
      var c := Normal(contact, now);
      var active, inactive := Load(files.active, now), Load(files.inactive, now);
      var createdAt := c.createdAt;
      active, createdAt := RemoveContactByID(active, c.id, createdAt);
      inactive, createdAt := RemoveContactByID(inactive, c.id, createdAt);
      c := c.(createdAt := createdAt);
      if c.status.Inactive? {
        inactive := inactive + [c];
      } else {
        active := active + [c];
      }
      files := Files(Saved(active), Saved(inactive));
    }

    static method Recompute(contacts: seq<Contact>, score: Contact -> real) returns (scored: seq<Contact>)
      ensures scored == Scored(contacts, score)
    {
      scored := [];
      for i := 0 to |contacts|
        invariant scored == Scored(contacts[..i], score)
      {
        assert contacts[..i + 1] == contacts[..i] + [contacts[i]];
        scored := scored + [contacts[i].(retainScore := score(contacts[i]))];
      }
      assert contacts[..|contacts|] == contacts;
    }

    /** Ranks the listed contacts by their recomputed score and files the first MAX_ACTIVE as
        active and the others as inactive. */
    method RebalanceActiveContacts(score: Contact -> real, now: Instant)
      modifies this
      ensures files == Rebalanced(old(files), score, now)
    {
      var contacts := List(files, OtherStatus(""), now);
      if |contacts| <= MAX_ACTIVE {
        return;
      }
      var scored := Recompute(contacts, score);
      PutByRank(Sort(ByRank, scored), now);
    }

    method PutByRank(ranked: seq<Contact>, now: Instant)
      modifies this
      ensures files == Runs(old(files), RankPuts(ranked, now))
    {
      ghost var puts := RankPuts(ranked, now);
      for i := 0 to |ranked|
        invariant files == Runs(old(files), puts[..i])
      {
        PutContact(Placed(ranked, i), now);
        RunsNext(old(files), puts, i);
      }
      assert puts[..|ranked|] == puts;
    }
  }

  // ---- rebalancing ----

  predicate Outranks(a: Contact, b: Contact) {
    if a.retainScore == b.retainScore then Before(Trim(a.id), Trim(b.id)) else a.retainScore > b.retainScore
  }

  predicate ByRank(a: Contact, b: Contact) {
    !Outranks(b, a)
  }

  function Scored(contacts: seq<Contact>, score: Contact -> real): seq<Contact> {
    seq(|contacts|, i requires 0 <= i < |contacts| => contacts[i].(retainScore := score(contacts[i])))
  }

  /** Active contacts by rank. */
  function Ranking(f: Files, score: Contact -> real, now: Instant): seq<Contact> {
    Sort(ByRank, Scored(List(f, OtherStatus(""), now), score))
  }

  /** The contact at a rank, under the status its rank gives it. */
  function Placed(ranked: seq<Contact>, i: nat): Contact
    requires i < |ranked|
  {
    ranked[i].(status := if i < MAX_ACTIVE then Active else Inactive)
  }

  function Rebalanced(f: Files, score: Contact -> real, now: Instant): Files {
    if |List(f, OtherStatus(""), now)| <= MAX_ACTIVE then f
    else
      Runs(f, RankPuts(Ranking(f, score, now), now))
  }

  function RankPuts(ranked: seq<Contact>, now: Instant): seq<(Contact, Instant)> {
    seq(|ranked|, i requires 0 <= i < |ranked| => (Placed(ranked, i), now))
  }

  // ---- what a put keeps ----

  predicate Has(items: seq<Contact>, id: string) {
    exists i :: 0 <= i < |items| && items[i].id == id
  }

  predicate Dated(items: seq<Contact>, id: string, t: nat) {
    exists i :: 0 <= i < |items| && items[i].id == id && items[i].createdAt == t
  }

  /** One file: no id twice, ids trimmed, creation times set, and the status of the file. */
  ghost predicate Tidy(items: seq<Contact>, status: Status) {
    && DistinctBy(IdOf, items)
    && forall c :: c in items ==> Trim(c.id) == c.id && c.createdAt != 0 && c.status == status
  }

  /** Each id is in one file only, once, under the status of that file. */
  ghost predicate Consistent(f: Files) {
    && Tidy(f.active, Active) && Tidy(f.inactive, Inactive)
    && forall id :: !(Has(f.active, id) && Has(f.inactive, id))
  }

  /** Same ids and creation times. */
  ghost predicate Alike(a: seq<Contact>, b: seq<Contact>) {
    forall id, t :: Dated(a, id, t) <==> Dated(b, id, t)
  }

  lemma HasDated(items: seq<Contact>, id: string)
    ensures Has(items, id) <==> exists t :: Dated(items, id, t)
  {
    if Has(items, id) {
      var i :| 0 <= i < |items| && items[i].id == id;
      assert Dated(items, id, items[i].createdAt);
    }
  }

  lemma SortAlike(items: seq<Contact>)
    ensures Alike(Saved(items), items)
  {
    var r := Saved(items);
    forall id, t ensures Dated(r, id, t) <==> Dated(items, id, t) {
      if Dated(r, id, t) {
        var i :| 0 <= i < |r| && r[i].id == id && r[i].createdAt == t;
        SortMembers(ById, items, r[i]);
      }
      if Dated(items, id, t) {
        var i :| 0 <= i < |items| && items[i].id == id && items[i].createdAt == t;
        SortMembers(ById, items, items[i]);
      }
    }
  }

  lemma SortTidy(items: seq<Contact>, status: Status)
    requires Tidy(items, status)
    ensures Tidy(Saved(items), status) && Alike(Saved(items), items)
  {
    SortKeepsKeys(ById, IdOf, items);
    SortAlike(items);
    forall c | c in Saved(items) ensures c in items {
      SortMembers(ById, items, c);
    }
  }

  lemma NormalTidy(items: seq<Contact>, status: Status, now: Instant)
    requires Tidy(items, status) && (status == Active || status == Inactive)
    ensures Tidy(NormalAll(items, now), status) && Alike(NormalAll(items, now), items)
  {
    var r := NormalAll(items, now);
    assert forall i :: 0 <= i < |items| ==> items[i] in items;
    forall id, t ensures Dated(r, id, t) <==> Dated(items, id, t) {
      if Dated(items, id, t) {
        var i :| 0 <= i < |items| && items[i].id == id && items[i].createdAt == t;
        assert r[i].id == id && r[i].createdAt == t;
      }
    }
  }

  lemma LoadTidy(items: seq<Contact>, status: Status, now: Instant)
    requires Tidy(items, status) && (status == Active || status == Inactive)
    ensures Tidy(Load(items, now), status) && Alike(Load(items, now), items)
  {
    NormalTidy(items, status, now);
    SortTidy(NormalAll(items, now), status);
  }

  lemma {:induction false} RemoveMembers(items: seq<Contact>, id: string, c: Contact)
    ensures c in Remove(items, id) <==> c in items && Trim(c.id) != id
  {
    if items != [] {
      var n := |items| - 1;
      RemoveMembers(items[..n], id, c);
      assert items == items[..n] + [items[n]];
    }
  }

  lemma {:induction false} RemoveDistinct(items: seq<Contact>, id: string)
    requires DistinctBy(IdOf, items)
    ensures DistinctBy(IdOf, Remove(items, id))
  {
    if items != [] {
      var n := |items| - 1;
      RemoveDistinct(items[..n], id);
      var before := Remove(items[..n], id);
      forall i | 0 <= i < |before| ensures before[i].id != items[n].id {
        RemoveMembers(items[..n], id, before[i]);
        var j :| 0 <= j < n && items[j] == before[i];
        assert IdOf(items[j]) != IdOf(items[n]);
      }
    }
  }

  lemma RemoveTidy(items: seq<Contact>, status: Status, id: string)
    requires Tidy(items, status)
    ensures Tidy(Remove(items, id), status) && !Has(Remove(items, id), id)
    ensures forall x, t :: Dated(Remove(items, id), x, t) <==> x != id && Dated(items, x, t)
  {
    var r := Remove(items, id);
    RemoveDistinct(items, id);
    forall c ensures c in r <==> c in items && Trim(c.id) != id {
      RemoveMembers(items, id, c);
    }
    forall x, t ensures Dated(r, x, t) <==> x != id && Dated(items, x, t) {
      if Dated(r, x, t) {
        var i :| 0 <= i < |r| && r[i].id == x && r[i].createdAt == t;
        assert r[i] in items;
      }
      if x != id && Dated(items, x, t) {
        var i :| 0 <= i < |items| && items[i].id == x && items[i].createdAt == t;
        assert items[i] in r;
      }
    }
  }

  lemma AppendTidy(items: seq<Contact>, status: Status, c: Contact)
    requires Tidy(items, status) && !Has(items, c.id)
    requires Trim(c.id) == c.id && c.createdAt != 0 && c.status == status
    ensures Tidy(items + [c], status)
    ensures forall x, t :: Dated(items + [c], x, t) <==> Dated(items, x, t) || (x == c.id && t == c.createdAt)
  {
    var r := items + [c];
    forall i | 0 <= i < |items| ensures IdOf(items[i]) != IdOf(c) {
    }
    forall x, t ensures Dated(r, x, t) <==> Dated(items, x, t) || (x == c.id && t == c.createdAt) {
      if Dated(items, x, t) {
        var i :| 0 <= i < |items| && items[i].id == x && items[i].createdAt == t;
        assert r[i] == items[i];
      }
      assert r[|items|] == c;
    }
  }

  lemma {:induction false} CapturedIs(items: seq<Contact>, status: Status, id: string, createdAt: nat)
    requires Tidy(items, status)
    ensures Dated(items, id, Captured(items, id, createdAt)) || !Has(items, id)
    ensures !Has(items, id) ==> Captured(items, id, createdAt) == createdAt
  {
    if items != [] {
      var n := |items| - 1;
      assert items[n] in items;
      TidyPrefix(items, status);
      CapturedIs(items[..n], status, id, createdAt);
      PrefixHas(items, id, Captured(items[..n], id, createdAt));
    }
  }

  lemma TidyPrefix(items: seq<Contact>, status: Status)
    requires items != [] && Tidy(items, status)
    ensures Tidy(items[..|items| - 1], status)
  {
    var before := items[..|items| - 1];
    assert forall i :: 0 <= i < |before| ==> before[i] == items[i];
  }

  lemma PrefixHas(items: seq<Contact>, id: string, t: nat)
    requires items != []
    ensures var n := |items| - 1; var before := items[..n];
      && (Has(items, id) <==> items[n].id == id || Has(before, id))
      && (Dated(before, id, t) ==> Dated(items, id, t))
  {
    var n := |items| - 1;
    var before := items[..n];
    assert forall i :: 0 <= i < n ==> before[i] == items[i];
    if Has(items, id) && items[n].id != id {
      var i :| 0 <= i < |items| && items[i].id == id;
      assert before[i].id == id;
    }
    if Has(before, id) {
      var i :| 0 <= i < n && before[i].id == id;
      assert items[i].id == id;
    }
    if Dated(before, id, t) {
      var i :| 0 <= i < n && before[i].id == id && before[i].createdAt == t;
      assert items[i].id == id && items[i].createdAt == t;
    }
  }

  /** On file somewhere, created at t. */
  predicate Known(f: Files, id: string, t: nat) {
    Dated(f.active, id, t) || Dated(f.inactive, id, t)
  }

  /** The files of a put before the contact is filed again. */
  lemma WithoutTidy(items: seq<Contact>, status: Status, id: string, now: Instant)
    requires Tidy(items, status) && (status == Active || status == Inactive)
    ensures var r := Remove(Load(items, now), id);
      && Tidy(r, status) && !Has(r, id)
      && forall x, t :: Dated(r, x, t) <==> x != id && Dated(items, x, t)
  {
    LoadTidy(items, status, now);
    RemoveTidy(Load(items, now), status, id);
  }

  lemma DatedOnce(items: seq<Contact>, status: Status, id: string, t: nat, t': nat)
    requires Tidy(items, status) && Dated(items, id, t) && Dated(items, id, t')
    ensures t == t'
  {
    var i :| 0 <= i < |items| && items[i].id == id && items[i].createdAt == t;
    var j :| 0 <= j < |items| && items[j].id == id && items[j].createdAt == t';
    assert IdOf(items[i]) == IdOf(items[j]);
  }

  lemma LoadCaptured(items: seq<Contact>, status: Status, id: string, createdAt: nat, now: Instant)
    requires Tidy(items, status) && (status == Active || status == Inactive)
    ensures var t := Captured(Load(items, now), id, createdAt);
      if Has(items, id) then Dated(items, id, t) else t == createdAt
  {
    LoadTidy(items, status, now);
    CapturedIs(Load(items, now), status, id, createdAt);
    HasDated(items, id);
    HasDated(Load(items, now), id);
  }

  /** The contact is filed under its first creation time. */
  lemma FiledCreation(f: Files, c: Contact, now: Instant)
    requires Consistent(f)
    ensures var c1 := Filed(f, c, now);
      && Trim(c1.id) == c1.id == Trim(c.id) && c1.status == NormalStatus(c.status) && c1.createdAt != 0
      && if Has(f.active, c1.id) || Has(f.inactive, c1.id) then Known(f, c1.id, c1.createdAt)
         else c1.createdAt == Normal(c, now).createdAt
  {
    var id, t := Trim(c.id), Normal(c, now).createdAt;
    TrimIdempotent(c.id);
    var t1 := Captured(Load(f.active, now), id, t);
    LoadCaptured(f.active, Active, id, t, now);
    LoadCaptured(f.inactive, Inactive, id, t1, now);
    DatedIsSet(f.active, Active, id);
    DatedIsSet(f.inactive, Inactive, id);
  }

  lemma DatedIsSet(items: seq<Contact>, status: Status, id: string)
    requires Tidy(items, status)
    ensures forall t :: Dated(items, id, t) ==> t != 0
  {
    forall t | Dated(items, id, t) ensures t != 0 {
      var i :| 0 <= i < |items| && items[i].id == id && items[i].createdAt == t;
      assert items[i] in items;
    }
  }

  /** What a put does to one file. */
  ghost predicate Updates(after: seq<Contact>, before: seq<Contact>, c: Contact, here: bool) {
    forall x, t :: Dated(after, x, t) <==> if x == c.id then here && t == c.createdAt else Dated(before, x, t)
  }

  lemma PutUpdates(f: Files, c: Contact, now: Instant)
    requires Consistent(f)
    ensures var c1, g := Filed(f, c, now), Put(f, c, now);
      && Tidy(g.active, Active) && Tidy(g.inactive, Inactive)
      && Updates(g.active, f.active, c1, c1.status == Active)
      && Updates(g.inactive, f.inactive, c1, c1.status == Inactive)
  {
    FiledCreation(f, c, now);
    var c1 := Filed(f, c, now);
    var active, inactive := Remove(Load(f.active, now), c1.id), Remove(Load(f.inactive, now), c1.id);
    WithoutTidy(f.active, Active, c1.id, now);
    WithoutTidy(f.inactive, Inactive, c1.id, now);
    if c1.status == Inactive {
      AppendTidy(inactive, Inactive, c1);
      SortTidy(active, Active);
      SortTidy(inactive + [c1], Inactive);
    } else {
      AppendTidy(active, Active, c1);
      SortTidy(active + [c1], Active);
      SortTidy(inactive, Inactive);
    }
  }

  lemma UpdatesHas(after: seq<Contact>, before: seq<Contact>, c: Contact, here: bool)
    requires Updates(after, before, c, here)
    ensures forall x :: Has(after, x) <==> if x == c.id then here else Has(before, x)
  {
    forall x ensures Has(after, x) <==> if x == c.id then here else Has(before, x) {
      HasDated(after, x);
      HasDated(before, x);
      assert Dated(after, c.id, c.createdAt) <==> here;
    }
  }

  /** Where the contacts are after a put: the contact in the file of its status, the others
      where they were. */
  lemma PutPlaces(f: Files, c: Contact, now: Instant)
    requires Consistent(f)
    ensures var g, id, active := Put(f, c, now), Trim(c.id), NormalStatus(c.status) == Active;
      && Consistent(g)
      && (forall x :: Has(g.active, x) <==> if x == id then active else Has(f.active, x))
      && (forall x :: Has(g.inactive, x) <==> if x == id then !active else Has(f.inactive, x))
  {
    var c1, g := Filed(f, c, now), Put(f, c, now);
    PutUpdates(f, c, now);
    UpdatesHas(g.active, f.active, c1, c1.status == Active);
    UpdatesHas(g.inactive, f.inactive, c1, c1.status == Inactive);
  }

  /** Creation times after a put: a known contact keeps its own, a new one starts. */
  lemma PutCreations(f: Files, c: Contact, now: Instant, x: string, t: nat)
    requires Consistent(f)
    ensures Known(f, x, t) ==> Known(Put(f, c, now), x, t)
    ensures Known(Put(f, c, now), x, t) ==>
              Known(f, x, t) || (x == Trim(c.id) && !Has(f.active, x) && !Has(f.inactive, x))
  {
    var c1 := Filed(f, c, now);
    PutUpdates(f, c, now);
    FiledCreation(f, c, now);
    if Known(f, x, t) && x == c1.id {
      HasDated(f.active, x);
      HasDated(f.inactive, x);
      KnownOnce(f, x, t, c1.createdAt);
    }
  }

  lemma KnownOnce(f: Files, id: string, t: nat, t': nat)
    requires Consistent(f) && Known(f, id, t) && Known(f, id, t')
    ensures t == t'
  {
    HasDated(f.active, id);
    HasDated(f.inactive, id);
    if Has(f.active, id) {
      DatedOnce(f.active, Active, id, t, t');
    } else {
      DatedOnce(f.inactive, Inactive, id, t, t');
    }
  }

  // ---- whole runs of puts ----

  function Runs(f: Files, puts: seq<(Contact, Instant)>): Files {
    if puts == [] then f
    else
      var n := |puts| - 1;
      Put(Runs(f, puts[..n]), puts[n].0, puts[n].1)
  }

  lemma RunsNext(f: Files, puts: seq<(Contact, Instant)>, i: nat)
    requires i < |puts|
    ensures Runs(f, puts[..i + 1]) == Put(Runs(f, puts[..i]), puts[i].0, puts[i].1)
  {
    assert puts[..i + 1][..i] == puts[..i];
  }

  /** The status an id was last put under; None when it was not put. */
  function LastStatus(puts: seq<(Contact, Instant)>, id: string): Option<Status> {
    if puts == [] then None
    else
      var n := |puts| - 1;
      if Trim(puts[n].0.id) == id then Some(NormalStatus(puts[n].0.status)) else LastStatus(puts[..n], id)
  }

  /** Main result: after any puts each id is in exactly one file, once, under the status it was
      last put with, and every contact keeps its first creation time. */
  lemma {:induction false} PutsKeepFilesConsistent(f: Files, puts: seq<(Contact, Instant)>, id: string)
    requires Consistent(f)
    ensures var g := Runs(f, puts);
      && Consistent(g)
      && (LastStatus(puts, id) == Some(Active) ==> Has(g.active, id) && !Has(g.inactive, id))
      && (LastStatus(puts, id) == Some(Inactive) ==> Has(g.inactive, id) && !Has(g.active, id))
      && (LastStatus(puts, id) == None ==>
            (Has(g.active, id) <==> Has(f.active, id)) && (Has(g.inactive, id) <==> Has(f.inactive, id)))
    ensures forall t :: Known(f, id, t) ==> Known(Runs(f, puts), id, t)
  {
    if puts != [] {
      var n := |puts| - 1;
      PutsKeepFilesConsistent(f, puts[..n], id);
      PutPlaces(Runs(f, puts[..n]), puts[n].0, puts[n].1);
      forall t | Known(Runs(f, puts[..n]), id, t) ensures Known(Runs(f, puts), id, t) {
        PutCreations(Runs(f, puts[..n]), puts[n].0, puts[n].1, id, t);
      }
    }
  }

  // ---- rebalancing keeps the best ----

  lemma RankIsOrder()
    ensures IsOrder(ByRank)
  {
    forall a: Contact, b: Contact ensures ByRank(a, b) || ByRank(b, a) {
      BeforeIsStrict(Trim(a.id), Trim(b.id));
    }
    forall a: Contact, b: Contact, c: Contact | ByRank(a, b) && ByRank(b, c) ensures ByRank(a, c) {
      RankTransitive(a, b, c);
    }
  }

  lemma RankTransitive(a: Contact, b: Contact, c: Contact)
    requires !Outranks(b, a) && !Outranks(c, b)
    ensures !Outranks(c, a)
  {
    if a.retainScore == b.retainScore == c.retainScore {
      var x, y, z := Trim(a.id), Trim(b.id), Trim(c.id);
      BeforeIsStrict(x, y);
      BeforeIsStrict(y, z);
      BeforeIsStrict(x, z);
      if x != y && y != z {
        BeforeIsTransitive(x, y, z);
      }
    }
  }

  /** Ranked contacts carry distinct ids, exactly those of the active file. */
  ghost predicate Ranks(f: Files, ranked: seq<Contact>) {
    && DistinctBy(IdOf, ranked)
    && (forall c :: c in ranked ==> Trim(c.id) == c.id)
    && Ids(ranked) == Ids(f.active)
  }

  lemma RankingRanks(f: Files, score: Contact -> real, now: Instant)
    requires Consistent(f)
    ensures Ranks(f, Ranking(f, score, now)) && Sorted(ByRank, Ranking(f, score, now))
  {
    var loaded := Load(f.active, now);
    var scored := Scored(loaded, score);
    var ranked := Sort(ByRank, scored);
    LoadTidy(f.active, Active, now);
    RankIsOrder();
    SortSorts(ByRank, scored);
    forall i, j | 0 <= i < j < |scored| ensures IdOf(scored[i]) != IdOf(scored[j]) {
      assert IdOf(loaded[i]) != IdOf(loaded[j]);
    }
    SortKeepsKeys(ByRank, IdOf, scored);
    ScoredTidy(loaded, score);
    forall c | c in ranked ensures Trim(c.id) == c.id {
      SortMembers(ByRank, scored, c);
    }
    forall x ensures x in Ids(ranked) <==> x in Ids(f.active) {
      HasIds(ranked, x);
      HasIds(f.active, x);
      HasSorted(scored, x);
      HasScored(loaded, score, x);
      HasDated(loaded, x);
      HasDated(f.active, x);
    }
  }

  lemma ScoredTidy(loaded: seq<Contact>, score: Contact -> real)
    requires Tidy(loaded, Active)
    ensures forall c :: c in Scored(loaded, score) ==> Trim(c.id) == c.id
  {
    var scored := Scored(loaded, score);
    forall c | c in scored ensures Trim(c.id) == c.id {
      var i :| 0 <= i < |scored| && scored[i] == c;
      assert loaded[i] in loaded;
    }
  }

  lemma HasSorted(scored: seq<Contact>, x: string)
    ensures Has(Sort(ByRank, scored), x) <==> Has(scored, x)
  {
    var ranked := Sort(ByRank, scored);
    if Has(ranked, x) {
      var i :| 0 <= i < |ranked| && ranked[i].id == x;
      SortMembers(ByRank, scored, ranked[i]);
    }
    if Has(scored, x) {
      var i :| 0 <= i < |scored| && scored[i].id == x;
      SortMembers(ByRank, scored, scored[i]);
    }
  }

  lemma HasScored(loaded: seq<Contact>, score: Contact -> real, x: string)
    ensures Has(Scored(loaded, score), x) <==> Has(loaded, x)
  {
    var scored := Scored(loaded, score);
    if Has(loaded, x) {
      var i :| 0 <= i < |loaded| && loaded[i].id == x;
      assert scored[i].id == x;
    }
  }

  // ---- rebalancing by rank ----

  function Ids(s: seq<Contact>): set<string> {
    set c | c in s :: c.id
  }

  lemma HasIds(s: seq<Contact>, x: string)
    ensures Has(s, x) <==> x in Ids(s)
  {
    if Has(s, x) {
      var i :| 0 <= i < |s| && s[i].id == x;
      assert s[i] in s;
    }
  }

  lemma {:induction false} IdsSize(s: seq<Contact>)
    requires DistinctBy(IdOf, s)
    ensures |Ids(s)| == |s|
  {
    if s != [] {
      var n := |s| - 1;
      IdsSize(s[..n]);
      forall c | c in s[..n] ensures c.id != s[n].id {
        var i :| 0 <= i < n && s[..n][i] == c;
        assert IdOf(s[i]) != IdOf(s[n]);
      }
      assert Ids(s) == Ids(s[..n]) + {s[n].id};
    }
  }

  lemma {:induction false} StatusByRank(ranked: seq<Contact>, now: Instant, n: nat, i: nat)
    requires DistinctBy(IdOf, ranked) && i < n <= |ranked|
    requires forall c :: c in ranked ==> Trim(c.id) == c.id
    ensures LastStatus(RankPuts(ranked, now)[..n], ranked[i].id) == Some(if i < MAX_ACTIVE then Active else Inactive)
  {
    var puts := RankPuts(ranked, now);
    assert puts[..n][..n - 1] == puts[..n - 1];
    assert ranked[n - 1] in ranked;
    if i < n - 1 {
      assert IdOf(ranked[i]) != IdOf(ranked[n - 1]);
      StatusByRank(ranked, now, n - 1, i);
    }
  }

  lemma {:induction false} StatusUnranked(ranked: seq<Contact>, now: Instant, n: nat, x: string)
    requires n <= |ranked| && x !in Ids(ranked)
    requires forall c :: c in ranked ==> Trim(c.id) == c.id
    ensures LastStatus(RankPuts(ranked, now)[..n], x) == None
  {
    if n > 0 {
      var puts := RankPuts(ranked, now);
      assert puts[..n][..n - 1] == puts[..n - 1];
      assert ranked[n - 1] in ranked;
      StatusUnranked(ranked, now, n - 1, x);
    }
  }

  /** The last status filing by rank gives an id. */
  function RankStatus(ranked: seq<Contact>, x: string): Option<Status>
    requires |ranked| > MAX_ACTIVE
  {
    if x in Ids(ranked[..MAX_ACTIVE]) then Some(Active)
    else if x in Ids(ranked[MAX_ACTIVE..]) then Some(Inactive)
    else None
  }

  lemma StatusIs(ranked: seq<Contact>, now: Instant, x: string)
    requires DistinctBy(IdOf, ranked) && |ranked| > MAX_ACTIVE
    requires forall c :: c in ranked ==> Trim(c.id) == c.id
    ensures LastStatus(RankPuts(ranked, now), x) == RankStatus(ranked, x)
  {
    var puts, n := RankPuts(ranked, now), |ranked|;
    assert puts[..n] == puts;
    if x in Ids(ranked) {
      var i := RankOf(ranked, x);
      StatusByRank(ranked, now, n, i);
    } else {
      StatusUnranked(ranked, now, n, x);
      assert ranked == ranked[..MAX_ACTIVE] + ranked[MAX_ACTIVE..];
    }
  }

  /** Where a contact is after filing by rank. */
  ghost predicate PlacedByRank(f: Files, g: Files, ranked: seq<Contact>, x: string)
    requires |ranked| > MAX_ACTIVE
  {
    match RankStatus(ranked, x)
    case Some(st) => (Has(g.active, x) <==> st == Active) && (Has(g.inactive, x) <==> st == Inactive)
    case None => (Has(g.active, x) <==> Has(f.active, x)) && (Has(g.inactive, x) <==> Has(f.inactive, x))
  }

  lemma RankStatusKinds(ranked: seq<Contact>, x: string)
    requires |ranked| > MAX_ACTIVE
    ensures RankStatus(ranked, x) in {None, Some(Active), Some(Inactive)}
  {
  }

  lemma PlaceByRank(f: Files, ranked: seq<Contact>, now: Instant, x: string)
    requires Consistent(f) && Ranks(f, ranked) && |ranked| > MAX_ACTIVE
    ensures Consistent(Runs(f, RankPuts(ranked, now)))
    ensures PlacedByRank(f, Runs(f, RankPuts(ranked, now)), ranked, x)
  {
    PutsKeepFilesConsistent(f, RankPuts(ranked, now), x);
    StatusIs(ranked, now, x);
    RankStatusKinds(ranked, x);
  }

  lemma RankOf(ranked: seq<Contact>, x: string) returns (i: nat)
    requires DistinctBy(IdOf, ranked) && |ranked| > MAX_ACTIVE && x in Ids(ranked)
    ensures i < |ranked| && ranked[i].id == x
    ensures x in Ids(ranked[..MAX_ACTIVE]) <==> i < MAX_ACTIVE
    ensures x in Ids(ranked[MAX_ACTIVE..]) <==> i >= MAX_ACTIVE
  {
    var c :| c in ranked && c.id == x;
    i :| 0 <= i < |ranked| && ranked[i] == c;
    var first, last := ranked[..MAX_ACTIVE], ranked[MAX_ACTIVE..];
    if i < MAX_ACTIVE {
      assert first[i] == c;
      forall d | d in last ensures d.id != x {
        var j :| 0 <= j < |last| && last[j] == d;
        assert IdOf(ranked[i]) != IdOf(ranked[MAX_ACTIVE + j]);
      }
    } else {
      assert last[i - MAX_ACTIVE] == c;
      forall d | d in first ensures d.id != x {
        var j :| 0 <= j < |first| && first[j] == d;
        assert IdOf(ranked[i]) != IdOf(ranked[j]);
      }
    }
  }

  /** The ids in one file after filing by rank. */
  lemma IdsByRank(f: Files, g: Files, ranked: seq<Contact>, x: string)
    requires Consistent(f) && Ranks(f, ranked) && |ranked| > MAX_ACTIVE && PlacedByRank(f, g, ranked, x)
    ensures x in Ids(g.active) <==> x in Ids(ranked[..MAX_ACTIVE])
    ensures x in Ids(g.inactive) <==> x in Ids(f.inactive) || x in Ids(ranked[MAX_ACTIVE..])
  {
    HasIds(g.active, x);
    HasIds(g.inactive, x);
    HasIds(f.active, x);
    HasIds(f.inactive, x);
    if x in Ids(ranked) {
      var _ := RankOf(ranked, x);
    } else {
      assert ranked == ranked[..MAX_ACTIVE] + ranked[MAX_ACTIVE..];
    }
  }

  /** The files after filing by rank. */
  ghost predicate FiledByRank(f: Files, g: Files, ranked: seq<Contact>)
    requires |ranked| > MAX_ACTIVE
  {
    && Consistent(g) && |g.active| == MAX_ACTIVE
    && Ids(g.active) == Ids(ranked[..MAX_ACTIVE])
    && Ids(g.inactive) == Ids(f.inactive) + Ids(ranked[MAX_ACTIVE..])
  }

  lemma PlacesFile(f: Files, g: Files, ranked: seq<Contact>)
    requires Consistent(f) && Consistent(g) && Ranks(f, ranked) && |ranked| > MAX_ACTIVE
    requires forall x :: PlacedByRank(f, g, ranked, x)
    ensures FiledByRank(f, g, ranked)
  {
    forall x ensures x in Ids(g.active) <==> x in Ids(ranked[..MAX_ACTIVE]) {
      IdsByRank(f, g, ranked, x);
    }
    forall x ensures x in Ids(g.inactive) <==> x in Ids(f.inactive) + Ids(ranked[MAX_ACTIVE..]) {
      IdsByRank(f, g, ranked, x);
    }
    assert Ids(g.active) == Ids(ranked[..MAX_ACTIVE]);
    IdsSize(g.active);
    IdsSize(ranked[..MAX_ACTIVE]);
  }

  lemma RebalancedFiles(f: Files, score: Contact -> real, now: Instant)
    requires Consistent(f) && |f.active| > MAX_ACTIVE
    ensures var ranked := Ranking(f, score, now);
      Ranks(f, ranked) && Sorted(ByRank, ranked) && FiledByRank(f, Rebalanced(f, score, now), ranked)
  {
    var ranked := Ranking(f, score, now);
    RankingRanks(f, score, now);
    forall x ensures PlacedByRank(f, Rebalanced(f, score, now), ranked, x) {
      PlaceByRank(f, ranked, now, x);
    }
    PlaceByRank(f, ranked, now, "");
    PlacesFile(f, Rebalanced(f, score, now), ranked);
  }

  lemma FiledKeepsIds(f: Files, g: Files, ranked: seq<Contact>)
    requires Ranks(f, ranked) && |ranked| > MAX_ACTIVE && FiledByRank(f, g, ranked)
    ensures Ids(g.active) + Ids(g.inactive) == Ids(f.active) + Ids(f.inactive) && Ids(f.inactive) <= Ids(g.inactive)
  {
    assert ranked == ranked[..MAX_ACTIVE] + ranked[MAX_ACTIVE..];
    assert Ids(ranked) == Ids(ranked[..MAX_ACTIVE]) + Ids(ranked[MAX_ACTIVE..]);
  }

  /** Main result: rebalancing leaves at most MAX_ACTIVE contacts active, exactly that many when
      there were more; no id is lost or added, inactive contacts stay inactive, and no creation
      time changes. */
  lemma RebalancingKeepsContacts(f: Files, score: Contact -> real, now: Instant)
    requires Consistent(f)
    ensures var g := Rebalanced(f, score, now);
      && Consistent(g)
      && |g.active| == (if |f.active| > MAX_ACTIVE then MAX_ACTIVE else |f.active|)
      && Ids(g.active) + Ids(g.inactive) == Ids(f.active) + Ids(f.inactive)
      && Ids(f.inactive) <= Ids(g.inactive)
      && forall id, t :: Known(f, id, t) ==> Known(g, id, t)
  {
    if |f.active| > MAX_ACTIVE {
      RebalancedFiles(f, score, now);
      FiledKeepsIds(f, Rebalanced(f, score, now), Ranking(f, score, now));
      forall id, t | Known(f, id, t) ensures Known(Rebalanced(f, score, now), id, t) {
        PutsKeepFilesConsistent(f, RankPuts(Ranking(f, score, now), now), id);
      }
    }
  }

  /** Main result: every contact rebalancing keeps active outranks every contact it moves out. */
  lemma RebalancingKeepsTheBest(f: Files, score: Contact -> real, now: Instant, a: Contact, b: Contact)
    requires Consistent(f) && |f.active| > MAX_ACTIVE
    requires a in Ranking(f, score, now) && b in Ranking(f, score, now)
    requires a.id in Ids(Rebalanced(f, score, now).active) && b.id !in Ids(Rebalanced(f, score, now).active)
    ensures Outranks(a, b)
  {
    var ranked := Ranking(f, score, now);
    RebalancedFiles(f, score, now);
    BestByRank(ranked, a, b);
  }

  lemma BestByRank(ranked: seq<Contact>, a: Contact, b: Contact)
    requires |ranked| > MAX_ACTIVE && DistinctBy(IdOf, ranked) && Sorted(ByRank, ranked)
    requires forall c :: c in ranked ==> Trim(c.id) == c.id
    requires a in ranked && b in ranked
    requires a.id in Ids(ranked[..MAX_ACTIVE]) && b.id !in Ids(ranked[..MAX_ACTIVE])
    ensures Outranks(a, b)
  {
    var i := RankOf(ranked, a.id);
    var j := RankOf(ranked, b.id);
    var i' :| 0 <= i' < |ranked| && ranked[i'] == a;
    var j' :| 0 <= j' < |ranked| && ranked[j'] == b;
    assert IdOf(ranked[i]) == IdOf(ranked[i']) && IdOf(ranked[j]) == IdOf(ranked[j']);
    assert i == i' && j == j';
    assert ByRank(ranked[i], ranked[j]);
    BeforeIsStrict(Trim(a.id), Trim(b.id));
  }
}
