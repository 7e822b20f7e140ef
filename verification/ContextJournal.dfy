/**
 The durable context journal and its content-addressed blobs: two tables and a blob
 directory, changed by appends and by deleting a whole scope.
 */
module ContextJournal {
  import opened Common

  type Data = seq<int>
  type Digest = string
  type Hash = Data -> Digest

  datatype Scope = Scope(session: string, run: string, agent: string)

  datatype BlobRef = BlobRef(name: string, digest: Digest, size: nat)

  datatype Attachment = Attachment(name: string, data: Data)

  datatype Entry = Entry(id: string, scope: Scope, kind: string, payload: string, blobs: seq<BlobRef>)

  datatype Row = Row(sequence: nat, entry: Entry)

  /** Rows in sequence order, the entry-to-digest table, and the autoincrement counter. */
  datatype Tables = Tables(rows: seq<Row>, links: set<(string, Digest)>, last: nat)

  datatype Error = EmptyKind | DuplicateId | DuplicateDigest

  predicate HasDigest(e: Entry, d: Digest) { exists i :: 0 <= i < |e.blobs| && e.blobs[i].digest == d }

  predicate Repeats(blobs: seq<BlobRef>) {
    exists i, j :: 0 <= i < j < |blobs| && blobs[i].digest == blobs[j].digest
  }

  // ---- Table operations ----

  /** One transaction: the row and its links, or nothing when a key constraint fails. */
  function Inserted(t: Tables, e: Entry): Result<Tables, Error> {
    if exists r :: r in t.rows && r.entry.id == e.id then Err(DuplicateId)
    else if Repeats(e.blobs) then Err(DuplicateDigest)
    else
      var added := set i | 0 <= i < |e.blobs| :: (e.id, e.blobs[i].digest);
      Ok(Tables(t.rows + [Row(t.last + 1, e)], t.links + added, t.last + 1))
  }

  function Others(rows: seq<Row>, scope: Scope): seq<Row> {
    if rows == [] then []
    else Others(rows[..|rows| - 1], scope) + (if rows[|rows| - 1].entry.scope == scope then [] else [rows[|rows| - 1]])
  }

  predicate Owns(rows: seq<Row>, scope: Scope, id: string) {
    exists r :: r in rows && r.entry.scope == scope && r.entry.id == id
  }

  /** Rows of the scope go, and their links with them. */
  function Deleted(t: Tables, scope: Scope): Tables {
    Tables(Others(t.rows, scope), set l | l in t.links && !Owns(t.rows, scope, l.0) :: l, t.last)
  }

  function Candidates(t: Tables, scope: Scope): set<Digest> {
    set l | l in t.links && Owns(t.rows, scope, l.0) :: l.1
  }

  predicate Kept(links: set<(string, Digest)>, d: Digest) { exists l :: l in links && l.1 == d }

  function Unreferenced(t: Tables, scope: Scope): set<Digest> {
    var kept := Deleted(t, scope).links;
    set d | d in Candidates(t, scope) && !Kept(kept, d) :: d
  }

  predicate Selected(r: Row, scope: Scope, after: int, kinds: seq<string>) {
    r.entry.scope == scope && r.sequence > after && (kinds == [] || r.entry.kind in kinds)
  }

  function Select(rows: seq<Row>, scope: Scope, after: int, kinds: seq<string>): seq<Row> {
    if rows == [] then []
    else (if Selected(rows[0], scope, after, kinds) then [rows[0]] else []) + Select(rows[1..], scope, after, kinds)
  }

  function Limited(rows: seq<Row>, limit: Option<int>): seq<Row> {
    if limit.None? || limit.value >= |rows| then rows else rows[..Max(0, limit.value)]
  }

  function Page(t: Tables, scope: Scope, after: int, kinds: seq<string>, limit: Option<int>): seq<Row> {
    Limited(Select(t.rows, scope, after, kinds), limit)
  }

  // ---- Stores ----

  class JournalStore {
    var rows: seq<Row>
    var links: set<(string, Digest)>
    var last: nat

    ghost function State(): Tables
      reads this
    {
      Tables(rows, links, last)
    }

    constructor ()
      ensures State() == Tables([], {}, 0)
    {
      rows, links, last := [], {}, 0;
    }

    method Append(e: Entry) returns (r: Result<nat, Error>)
      modifies this
      ensures match Inserted(old(State()), e)
              case Ok(t) => State() == t && r == Ok(t.last)
              case Err(error) => State() == old(State()) && r == Err(error)
    {
      if exists row :: row in rows && row.entry.id == e.id {
        return Err(DuplicateId);
      }
      var added: set<(string, Digest)> := {};
      for i := 0 to |e.blobs|
        invariant State() == old(State())
        invariant forall j, k :: 0 <= j < k < i ==> e.blobs[j].digest != e.blobs[k].digest
        invariant added == set j | 0 <= j < i :: (e.id, e.blobs[j].digest)
      {
        if (e.id, e.blobs[i].digest) in added {
          return Err(DuplicateDigest);
        }
        added := added + {(e.id, e.blobs[i].digest)};
      }
      last := last + 1;
      rows := rows + [Row(last, e)];
      links := links + added;
      return Ok(last);
    }

    method ListEntries(scope: Scope, after: int, kinds: seq<string>, limit: Option<int>) returns (page: seq<Row>)
      ensures page == Page(State(), scope, after, kinds, limit)
    {
      page := SelectRows(rows, scope, after, kinds);
      if limit.Some? && Max(0, limit.value) < |page| {
        page := page[..Max(0, limit.value)];
      }
    }

    method DeleteScope(scope: Scope) returns (unreferenced: set<Digest>)
      modifies this
      ensures State() == Deleted(old(State()), scope)
      ensures unreferenced == Unreferenced(old(State()), scope)
    {
      var candidates := Candidates(Tables(rows, links, last), scope);
      links := set l | l in links && !Owns(rows, scope, l.0) :: l;
      rows := Others(rows, scope);
      unreferenced := FilterUnreferenced(candidates, links);
      assert unreferenced == Unreferenced(old(State()), scope);
    }
  }

  method SelectRows(rows: seq<Row>, scope: Scope, after: int, kinds: seq<string>) returns (found: seq<Row>)
    ensures found == Select(rows, scope, after, kinds)
  {
    found := [];
    for i := 0 to |rows|
      invariant found == Select(rows[..i], scope, after, kinds)
    {
      assert rows[..i + 1] == rows[..i] + [rows[i]];
      SelectAppend(rows[..i], rows[i], scope, after, kinds);
      if Selected(rows[i], scope, after, kinds) {
        found := found + [rows[i]];
      }
    }
    assert rows[..|rows|] == rows;
  }

  method FilterUnreferenced(candidates: set<Digest>, links: set<(string, Digest)>) returns (out: set<Digest>)
    ensures forall d :: d in out <==> d in candidates && !Kept(links, d)
  {
    out := {};
    var left := candidates;
    while left != {}
      invariant left <= candidates
      invariant forall d :: d in out <==> d in candidates && d !in left && !Kept(links, d)
      decreases |left|
    {
      var digest :| digest in left;
      if !Kept(links, digest) {
        out := out + {digest};
      }
      left := left - {digest};
    }
  }

  class BlobStore {
    var blobs: map<Digest, Data>

    constructor ()
      ensures blobs == map[]
    {
      blobs := map[];
    }

    /** Content-addressed: an existing blob is left alone. */
    method Put(name: string, data: Data, hash: Hash) returns (ref: BlobRef)
      modifies this
      ensures blobs == Put1(old(blobs), data, hash) && ref == BlobRef(name, hash(data), |data|)
    {
      var digest := hash(data);
      if digest !in blobs {
        blobs := blobs[digest := data];
      }
      return BlobRef(name, digest, |data|);
    }

    method Delete(digest: Digest)
      modifies this
      ensures blobs == old(blobs) - {digest}
    {
      blobs := blobs - {digest};
    }

    method DeleteAll(digests: set<Digest>)
      modifies this
      ensures blobs == old(blobs) - digests
    {
      var left := digests;
      while left != {}
        invariant left <= digests
        invariant blobs == old(blobs) - (digests - left)
        decreases |left|
      {
        var digest :| digest in left;
        Delete(digest);
        left := left - {digest};
      }
    }
  }

  function Put1(blobs: map<Digest, Data>, data: Data, hash: Hash): map<Digest, Data> {
    if hash(data) in blobs then blobs else blobs[hash(data) := data]
  }

  function PutAll(blobs: map<Digest, Data>, attachments: seq<Attachment>, hash: Hash): map<Digest, Data> {
    if attachments == [] then blobs
    else Put1(PutAll(blobs, attachments[..|attachments| - 1], hash), attachments[|attachments| - 1].data, hash)
  }

  function RefsOf(attachments: seq<Attachment>, hash: Hash): seq<BlobRef> {
    seq(|attachments|, i requires 0 <= i < |attachments| =>
      BlobRef(attachments[i].name, hash(attachments[i].data), |attachments[i].data|))
  }

  class ContextManager {
    const journal: JournalStore
    const store: BlobStore

    constructor ()
      ensures fresh(journal) && fresh(store)
      ensures journal.State() == Tables([], {}, 0) && store.blobs == map[]
    {
      journal := new JournalStore();
      store := new BlobStore();
    }

    /** Blobs first, then the entry; a refused entry leaves its blobs behind. */
    method Append(id: string, scope: Scope, kind: string, payload: string, attachments: seq<Attachment>, hash: Hash)
      returns (r: Result<nat, Error>)
      modifies journal, store
      ensures store.blobs == PutAll(old(store.blobs), attachments, hash)
      ensures var e := Entry(id, scope, kind, payload, RefsOf(attachments, hash));
              match (if kind == "" then Err(EmptyKind) else Inserted(old(journal.State()), e))
              case Ok(t) => journal.State() == t && r == Ok(t.last)
              case Err(error) => journal.State() == old(journal.State()) && r == Err(error)
    {
      var refs: seq<BlobRef> := [];
      for i := 0 to |attachments|
        invariant journal.State() == old(journal.State())
        invariant store.blobs == PutAll(old(store.blobs), attachments[..i], hash)
        invariant refs == RefsOf(attachments[..i], hash)
      {
        assert attachments[..i + 1][..i] == attachments[..i] && attachments[..i + 1][i] == attachments[i];
        var ref := store.Put(attachments[i].name, attachments[i].data, hash);
        refs := refs + [ref];
      }
      assert attachments[..|attachments|] == attachments;
      if kind == "" {
        return Err(EmptyKind);
      }
      r := journal.Append(Entry(id, scope, kind, payload, refs));
    }

    method DeleteScope(scope: Scope)
      modifies journal, store
      ensures journal.State() == Deleted(old(journal.State()), scope)
      ensures store.blobs == old(store.blobs) - Unreferenced(old(journal.State()), scope)
    {
      var unreferenced := journal.DeleteScope(scope);
      store.DeleteAll(unreferenced);
    }
  }

  // ---- Worlds ----

  datatype World = World(tables: Tables, blobs: map<Digest, Data>)

  datatype Op =
    | AppendOp(id: string, scope: Scope, kind: string, payload: string, attachments: seq<Attachment>)
    | DeleteOp(scope: Scope)

  function Attempt(w: World, op: Op, hash: Hash): Result<Tables, Error>
    requires op.AppendOp?
  {
    if op.kind == "" then Err(EmptyKind)
    else Inserted(w.tables, Entry(op.id, op.scope, op.kind, op.payload, RefsOf(op.attachments, hash)))
  }

  function Step(w: World, op: Op, hash: Hash): World {
    match op
    case AppendOp(_, _, _, _, attachments) =>
      var tried := Attempt(w, op, hash);
      World(if tried.Ok? then tried.value else w.tables, PutAll(w.blobs, attachments, hash))
    case DeleteOp(scope) => World(Deleted(w.tables, scope), w.blobs - Unreferenced(w.tables, scope))
  }

  function Run(w: World, ops: seq<Op>, hash: Hash): World
    decreases |ops|
  {
    if ops == [] then w else Run(Step(w, ops[0], hash), ops[1..], hash)
  }

  const EMPTY := World(Tables([], {}, 0), map[])

  // ---- The invariant ----

  /** Some row refers to the digest, optionally only rows inside or outside a scope. */
  predicate Referenced(rows: seq<Row>, d: Digest) { exists r :: r in rows && HasDigest(r.entry, d) }

  predicate ReferencedIn(rows: seq<Row>, scope: Scope, d: Digest) {
    exists r :: r in rows && r.entry.scope == scope && HasDigest(r.entry, d)
  }

  predicate ReferencedOutside(rows: seq<Row>, scope: Scope, d: Digest) {
    exists r :: r in rows && r.entry.scope != scope && HasDigest(r.entry, d)
  }

  predicate Linked(rows: seq<Row>, id: string, d: Digest) {
    exists r :: r in rows && r.entry.id == id && HasDigest(r.entry, d)
  }

  predicate Ascending(rows: seq<Row>) { forall i, j :: 0 <= i < j < |rows| ==> rows[i].sequence < rows[j].sequence }

  predicate UniqueIds(rows: seq<Row>) {
    forall r, s :: r in rows && s in rows && r.entry.id == s.entry.id ==> r == s
  }

  ghost predicate LinksMatch(t: Tables) { forall id, d :: (id, d) in t.links <==> Linked(t.rows, id, d) }

  ghost predicate Keyed(t: Tables) {
    && Ascending(t.rows) && UniqueIds(t.rows)
    && (forall r :: r in t.rows ==> 1 <= r.sequence <= t.last)
    && LinksMatch(t)
  }

  predicate Addressed(blobs: map<Digest, Data>, hash: Hash) { forall d :: d in blobs ==> hash(blobs[d]) == d }

  ghost predicate Stored(w: World, hash: Hash) {
    && (forall r, d :: r in w.tables.rows && HasDigest(r.entry, d) ==> d in w.blobs)
    && Addressed(w.blobs, hash)
  }

  ghost predicate Sound(w: World, hash: Hash) { Keyed(w.tables) && Stored(w, hash) }

  // ---- Appending ----

  lemma InsertedKeyed(t: Tables, e: Entry)
    requires Keyed(t) && Inserted(t, e).Ok?
    ensures Keyed(Inserted(t, e).value)
  {
    var t' := Inserted(t, e).value;
    var row := Row(t.last + 1, e);
    assert forall r :: r in t'.rows <==> r in t.rows || r == row;
    forall id, d ensures (id, d) in t'.links <==> Linked(t'.rows, id, d) {
      if (id, d) in t'.links {
        if (id, d) in t.links {
          assert Linked(t.rows, id, d);
        } else {
          assert HasDigest(row.entry, d);
        }
      }
      if Linked(t'.rows, id, d) {
        var r :| r in t'.rows && r.entry.id == id && HasDigest(r.entry, d);
        if r in t.rows {
          assert Linked(t.rows, id, d);
        }
      }
    }
  }

  predicate Attached(attachments: seq<Attachment>, d: Digest, hash: Hash) {
    exists i :: 0 <= i < |attachments| && hash(attachments[i].data) == d
  }

  lemma {:induction false} PutAllKeeps(blobs: map<Digest, Data>, attachments: seq<Attachment>, hash: Hash)
    ensures var out := PutAll(blobs, attachments, hash);
            && (Addressed(blobs, hash) ==> Addressed(out, hash))
            && (forall d :: d in blobs ==> d in out && out[d] == blobs[d])
            && (forall d :: d in out <==> d in blobs || Attached(attachments, d, hash))
  {
    if attachments != [] {
      var init, last := attachments[..|attachments| - 1], attachments[|attachments| - 1];
      PutAllKeeps(blobs, init, hash);
      var out := PutAll(blobs, attachments, hash);
      forall d ensures d in out <==> d in blobs || Attached(attachments, d, hash) {
        if Attached(attachments, d, hash) {
          var i :| 0 <= i < |attachments| && hash(attachments[i].data) == d;
          if i < |init| {
            assert hash(init[i].data) == d;
          }
        }
        if d in out && d !in PutAll(blobs, init, hash) {
          assert hash(attachments[|attachments| - 1].data) == d;
        }
      }
    }
  }

  lemma AppendSound(w: World, op: Op, hash: Hash)
    requires Sound(w, hash) && op.AppendOp?
    ensures Sound(Step(w, op, hash), hash)
  {
    var w' := Step(w, op, hash);
    PutAllKeeps(w.blobs, op.attachments, hash);
    var e := Entry(op.id, op.scope, op.kind, op.payload, RefsOf(op.attachments, hash));
    if Attempt(w, op, hash).Ok? {
      InsertedKeyed(w.tables, e);
      forall r, d | r in w'.tables.rows && HasDigest(r.entry, d) ensures d in w'.blobs {
        if r !in w.tables.rows {
          assert r.entry == e;
          var i :| 0 <= i < |e.blobs| && e.blobs[i].digest == d;
          assert hash(op.attachments[i].data) == d;
        }
      }
    }
  }

  // ---- Deleting ----

  lemma {:induction false} OthersHold(rows: seq<Row>, scope: Scope)
    ensures forall r :: r in Others(rows, scope) <==> r in rows && r.entry.scope != scope
    ensures Ascending(rows) ==> Ascending(Others(rows, scope))
  {
    if rows != [] {
      var init, last := rows[..|rows| - 1], rows[|rows| - 1];
      OthersHold(init, scope);
      assert rows == init + [last];
      if Ascending(rows) {
        var kept := Others(init, scope);
        forall i | 0 <= i < |kept| ensures kept[i].sequence < last.sequence {
          assert kept[i] in init;
        }
      }
    }
  }

  lemma DeletedKeyed(t: Tables, scope: Scope)
    requires Keyed(t)
    ensures Keyed(Deleted(t, scope))
  {
    OthersHold(t.rows, scope);
    var t' := Deleted(t, scope);
    forall id, d ensures (id, d) in t'.links <==> Linked(t'.rows, id, d) {
      LinkSurvives(t, scope, id, d);
    }
  }

  /** A link survives exactly when a row outside the scope still holds it. */
  lemma LinkSurvives(t: Tables, scope: Scope, id: string, d: Digest)
    requires Keyed(t)
    ensures (id, d) in Deleted(t, scope).links <==> Linked(Others(t.rows, scope), id, d)
  {
    OthersHold(t.rows, scope);
    if (id, d) in t.links && !Owns(t.rows, scope, id) {
      var r :| r in t.rows && r.entry.id == id && HasDigest(r.entry, d);
      assert r.entry.scope != scope;
    }
    if Linked(Others(t.rows, scope), id, d) {
      var r :| r in Others(t.rows, scope) && r.entry.id == id && HasDigest(r.entry, d);
      assert Linked(t.rows, id, d);
      forall s | s in t.rows && s.entry.id == id ensures s == r {}
      assert !Owns(t.rows, scope, id);
    }
  }

  /** The digests a deletion gives up: those whose last reference was in the scope. */
  lemma UnreferencedExactly(t: Tables, scope: Scope, d: Digest)
    requires Keyed(t)
    ensures d in Unreferenced(t, scope) <==> ReferencedIn(t.rows, scope, d) && !ReferencedOutside(t.rows, scope, d)
  {
    CandidatesExactly(t, scope, d);
    KeptExactly(t, scope, d);
  }

  lemma CandidatesExactly(t: Tables, scope: Scope, d: Digest)
    requires Keyed(t)
    ensures d in Candidates(t, scope) <==> ReferencedIn(t.rows, scope, d)
  {
    if d in Candidates(t, scope) {
      var l :| l in t.links && Owns(t.rows, scope, l.0) && l.1 == d;
      assert Linked(t.rows, l.0, l.1);
      var r :| r in t.rows && r.entry.id == l.0 && HasDigest(r.entry, d);
      var s :| s in t.rows && s.entry.scope == scope && s.entry.id == l.0;
      assert r == s;
    }
    if ReferencedIn(t.rows, scope, d) {
      var r :| r in t.rows && r.entry.scope == scope && HasDigest(r.entry, d);
      assert Linked(t.rows, r.entry.id, d);
      assert Owns(t.rows, scope, (r.entry.id, d).0);
    }
  }

  lemma KeptExactly(t: Tables, scope: Scope, d: Digest)
    requires Keyed(t)
    ensures Kept(Deleted(t, scope).links, d) <==> ReferencedOutside(t.rows, scope, d)
  {
    OthersHold(t.rows, scope);
    if Kept(Deleted(t, scope).links, d) {
      var l :| l in Deleted(t, scope).links && l.1 == d;
      assert l == (l.0, d);
      LinkSurvives(t, scope, l.0, d);
      var r :| r in Others(t.rows, scope) && r.entry.id == l.0 && HasDigest(r.entry, d);
    }
    if ReferencedOutside(t.rows, scope, d) {
      var r :| r in t.rows && r.entry.scope != scope && HasDigest(r.entry, d);
      assert r in Others(t.rows, scope);
      assert Linked(Others(t.rows, scope), r.entry.id, d);
      LinkSurvives(t, scope, r.entry.id, d);
      var l := (r.entry.id, d);
      assert l in Deleted(t, scope).links && l.1 == d;
    }
  }

  /**
   Deleting a scope removes exactly the blobs whose last reference was in it, empties its
   history and leaves every other history as it was.
   */
  lemma DeleteExactly(w: World, scope: Scope, hash: Hash)
    requires Sound(w, hash)
    ensures var w' := Step(w, DeleteOp(scope), hash);
            && (forall d :: d in w'.blobs <==>
                  d in w.blobs && !(ReferencedIn(w.tables.rows, scope, d)
                      && !ReferencedOutside(w.tables.rows, scope, d)))
            && (forall d :: d in w'.blobs ==> w'.blobs[d] == w.blobs[d])
            && (forall other, after, kinds :: other != scope ==>
                  Select(w'.tables.rows, other, after, kinds) == Select(w.tables.rows, other, after, kinds))
            && (forall after, kinds :: Select(w'.tables.rows, scope, after, kinds) == [])
  {
    var w' := Step(w, DeleteOp(scope), hash);
    forall d ensures d in w'.blobs <==>
                       d in w.blobs && !(ReferencedIn(w.tables.rows, scope, d)
                           && !ReferencedOutside(w.tables.rows, scope, d))
    {
      UnreferencedExactly(w.tables, scope, d);
    }
    forall other, after, kinds
      ensures other != scope ==>
                Select(w'.tables.rows, other, after, kinds) == Select(w.tables.rows, other, after, kinds)
    {
      SelectOthers(w.tables.rows, scope, other, after, kinds);
    }
    forall after, kinds ensures Select(w'.tables.rows, scope, after, kinds) == [] {
      SelectOthers(w.tables.rows, scope, scope, after, kinds);
    }
  }

  lemma {:induction false} SelectConcat(a: seq<Row>, b: seq<Row>, scope: Scope, after: int, kinds: seq<string>)
    ensures Select(a + b, scope, after, kinds) == Select(a, scope, after, kinds) + Select(b, scope, after, kinds)
    decreases |a|
  {
    if a == [] {
      assert a + b == b;
    } else {
      assert (a + b)[1..] == a[1..] + b && (a + b)[0] == a[0];
      SelectConcat(a[1..], b, scope, after, kinds);
      Reassociate(if Selected(a[0], scope, after, kinds) then [a[0]] else [],
                  Select(a[1..], scope, after, kinds), Select(b, scope, after, kinds));
    }
  }

  lemma {:induction false} SelectOthers(rows: seq<Row>, scope: Scope, other: Scope, after: int, kinds: seq<string>)
    ensures Select(Others(rows, scope), other, after, kinds) == if other == scope then []
            else Select(rows, other, after, kinds)
  {
    if rows != [] {
      var init, last := rows[..|rows| - 1], rows[|rows| - 1];
      SelectOthers(init, scope, other, after, kinds);
      assert rows == init + [last];
      OneMoreOther(init, Others(init, scope), last, scope, other, after, kinds);
    }
  }

  lemma OneMoreOther(rows: seq<Row>, others: seq<Row>, row: Row, scope: Scope, other: Scope, after: int,
      kinds: seq<string>)
    requires Select(others, other, after, kinds) == if other == scope then [] else Select(rows, other, after, kinds)
    ensures var left := others + (if row.entry.scope == scope then [] else [row]);
            Select(left, other, after, kinds)
            == if other == scope then [] else Select(rows + [row], other, after, kinds)
  {
    SelectAppend(rows, row, other, after, kinds);
    SelectAppend(others, row, other, after, kinds);
    assert others + [] == others;
  }

  lemma SelectAppend(rows: seq<Row>, row: Row, scope: Scope, after: int, kinds: seq<string>)
    ensures Select(rows + [row], scope, after, kinds)
         == Select(rows, scope, after, kinds) + (if Selected(row, scope, after, kinds) then [row] else [])
  {
    SelectConcat(rows, [row], scope, after, kinds);
    assert [row][1..] == [];
  }

  lemma DeleteSound(w: World, scope: Scope, hash: Hash)
    requires Sound(w, hash)
    ensures Sound(Step(w, DeleteOp(scope), hash), hash)
  {
    var w' := Step(w, DeleteOp(scope), hash);
    DeletedKeyed(w.tables, scope);
    OthersHold(w.tables.rows, scope);
    forall r, d | r in w'.tables.rows && HasDigest(r.entry, d) ensures d in w'.blobs {
      UnreferencedExactly(w.tables, scope, d);
      assert ReferencedOutside(w.tables.rows, scope, d);
    }
  }

  // ---- Runs ----

  lemma StepSound(w: World, op: Op, hash: Hash)
    requires Sound(w, hash)
    ensures Sound(Step(w, op, hash), hash)
  {
    if op.AppendOp? {
      AppendSound(w, op, hash);
    } else {
      DeleteSound(w, op.scope, hash);
    }
  }

  lemma {:induction false} RunSound(w: World, ops: seq<Op>, hash: Hash)
    requires Sound(w, hash)
    ensures Sound(Run(w, ops, hash), hash)
    decreases |ops|
  {
    if ops != [] {
      StepSound(w, ops[0], hash);
      RunSound(Step(w, ops[0], hash), ops[1..], hash);
    }
  }

  /** From empty stores, every referenced digest is stored after every run. */
  lemma EveryRunSound(ops: seq<Op>, hash: Hash)
    ensures Sound(Run(EMPTY, ops, hash), hash)
  {
    RunSound(EMPTY, ops, hash);
  }

  /** The sequence numbers handed out over a run. */
  function Assigned(w: World, ops: seq<Op>, hash: Hash): seq<int>
    decreases |ops|
  {
    if ops == [] then []
    else
      (if ops[0].AppendOp? && Attempt(w, ops[0], hash).Ok? then [Attempt(w, ops[0], hash).value.last] else [])
      + Assigned(Step(w, ops[0], hash), ops[1..], hash)
  }

  /** Strictly ascending, from above `floor`. */
  predicate Climbs(s: seq<int>, floor: int) {
    (forall i :: 0 <= i < |s| ==> s[i] > floor) && (forall i, j :: 0 <= i < j < |s| ==> s[i] < s[j])
  }

  lemma ClimbsCons(n: int, rest: seq<int>, floor: int)
    requires n > floor && Climbs(rest, n)
    ensures Climbs([n] + rest, floor)
  {}

  lemma StepCounter(w: World, op: Op, hash: Hash)
    ensures Step(w, op, hash).tables.last == w.tables.last + (if op.AppendOp? && Attempt(w, op, hash).Ok? then 1 else 0)
  {}

  /** Deletions included, no number is ever handed out twice. */
  lemma {:induction false} SequencesNeverReused(w: World, ops: seq<Op>, hash: Hash)
    ensures Climbs(Assigned(w, ops, hash), w.tables.last)
    decreases |ops|
  {
    if ops != [] {
      var w' := Step(w, ops[0], hash);
      StepCounter(w, ops[0], hash);
      SequencesNeverReused(w', ops[1..], hash);
      var rest := Assigned(w', ops[1..], hash);
      if ops[0].AppendOp? && Attempt(w, ops[0], hash).Ok? {
        ClimbsCons(w'.tables.last, rest, w.tables.last);
        assert Assigned(w, ops, hash) == [w'.tables.last] + rest;
      } else {
        assert Assigned(w, ops, hash) == rest;
      }
    }
  }

  lemma AppendAccepted(w: World, op: Op, hash: Hash)
    requires op.AppendOp?
    ensures Attempt(w, op, hash).Ok? <==>
              && op.kind != ""
              && !(exists r :: r in w.tables.rows && r.entry.id == op.id)
              && (forall i, j :: 0 <= i < j < |op.attachments|
                   ==> hash(op.attachments[i].data) != hash(op.attachments[j].data))
    ensures Attempt(w, op, hash) == Err(EmptyKind) <==> op.kind == ""
    ensures Attempt(w, op, hash) == Err(DuplicateId) <==>
            op.kind != "" && exists r :: r in w.tables.rows && r.entry.id == op.id
  {
    var refs := RefsOf(op.attachments, hash);
    if Repeats(refs) {
      var i, j :| 0 <= i < j < |refs| && refs[i].digest == refs[j].digest;
      assert hash(op.attachments[i].data) == hash(op.attachments[j].data);
    } else {
      forall i, j | 0 <= i < j < |op.attachments| ensures hash(op.attachments[i].data) != hash(op.attachments[j].data) {
        assert refs[i].digest != refs[j].digest;
      }
    }
  }

  /** Two attachments with the same bytes are refused, and their blob stays, referenced or not. */
  lemma TwinAttachmentsRefused(w: World, op: Op, i: nat, j: nat, hash: Hash)
    requires op.AppendOp? && i < j < |op.attachments| && op.attachments[i].data == op.attachments[j].data
    ensures var w' := Step(w, op, hash);
            Attempt(w, op, hash).Err? && w'.tables == w.tables && hash(op.attachments[i].data) in w'.blobs
  {
    AppendAccepted(w, op, hash);
    PutAllKeeps(w.blobs, op.attachments, hash);
  }

  // ---- No garbage ----

  /** Exactly the referenced blobs are stored. */
  predicate Tight(w: World) { forall d :: d in w.blobs ==> Referenced(w.tables.rows, d) }

  /** An accepted append and a deletion leave no garbage behind. */
  lemma StepTight(w: World, op: Op, hash: Hash)
    requires Sound(w, hash) && Tight(w)
    requires op.AppendOp? ==> Attempt(w, op, hash).Ok? || op.attachments == []
    ensures Tight(Step(w, op, hash))
  {
    var w' := Step(w, op, hash);
    match op
    case AppendOp(_, _, _, _, attachments) =>
      PutAllKeeps(w.blobs, attachments, hash);
      forall d | d in w'.blobs ensures Referenced(w'.tables.rows, d) {
        if d in w.blobs {
          var r :| r in w.tables.rows && HasDigest(r.entry, d);
          assert r in w'.tables.rows;
        } else {
          var i :| 0 <= i < |attachments| && hash(attachments[i].data) == d;
          var row := w'.tables.rows[|w'.tables.rows| - 1];
          assert row.entry.blobs[i].digest == d;
          assert HasDigest(row.entry, d);
        }
      }
    case DeleteOp(scope) =>
      OthersHold(w.tables.rows, scope);
      forall d | d in w'.blobs ensures Referenced(w'.tables.rows, d) {
        UnreferencedExactly(w.tables, scope, d);
        var r :| r in w.tables.rows && HasDigest(r.entry, d);
        if r.entry.scope == scope {
          var s :| s in w.tables.rows && s.entry.scope != scope && HasDigest(s.entry, d);
          assert s in w'.tables.rows;
        } else {
          assert r in w'.tables.rows;
        }
      }
  }

  /** The digests a refused append would store without a row to refer to them are all there already. */
  predicate LeavesNothing(w: World, op: Op, hash: Hash) {
    op.AppendOp? && Attempt(w, op, hash).Err? ==>
      forall i :: 0 <= i < |op.attachments| ==> hash(op.attachments[i].data) in w.blobs
  }

  /** One operation keeps the store free of garbage exactly when it is no refused append with a
      new digest. */
  lemma StepTightIff(w: World, op: Op, hash: Hash)
    requires Sound(w, hash) && Tight(w)
    ensures Tight(Step(w, op, hash)) <==> LeavesNothing(w, op, hash)
  {
    if op.AppendOp? && Attempt(w, op, hash).Err? {
      RefusedTightIff(w, op, hash);
    } else {
      StepTight(w, op, hash);
    }
  }

  lemma RefusedTightIff(w: World, op: Op, hash: Hash)
    requires Sound(w, hash) && Tight(w) && op.AppendOp? && Attempt(w, op, hash).Err?
    ensures Tight(Step(w, op, hash)) <==> LeavesNothing(w, op, hash)
  {
    var w' := Step(w, op, hash);
    PutAllKeeps(w.blobs, op.attachments, hash);
    assert w'.tables == w.tables;
    if Tight(w') {
      forall i | 0 <= i < |op.attachments| ensures hash(op.attachments[i].data) in w.blobs {
        var d := hash(op.attachments[i].data);
        assert d in w'.blobs;
        var r :| r in w.tables.rows && HasDigest(r.entry, d);
      }
    }
  }

  /** The store is free of garbage after every operation of a run. */
  ghost predicate AlwaysTight(w: World, ops: seq<Op>, hash: Hash)
    decreases |ops|
  {
    Tight(w) && (ops == [] || AlwaysTight(Step(w, ops[0], hash), ops[1..], hash))
  }

  ghost predicate NeverLeaves(w: World, ops: seq<Op>, hash: Hash)
    decreases |ops|
  {
    ops == [] || (LeavesNothing(w, ops[0], hash) && NeverLeaves(Step(w, ops[0], hash), ops[1..], hash))
  }

  /** Over every run, garbage comes from refused appends with a new digest alone. */
  lemma {:induction false} RunTightIff(w: World, ops: seq<Op>, hash: Hash)
    requires Sound(w, hash) && Tight(w)
    ensures AlwaysTight(w, ops, hash) <==> NeverLeaves(w, ops, hash)
    decreases |ops|
  {
    if ops != [] {
      var w' := Step(w, ops[0], hash);
      StepTightIff(w, ops[0], hash);
      if Tight(w') {
        StepSound(w, ops[0], hash);
        RunTightIff(w', ops[1..], hash);
      }
    }
  }

  // ---- Paging ----

  /** Reading page after page from the last sequence seen. */
  function AllPages(rows: seq<Row>, scope: Scope, after: int, kinds: seq<string>, limit: nat): seq<Row>
    requires limit > 0 && Ascending(rows)
    decreases |Select(rows, scope, after, kinds)|
  {
    var found := Select(rows, scope, after, kinds);
    var page := Limited(found, Some(limit));
    if page == [] then []
    else
      NextPage(rows, scope, after, kinds, |page|);
      page + AllPages(rows, scope, page[|page| - 1].sequence, kinds, limit)
  }

  lemma {:induction false} SelectSorted(rows: seq<Row>, scope: Scope, after: int, kinds: seq<string>)
    requires Ascending(rows)
    ensures Ascending(Select(rows, scope, after, kinds))
    ensures forall r :: r in Select(rows, scope, after, kinds) ==> r in rows && r.sequence > after
  {
    if rows != [] {
      SelectSorted(rows[1..], scope, after, kinds);
      var rest := Select(rows[1..], scope, after, kinds);
      forall i | 0 <= i < |rest| ensures rest[i] in rows && rows[0].sequence < rest[i].sequence {
        assert rest[i] in rows[1..];
        var j :| 0 <= j < |rows[1..]| && rows[1..][j] == rest[i];
        assert rows[j + 1] == rest[i];
      }
    }
  }

  /** The row is of the scope, after the sequence, and of a kind asked for, if any is. */
  predicate Wanted(rows: seq<Row>, r: Row, scope: Scope, after: int, kinds: seq<string>) {
    && r in rows && r.entry.scope == scope && r.sequence > after
    && (|kinds| > 0 ==> exists k :: 0 <= k < |kinds| && kinds[k] == r.entry.kind)
  }

  lemma {:induction false} SelectMembers(rows: seq<Row>, scope: Scope, after: int, kinds: seq<string>, r: Row)
    ensures r in Select(rows, scope, after, kinds) <==> Wanted(rows, r, scope, after, kinds)
  {
    if rows != [] {
      SelectMembers(rows[1..], scope, after, kinds, r);
      assert rows == [rows[0]] + rows[1..];
    }
  }

  lemma CutExactly(found: seq<Row>, limit: Option<int>, r: Row)
    requires Ascending(found) && r in found
    ensures var page := Limited(found, limit);
            r in page || (limit.Some? && |page| == Max(0, limit.value)
                          && forall i :: 0 <= i < |page| ==> page[i].sequence < r.sequence)
  {
    var n :| 0 <= n < |found| && found[n] == r;
    var page := Limited(found, limit);
    assert n < |page| ==> page[n] == r;
  }

  lemma CutAscends(found: seq<Row>, limit: Option<int>)
    requires Ascending(found)
    ensures var page := Limited(found, limit);
            && Ascending(page) && (limit.Some? ==> |page| <= Max(0, limit.value))
            && forall r :: r in page ==> r in found
  {}

  /** A page of a journal in sequence order: rows that are wanted, in order, as many as the limit allows,
      and every wanted row that is not on it comes after all that are. */
  lemma PageExactly(t: Tables, scope: Scope, after: int, kinds: seq<string>, limit: Option<int>, r: Row)
    requires Ascending(t.rows)
    ensures var page := Page(t, scope, after, kinds, limit);
            && Ascending(page) && (limit.Some? ==> |page| <= Max(0, limit.value))
            && (r in page ==> Wanted(t.rows, r, scope, after, kinds))
            && (Wanted(t.rows, r, scope, after, kinds) && r !in page ==>
                  && limit.Some? && |page| == Max(0, limit.value)
                  && forall i :: 0 <= i < |page| ==> page[i].sequence < r.sequence)
  {
    var found := Select(t.rows, scope, after, kinds);
    SelectMembers(t.rows, scope, after, kinds, r);
    SelectSorted(t.rows, scope, after, kinds);
    CutAscends(found, limit);
    if r in found {
      CutExactly(found, limit, r);
    }
  }

  /** Selecting again from the last row of a page gives what the page left. */
  lemma {:induction false} NextPage(rows: seq<Row>, scope: Scope, after: int, kinds: seq<string>, n: nat)
    requires Ascending(rows) && 0 < n <= |Select(rows, scope, after, kinds)|
    ensures var found := Select(rows, scope, after, kinds);
            Select(rows, scope, found[n - 1].sequence, kinds) == found[n..]
    decreases |rows|
  {
    var found := Select(rows, scope, after, kinds);
    var rest := Select(rows[1..], scope, after, kinds);
    if Selected(rows[0], scope, after, kinds) {
      if n == 1 {
        AllLater(rows[1..], scope, after, rows[0].sequence, kinds);
        assert found[1..] == rest;
      } else {
        NextPage(rows[1..], scope, after, kinds, n - 1);
        assert found[n - 1] == rest[n - 2] && found[n..] == rest[n - 1..];
        EarlierThan(rows, scope, after, kinds, n - 2);
      }
    } else {
      NextPage(rows[1..], scope, after, kinds, n);
      assert found == rest;
      EarlierThan(rows, scope, after, kinds, n - 1);
    }
  }

  lemma EarlierThan(rows: seq<Row>, scope: Scope, after: int, kinds: seq<string>, k: nat)
    requires Ascending(rows) && rows != [] && k < |Select(rows[1..], scope, after, kinds)|
    ensures Select(rows[1..], scope, after, kinds)[k].sequence > after
    ensures rows[0].sequence < Select(rows[1..], scope, after, kinds)[k].sequence
  {
    SelectSorted(rows[1..], scope, after, kinds);
    var r := Select(rows[1..], scope, after, kinds)[k];
    assert r in Select(rows[1..], scope, after, kinds);
    var j :| 0 <= j < |rows[1..]| && rows[1..][j] == r;
    assert rows[j + 1] == r;
  }

  lemma {:induction false} AllLater(rows: seq<Row>, scope: Scope, after: int, later: int, kinds: seq<string>)
    requires after < later && forall i :: 0 <= i < |rows| ==> rows[i].sequence > later
    ensures Select(rows, scope, later, kinds) == Select(rows, scope, after, kinds)
  {
    if rows != [] {
      AllLater(rows[1..], scope, after, later, kinds);
    }
  }

  lemma LimitedPrefix(found: seq<Row>, limit: nat)
    requires limit > 0
    ensures var page := Limited(found, Some(limit));
            |page| <= |found| && found == page + found[|page|..] && (page == [] <==> found == [])
            && (page != [] ==> page[|page| - 1] == found[|page| - 1])
  {}

  /** Pages of any positive size concatenate to the whole history. */
  lemma {:induction false} PagesConcatenate(rows: seq<Row>, scope: Scope, after: int, kinds: seq<string>, limit: nat)
    requires limit > 0 && Ascending(rows)
    ensures AllPages(rows, scope, after, kinds, limit) == Select(rows, scope, after, kinds)
    decreases |Select(rows, scope, after, kinds)|
  {
    var found := Select(rows, scope, after, kinds);
    var page := Limited(found, Some(limit));
    LimitedPrefix(found, limit);
    if page != [] {
      NextPage(rows, scope, after, kinds, |page|);
      PagesConcatenate(rows, scope, page[|page| - 1].sequence, kinds, limit);
      assert AllPages(rows, scope, after, kinds, limit) == page + found[|page|..];
    }
  }

  /** An accepted append extends its own history by one row and touches no other. */
  lemma AppendExtendsHistory(t: Tables, e: Entry, scope: Scope)
    requires Keyed(t) && Inserted(t, e).Ok?
    ensures Select(Inserted(t, e).value.rows, scope, 0, [])
         == Select(t.rows, scope, 0, []) + (if e.scope == scope then [Row(t.last + 1, e)] else [])
  {
    SelectAppend(t.rows, Row(t.last + 1, e), scope, 0, []);
  }

  /** What an accepted append leaves: one row with the next sequence and the caller's own fields, whose
      references name each attachment, its digest and its size, and a blob stored under each digest. */
  lemma AppendIsRecorded(w: World, op: Op, hash: Hash)
    requires Sound(w, hash) && op.AppendOp? && Attempt(w, op, hash).Ok?
    ensures var w' := Step(w, op, hash);
            && |w'.tables.rows| == |w.tables.rows| + 1 && w'.tables.rows[..|w.tables.rows|] == w.tables.rows
            && var row := w'.tables.rows[|w.tables.rows|];
               && row.sequence == w.tables.last + 1 == w'.tables.last
               && row.entry.id == op.id && row.entry.scope == op.scope
               && row.entry.kind == op.kind && row.entry.payload == op.payload
               && |row.entry.blobs| == |op.attachments|
               && forall i :: 0 <= i < |op.attachments| ==>
                    var ref, a := row.entry.blobs[i], op.attachments[i];
                    && ref.name == a.name && ref.digest == hash(a.data) && ref.size == |a.data|
                    && ref.digest in w'.blobs && hash(w'.blobs[ref.digest]) == ref.digest
  {
    AppendSound(w, op, hash);
    PutAllKeeps(w.blobs, op.attachments, hash);
  }
}
