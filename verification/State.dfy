/** The manager's state document and its file (awg_manager/src/state.rs). */
module State {
  import opened Common
  import opened IpNet
  import opened Pool

  const MAX_OPERATIONS := 2000

  /** What a request asked for. The digest of a request is taken to name it. */
  datatype Digest =
    | Create(username: string, version: string, publicKey: string, psk: string)
    | Rotate(username: string, publicKey: string, psk: string)

  /** An operation already carried out. */
  datatype Entry = Entry(id: string, digest: Digest, username: string)

  /** The document: peers by name, operations in the order they were inserted. */
  datatype Doc = Doc(peers: Table, operations: seq<Entry>)

  ghost predicate UniqueIds(operations: seq<Entry>) {
    forall i, j :: 0 <= i < j < |operations| ==> operations[i].id != operations[j].id
  }

  function Lookup(operations: seq<Entry>, id: string): (r: Option<Entry>)
    ensures r.Some? ==> r.value in operations && r.value.id == id
    ensures r.None? ==> forall e <- operations :: e.id != id
  {
    if operations == [] then None
    else if operations[0].id == id then Some(operations[0])
    else Lookup(operations[1..], id)
  }

  /** Insertion into a map that keeps its order: a known id keeps its place. */
  function Insert(operations: seq<Entry>, e: Entry): (r: seq<Entry>)
    ensures |operations| <= |r| <= |operations| + 1
  {
    if operations == [] then [e]
    else if operations[0].id == e.id then [e] + operations[1..]
    else [operations[0]] + Insert(operations[1..], e)
  }

  lemma {:induction false} InsertLooksUp(operations: seq<Entry>, e: Entry, id: string)
    ensures Lookup(Insert(operations, e), id) == if id == e.id then Some(e) else Lookup(operations, id)
  {
    if operations != [] && operations[0].id != e.id {
      InsertLooksUp(operations[1..], e, id);
    }
  }

  lemma {:induction false} InsertMembers(operations: seq<Entry>, e: Entry)
    ensures forall x <- Insert(operations, e) :: x == e || x in operations
  {
    if operations != [] && operations[0].id != e.id {
      InsertMembers(operations[1..], e);
    }
  }

  lemma {:induction false} InsertUnique(operations: seq<Entry>, e: Entry)
    requires UniqueIds(operations)
    ensures UniqueIds(Insert(operations, e))
  {
    if operations != [] && operations[0].id != e.id {
      var rest := operations[1..];
      InsertUnique(rest, e);
      InsertMembers(rest, e);
      forall x | x in Insert(rest, e) ensures x.id != operations[0].id {
        if x in rest {
          var j :| 0 <= j < |rest| && rest[j] == x;
          assert operations[j + 1] == x;
        }
      }
    }
  }

  /** When an insertion makes the map longer, the new entry is its last. */
  lemma {:induction false} InsertAppends(operations: seq<Entry>, e: Entry)
    ensures |Insert(operations, e)| > |operations| ==> Insert(operations, e) == operations + [e]
  {
    if operations != [] && operations[0].id != e.id {
      InsertAppends(operations[1..], e);
    }
  }

  /** The newest entries, as many as are kept. */
  function Newest(operations: seq<Entry>): seq<Entry> {
    if |operations| > MAX_OPERATIONS then operations[|operations| - MAX_OPERATIONS..] else operations
  }

  lemma {:induction false} LookupLast(operations: seq<Entry>, e: Entry)
    requires operations != [] && operations[|operations| - 1] == e && UniqueIds(operations)
    ensures Lookup(operations, e.id) == Some(e)
  {
    if |operations| > 1 {
      LookupLast(operations[1..], e);
    }
  }

  /** An operation just inserted is never the one that is pruned. */
  lemma InsertedIsKept(operations: seq<Entry>, e: Entry)
    requires UniqueIds(operations) && |operations| <= MAX_OPERATIONS
    ensures Lookup(Newest(Insert(operations, e)), e.id) == Some(e)
    ensures UniqueIds(Newest(Insert(operations, e))) && |Newest(Insert(operations, e))| <= MAX_OPERATIONS
  {
    InsertUnique(operations, e);
    InsertAppends(operations, e);
    var all := Insert(operations, e);
    if |all| > MAX_OPERATIONS {
      LookupLast(Newest(all), e);
    } else {
      InsertLooksUp(operations, e, e.id);
    }
  }

  lemma DropFirst(operations: seq<Entry>, n: nat)
    requires n < |operations|
    ensures operations[n..][1..] == operations[n + 1..]
  {
  }

  lemma NewestIs(operations: seq<Entry>, n: nat)
    requires n <= |operations| && |operations| - n <= MAX_OPERATIONS
    requires n > 0 ==> |operations| - n == MAX_OPERATIONS
    ensures operations[n..] == Newest(operations)
  {
  }

  ghost predicate ValidDoc(doc: Doc, nets: map<string, Ipv4Net>)
    requires Subnets(nets)
  {
    ValidTable(doc.peers, nets) && UniqueIds(doc.operations) && |doc.operations| <= MAX_OPERATIONS
  }

  class StateStore {
    var doc: Doc
    /** What the file holds. */
    var disk: Doc
    /** Whether a write may fail now. */
    var faults: bool

    constructor (disk: Doc)
      ensures doc == disk && this.disk == disk
    {
      this.doc, this.disk, faults := disk, disk, true;
    }

    /** `save`: prune the oldest operations, then replace the file. A failed write leaves the old file or the new. */
    method Save() returns (ok: bool)
      modifies `doc, `disk
      ensures doc == old(doc).(operations := Newest(old(doc).operations))
      ensures disk == doc || (!ok && disk == old(disk))
      ensures !faults ==> ok
    {
      hide Newest;
      ghost var all, dropped := doc.operations, 0;
      while |doc.operations| > MAX_OPERATIONS
        invariant disk == old(disk) && doc == old(doc).(operations := doc.operations)
        invariant 0 <= dropped <= |all| && doc.operations == all[dropped..]
        invariant dropped > 0 ==> |doc.operations| >= MAX_OPERATIONS
        decreases |doc.operations|
      {
        DropFirst(all, dropped);
        doc := doc.(operations := doc.operations[1..]);
        dropped := dropped + 1;
      }
      NewestIs(all, dropped);
      var fails: bool, replaced: bool := *, *;
      ok := !(faults && fails);
      if ok || replaced {
        disk := doc;
      }
    }

    /** `load` by a new process. The file is sorted by key, so the operations come back in another order. */
    method Load(ghost nets: map<string, Ipv4Net>)
      requires Subnets(nets) && ValidDoc(disk, nets)
      modifies `doc
      ensures ValidDoc(doc, nets) && doc.peers == disk.peers
      ensures forall id :: Lookup(doc.operations, id) == Lookup(disk.operations, id)
    {
      doc := disk;
      var sorted: seq<Entry> := *;
      if Reordered(sorted, disk.operations) {
        ReorderedLooksUp(sorted, disk.operations);
        doc := disk.(operations := sorted);
      }
    }
  }

  predicate Reordered(a: seq<Entry>, b: seq<Entry>) {
    && |a| == |b| && (forall e <- a :: e in b) && (forall e <- b :: e in a)
    && forall i, j :: 0 <= i < j < |a| ==> a[i].id != a[j].id
  }

  lemma ReorderedLooksUp(a: seq<Entry>, b: seq<Entry>)
    requires Reordered(a, b) && UniqueIds(b)
    ensures forall id :: Lookup(a, id) == Lookup(b, id)
  {
    forall id ensures Lookup(a, id) == Lookup(b, id) {
      var x, y := Lookup(a, id), Lookup(b, id);
      if x.Some? {
        assert x.value in b;
        assert y.value in b;
      }
    }
  }
}
