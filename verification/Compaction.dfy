/**
 * What the stored log means.  A document is an element of a join semilattice: updates and snapshots
 * decode to elements, and replaying merges them.  The questions are whether compaction loses an
 * accepted update, and whether a load that reads the tables twice is a real state.
 */
module Compaction {
  import opened Base
  import opened Options
  import opened Timestamps
  import opened UpdateLog

  /** An abstract CRDT document: the empty document, merge, and what a stored blob decodes to. */
  datatype Crdt<!Doc> = Crdt(empty: Doc, merge: (Doc, Doc) -> Doc, decode: Blob -> Doc)

  predicate CommAt<Doc(==)>(k: Crdt<Doc>, a: Doc, b: Doc) { k.merge(a, b) == k.merge(b, a) }
  predicate AssocAt<Doc(==)>(k: Crdt<Doc>, a: Doc, b: Doc, c: Doc) { k.merge(k.merge(a, b), c) == k.merge(a, k.merge(b, c)) }
  predicate IdemAt<Doc(==)>(k: Crdt<Doc>, a: Doc) { k.merge(a, a) == a }
  predicate UnitAt<Doc(==)>(k: Crdt<Doc>, a: Doc) { k.merge(k.empty, a) == a }

  /** Merging is commutative, associative and idempotent, and the empty document adds nothing. */
  ghost predicate Lawful<Doc(!new)>(k: Crdt<Doc>) {
    && (forall a, b :: CommAt(k, a, b))
    && (forall a, b, c :: AssocAt(k, a, b, c))
    && (forall a :: IdemAt(k, a))
    && (forall a :: UnitAt(k, a))
  }

  /** Everything in a is already in b. */
  ghost predicate Within<Doc>(k: Crdt<Doc>, a: Doc, b: Doc) {
    k.merge(a, b) == b
  }

  function MergeAll<Doc>(k: Crdt<Doc>, bs: seq<Blob>): Doc {
    if bs == [] then k.empty else k.merge(MergeAll(k, bs[..|bs| - 1]), k.decode(bs[|bs| - 1]))
  }

  function CompactDoc<Doc>(k: Crdt<Doc>, compact: Option<Blob>): Doc {
    if compact.Some? then k.decode(compact.value) else k.empty
  }

  /** What a client holds after applying the compact state and then the updates in order. */
  function Replay<Doc>(k: Crdt<Doc>, compact: Option<Blob>, updates: seq<(nat, Blob)>): Doc {
    if updates == [] then CompactDoc(k, compact)
    else k.merge(Replay(k, compact, updates[..|updates| - 1]), k.decode(updates[|updates| - 1].1))
  }

  /** What the second query of LoadRoomState returns: r's stored updates in strictly increasing order. */
  ghost predicate Dump(t: Tables, r: RoomId, us: seq<(nat, Blob)>) {
    && (forall i, j :: 0 <= i < j < |us| ==> us[i].0 < us[j].0)
    && (forall i :: 0 <= i < |us| ==> (r, us[i].0) in t.updates && t.updates[(r, us[i].0)] == us[i].1)
    && (forall k: nat :: (r, k) in t.updates ==> exists i :: 0 <= i < |us| && us[i].0 == k)
  }

  // ---------------------------------------------------------------- semilattice facts

  lemma WithinMerge<Doc(!new)>(k: Crdt<Doc>, a: Doc, b: Doc)
    requires Lawful(k)
    ensures Within(k, a, k.merge(a, b)) && Within(k, b, k.merge(a, b)) && Within(k, a, a)
  {
    assert IdemAt(k, a) && IdemAt(k, b) && CommAt(k, a, b);
    assert AssocAt(k, a, a, b) && AssocAt(k, b, b, a);
  }

  lemma WithinTrans<Doc(!new)>(k: Crdt<Doc>, a: Doc, b: Doc, c: Doc)
    requires Lawful(k) && Within(k, a, b) && Within(k, b, c)
    ensures Within(k, a, c)
  {
    assert AssocAt(k, a, b, c);
  }

  lemma WithinBoth<Doc(!new)>(k: Crdt<Doc>, a: Doc, b: Doc, c: Doc)
    requires Lawful(k)
    ensures Within(k, k.merge(a, b), c) <==> Within(k, a, c) && Within(k, b, c)
  {
    assert AssocAt(k, a, b, c);
    WithinMerge(k, a, b);
    if Within(k, k.merge(a, b), c) {
      WithinTrans(k, a, k.merge(a, b), c);
      WithinTrans(k, b, k.merge(a, b), c);
    }
  }

  lemma WithinAntisymmetric<Doc(!new)>(k: Crdt<Doc>, a: Doc, b: Doc)
    requires Lawful(k) && Within(k, a, b) && Within(k, b, a)
    ensures a == b
  {
    assert CommAt(k, a, b);
  }

  lemma EmptyAdds<Doc(!new)>(k: Crdt<Doc>, a: Doc)
    requires Lawful(k)
    ensures k.merge(a, k.empty) == a && k.merge(k.empty, a) == a && Within(k, k.empty, a)
  {
    assert CommAt(k, a, k.empty) && UnitAt(k, a);
  }

  lemma {:induction false} MergeAllSplit<Doc(!new)>(k: Crdt<Doc>, a: seq<Blob>, b: seq<Blob>)
    requires Lawful(k)
    ensures MergeAll(k, a + b) == k.merge(MergeAll(k, a), MergeAll(k, b))
  {
    if b == [] {
      assert a + b == a;
      EmptyAdds(k, MergeAll(k, a));
    } else {
      var b0 := b[..|b| - 1];
      assert (a + b)[..|a + b| - 1] == a + b0;
      MergeAllSplit(k, a, b0);
      assert AssocAt(k, MergeAll(k, a), MergeAll(k, b0), k.decode(b[|b| - 1]));
    }
  }

  lemma {:induction false} MergeAllPrefix<Doc(!new)>(k: Crdt<Doc>, bs: seq<Blob>, n: nat)
    requires Lawful(k) && n <= |bs|
    ensures MergeAll(k, bs) == k.merge(MergeAll(k, bs[..n]), MergeAll(k, bs[n..]))
    ensures Within(k, MergeAll(k, bs[..n]), MergeAll(k, bs)) && Within(k, MergeAll(k, bs[n..]), MergeAll(k, bs))
  {
    assert bs == bs[..n] + bs[n..];
    MergeAllSplit(k, bs[..n], bs[n..]);
    WithinMerge(k, MergeAll(k, bs[..n]), MergeAll(k, bs[n..]));
  }

  // ---------------------------------------------------------------- the stored document

  function Second(us: seq<(nat, Blob)>): (bs: seq<Blob>)
    ensures |bs| == |us| && forall i :: 0 <= i < |us| ==> bs[i] == us[i].1
  {
    seq(|us|, i requires 0 <= i < |us| => us[i].1)
  }

  lemma {:induction false} ReplayMerges<Doc(!new)>(k: Crdt<Doc>, compact: Option<Blob>, us: seq<(nat, Blob)>)
    requires Lawful(k)
    ensures Replay(k, compact, us) == k.merge(CompactDoc(k, compact), MergeAll(k, Second(us)))
  {
    if us == [] {
      assert Second(us) == [];
      EmptyAdds(k, CompactDoc(k, compact));
    } else {
      assert Second(us)[..|us| - 1] == Second(us[..|us| - 1]);
      ReplayMerges(k, compact, us[..|us| - 1]);
      assert AssocAt(k, CompactDoc(k, compact), MergeAll(k, Second(us[..|us| - 1])), k.decode(us[|us| - 1].1));
    }
  }

  /** A dump numbers its updates low+1, low+2, ... without a gap. */
  lemma {:induction false} DumpIndex(t: Tables, r: RoomId, life: Life, us: seq<(nat, Blob)>, i: nat)
    requires LogExplained(t, r, life) && Dump(t, r, us) && i < |us|
    ensures forall j :: 0 <= j <= i ==> us[j].0 == life.low + 1 + j
  {
    if i > 0 { DumpIndex(t, r, life, us, i - 1); }
    var k := life.low + 1 + i;
    assert us[i].0 >= k by { assert (r, us[i].0) in t.updates; if i > 0 { assert us[i - 1].0 < us[i].0; } }
    assert (r, us[i].0) in t.updates;
    assert (r, k) in t.updates;
    var j :| 0 <= j < |us| && us[j].0 == k;
    assert i < j ==> us[i].0 < us[j].0;
  }

  lemma DumpIsSuffix(t: Tables, r: RoomId, life: Life, us: seq<(nat, Blob)>)
    requires LogExplained(t, r, life) && Dump(t, r, us) && life.low <= |life.accepted|
    ensures Second(us) == life.accepted[life.low..]
  {
    forall i | 0 <= i < |us|
      ensures us[i].0 == life.low + 1 + i && life.low + i < |life.accepted| && us[i].1 == life.accepted[life.low + i]
    {
      DumpIndex(t, r, life, us, i);
      assert (r, us[i].0) in t.updates;
    }
    assert (r, life.low + 1 + |us|) !in t.updates;
    assert |us| > 0 ==> us[|us| - 1].0 <= |life.accepted|;
    assert |us| == |life.accepted| - life.low;
  }

  // ---------------------------------------------------------------- compaction

  /** Everything AppendUpdate accepted in the room's lifetime, merged. */
  function HistoryDoc<Doc>(k: Crdt<Doc>, life: Life): Doc {
    MergeAll(k, life.accepted)
  }

  /**
   * A snapshot covers what the room already dropped plus every stored update it deletes, and holds
   * nothing that was not accepted.
   */
  ghost predicate Covers<Doc>(k: Crdt<Doc>, state: Blob, baseSeq: int, life: Life) {
    && Sane(life)
    && Within(k, MergeAll(k, life.accepted[..NewLow(life, baseSeq)]), k.decode(state))
    && Within(k, k.decode(state), HistoryDoc(k, life))
  }

  predicate Sane(life: Life) {
    life.low <= |life.accepted|
  }

  /** The compact state stands for what was dropped, and for nothing that was not accepted. */
  ghost predicate CompactOk<Doc>(k: Crdt<Doc>, t: Tables, h: History, r: RoomId) {
    r in h && r in t.rooms && Sane(h[r]) ==>
      && Within(k, MergeAll(k, h[r].accepted[..h[r].low]), CompactDoc(k, t.rooms[r].compact))
      && Within(k, CompactDoc(k, t.rooms[r].compact), HistoryDoc(k, h[r]))
  }

  /** Every accepted snapshot of r in the run covers. */
  ghost predicate SnapshotsCover<Doc>(k: Crdt<Doc>, h: History, txs: seq<Tx>, r: RoomId)
    decreases |txs|
  {
    txs == [] ||
    (&& (txs[0].Snapshot? && txs[0].room == r && r in h && !h[r].closed ==> Covers(k, txs[0].state, txs[0].baseSeq, h[r]))
     && SnapshotsCover(k, Record(h, txs[0]), txs[1..], r))
  }

  lemma AppendCompactOk<Doc(!new)>(k: Crdt<Doc>, t: Tables, h: History, r: RoomId, update: Blob, now: Time)
    requires Lawful(k) && Explained(t, h) && CompactOk(k, t, h, r)
    ensures CompactOk(k, Apply(t, Append(r, update, now)), Record(h, Append(r, update, now)), r)
  {
    assert RoomExplained(t, h, r);
    if r in h && !h[r].closed {
      var life := h[r];
      var all := life.accepted + [update];
      assert all[..|life.accepted|] == life.accepted && all[..life.low] == life.accepted[..life.low];
      MergeAllPrefix(k, all, |life.accepted|);
      WithinTrans(k, CompactDoc(k, t.rooms[r].compact), HistoryDoc(k, life), MergeAll(k, all));
    }
  }

  lemma NewCompactOk<Doc(!new)>(k: Crdt<Doc>, t: Tables, h: History, r: RoomId)
    requires Lawful(k) && r in h && r in t.rooms && h[r].accepted == [] && t.rooms[r].compact.None?
    ensures CompactOk(k, t, h, r)
  {
    EmptyAdds(k, k.empty);
  }

  /** r's compact state and what was accepted and dropped are the same, unless the row is gone. */
  predicate SameDocument(t: Tables, h: History, t': Tables, h': History, r: RoomId) {
    r in h' && r in t'.rooms ==>
      && r in h && r in t.rooms && t'.rooms[r].compact == t.rooms[r].compact
      && h'[r].accepted == h[r].accepted && h'[r].low == h[r].low
  }

  /** What is neither an append to r nor a snapshot of it leaves its document alone, or makes its row. */
  lemma OtherDocument(t: Tables, h: History, tx: Tx, r: RoomId)
    requires (r in h <==> r in t.rooms) && (r in h ==> RowExplained(t.rooms[r], h[r]))
    requires (tx.Append? || tx.Snapshot?) ==> tx.room != r
    ensures
      var t', h' := Apply(t, tx), Record(h, tx);
      || SameDocument(t, h, t', h', r)
      || (r in h' && r in t'.rooms && h'[r].accepted == [] && t'.rooms[r].compact.None?)
  {}

  lemma SameCompactOk<Doc(!new)>(k: Crdt<Doc>, t: Tables, h: History, t': Tables, h': History, r: RoomId)
    requires CompactOk(k, t, h, r) && SameDocument(t, h, t', h', r)
    ensures CompactOk(k, t', h', r)
  {}

  lemma SnapshotCompactOk<Doc(!new)>(k: Crdt<Doc>, t: Tables, h: History, tx: Tx, r: RoomId)
    requires Explained(t, h) && CompactOk(k, t, h, r) && tx.Snapshot? && tx.room == r
    requires r in h && !h[r].closed ==> Covers(k, tx.state, tx.baseSeq, h[r])
    ensures CompactOk(k, Apply(t, tx), Record(h, tx), r)
  {
    assert RoomExplained(t, h, r);
  }

  lemma CompactOkStep<Doc(!new)>(k: Crdt<Doc>, t: Tables, h: History, tx: Tx, r: RoomId)
    requires Lawful(k) && Explained(t, h) && CompactOk(k, t, h, r)
    requires tx.Snapshot? && tx.room == r && r in h && !h[r].closed ==> Covers(k, tx.state, tx.baseSeq, h[r])
    ensures CompactOk(k, Apply(t, tx), Record(h, tx), r)
  {
    if tx.Append? && tx.room == r {
      AppendCompactOk(k, t, h, r, tx.update, tx.now);
    } else if tx.Snapshot? && tx.room == r {
      SnapshotCompactOk(k, t, h, tx, r);
    } else {
      assert RoomExplained(t, h, r);
      OtherDocument(t, h, tx, r);
      var t', h' := Apply(t, tx), Record(h, tx);
      if SameDocument(t, h, t', h', r) { SameCompactOk(k, t, h, t', h', r); } else { NewCompactOk(k, t', h', r); }
    }
  }

  lemma {:induction false} CompactOkRun<Doc(!new)>(k: Crdt<Doc>, t: Tables, h: History, txs: seq<Tx>, r: RoomId)
    requires Lawful(k) && Explained(t, h) && CompactOk(k, t, h, r)
    requires (forall i :: 0 <= i < |txs| ==> Timed(txs[i])) && SnapshotsCover(k, h, txs, r)
    ensures CompactOk(k, ApplyAll(t, txs), RecordAll(h, txs), r)
    decreases |txs|
  {
    if txs != [] {
      ExplainedStep(t, h, txs[0]);
      CompactOkStep(k, t, h, txs[0], r);
      CompactOkRun(k, Apply(t, txs[0]), Record(h, txs[0]), txs[1..], r);
    }
  }

  /** In an explained room whose compact state is sound, replaying the tables gives the full history. */
  lemma ReplayIsHistory<Doc(!new)>(k: Crdt<Doc>, t: Tables, h: History, r: RoomId, us: seq<(nat, Blob)>)
    requires Lawful(k) && Explained(t, h) && CompactOk(k, t, h, r) && r in t.rooms && Dump(t, r, us)
    ensures r in h && Replay(k, t.rooms[r].compact, us) == HistoryDoc(k, h[r])
  {
    assert RoomExplained(t, h, r);
    var life := h[r];
    var c := CompactDoc(k, t.rooms[r].compact);
    DumpIsSuffix(t, r, life, us);
    ReplayMerges(k, t.rooms[r].compact, us);
    MergeAllPrefix(k, life.accepted, life.low);
    var dropped, kept := MergeAll(k, life.accepted[..life.low]), MergeAll(k, life.accepted[life.low..]);
    WithinBoth(k, c, kept, HistoryDoc(k, life));
    WithinMerge(k, c, kept);
    WithinTrans(k, dropped, c, k.merge(c, kept));
    WithinBoth(k, dropped, kept, k.merge(c, kept));
    WithinAntisymmetric(k, k.merge(c, kept), HistoryDoc(k, life));
  }

  /**
   * Compaction loses no accepted update.  For every CRDT and every run of appends, snapshots, closes
   * and cleanups in which each snapshot of r covers, the compact state merged with the stored updates
   * is the merge of every update AppendUpdate accepted.
   */
  lemma {:induction false} CompactionLosesNothing<Doc(!new)>(k: Crdt<Doc>, txs: seq<Tx>, r: RoomId, us: seq<(nat, Blob)>)
    requires Lawful(k) && forall i :: 0 <= i < |txs| ==> Timed(txs[i])
    requires SnapshotsCover(k, map[], txs, r)
    requires r in ApplyAll(EMPTY_TABLES, txs).rooms && Dump(ApplyAll(EMPTY_TABLES, txs), r, us)
    ensures r in RecordAll(map[], txs)
    ensures Replay(k, ApplyAll(EMPTY_TABLES, txs).rooms[r].compact, us)
      == MergeAll(k, RecordAll(map[], txs)[r].accepted)
  {
    ExplainedEmpty();
    ExplainedRun(EMPTY_TABLES, map[], txs);
    CompactOkRun(k, EMPTY_TABLES, map[], txs, r);
    ReplayIsHistory(k, ApplyAll(EMPTY_TABLES, txs), RecordAll(map[], txs), r, us);
  }

  /** When a compact document, merged with the updates above low, is the full history. */
  lemma WithTheRestIsHistoryIff<Doc(!new)>(k: Crdt<Doc>, life: Life, s: Doc, low: nat)
    requires Lawful(k) && low <= |life.accepted|
    ensures
      var dropped, kept := MergeAll(k, life.accepted[..low]), MergeAll(k, life.accepted[low..]);
      k.merge(s, kept) == HistoryDoc(k, life) <==> Within(k, dropped, k.merge(s, kept)) && Within(k, s, HistoryDoc(k, life))
  {
    var dropped, kept := MergeAll(k, life.accepted[..low]), MergeAll(k, life.accepted[low..]);
    var left := k.merge(s, kept);
    MergeAllPrefix(k, life.accepted, low);
    WithinMerge(k, s, kept);
    WithinBoth(k, s, kept, HistoryDoc(k, life));
    WithinBoth(k, dropped, kept, left);
    if left != HistoryDoc(k, life) && Within(k, dropped, left) && Within(k, s, HistoryDoc(k, life)) {
      WithinAntisymmetric(k, left, HistoryDoc(k, life));
    }
  }

  /** What a snapshot drops is in it or in the updates it retains, and it holds nothing that was not accepted. */
  ghost predicate Keeps<Doc>(k: Crdt<Doc>, state: Blob, base: int, life: Life) {
    var low := NewLow(life, base);
    low <= |life.accepted| ==>
      && Within(k, MergeAll(k, life.accepted[..low]), k.merge(k.decode(state), MergeAll(k, life.accepted[low..])))
      && Within(k, k.decode(state), HistoryDoc(k, life))
  }

  /** Exactly when one snapshot keeps the document: replaying what it leaves gives the full history. */
  lemma SnapshotKeepsTheDocumentIff<Doc(!new)>(
      k: Crdt<Doc>, t: Tables, h: History, r: RoomId, state: Blob, base: int, now: Time, us: seq<(nat, Blob)>)
    requires Lawful(k) && Explained(t, h) && Proper(now) && r in h && r in t.rooms && t.rooms[r].closedAt.None?
    requires Dump(SaveSnapshot(t, r, state, base, now).0, r, us)
    ensures NewLow(h[r], base) <= |h[r].accepted|
    ensures Replay(k, Some(state), us) == HistoryDoc(k, h[r]) <==> Keeps(k, state, base, h[r])
  {
    assert RoomExplained(t, h, r);
    var life := h[r];
    var low := NewLow(life, base);
    SnapshotOwn(t, h, r, state, base, now);
    DumpIsSuffix(SaveSnapshot(t, r, state, base, now).0, r, life.(low := low, snap := |life.accepted|, touched := now), us);
    ReplayMerges(k, Some(state), us);
    WithTheRestIsHistoryIff(k, life, k.decode(state), low);
  }

  // ---------------------------------------------------------------- over whole runs, exactly

  /** The compact state of r merged with its stored updates is the full history. */
  ghost predicate DocRight<Doc>(k: Crdt<Doc>, t: Tables, h: History, r: RoomId) {
    r in h && r in t.rooms && Sane(h[r]) ==>
      k.merge(CompactDoc(k, t.rooms[r].compact), MergeAll(k, h[r].accepted[h[r].low..])) == HistoryDoc(k, h[r])
  }

  /** If the transaction is a snapshot that r accepts, it keeps the document. */
  ghost predicate TxKeeps<Doc>(k: Crdt<Doc>, h: History, tx: Tx, r: RoomId) {
    tx.Snapshot? && tx.room == r && r in h && !h[r].closed ==> Keeps(k, tx.state, tx.baseSeq, h[r])
  }

  lemma AppendRight<Doc(!new)>(k: Crdt<Doc>, t: Tables, h: History, r: RoomId, update: Blob, now: Time)
    requires Lawful(k) && Explained(t, h) && DocRight(k, t, h, r)
    ensures DocRight(k, Apply(t, Append(r, update, now)), Record(h, Append(r, update, now)), r)
  {
    assert RoomExplained(t, h, r);
    if r in h && !h[r].closed {
      var life := h[r];
      var all := life.accepted + [update];
      assert all[life.low..][..|all| - life.low - 1] == life.accepted[life.low..] && all[..|all| - 1] == life.accepted;
      assert AssocAt(k, CompactDoc(k, t.rooms[r].compact), MergeAll(k, life.accepted[life.low..]), k.decode(update));
    }
  }

  lemma SnapshotRightIff<Doc(!new)>(k: Crdt<Doc>, t: Tables, h: History, r: RoomId, state: Blob, base: int, now: Time)
    requires Lawful(k) && Explained(t, h) && DocRight(k, t, h, r) && Proper(now)
    ensures
      var tx := Snapshot(r, state, base, now);
      DocRight(k, Apply(t, tx), Record(h, tx), r) <==> TxKeeps(k, h, tx, r)
  {
    assert RoomExplained(t, h, r);
    if r in h && t.rooms[r].closedAt.None? {
      WithTheRestIsHistoryIff(k, h[r], k.decode(state), NewLow(h[r], base));
    }
  }

  lemma OtherRight<Doc(!new)>(k: Crdt<Doc>, t: Tables, h: History, tx: Tx, r: RoomId)
    requires Lawful(k) && Explained(t, h) && DocRight(k, t, h, r)
    requires (tx.Append? || tx.Snapshot?) ==> tx.room != r
    ensures DocRight(k, Apply(t, tx), Record(h, tx), r)
  {
    assert RoomExplained(t, h, r);
    OtherDocument(t, h, tx, r);
    EmptyAdds(k, k.empty);
  }

  lemma TxKeepsIff<Doc(!new)>(k: Crdt<Doc>, t: Tables, h: History, tx: Tx, r: RoomId)
    requires Lawful(k) && Explained(t, h) && DocRight(k, t, h, r) && Timed(tx)
    ensures DocRight(k, Apply(t, tx), Record(h, tx), r) <==> TxKeeps(k, h, tx, r)
  {
    if tx.Append? && tx.room == r {
      AppendRight(k, t, h, r, tx.update, tx.now);
    } else if tx.Snapshot? && tx.room == r {
      SnapshotRightIff(k, t, h, r, tx.state, tx.baseSeq, tx.now);
    } else {
      OtherRight(k, t, h, tx, r);
    }
  }

  /** r's document is right after every transaction of the run. */
  ghost predicate RightThroughout<Doc>(k: Crdt<Doc>, t: Tables, h: History, txs: seq<Tx>, r: RoomId)
    decreases |txs|
  {
    DocRight(k, t, h, r) && (txs == [] || RightThroughout(k, Apply(t, txs[0]), Record(h, txs[0]), txs[1..], r))
  }

  ghost predicate AllKeep<Doc>(k: Crdt<Doc>, h: History, txs: seq<Tx>, r: RoomId)
    decreases |txs|
  {
    txs == [] || (TxKeeps(k, h, txs[0], r) && AllKeep(k, Record(h, txs[0]), txs[1..], r))
  }

  lemma {:induction false} RightThroughoutIff<Doc(!new)>(k: Crdt<Doc>, t: Tables, h: History, txs: seq<Tx>, r: RoomId)
    requires Lawful(k) && Explained(t, h) && DocRight(k, t, h, r) && forall i :: 0 <= i < |txs| ==> Timed(txs[i])
    ensures RightThroughout(k, t, h, txs, r) <==> AllKeep(k, h, txs, r)
    decreases |txs|
  {
    if txs != [] {
      ExplainedStep(t, h, txs[0]);
      TxKeepsIff(k, t, h, txs[0], r);
      if TxKeeps(k, h, txs[0], r) { RightThroughoutIff(k, Apply(t, txs[0]), Record(h, txs[0]), txs[1..], r); }
    }
  }

  /**
   * Exactly which runs keep r's document right after every transaction: those whose every snapshot of r
   * keeps it.  The document is what replaying any dump of the tables gives.
   */
  lemma {:induction false} DocumentIsRightThroughoutIff<Doc(!new)>(k: Crdt<Doc>, txs: seq<Tx>, r: RoomId)
    requires Lawful(k) && forall i :: 0 <= i < |txs| ==> Timed(txs[i])
    ensures RightThroughout(k, EMPTY_TABLES, map[], txs, r) <==> AllKeep(k, map[], txs, r)
  {
    ExplainedEmpty();
    RightThroughoutIff(k, EMPTY_TABLES, map[], txs, r);
  }

  /** What DocRight means to a client that loads the room. */
  lemma ReplayIsRightIff<Doc(!new)>(k: Crdt<Doc>, t: Tables, h: History, r: RoomId, us: seq<(nat, Blob)>)
    requires Lawful(k) && Explained(t, h) && r in t.rooms && Dump(t, r, us)
    ensures r in h && (DocRight(k, t, h, r) <==> Replay(k, t.rooms[r].compact, us) == HistoryDoc(k, h[r]))
  {
    assert RoomExplained(t, h, r);
    DumpIsSuffix(t, r, h[r], us);
    ReplayMerges(k, t.rooms[r].compact, us);
  }

  // ---------------------------------------------------------------- snapshots that were prepared earlier

  /**
   * A snapshot prepared when n updates had been accepted, and sent with baseSeq n, covers whatever was
   * appended since; if a newer snapshot has committed since, and pruned beyond n, it covers exactly
   * when it holds what that one dropped anyway.
   */
  lemma SnapshotPreparedEarlierCovers<Doc(!new)>(k: Crdt<Doc>, life: Life, state: Blob, n: nat)
    requires Lawful(k) && Sane(life) && 0 < n <= |life.accepted|
    requires k.decode(state) == MergeAll(k, life.accepted[..n])
    ensures Covers(k, state, n, life) <==>
      n >= life.low || Within(k, MergeAll(k, life.accepted[n..life.low]), MergeAll(k, life.accepted[..n]))
  {
    var s := k.decode(state);
    MergeAllPrefix(k, life.accepted, n);
    WithinMerge(k, s, s);
    if n < life.low { PrefixSplits(k, life.accepted, n, life.low, s); }
  }

  /** What a document needs to hold a prefix. */
  lemma PrefixSplits<Doc(!new)>(k: Crdt<Doc>, bs: seq<Blob>, n: nat, low: nat, d: Doc)
    requires Lawful(k) && n <= low <= |bs|
    ensures Within(k, MergeAll(k, bs[..low]), d) <==> Within(k, MergeAll(k, bs[..n]), d) && Within(k, MergeAll(k, bs[n..low]), d)
  {
    assert bs[..low] == bs[..n] + bs[n..low];
    MergeAllSplit(k, bs[..n], bs[n..low]);
    WithinBoth(k, MergeAll(k, bs[..n]), MergeAll(k, bs[n..low]), d);
  }

  /**
   * Such a snapshot commits all the same, and takes the newer one's place: the document survives exactly
   * when what was pruned beyond n is in the first n updates or in those still stored.
   */
  lemma StaleSnapshotLosesIff<Doc(!new)>(
      k: Crdt<Doc>, t: Tables, h: History, r: RoomId, state: Blob, now: Time, us: seq<(nat, Blob)>, n: nat)
    requires Lawful(k) && Explained(t, h) && Proper(now) && r in h && r in t.rooms && t.rooms[r].closedAt.None?
    requires 0 < n <= h[r].low <= |h[r].accepted| && k.decode(state) == MergeAll(k, h[r].accepted[..n])
    requires Dump(SaveSnapshot(t, r, state, n, now).0, r, us)
    ensures
      var all, low := h[r].accepted, h[r].low;
      Replay(k, Some(state), us) == HistoryDoc(k, h[r]) <==>
        Within(k, MergeAll(k, all[n..low]), k.merge(MergeAll(k, all[..n]), MergeAll(k, all[low..])))
  {
    var all, low := h[r].accepted, h[r].low;
    var s, kept := MergeAll(k, all[..n]), MergeAll(k, all[low..]);
    SnapshotKeepsTheDocumentIff(k, t, h, r, state, n, now, us);
    MergeAllPrefix(k, all, n);
    WithinMerge(k, s, kept);
    PrefixSplits(k, all, n, low, k.merge(s, kept));
  }

  /**
   * A snapshot prepared when n updates had been accepted but sent without a positive baseSeq deletes
   * the whole log: the document survives exactly when every later update was already in the snapshot.
   */
  lemma LegacySnapshotLosesIff<Doc(!new)>(
      k: Crdt<Doc>, t: Tables, h: History, r: RoomId, state: Blob, base: int, now: Time, us: seq<(nat, Blob)>, n: nat)
    requires Lawful(k) && Explained(t, h) && Proper(now) && r in h && r in t.rooms && t.rooms[r].closedAt.None?
    requires base <= 0 && n <= |h[r].accepted| && k.decode(state) == MergeAll(k, h[r].accepted[..n])
    requires Dump(SaveSnapshot(t, r, state, base, now).0, r, us)
    ensures Replay(k, Some(state), us) == HistoryDoc(k, h[r])
      <==> Within(k, MergeAll(k, h[r].accepted[n..]), MergeAll(k, h[r].accepted[..n]))
  {
    var life := h[r];
    SnapshotKeepsTheDocumentIff(k, t, h, r, state, base, now, us);
    MergeAllPrefix(k, life.accepted, n);
    assert life.accepted[|life.accepted|..] == [] && life.accepted[..|life.accepted|] == life.accepted;
    var s, later := MergeAll(k, life.accepted[..n]), MergeAll(k, life.accepted[n..]);
    EmptyAdds(k, s);
    WithinBoth(k, s, later, s);
    WithinMerge(k, s, s);
  }

  // ---------------------------------------------------------------- loading in two reads

  /** No snapshot of r, and r's row stays. */
  predicate NoSnapshot(t: Tables, txs: seq<Tx>, r: RoomId) {
    RowStays(t, txs, r) && forall i :: 0 <= i < |txs| ==> !(txs[i].Snapshot? && txs[i].room == r)
  }

  lemma {:induction false} CompactStays(t: Tables, txs: seq<Tx>, r: RoomId)
    requires NoSnapshot(t, txs, r)
    ensures r in ApplyAll(t, txs).rooms && ApplyAll(t, txs).rooms[r].compact == t.rooms[r].compact
    decreases |txs|
  {
    if txs != [] {
      var t' := Apply(t, txs[0]);
      assert RowStays(t', txs[1..], r);
      assert t'.rooms[r].compact == t.rooms[r].compact;
      forall i | 0 <= i < |txs[1..]| ensures !(txs[1..][i].Snapshot? && txs[1..][i].room == r) { assert txs[1..][i] == txs[i + 1]; }
      CompactStays(t', txs[1..], r);
    }
  }

  /**
   * A two-read load is still a real state: if appends, but no snapshot, commit between the two
   * queries of LoadRoomState, its result replays to exactly the document at the second query.
   */
  lemma {:induction false} TwoReadLoadIsAState<Doc(!new)>(
      k: Crdt<Doc>, txs: seq<Tx>, between: seq<Tx>, r: RoomId, us: seq<(nat, Blob)>)
    requires Lawful(k) && (forall i :: 0 <= i < |txs| ==> Timed(txs[i])) && (forall i :: 0 <= i < |between| ==> Timed(between[i]))
    requires SnapshotsCover(k, map[], txs, r)
    requires NoSnapshot(ApplyAll(EMPTY_TABLES, txs), between, r)
    requires Dump(ApplyAll(ApplyAll(EMPTY_TABLES, txs), between), r, us)
    ensures
      var t := ApplyAll(EMPTY_TABLES, txs);
      var h := RecordAll(map[], txs);
      var h' := RecordAll(h, between);
      r in t.rooms && r in h' && Replay(k, t.rooms[r].compact, us) == HistoryDoc(k, h'[r])
  {
    var t := ApplyAll(EMPTY_TABLES, txs);
    var h := RecordAll(map[], txs);
    ExplainedEmpty();
    ExplainedRun(EMPTY_TABLES, map[], txs);
    CompactOkRun(k, EMPTY_TABLES, map[], txs, r);
    ExplainedRun(t, h, between);
    NoSnapshotCovers(k, t, h, between, r);
    CompactOkRun(k, t, h, between, r);
    CompactStays(t, between, r);
    ReplayIsHistory(k, ApplyAll(t, between), RecordAll(h, between), r, us);
  }

  lemma {:induction false} NoSnapshotCovers<Doc>(k: Crdt<Doc>, t: Tables, h: History, txs: seq<Tx>, r: RoomId)
    requires forall i :: 0 <= i < |txs| ==> !(txs[i].Snapshot? && txs[i].room == r)
    ensures SnapshotsCover(k, h, txs, r)
    decreases |txs|
  {
    if txs != [] {
      forall i | 0 <= i < |txs[1..]| ensures !(txs[1..][i].Snapshot? && txs[1..][i].room == r) { assert txs[1..][i] == txs[i + 1]; }
      NoSnapshotCovers(k, Apply(t, txs[0]), Record(h, txs[0]), txs[1..], r);
    }
  }

  /**
   * Whatever commits between the two queries, the load gives the full history at the second exactly when
   * what has been dropped by then is in what was read, and the compact state that was read holds nothing
   * that is not accepted by then (the row may have been deleted and made anew).
   */
  lemma {:induction false} LoadIsRightIff<Doc(!new)>(
      k: Crdt<Doc>, t: Tables, h: History, between: seq<Tx>, r: RoomId, compact: Option<Blob>, us: seq<(nat, Blob)>)
    requires Lawful(k) && Explained(t, h) && forall i :: 0 <= i < |between| ==> Timed(between[i])
    requires r in ApplyAll(t, between).rooms && Dump(ApplyAll(t, between), r, us)
    ensures r in RecordAll(h, between)
    ensures
      var life := RecordAll(h, between)[r];
      var c := CompactDoc(k, compact);
      && life.low <= |life.accepted|
      && (Replay(k, compact, us) == HistoryDoc(k, life) <==>
            Within(k, MergeAll(k, life.accepted[..life.low]), k.merge(c, MergeAll(k, life.accepted[life.low..])))
            && Within(k, c, HistoryDoc(k, life)))
  {
    ExplainedRun(t, h, between);
    assert RoomExplained(ApplyAll(t, between), RecordAll(h, between), r);
    var life := RecordAll(h, between)[r];
    DumpIsSuffix(ApplyAll(t, between), r, life, us);
    ReplayMerges(k, compact, us);
    WithTheRestIsHistoryIff(k, life, CompactDoc(k, compact), life.low);
  }

  /** While the row stays, what was accepted stays. */
  lemma {:induction false} AcceptedGrows(t: Tables, h: History, txs: seq<Tx>, r: RoomId)
    requires Explained(t, h) && RowStays(t, txs, r) && forall i :: 0 <= i < |txs| ==> Timed(txs[i])
    ensures r in h && r in RecordAll(h, txs) && h[r].accepted <= RecordAll(h, txs)[r].accepted
    ensures r in ApplyAll(t, txs).rooms
    decreases |txs|
  {
    assert RoomExplained(t, h, r);
    if txs != [] {
      ExplainedStep(t, h, txs[0]);
      AcceptedGrows(Apply(t, txs[0]), Record(h, txs[0]), txs[1..], r);
    }
  }

  /**
   * A load with anything at all between its two queries, the row staying: if the compact state it read
   * held nothing that was not accepted, the load is right exactly when what has been dropped by the
   * second query is in what was read.  It is torn by a snapshot that drops anything else.
   */
  lemma {:induction false} TornLoadIff<Doc(!new)>(
      k: Crdt<Doc>, t: Tables, h: History, between: seq<Tx>, r: RoomId, us: seq<(nat, Blob)>)
    requires Lawful(k) && Explained(t, h) && forall i :: 0 <= i < |between| ==> Timed(between[i])
    requires RowStays(t, between, r) && Dump(ApplyAll(t, between), r, us)
    requires r in h && r in t.rooms && Within(k, CompactDoc(k, t.rooms[r].compact), HistoryDoc(k, h[r]))
    ensures r in RecordAll(h, between)
    ensures
      var life := RecordAll(h, between)[r];
      && life.low <= |life.accepted|
      && (Replay(k, t.rooms[r].compact, us) == HistoryDoc(k, life) <==>
            Within(k, MergeAll(k, life.accepted[..life.low]),
                   k.merge(CompactDoc(k, t.rooms[r].compact), MergeAll(k, life.accepted[life.low..]))))
  {
    AcceptedGrows(t, h, between, r);
    LoadIsRightIff(k, t, h, between, r, t.rooms[r].compact, us);
    var before, after := h[r].accepted, RecordAll(h, between)[r].accepted;
    MergeAllPrefix(k, after, |before|);
    assert after[..|before|] == before;
    WithinTrans(k, CompactDoc(k, t.rooms[r].compact), MergeAll(k, before), MergeAll(k, after));
  }

  /**
   * Without a snapshot in between, and whatever snapshots came before, the load replays to exactly the
   * document the tables hold at the second query.
   */
  lemma {:induction false} SecondReadDecides<Doc(!new)>(
      k: Crdt<Doc>, t: Tables, h: History, between: seq<Tx>, r: RoomId, us: seq<(nat, Blob)>)
    requires Lawful(k) && Explained(t, h) && forall i :: 0 <= i < |between| ==> Timed(between[i])
    requires NoSnapshot(t, between, r) && Dump(ApplyAll(t, between), r, us)
    ensures
      var t', h' := ApplyAll(t, between), RecordAll(h, between);
      && r in t.rooms && r in t'.rooms && r in h' && Sane(h'[r])
      && Replay(k, t.rooms[r].compact, us)
           == k.merge(CompactDoc(k, t'.rooms[r].compact), MergeAll(k, h'[r].accepted[h'[r].low..]))
  {
    CompactStays(t, between, r);
    ExplainedRun(t, h, between);
    var t', h' := ApplyAll(t, between), RecordAll(h, between);
    assert RoomExplained(t', h', r);
    DumpIsSuffix(t', r, h'[r], us);
    ReplayMerges(k, t.rooms[r].compact, us);
  }

  // ---------------------------------------------------------------- a concrete document type

  /** Sets of bytes under union: one lawful document type, in which a blob stands for its bytes. */
  function Letters(): Crdt<set<Byte>> {
    Crdt({}, (a, b) => a + b, b => set x | x in b)
  }

  lemma LettersAreLawful()
    ensures Lawful(Letters())
  {
    var k := Letters();
    forall a: set<Byte>, b: set<Byte> ensures CommAt(k, a, b) { assert a + b == b + a; }
    forall a: set<Byte>, b: set<Byte>, c: set<Byte> ensures AssocAt(k, a, b, c) { assert (a + b) + c == a + (b + c); }
    forall a: set<Byte> ensures IdemAt(k, a) && UnitAt(k, a) { assert a + a == a && {} + a == a; }
  }

  lemma LettersOfTwo(u: Blob, v: Blob)
    ensures MergeAll(Letters(), [u, v]) == Letters().decode(u + v)
    ensures MergeAll(Letters(), [u]) == Letters().decode(u)
  {
    var k := Letters();
    assert [u, v][..1] == [u] && [u][..0] == [];
    assert MergeAll(k, [u]) == k.merge(k.empty, k.decode(u)) == k.decode(u);
    assert MergeAll(k, [u, v]) == k.merge(MergeAll(k, [u]), k.decode(v));
    assert k.decode(u + v) == k.decode(u) + k.decode(v);
  }

  /**
   * Two updates accepted, a snapshot of the first prepared before the second arrived and sent without
   * baseSeq: what only the second brought is lost.
   */
  lemma LegacySnapshotLosesAnUpdate(t: Tables, h: History, r: RoomId, u: Blob, v: Blob, now: Time)
    requires Explained(t, h) && Proper(now) && r in h && r in t.rooms && t.rooms[r].closedAt.None?
    requires h[r].accepted == [u, v] && exists b :: b in v && b !in u
    ensures Dump(SaveSnapshot(t, r, u, 0, now).0, r, [])
    ensures Replay(Letters(), Some(u), []) != HistoryDoc(Letters(), h[r])
  {
    LettersOfTwo(u, v);
    var b :| b in v && b !in u;
    assert b in Letters().decode(u + v) && b !in Letters().decode(u);
  }

  lemma FirstThenRest(t: Tables, h: History, tx: Tx, rest: seq<Tx>)
    ensures ApplyAll(t, [tx] + rest) == ApplyAll(Apply(t, tx), rest)
    ensures RecordAll(h, [tx] + rest) == RecordAll(Record(h, tx), rest)
  {
    assert ([tx] + rest)[1..] == rest;
  }

  /** u and v are stored, a snapshot of both prunes the log, and then an older snapshot, of u alone, commits. */
  function Overtaken(r: RoomId, hash: KeyHash, now: Time, u: Blob, v: Blob): seq<Tx> {
    [Ensure(r, hash, now)] + ([Append(r, u, now)] + ([Append(r, v, now)]
      + ([Snapshot(r, u + v, 2, now)] + ([Snapshot(r, u, 1, now)] + []))))
  }

  lemma TwoStored(r: RoomId, hash: KeyHash, now: Time, u: Blob, v: Blob, rest: seq<Tx>) returns (t: Tables, h: History)
    ensures
      var txs := [Ensure(r, hash, now)] + ([Append(r, u, now)] + ([Append(r, v, now)] + rest));
      ApplyAll(EMPTY_TABLES, txs) == ApplyAll(t, rest) && RecordAll(map[], txs) == RecordAll(h, rest)
    ensures r in t.rooms && t.rooms[r].closedAt.None? && t.updates == map[(r, 1) := u, (r, 2) := v]
    ensures r in h && h[r].accepted == [u, v]
  {
    var e1, e2, e3 := Ensure(r, hash, now), Append(r, u, now), Append(r, v, now);
    FirstThenRest(EMPTY_TABLES, map[], e1, [e2] + ([e3] + rest));
    var t1, h1 := Apply(EMPTY_TABLES, e1), Record(map[], e1);
    FirstThenRest(t1, h1, e2, [e3] + rest);
    var t2, h2 := Apply(t1, e2), Record(h1, e2);
    FirstThenRest(t2, h2, e3, rest);
    t, h := Apply(t2, e3), Record(h2, e3);
  }

  lemma OvertakenTables(r: RoomId, hash: KeyHash, now: Time, u: Blob, v: Blob)
    ensures
      var t := ApplyAll(EMPTY_TABLES, Overtaken(r, hash, now, u, v));
      r in t.rooms && t.rooms[r].compact == Some(u) && t.updates == map[]
    ensures
      var h := RecordAll(map[], Overtaken(r, hash, now, u, v));
      r in h && h[r].accepted == [u, v]
  {
    var both, stale := Snapshot(r, u + v, 2, now), Snapshot(r, u, 1, now);
    var none: seq<Tx> := [];
    var t, h := TwoStored(r, hash, now, u, v, [both] + ([stale] + none));
    FirstThenRest(t, h, both, [stale] + none);
    FirstThenRest(Apply(t, both), Record(h, both), stale, none);
    assert Apply(t, both).updates == map[];
  }

  /** Both snapshots are honest, and what only v brought is lost. */
  lemma StaleSnapshotLosesAnUpdate(r: RoomId, hash: KeyHash, now: Time, u: Blob, v: Blob)
    requires exists b :: b in v && b !in u
    ensures Letters().decode(u + v) == MergeAll(Letters(), [u, v]) && Letters().decode(u) == MergeAll(Letters(), [u])
    ensures
      var t := ApplyAll(EMPTY_TABLES, Overtaken(r, hash, now, u, v));
      var h := RecordAll(map[], Overtaken(r, hash, now, u, v));
      && r in t.rooms && r in h && h[r].accepted == [u, v] && Dump(t, r, [])
      && Replay(Letters(), t.rooms[r].compact, []) != HistoryDoc(Letters(), h[r])
  {
    OvertakenTables(r, hash, now, u, v);
    LettersOfTwo(u, v);
    var b :| b in v && b !in u;
    assert b in Letters().decode(u + v) && b !in Letters().decode(u);
  }

  /** u is stored; between the two queries of a load a snapshot of u commits: the load gives the empty document. */
  lemma TornLoadLosesAnUpdate(r: RoomId, hash: KeyHash, now: Time, u: Blob)
    requires u != []
    ensures
      var none: seq<Tx> := [];
      var t := ApplyAll(EMPTY_TABLES, [Ensure(r, hash, now)] + ([Append(r, u, now)] + none));
      var t' := Apply(t, Snapshot(r, u, 1, now));
      && r in t.rooms && r in t'.rooms && Dump(t', r, [])
      && t'.rooms[r].compact == Some(u) && Letters().decode(u) == MergeAll(Letters(), [u])
      && Replay(Letters(), t.rooms[r].compact, []) == {} != MergeAll(Letters(), [u])
  {
    var none: seq<Tx> := [];
    FirstThenRest(EMPTY_TABLES, map[], Ensure(r, hash, now), [Append(r, u, now)] + none);
    var t1, h1 := Apply(EMPTY_TABLES, Ensure(r, hash, now)), Record(map[], Ensure(r, hash, now));
    FirstThenRest(t1, h1, Append(r, u, now), none);
    LettersOfTwo(u, []);
    assert Apply(Apply(t1, Append(r, u, now)), Snapshot(r, u, 1, now)).updates == map[];
    assert u[0] in Letters().decode(u);
  }
}
