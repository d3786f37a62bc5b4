/**
 * The durable update log (internal/storage/sqlite/sqlite.go): two tables, and each transaction as
 * one function on them.  A ghost history tells what was accepted in a room's lifetime.
 */
module UpdateLog {
  import opened Base
  import opened Options
  import opened Timestamps

  type KeyHash(==, !new)
  type Blob = seq<Byte>

  datatype Row = Row(
    keyHash: KeyHash,
    compact: Option<Blob>,      // compact_state, NULL until the first snapshot
    updateSeq: nat,
    updatedAt: string,
    closedAt: Option<string>,
    storageBytes: nat,
    updateCount: nat)

  datatype Tables = Tables(rooms: map<RoomId, Row>, updates: map<(RoomId, nat), Blob>)

  datatype Error = RoomClosed | KeyMismatch | NoSuchRoom | Conflict

  datatype Outcome<+T> = Done(value: T) | Failed(error: Error)

  datatype Tx =
    | Ensure(room: RoomId, hash: KeyHash, now: Time)
    | Append(room: RoomId, update: Blob, now: Time)
    | Snapshot(room: RoomId, state: Blob, baseSeq: int, now: Time)
    | Close(room: RoomId, now: Time)
    | Cleanup(cutoff: Time)

  // ---------------------------------------------------------------- transactions

  /** 106-138 */
  function EnsureRoom(t: Tables, r: RoomId, hash: KeyHash, now: Time): (Tables, Outcome<()>) {
    if r in t.rooms then
      if t.rooms[r].closedAt.Some? then (t, Failed(RoomClosed))
      else if t.rooms[r].keyHash != hash then (t, Failed(KeyMismatch))
      else (t.(rooms := t.rooms[r := t.rooms[r].(updatedAt := Format(now))]), Done(()))
    else
      (t.(rooms := t.rooms[r := Row(hash, None, 0, Format(now), None, 0, 0)]), Done(()))
  }

  /** 163-187: a primary key already taken makes the INSERT, and with it the transaction, fail. */
  function AppendUpdate(t: Tables, r: RoomId, update: Blob, now: Time): (Tables, Outcome<nat>) {
    if r !in t.rooms then (t, Failed(NoSuchRoom))
    else
      var row := t.rooms[r];
      var seq' := row.updateSeq + 1;
      if row.closedAt.Some? then (t, Failed(RoomClosed))
      else if (r, seq') in t.updates then (t, Failed(Conflict))
      else
        var row' := row.(updateSeq := seq', storageBytes := row.storageBytes + |update|,
                         updateCount := row.updateCount + 1, updatedAt := Format(now));
        (Tables(t.rooms[r := row'], t.updates[(r, seq') := update]), Done(seq'))
  }

  /** Whether SaveSnapshot's DELETE covers the update with this number (203-212). */
  predicate Dropped(k: nat, baseSeq: int) {
    baseSeq <= 0 || k <= baseSeq
  }

  /** 189-214 */
  function SaveSnapshot(t: Tables, r: RoomId, state: Blob, baseSeq: int, now: Time): (Tables, Outcome<()>) {
    if r !in t.rooms || t.rooms[r].closedAt.Some? then (t, Failed(RoomClosed))
    else
      var row' := t.rooms[r].(compact := Some(state), storageBytes := |state|, updateCount := 0, updatedAt := Format(now));
      (Tables(t.rooms[r := row'],
              map key | key in t.updates && !(key.0 == r && Dropped(key.1, baseSeq)) :: t.updates[key]),
       Done(()))
  }

  /** 216-220 */
  function CloseRoom(t: Tables, r: RoomId, now: Time): Tables {
    if r in t.rooms && t.rooms[r].closedAt.None? then
      t.(rooms := t.rooms[r := t.rooms[r].(closedAt := Some(Format(now)), updatedAt := Format(now))])
    else t
  }

  /** r's row exists and is open: the rooms that take updates and snapshots. */
  predicate OpenRoom(t: Tables, r: RoomId) {
    r in t.rooms && t.rooms[r].closedAt.None?
  }

  predicate Inactive(row: Row, cutoff: Time) {
    Less(row.updatedAt, Format(cutoff))
  }

  /** 246-267: first the updates of inactive rooms, then the rooms. */
  function DeleteInactiveRooms(t: Tables, cutoff: Time): Tables {
    Tables(map r | r in t.rooms && !Inactive(t.rooms[r], cutoff) :: t.rooms[r],
           map key | key in t.updates && !(key.0 in t.rooms && Inactive(t.rooms[key.0], cutoff)) :: t.updates[key])
  }

  /** 222-232 */
  function UpdateCount(t: Tables, r: RoomId): nat {
    if r in t.rooms then t.rooms[r].updateCount else 0
  }

  /** 234-244 */
  function RoomStorageBytes(t: Tables, r: RoomId): nat {
    if r in t.rooms then t.rooms[r].storageBytes else 0
  }

  function Apply(t: Tables, tx: Tx): Tables {
    match tx
    case Ensure(r, hash, now) => EnsureRoom(t, r, hash, now).0
    case Append(r, update, now) => AppendUpdate(t, r, update, now).0
    case Snapshot(r, state, base, now) => SaveSnapshot(t, r, state, base, now).0
    case Close(r, now) => CloseRoom(t, r, now)
    case Cleanup(cutoff) => DeleteInactiveRooms(t, cutoff)
  }

  // ---------------------------------------------------------------- history

  /** What happened in the current lifetime of a room's row. */
  datatype Life = Life(
    hash: KeyHash,         // presented by the EnsureRoom that made the row
    closed: bool,
    accepted: seq<Blob>,   // every update of an open room, the one numbered k at index k - 1
    low: nat,              // the updates numbered 1..low have been deleted
    snap: nat,             // update_seq at the last snapshot
    touched: Time)         // the clock at the last write of updated_at

  type History = map<RoomId, Life>

  predicate Timed(tx: Tx) {
    match tx
    case Ensure(_, _, now) => Proper(now)
    case Append(_, _, now) => Proper(now)
    case Snapshot(_, _, _, now) => Proper(now)
    case Close(_, now) => Proper(now)
    case Cleanup(cutoff) => Proper(cutoff)
  }

  /** How much a snapshot deletes: everything up to baseSeq, or all of it. */
  function NewLow(life: Life, baseSeq: int): nat {
    var last := |life.accepted|;
    if baseSeq <= 0 || baseSeq > last then last else if baseSeq > life.low then baseSeq else life.low
  }

  /** What each transaction does to the history, told without the tables. */
  function Record(h: History, tx: Tx): History {
    match tx
    case Ensure(r, hash, now) =>
      if r !in h then h[r := Life(hash, false, [], 0, 0, now)]
      else if !h[r].closed && h[r].hash == hash then h[r := h[r].(touched := now)]
      else h
    case Append(r, update, now) =>
      if r in h && !h[r].closed then h[r := h[r].(accepted := h[r].accepted + [update], touched := now)] else h
    case Snapshot(r, state, base, now) =>
      if r in h && !h[r].closed
      then h[r := h[r].(low := NewLow(h[r], base), snap := |h[r].accepted|, touched := now)] else h
    case Close(r, now) => if r in h && !h[r].closed then h[r := h[r].(closed := true, touched := now)] else h
    case Cleanup(cutoff) => map r | r in h && !Less(Format(h[r].touched), Format(cutoff)) :: h[r]
  }

  function ApplyAll(t: Tables, txs: seq<Tx>): Tables
    decreases |txs|
  {
    if txs == [] then t else ApplyAll(Apply(t, txs[0]), txs[1..])
  }

  function RecordAll(h: History, txs: seq<Tx>): History
    decreases |txs|
  {
    if txs == [] then h else RecordAll(Record(h, txs[0]), txs[1..])
  }

  // ---------------------------------------------------------------- what the tables mean

  function Total(bs: seq<Blob>): nat {
    if bs == [] then 0 else Total(bs[..|bs| - 1]) + |bs[|bs| - 1]|
  }

  function CompactBytes(row: Row): nat {
    if row.compact.Some? then |row.compact.value| else 0
  }

  predicate RowExplained(row: Row, life: Life) {
    && row.keyHash == life.hash && (row.closedAt.Some? <==> life.closed)
    && life.low <= life.snap <= |life.accepted| == row.updateSeq
    && row.updateCount == |life.accepted| - life.snap
    && row.storageBytes == CompactBytes(row) + Total(life.accepted[life.snap..])
    && Proper(life.touched) && row.updatedAt == Format(life.touched)
  }

  /** The stored updates of r are exactly those numbered low+1 .. update_seq, as they were accepted. */
  ghost predicate LogExplained(t: Tables, r: RoomId, life: Life) {
    && (forall k: nat :: (r, k) in t.updates <==> life.low < k <= |life.accepted|)
    && (forall k: nat :: (r, k) in t.updates ==> 0 < k <= |life.accepted| && t.updates[(r, k)] == life.accepted[k - 1])
  }

  ghost predicate RoomExplained(t: Tables, h: History, r: RoomId) {
    && (r in h <==> r in t.rooms)
    && (r in h ==> RowExplained(t.rooms[r], h[r]) && LogExplained(t, r, h[r]))
    && (r !in h ==> forall k: nat :: (r, k) !in t.updates)
  }

  ghost predicate Explained(t: Tables, h: History) {
    forall r :: RoomExplained(t, h, r)
  }

  const EMPTY_TABLES := Tables(map[], map[])

  lemma ExplainedEmpty()
    ensures Explained(EMPTY_TABLES, map[])
  {}

  // ---------------------------------------------------------------- every transaction is explained

  /** A transaction on another room leaves r's row and updates alone. */
  ghost predicate SameRoom(t: Tables, t': Tables, r: RoomId) {
    && (r in t.rooms <==> r in t'.rooms)
    && (r in t.rooms ==> t'.rooms[r] == t.rooms[r])
    && (forall k: nat :: (r, k) in t'.updates <==> (r, k) in t.updates)
    && (forall k: nat :: (r, k) in t.updates ==> t'.updates[(r, k)] == t.updates[(r, k)])
  }

  lemma AppendLog(t: Tables, t': Tables, r: RoomId, update: Blob, life: Life, life': Life)
    requires LogExplained(t, r, life) && life.low <= |life.accepted|
    requires t'.updates == t.updates[(r, |life.accepted| + 1) := update]
    requires life'.accepted == life.accepted + [update] && life'.low == life.low
    ensures LogExplained(t', r, life')
  {}

  /** The row after an update that got the next number. */
  lemma AppendRow(row: Row, life: Life, update: Blob, now: Time)
    requires RowExplained(row, life) && Proper(now)
    ensures
      RowExplained(row.(updateSeq := row.updateSeq + 1, storageBytes := row.storageBytes + |update|,
                        updateCount := row.updateCount + 1, updatedAt := Format(now)),
                   life.(accepted := life.accepted + [update], touched := now))
  {
    assert (life.accepted + [update])[life.snap..] == life.accepted[life.snap..] + [update];
  }

  lemma AppendOwn(t: Tables, h: History, r: RoomId, update: Blob, now: Time)
    requires RoomExplained(t, h, r) && Proper(now) && r in h && t.rooms[r].closedAt.None?
    ensures AppendUpdate(t, r, update, now).1 == Done(|h[r].accepted| + 1)
    ensures
      var t' := AppendUpdate(t, r, update, now).0;
      var life' := h[r].(accepted := h[r].accepted + [update], touched := now);
      r in t'.rooms && RowExplained(t'.rooms[r], life') && LogExplained(t', r, life')
  {
    var life := h[r];
    var t' := AppendUpdate(t, r, update, now).0;
    assert (r, |life.accepted| + 1) !in t.updates;
    AppendLog(t, t', r, update, life, life.(accepted := life.accepted + [update], touched := now));
    AppendRow(t.rooms[r], life, update, now);
  }

  lemma AppendExplained(t: Tables, h: History, r: RoomId, update: Blob, now: Time)
    requires Explained(t, h) && Proper(now)
    ensures Explained(Apply(t, Append(r, update, now)), Record(h, Append(r, update, now)))
    ensures AppendUpdate(t, r, update, now).1 != Failed(Conflict)
  {
    var tx := Append(r, update, now);
    assert RoomExplained(t, h, r);
    if r in h && t.rooms[r].closedAt.None? {
      AppendOwn(t, h, r, update, now);
      forall r' ensures RoomExplained(Apply(t, tx), Record(h, tx), r') {
        assert RoomExplained(t, h, r');
      }
    }
  }

  lemma SnapshotOwn(t: Tables, h: History, r: RoomId, state: Blob, base: int, now: Time)
    requires RoomExplained(t, h, r) && Proper(now) && r in h && t.rooms[r].closedAt.None?
    ensures
      var t' := SaveSnapshot(t, r, state, base, now).0;
      var life' := h[r].(low := NewLow(h[r], base), snap := |h[r].accepted|, touched := now);
      r in t'.rooms && RowExplained(t'.rooms[r], life') && LogExplained(t', r, life')
  {}

  lemma SnapshotExplained(t: Tables, h: History, r: RoomId, state: Blob, base: int, now: Time)
    requires Explained(t, h) && Proper(now)
    ensures Explained(Apply(t, Snapshot(r, state, base, now)), Record(h, Snapshot(r, state, base, now)))
  {
    var tx := Snapshot(r, state, base, now);
    assert RoomExplained(t, h, r);
    if r in h && t.rooms[r].closedAt.None? {
      SnapshotOwn(t, h, r, state, base, now);
      forall r' ensures RoomExplained(Apply(t, tx), Record(h, tx), r') {
        assert RoomExplained(t, h, r');
      }
    }
  }

  lemma EnsureExplained(t: Tables, h: History, r: RoomId, hash: KeyHash, now: Time)
    requires Explained(t, h) && Proper(now)
    ensures Explained(Apply(t, Ensure(r, hash, now)), Record(h, Ensure(r, hash, now)))
  {
    forall r' ensures RoomExplained(Apply(t, Ensure(r, hash, now)), Record(h, Ensure(r, hash, now)), r') {
      assert RoomExplained(t, h, r') && RoomExplained(t, h, r);
    }
  }

  lemma CleanupExplained(t: Tables, h: History, cutoff: Time)
    requires Explained(t, h)
    ensures Explained(Apply(t, Cleanup(cutoff)), Record(h, Cleanup(cutoff)))
  {
    forall r ensures RoomExplained(Apply(t, Cleanup(cutoff)), Record(h, Cleanup(cutoff)), r) {
      assert RoomExplained(t, h, r);
    }
  }

  lemma CloseOwn(t: Tables, h: History, r: RoomId, now: Time)
    requires RoomExplained(t, h, r) && Proper(now)
    ensures RoomExplained(Apply(t, Close(r, now)), Record(h, Close(r, now)), r)
  {
    if r in h && t.rooms[r].closedAt.None? {
      var life' := Record(h, Close(r, now))[r];
      assert life'.accepted == h[r].accepted && life'.low == h[r].low && life'.snap == h[r].snap;
    }
  }

  lemma CloseExplained(t: Tables, h: History, r: RoomId, now: Time)
    requires Explained(t, h) && Proper(now)
    ensures Explained(Apply(t, Close(r, now)), Record(h, Close(r, now)))
  {
    forall r' ensures RoomExplained(Apply(t, Close(r, now)), Record(h, Close(r, now)), r') {
      assert RoomExplained(t, h, r');
      if r' == r {
        CloseOwn(t, h, r, now);
      }
    }
  }

  lemma ExplainedStep(t: Tables, h: History, tx: Tx)
    requires Explained(t, h) && Timed(tx)
    ensures Explained(Apply(t, tx), Record(h, tx))
  {
    match tx
    case Ensure(r, hash, now) => EnsureExplained(t, h, r, hash, now);
    case Append(r, update, now) => AppendExplained(t, h, r, update, now);
    case Snapshot(r, state, base, now) => SnapshotExplained(t, h, r, state, base, now);
    case Close(r, now) => CloseExplained(t, h, r, now);
    case Cleanup(cutoff) => CleanupExplained(t, h, cutoff);
  }

  lemma {:induction false} ExplainedRun(t: Tables, h: History, txs: seq<Tx>)
    requires Explained(t, h) && forall i :: 0 <= i < |txs| ==> Timed(txs[i])
    ensures Explained(ApplyAll(t, txs), RecordAll(h, txs))
    decreases |txs|
  {
    if txs != [] {
      ExplainedStep(t, h, txs[0]);
      ExplainedRun(Apply(t, txs[0]), Record(h, txs[0]), txs[1..]);
    }
  }

  // ---------------------------------------------------------------- main results

  /**
   * The log is always a contiguous suffix: after every run of transactions from the empty database,
   * the stored numbers of a room are exactly those in (low, update_seq] for some low, and the blob
   * under number k is the k-th update accepted in the room's lifetime.  No update row is orphaned.
   */
  lemma {:induction false} LogIsContiguousSuffix(txs: seq<Tx>, r: RoomId)
    requires forall i :: 0 <= i < |txs| ==> Timed(txs[i])
    ensures
      var t := ApplyAll(EMPTY_TABLES, txs);
      var h := RecordAll(map[], txs);
      && (r in h <==> r in t.rooms)
      && (r in t.rooms ==>
            && h[r].low <= t.rooms[r].updateSeq == |h[r].accepted|
            && (forall k: nat :: (r, k) in t.updates <==> h[r].low < k <= t.rooms[r].updateSeq)
            && (forall k: nat :: (r, k) in t.updates ==> k > 0 && t.updates[(r, k)] == h[r].accepted[k - 1]))
      && (r !in t.rooms ==> forall k: nat :: (r, k) !in t.updates)
  {
    ExplainedEmpty();
    ExplainedRun(EMPTY_TABLES, map[], txs);
    assert RoomExplained(ApplyAll(EMPTY_TABLES, txs), RecordAll(map[], txs), r);
  }

  /**
   * Accepted numbers are never reused in a room's lifetime: the next append, if accepted, gets a
   * number above every number ever accepted, whatever snapshots deleted, and never hits a conflict.
   */
  lemma NumbersAreFresh(t: Tables, h: History, r: RoomId, update: Blob, now: Time)
    requires Explained(t, h) && Proper(now)
    ensures
      var out := AppendUpdate(t, r, update, now).1;
      && (out.Done? <==> r in t.rooms && t.rooms[r].closedAt.None?)
      && (out.Done? ==>
            && r in h && out.value == |h[r].accepted| + 1
            && r in Record(h, Append(r, update, now))
            && Record(h, Append(r, update, now))[r].accepted == h[r].accepted + [update])
  {
    assert RoomExplained(t, h, r);
    if r in h && t.rooms[r].closedAt.None? {
      AppendOwn(t, h, r, update, now);
    }
  }

  /** The bytes of the updates of r that are stored under numbers up to n. */
  ghost function StoredBytes(t: Tables, r: RoomId, n: nat): nat {
    if n == 0 then 0 else StoredBytes(t, r, n - 1) + if (r, n) in t.updates then |t.updates[(r, n)]| else 0
  }

  lemma {:induction false} StoredBytesAre(t: Tables, r: RoomId, life: Life, n: nat)
    requires LogExplained(t, r, life) && n <= |life.accepted| && life.low <= |life.accepted|
    ensures StoredBytes(t, r, n) == if n <= life.low then 0 else Total(life.accepted[life.low..n])
  {
    if n > 0 {
      StoredBytesAre(t, r, life, n - 1);
      if n > life.low {
        assert life.accepted[life.low..n][..n - 1 - life.low] == life.accepted[life.low..n - 1];
      }
    }
  }

  lemma {:induction false} TotalSplit(a: seq<Blob>, b: seq<Blob>)
    ensures Total(a + b) == Total(a) + Total(b)
  {
    if b == [] {
      assert a + b == a;
    } else {
      assert (a + b)[..|a + b| - 1] == a + b[..|b| - 1];
      TotalSplit(a, b[..|b| - 1]);
    }
  }

  /** Counters and stored bytes of an explained room. */
  lemma Accounting(t: Tables, h: History, r: RoomId)
    requires RoomExplained(t, h, r) && r in t.rooms
    ensures r in h
    ensures
      var life := h[r];
      && life.low <= life.snap <= |life.accepted|
      && UpdateCount(t, r) == t.rooms[r].updateSeq - life.snap
      && RoomStorageBytes(t, r) == CompactBytes(t.rooms[r]) + Total(life.accepted[life.snap..])
      && CompactBytes(t.rooms[r]) + StoredBytes(t, r, t.rooms[r].updateSeq)
           == RoomStorageBytes(t, r) + Total(life.accepted[life.low..life.snap])
  {
    var life := h[r];
    var n := |life.accepted|;
    StoredBytesAre(t, r, life, n);
    assert life.accepted[life.low..n] == life.accepted[life.low..life.snap] + life.accepted[life.snap..];
    TotalSplit(life.accepted[life.low..life.snap], life.accepted[life.snap..]);
  }

  /**
   * Exact counter accounting, after every run: storage_bytes is the compact state plus the updates
   * accepted since the last snapshot, update_count is their number, and the bytes truly stored exceed
   * storage_bytes by exactly the updates that snapshot retained; so the two agree exactly when those
   * total nothing.
   */
  lemma {:induction false} CounterAccounting(txs: seq<Tx>, r: RoomId)
    requires (forall i :: 0 <= i < |txs| ==> Timed(txs[i])) && r in ApplyAll(EMPTY_TABLES, txs).rooms
    ensures r in RecordAll(map[], txs)
    ensures
      var t := ApplyAll(EMPTY_TABLES, txs);
      var life := RecordAll(map[], txs)[r];
      && life.low <= life.snap <= |life.accepted|
      && UpdateCount(t, r) == t.rooms[r].updateSeq - life.snap
      && RoomStorageBytes(t, r) == CompactBytes(t.rooms[r]) + Total(life.accepted[life.snap..])
      && CompactBytes(t.rooms[r]) + StoredBytes(t, r, t.rooms[r].updateSeq)
           == RoomStorageBytes(t, r) + Total(life.accepted[life.low..life.snap])
  {
    ExplainedEmpty();
    ExplainedRun(EMPTY_TABLES, map[], txs);
    var t := ApplyAll(EMPTY_TABLES, txs);
    var h := RecordAll(map[], txs);
    assert RoomExplained(t, h, r);
    Accounting(t, h, r);
  }

  /** The bytes r truly occupies: compact state and stored updates. */
  ghost function TrueBytes(t: Tables, r: RoomId): nat
    requires r in t.rooms
  {
    CompactBytes(t.rooms[r]) + StoredBytes(t, r, t.rooms[r].updateSeq)
  }

  lemma {:induction false} TotalZero(bs: seq<Blob>)
    ensures Total(bs) == 0 <==> forall i :: 0 <= i < |bs| ==> bs[i] == []
  {
    if bs != [] { TotalZero(bs[..|bs| - 1]); }
  }

  predicate AllEmpty(bs: seq<Blob>, from: nat, to: nat)
    requires from <= to <= |bs|
  {
    forall k :: from <= k < to ==> bs[k] == []
  }

  lemma TotalZeroBetween(bs: seq<Blob>, from: nat, to: nat)
    requires from <= to <= |bs|
    ensures Total(bs[from..to]) == 0 <==> AllEmpty(bs, from, to)
  {
    TotalZero(bs[from..to]);
    assert forall k :: from <= k < to ==> bs[k] == bs[from..to][k - from];
    assert forall i :: 0 <= i < to - from ==> bs[from..to][i] == bs[from + i];
  }

  /** storage_bytes is the true size exactly when every update the last snapshot retained is empty. */
  lemma {:induction false} CounterIsTrueSizeIff(txs: seq<Tx>, r: RoomId)
    requires (forall i :: 0 <= i < |txs| ==> Timed(txs[i])) && r in ApplyAll(EMPTY_TABLES, txs).rooms
    ensures r in RecordAll(map[], txs)
    ensures
      var t := ApplyAll(EMPTY_TABLES, txs);
      var life := RecordAll(map[], txs)[r];
      && life.low <= life.snap <= |life.accepted|
      && (RoomStorageBytes(t, r) == TrueBytes(t, r) <==> AllEmpty(life.accepted, life.low, life.snap))
  {
    CounterAccounting(txs, r);
    var life := RecordAll(map[], txs)[r];
    TotalZeroBetween(life.accepted, life.low, life.snap);
  }

  /** Every snapshot of r in the run covers the whole log at its time. */
  predicate SnapshotsCoverAll(t: Tables, txs: seq<Tx>, r: RoomId)
    decreases |txs|
  {
    txs == [] ||
    (&& (txs[0].Snapshot? && txs[0].room == r && r in t.rooms ==>
           txs[0].baseSeq <= 0 || txs[0].baseSeq >= t.rooms[r].updateSeq)
     && SnapshotsCoverAll(Apply(t, txs[0]), txs[1..], r))
  }

  lemma CoveredStep(t: Tables, h: History, tx: Tx, r: RoomId)
    requires RoomExplained(t, h, r) && (r in h ==> h[r].low == h[r].snap)
    requires tx.Snapshot? && tx.room == r && r in t.rooms ==> tx.baseSeq <= 0 || tx.baseSeq >= t.rooms[r].updateSeq
    ensures r in Record(h, tx) ==> Record(h, tx)[r].low == Record(h, tx)[r].snap
  {}

  lemma {:induction false} CoveredRun(t: Tables, h: History, txs: seq<Tx>, r: RoomId)
    requires Explained(t, h) && (forall i :: 0 <= i < |txs| ==> Timed(txs[i])) && SnapshotsCoverAll(t, txs, r)
    requires r in h ==> h[r].low == h[r].snap
    ensures r in RecordAll(h, txs) ==> RecordAll(h, txs)[r].low == RecordAll(h, txs)[r].snap
    decreases |txs|
  {
    if txs != [] {
      ExplainedStep(t, h, txs[0]);
      CoveredStep(t, h, txs[0], r);
      CoveredRun(Apply(t, txs[0]), Record(h, txs[0]), txs[1..], r);
    }
  }

  /** In runs where every snapshot covers the whole log, storage_bytes is the size truly stored. */
  lemma {:induction false} CounterIsTrueSizeWhenCovered(txs: seq<Tx>, r: RoomId)
    requires (forall i :: 0 <= i < |txs| ==> Timed(txs[i])) && r in ApplyAll(EMPTY_TABLES, txs).rooms
    requires SnapshotsCoverAll(EMPTY_TABLES, txs, r)
    ensures
      var t := ApplyAll(EMPTY_TABLES, txs);
      RoomStorageBytes(t, r) == CompactBytes(t.rooms[r]) + StoredBytes(t, r, t.rooms[r].updateSeq)
  {
    ExplainedEmpty();
    CoveredRun(EMPTY_TABLES, map[], txs, r);
    CounterAccounting(txs, r);
    var life := RecordAll(map[], txs)[r];
    assert life.accepted[life.low..life.snap] == [];
  }

  // ---------------------------------------------------------------- closed rooms

  /** r's row exists before every transaction of the run and after the last. */
  predicate RowStays(t: Tables, txs: seq<Tx>, r: RoomId)
    decreases |txs|
  {
    r in t.rooms && (txs == [] || RowStays(Apply(t, txs[0]), txs[1..], r))
  }

  lemma ClosedStep(t: Tables, tx: Tx, r: RoomId)
    requires r in t.rooms && t.rooms[r].closedAt.Some? && r in Apply(t, tx).rooms
    ensures SameRoom(t, Apply(t, tx), r)
  {}

  /** After close nothing changes the room's row or its log until the row is deleted. */
  lemma {:induction false} ClosedRoomIsFrozen(t: Tables, txs: seq<Tx>, r: RoomId)
    requires r in t.rooms && t.rooms[r].closedAt.Some? && RowStays(t, txs, r)
    ensures SameRoom(t, ApplyAll(t, txs), r)
    decreases |txs|
  {
    if txs != [] {
      ClosedStep(t, txs[0], r);
      ClosedRoomIsFrozen(Apply(t, txs[0]), txs[1..], r);
    }
  }

  // ---------------------------------------------------------------- the room key

  /** Some transaction of the run closes r. */
  ghost predicate ClosedIn(txs: seq<Tx>, r: RoomId) {
    exists i :: 0 <= i < |txs| && txs[i].Close? && txs[i].room == r
  }

  lemma ClosedInFirst(txs: seq<Tx>, r: RoomId)
    requires txs != []
    ensures ClosedIn(txs, r) <==> (txs[0].Close? && txs[0].room == r) || ClosedIn(txs[1..], r)
  {
    if i :| 1 <= i < |txs| && txs[i].Close? && txs[i].room == r { assert txs[1..][i - 1] == txs[i]; }
  }

  /** While a row stays, so does its key hash, and it is closed exactly if it was or some transaction closes it. */
  lemma {:induction false} KeyStays(t: Tables, txs: seq<Tx>, r: RoomId)
    requires RowStays(t, txs, r)
    ensures
      var t' := ApplyAll(t, txs);
      && r in t'.rooms && t'.rooms[r].keyHash == t.rooms[r].keyHash
      && (OpenRoom(t', r) <==> OpenRoom(t, r) && !ClosedIn(txs, r))
    decreases |txs|
  {
    if txs != [] {
      ClosedInFirst(txs, r);
      KeyStays(Apply(t, txs[0]), txs[1..], r);
    }
  }

  /**
   * Only the key a room was made with opens it.  Once EnsureRoom has made the row with one hash, and as
   * long as the row stays, EnsureRoom answers that the room is closed exactly if it was closed since,
   * whatever the key; else that the key is wrong exactly if the hash is another; else it succeeds.
   */
  lemma OnlyTheMakersKeyOpens(t: Tables, r: RoomId, hash: KeyHash, now: Time, more: seq<Tx>, hash': KeyHash, now': Time)
    requires r !in t.rooms && RowStays(Apply(t, Ensure(r, hash, now)), more, r)
    ensures EnsureRoom(t, r, hash, now).1 == Done(())
    ensures
      var out := EnsureRoom(ApplyAll(Apply(t, Ensure(r, hash, now)), more), r, hash', now').1;
      && (out == Failed(RoomClosed) <==> ClosedIn(more, r))
      && (out == Failed(KeyMismatch) <==> !ClosedIn(more, r) && hash' != hash)
      && (out == Done(()) <==> !ClosedIn(more, r) && hash' == hash)
  {
    KeyStays(Apply(t, Ensure(r, hash, now)), more, r);
  }

  /** What every transaction answers, after every run, by what was recorded of the room's lifetime. */
  lemma {:induction false} AnswersFollowTheHistory(txs: seq<Tx>, r: RoomId, hash: KeyHash, blob: Blob, base: int, now: Time)
    requires forall i :: 0 <= i < |txs| ==> Timed(txs[i])
    ensures
      var t, h := ApplyAll(EMPTY_TABLES, txs), RecordAll(map[], txs);
      var ensured, appended, saved := EnsureRoom(t, r, hash, now).1, AppendUpdate(t, r, blob, now).1, SaveSnapshot(t, r, blob, base, now).1;
      if r !in h then
        ensured == Done(()) && appended == Failed(NoSuchRoom) && saved == Failed(RoomClosed)
      else if h[r].closed then
        ensured == Failed(RoomClosed) && appended == Failed(RoomClosed) && saved == Failed(RoomClosed)
      else
        && ensured == (if h[r].hash == hash then Done(()) else Failed(KeyMismatch))
        && appended == Done(|h[r].accepted| + 1) && saved == Done(())
  {
    ExplainedEmpty();
    ExplainedRun(EMPTY_TABLES, map[], txs);
    var t, h := ApplyAll(EMPTY_TABLES, txs), RecordAll(map[], txs);
    assert RoomExplained(t, h, r);
    if r in h { assert (r, |h[r].accepted| + 1) !in t.updates; }
  }

  // ---------------------------------------------------------------- cleanup

  /**
   * Inactive-room cleanup by string comparison, exactly.  A room is deleted with all its updates, or
   * survives intact with them.  It is deleted if it was last touched in an earlier whole second than
   * the cutoff, not if in a later one.  Within the cutoff's own second, a room touched earlier is
   * spared exactly when its printed fraction begins the cutoff's, and a room touched later is deleted
   * all the same exactly when the cutoff's printed fraction begins its own.
   */
  lemma CleanupIsExact(t: Tables, h: History, r: RoomId, cutoff: Time)
    requires Explained(t, h) && Proper(cutoff) && r in h
    ensures
      var t', touched := DeleteInactiveRooms(t, cutoff), h[r].touched;
      && Proper(touched)
      && (if r in t'.rooms then SameRoom(t, t', r) else forall k: nat :: (r, k) !in t'.updates)
      && (SecondsBefore(touched, cutoff) ==> r !in t'.rooms)
      && (SecondsBefore(cutoff, touched) || touched == cutoff ==> r in t'.rooms)
      && (SameSecond(touched, cutoff) && Before(touched, cutoff) ==>
            (r !in t'.rooms <==> !(Trimmed(touched.fraction) <= Trimmed(cutoff.fraction))))
      && (SameSecond(touched, cutoff) && Before(cutoff, touched) ==>
            (r !in t'.rooms <==> Trimmed(cutoff.fraction) <= Trimmed(touched.fraction)))
  {
    assert RoomExplained(t, h, r);
    FormatOrder(h[r].touched, cutoff);
    FormatOrder(cutoff, h[r].touched);
  }
}
