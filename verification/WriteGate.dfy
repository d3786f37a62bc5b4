/**
 * The write path above the store (hub.go 586-620, 1008-1046, 1067-1095): any number of goroutines,
 * one per update or snapshot, each of which fetches its room's one-slot channel, fills it, reads the
 * room's storage_bytes, writes if the quota allows, and empties the channel again.
 */
module WriteGate {
  import opened Base
  import opened Options
  import opened Timestamps
  import opened UpdateLog

  type Writer = nat
  type Chan = nat

  datatype Stage =
    | Started
    | Fetched(ch: Chan)      // has the channel, blocked in the select of 608-613
    | Holding(ch: Chan)      // filled the channel
    | Cleared(ch: Chan)      // past the quota check
    | Releasing(ch: Chan)    // the deferred release is due
    | Finished

  datatype Job = Job(room: RoomId, blob: Blob, snapshot: Option<int>, stage: Stage)  // snapshot: its baseSeq

  datatype Gate = Gate(
    max: nat,                            // roomMaxStorageBytes
    serializers: map<RoomId, Chan>,
    made: set<Chan>,
    full: set<Chan>,                     // the channels whose slot is taken
    jobs: map<Writer, Job>,
    tables: Tables)

  datatype GateEvent =
    | Spawn(w: Writer, room: RoomId, blob: Blob, snapshot: Option<int>)
    | Fetch(w: Writer, unused: Chan)     // roomSerializer, 591-600
    | Acquire(w: Writer)                 // 609
    | Quit(w: Writer)                    // 611, 1013, 1070
    | Check(w: Writer, unreadable: bool) // 1028-1033, 1084-1089
    | Write(w: Writer, now: Time, aborted: bool)  // 1034, 1090; the store may fail
    | Release(w: Writer)                 // 616-620
    | Drop(room: RoomId)                 // 791-793
    | Other(tx: Tx)                      // what else reaches the store

  function GateInit(max: nat): Gate {
    Gate(max, map[], {}, {}, map[], EMPTY_TABLES)
  }

  function At(g: Gate, w: Writer, stage: Stage): Gate
    requires w in g.jobs
  {
    g.(jobs := g.jobs[w := g.jobs[w].(stage := stage)])
  }

  predicate GateEnabled(g: Gate, e: GateEvent) {
    match e
    case Spawn(w, _, _, _) => w !in g.jobs
    case Fetch(w, unused) => w in g.jobs && g.jobs[w].stage.Started? && unused !in g.made
    case Acquire(w) => w in g.jobs && g.jobs[w].stage.Fetched? && g.jobs[w].stage.ch !in g.full
    case Quit(w) => w in g.jobs && (g.jobs[w].stage.Started? || g.jobs[w].stage.Fetched?)
    case Check(w, _) => w in g.jobs && g.jobs[w].stage.Holding?
    case Write(w, now, _) => w in g.jobs && g.jobs[w].stage.Cleared? && Proper(now)
    case Release(w) => w in g.jobs && g.jobs[w].stage.Releasing?
    case Drop(_) => true
    case Other(tx) => Timed(tx) && !tx.Append? && !tx.Snapshot?
  }

  function Fetching(g: Gate, w: Writer, unused: Chan): Gate
    requires w in g.jobs
  {
    var r := g.jobs[w].room;
    if r in g.serializers then At(g, w, Fetched(g.serializers[r]))
    else At(g.(serializers := g.serializers[r := unused], made := g.made + {unused}), w, Fetched(unused))
  }

  predicate OverQuota(g: Gate, job: Job) {
    RoomStorageBytes(g.tables, job.room) + |job.blob| > g.max
  }

  /** The transaction a job is for. */
  function JobTx(job: Job, now: Time): Tx {
    if job.snapshot.Some? then Snapshot(job.room, job.blob, job.snapshot.value, now) else Append(job.room, job.blob, now)
  }

  function GateStep(g: Gate, e: GateEvent): Gate
    requires GateEnabled(g, e)
  {
    match e
    case Spawn(w, room, blob, snapshot) => g.(jobs := g.jobs[w := Job(room, blob, snapshot, Started)])
    case Fetch(w, unused) => Fetching(g, w, unused)
    case Acquire(w) => At(g.(full := g.full + {g.jobs[w].stage.ch}), w, Holding(g.jobs[w].stage.ch))
    case Quit(w) => At(g, w, Finished)
    case Check(w, unreadable) =>
      At(g, w, if !unreadable && OverQuota(g, g.jobs[w]) then Releasing(g.jobs[w].stage.ch) else Cleared(g.jobs[w].stage.ch))
    case Write(w, now, aborted) =>
      At(if aborted then g else g.(tables := Apply(g.tables, JobTx(g.jobs[w], now))), w, Releasing(g.jobs[w].stage.ch))
    case Release(w) => At(g.(full := g.full - {g.jobs[w].stage.ch}), w, Finished)
    case Drop(room) => g.(serializers := g.serializers - {room})
    case Other(tx) => g.(tables := Apply(g.tables, tx))
  }

  predicate GateRuns(g: Gate, es: seq<GateEvent>)
    decreases |es|
  {
    es == [] || (GateEnabled(g, es[0]) && GateRuns(GateStep(g, es[0]), es[1..]))
  }

  function GateOutcome(g: Gate, es: seq<GateEvent>): Gate
    requires GateRuns(g, es)
    decreases |es|
  {
    if es == [] then g else GateOutcome(GateStep(g, es[0]), es[1..])
  }

  // ---------------------------------------------------------------- mutual exclusion, whatever happens

  /** Between acquire and release. */
  predicate Holds(stage: Stage) {
    stage.Holding? || stage.Cleared? || stage.Releasing?
  }

  /** Has the channel, and may still use it. */
  predicate Uses(stage: Stage) {
    stage.Fetched? || Holds(stage)
  }

  /** A slot is taken by exactly one writer, the one that will free it. */
  predicate HolderAt(g: Gate, w: Writer) {
    w in g.jobs && Uses(g.jobs[w].stage) ==>
      g.jobs[w].stage.ch in g.made && (Holds(g.jobs[w].stage) ==> g.jobs[w].stage.ch in g.full)
  }

  predicate AloneAt(g: Gate, w: Writer, v: Writer) {
    w in g.jobs && v in g.jobs && w != v && Holds(g.jobs[w].stage) && Holds(g.jobs[v].stage) ==>
      g.jobs[w].stage.ch != g.jobs[v].stage.ch
  }

  predicate HoldsSlot(g: Gate, w: Writer, ch: Chan) {
    w in g.jobs && Holds(g.jobs[w].stage) && g.jobs[w].stage.ch == ch
  }

  ghost predicate Held(g: Gate, ch: Chan) {
    exists w :: HoldsSlot(g, w, ch)
  }

  ghost predicate Exclusive(g: Gate) {
    && (forall w :: HolderAt(g, w))
    && (forall w, v :: AloneAt(g, w, v))
    && (forall ch :: ch in g.full ==> Held(g, ch))
    && (forall r :: r in g.serializers ==> g.serializers[r] in g.made)
    && (forall r, q :: r in g.serializers && q in g.serializers && g.serializers[r] == g.serializers[q] ==> r == q)
  }

  lemma ExclusiveStep(g: Gate, e: GateEvent)
    requires Exclusive(g) && GateEnabled(g, e)
    ensures Exclusive(GateStep(g, e))
  {
    var g' := GateStep(g, e);
    forall w ensures HolderAt(g', w) { ExclusiveHolder(g, e, w); }
    forall w, v ensures AloneAt(g', w, v) { ExclusiveAlone(g, e, w, v); }
    forall ch | ch in g'.full ensures Held(g', ch) { ExclusiveHeld(g, e, ch); }
  }

  lemma ExclusiveHolder(g: Gate, e: GateEvent, w: Writer)
    requires Exclusive(g) && GateEnabled(g, e)
    ensures HolderAt(GateStep(g, e), w)
  {
    assert HolderAt(g, w);
    if e.Release? { assert AloneAt(g, w, e.w); }
  }

  lemma ExclusiveAlone(g: Gate, e: GateEvent, w: Writer, v: Writer)
    requires Exclusive(g) && GateEnabled(g, e)
    ensures AloneAt(GateStep(g, e), w, v)
  {
    assert AloneAt(g, w, v) && HolderAt(g, w) && HolderAt(g, v);
  }

  lemma ExclusiveHeld(g: Gate, e: GateEvent, ch: Chan)
    requires Exclusive(g) && GateEnabled(g, e) && ch in GateStep(g, e).full
    ensures Held(GateStep(g, e), ch)
  {
    var g' := GateStep(g, e);
    if ch in g.full {
      var w :| HoldsSlot(g, w, ch);
      assert HoldsSlot(g', w, ch);
    } else {
      assert HoldsSlot(g', e.w, ch);
    }
  }

  lemma {:induction false} ExclusiveRun(g: Gate, es: seq<GateEvent>)
    requires Exclusive(g) && GateRuns(g, es)
    ensures Exclusive(GateOutcome(g, es))
    decreases |es|
  {
    if es != [] {
      ExclusiveStep(g, es[0]);
      ExclusiveRun(GateStep(g, es[0]), es[1..]);
    }
  }

  /**
   * Mutual exclusion per channel, in every run, even when serializer entries are dropped in use: at
   * most one writer is between acquire and release on a channel, a slot is taken exactly when there
   * is such a writer, and once every writer has finished every slot is free.
   */
  lemma {:induction false} OneHolderPerChannel(max: nat, es: seq<GateEvent>, ch: Chan)
    requires GateRuns(GateInit(max), es)
    ensures
      var g := GateOutcome(GateInit(max), es);
      && (ch in g.full <==> Held(g, ch))
      && (forall w, v :: HoldsSlot(g, w, ch) && HoldsSlot(g, v, ch) ==> w == v)
      && ((forall w :: w in g.jobs ==> g.jobs[w].stage.Finished?) ==> g.full == {})
  {
    ExclusiveRun(GateInit(max), es);
    var g := GateOutcome(GateInit(max), es);
    forall w | w in g.jobs && Holds(g.jobs[w].stage) ensures g.jobs[w].stage.ch in g.full { assert HolderAt(g, w); }
    forall w, v | HoldsSlot(g, w, ch) && HoldsSlot(g, v, ch) ensures w == v {
      assert AloneAt(g, w, v);
    }
  }

  // ---------------------------------------------------------------- what reaches the store

  /** The transaction that an event commits, if any. */
  function Committed(g: Gate, e: GateEvent): seq<Tx> {
    match e
    case Write(w, now, aborted) =>
      if aborted || w !in g.jobs then []
      else if g.jobs[w].snapshot.None? then [Append(g.jobs[w].room, g.jobs[w].blob, now)]
      else [Snapshot(g.jobs[w].room, g.jobs[w].blob, g.jobs[w].snapshot.value, now)]
    case Other(tx) => [tx]
    case _ => []
  }

  function AllCommitted(g: Gate, es: seq<GateEvent>): seq<Tx>
    requires GateRuns(g, es)
    decreases |es|
  {
    if es == [] then [] else Committed(g, es[0]) + AllCommitted(GateStep(g, es[0]), es[1..])
  }

  /**
   * The writers run the store: after every run of the gate its tables are what the transactions of the
   * store make of them, one for each write that did not fail, with that job's room, bytes and baseSeq, in
   * their order.  So what holds of every run of transactions holds here.
   */
  lemma {:induction false} WritersRunTheStore(g: Gate, es: seq<GateEvent>)
    requires GateRuns(g, es)
    ensures GateOutcome(g, es).tables == ApplyAll(g.tables, AllCommitted(g, es))
    ensures forall i :: 0 <= i < |AllCommitted(g, es)| ==> Timed(AllCommitted(g, es)[i])
    decreases |es|
  {
    if es != [] {
      var g1 := GateStep(g, es[0]);
      WritersRunTheStore(g1, es[1..]);
      var first, rest := Committed(g, es[0]), AllCommitted(g1, es[1..]);
      if first == [] {
        assert first + rest == rest;
      } else {
        assert (first + rest)[0] == first[0] && (first + rest)[1..] == rest;
      }
    }
  }

  /** Which writer an event is of. */
  function Of(e: GateEvent): Option<Writer> {
    if e.Drop? || e.Other? then None else Some(e.w)
  }

  /** How far a writer has come. */
  function Rank(g: Gate, w: Writer): nat {
    if w !in g.jobs then 0
    else match g.jobs[w].stage
      case Started => 1
      case Fetched(_) => 2
      case Holding(_) => 3
      case Cleared(_) => 4
      case Releasing(_) => 5
      case Finished => 6
  }

  lemma RankStep(g: Gate, e: GateEvent, w: Writer)
    requires GateEnabled(g, e)
    ensures if Of(e) == Some(w) then Rank(g, w) < Rank(GateStep(g, e), w) <= 6 else Rank(GateStep(g, e), w) == Rank(g, w)
    ensures e.Quit? && e.w == w ==> Rank(GateStep(g, e), w) == 6
    ensures e.Write? && e.w == w ==> Rank(g, w) == 4
  {}

  lemma {:induction false} RankRun(g: Gate, es: seq<GateEvent>, w: Writer, j: nat)
    requires GateRuns(g, es) && j < |es| && Of(es[j]) == Some(w)
    ensures Rank(g, w) < 6 && (es[j].Write? ==> Rank(g, w) <= 4)
    decreases |es|
  {
    RankStep(g, es[0], w);
    if j > 0 { RankRun(GateStep(g, es[0]), es[1..], w, j - 1); }
  }

  /** Each job is written at most once, and a writer that gave up does nothing more, in every run. */
  lemma {:induction false} NobodyWritesTwice(g: Gate, es: seq<GateEvent>, w: Writer, i: nat, j: nat)
    requires GateRuns(g, es) && i < j < |es| && Of(es[j]) == Some(w)
    ensures es[i] != Quit(w)
    ensures es[i].Write? && es[i].w == w ==> !es[j].Write?
    decreases |es|
  {
    if i == 0 {
      RankStep(g, es[0], w);
      RankRun(GateStep(g, es[0]), es[1..], w, j - 1);
    } else {
      NobodyWritesTwice(GateStep(g, es[0]), es[1..], w, i - 1, j - 1);
    }
  }

  // ---------------------------------------------------------------- the quota

  /** storage_bytes can be read whenever the quota is checked (otherwise the check is skipped, 1029). */
  predicate Readable(e: GateEvent) {
    e.Check? ==> !e.unreadable
  }

  /** A room's serializer entry is not deleted while a writer of that room uses its channel. */
  predicate Unused(g: Gate, e: GateEvent) {
    e.Drop? ==> forall w :: w in g.jobs && g.jobs[w].room == e.room ==> !Uses(g.jobs[w].stage)
  }

  predicate QuotaRun(g: Gate, es: seq<GateEvent>)
    decreases |es|
  {
    es == [] || (GateEnabled(g, es[0]) && Readable(es[0]) && Unused(g, es[0]) && QuotaRun(GateStep(g, es[0]), es[1..]))
  }

  /** A writer using a channel uses the one registered for its room. */
  predicate CurrentAt(g: Gate, w: Writer) {
    w in g.jobs && Uses(g.jobs[w].stage) ==>
      g.jobs[w].room in g.serializers && g.serializers[g.jobs[w].room] == g.jobs[w].stage.ch
  }

  predicate ClearedAt(g: Gate, w: Writer) {
    w in g.jobs && g.jobs[w].stage.Cleared? ==> !OverQuota(g, g.jobs[w])
  }

  predicate WithinQuota(g: Gate, r: RoomId) {
    RoomStorageBytes(g.tables, r) <= g.max
  }

  ghost predicate Quota(g: Gate) {
    && (forall w :: CurrentAt(g, w))
    && (forall w :: ClearedAt(g, w))
    && (forall r :: WithinQuota(g, r))
  }

  /** What else reaches the store never raises storage_bytes. */
  lemma OtherBytes(t: Tables, tx: Tx, r: RoomId)
    requires !tx.Append? && !tx.Snapshot?
    ensures RoomStorageBytes(Apply(t, tx), r) <= RoomStorageBytes(t, r)
  {}

  /** A write raises storage_bytes by at most its own size, and only of its own room. */
  lemma WriteBytes(t: Tables, job: Job, now: Time, r: RoomId)
    ensures RoomStorageBytes(Apply(t, JobTx(job, now)), r)
      <= RoomStorageBytes(t, r) + if r == job.room then |job.blob| else 0
  {}

  lemma SameRoomSameWriter(g: Gate, w: Writer, v: Writer)
    requires Exclusive(g) && Quota(g) && w in g.jobs && v in g.jobs
    requires Holds(g.jobs[w].stage) && Holds(g.jobs[v].stage) && g.jobs[w].room == g.jobs[v].room
    ensures w == v
  {
    assert CurrentAt(g, w) && CurrentAt(g, v) && AloneAt(g, w, v);
  }

  lemma ClearedStep(g: Gate, e: GateEvent, w: Writer)
    requires Exclusive(g) && Quota(g) && GateEnabled(g, e) && Readable(e)
    ensures ClearedAt(GateStep(g, e), w)
  {
    assert ClearedAt(g, w);
    if w in g.jobs && g.jobs[w].stage.Cleared? {
      match e
      case Other(tx) => OtherBytes(g.tables, tx, g.jobs[w].room);
      case Write(v, now, aborted) =>
        if v != w && g.jobs[v].room == g.jobs[w].room { SameRoomSameWriter(g, v, w); }
        WriteBytes(g.tables, g.jobs[v], now, g.jobs[w].room);
      case _ =>
    }
  }

  lemma QuotaStep(g: Gate, e: GateEvent)
    requires Exclusive(g) && Quota(g) && GateEnabled(g, e) && Readable(e) && Unused(g, e)
    ensures Quota(GateStep(g, e))
  {
    var g' := GateStep(g, e);
    forall w ensures CurrentAt(g', w) { assert CurrentAt(g, w); }
    forall w ensures ClearedAt(g', w) { ClearedStep(g, e, w); }
    forall r ensures WithinQuota(g', r) {
      assert WithinQuota(g, r);
      if e.Other? {
        OtherBytes(g.tables, e.tx, r);
      } else if e.Write? {
        assert ClearedAt(g, e.w);
        WriteBytes(g.tables, g.jobs[e.w], e.now, r);
      }
    }
  }

  lemma {:induction false} QuotaHolds(g: Gate, es: seq<GateEvent>)
    requires Exclusive(g) && Quota(g) && QuotaRun(g, es)
    ensures GateRuns(g, es) && Quota(GateOutcome(g, es)) && GateOutcome(g, es).max == g.max
    decreases |es|
  {
    if es != [] {
      ExclusiveStep(g, es[0]);
      QuotaStep(g, es[0]);
      QuotaHolds(GateStep(g, es[0]), es[1..]);
    }
  }

  /**
   * Concurrent writers respect the quota: with any number of update and snapshot goroutines, and
   * creations, closes and cleanups in between, storage_bytes never exceeds roomMaxStorageBytes.
   */
  lemma QuotaIsRespected(max: nat, es: seq<GateEvent>, r: RoomId)
    requires QuotaRun(GateInit(max), es)
    ensures GateRuns(GateInit(max), es)
    ensures RoomStorageBytes(GateOutcome(GateInit(max), es).tables, r) <= max
  {
    QuotaHolds(GateInit(max), es);
    assert WithinQuota(GateOutcome(GateInit(max), es), r);
  }

  // ---------------------------------------------------------------- continuing a run

  /** Some run that respects the hypotheses leads from g to g'. */
  ghost predicate Leads(g: Gate, g': Gate) {
    exists es :: QuotaRun(g, es) && GateRuns(g, es) && GateOutcome(g, es) == g'
  }

  lemma LeadsHere(g: Gate)
    ensures Leads(g, g)
  {
    assert QuotaRun(g, []) && GateRuns(g, []) && GateOutcome(g, []) == g;
  }

  lemma {:induction false} QuotaRunSplit(g: Gate, es: seq<GateEvent>, e: GateEvent)
    requires QuotaRun(g, es) && GateRuns(g, es)
    requires var g' := GateOutcome(g, es); GateEnabled(g', e) && Readable(e) && Unused(g', e)
    ensures QuotaRun(g, es + [e]) && GateRuns(g, es + [e]) && GateOutcome(g, es + [e]) == GateStep(GateOutcome(g, es), e)
    decreases |es|
  {
    if es == [] {
      assert [e][1..] == [] && es + [e] == [e];
      assert GateRuns(GateStep(g, e), []) && QuotaRun(GateStep(g, e), []);
    } else {
      assert (es + [e])[0] == es[0] && (es + [e])[1..] == es[1..] + [e];
      QuotaRunSplit(GateStep(g, es[0]), es[1..], e);
    }
  }

  lemma LeadOn(g0: Gate, g: Gate, e: GateEvent) returns (g': Gate)
    requires Leads(g0, g) && GateEnabled(g, e) && Readable(e) && Unused(g, e)
    ensures g' == GateStep(g, e) && Leads(g0, g')
  {
    var es :| QuotaRun(g0, es) && GateRuns(g0, es) && GateOutcome(g0, es) == g;
    g' := GateStep(g, e);
    QuotaRunSplit(g0, es, e);
  }

  // ---------------------------------------------------------------- Readable, exactly

  /** The check lets w through within the quota exactly when it is not over it with the counter unreadable. */
  lemma CheckKeepsClearedIff(g: Gate, w: Writer, unreadable: bool)
    requires GateEnabled(g, Check(w, unreadable))
    ensures ClearedAt(GateStep(g, Check(w, unreadable)), w) <==> !(unreadable && OverQuota(g, g.jobs[w]))
  {}

  /** What storage_bytes would become if the store accepted the job. */
  predicate TooLarge(g: Gate, job: Job) {
    if job.snapshot.Some? then |job.blob| > g.max else OverQuota(g, job)
  }

  /**
   * A check followed by its write takes a room over the quota exactly when the counter could not be
   * read, the job is over the quota, an update or too large a snapshot, and the room is open to it.
   */
  lemma CheckedWriteOverflowsIff(g: Gate, h: History, w: Writer, unreadable: bool, now: Time, aborted: bool)
    requires Explained(g.tables, h) && Proper(now)
    requires GateEnabled(g, Check(w, unreadable)) && WithinQuota(g, g.jobs[w].room)
    ensures
      var g1, job := GateStep(g, Check(w, unreadable)), g.jobs[w];
      (GateEnabled(g1, Write(w, now, aborted)) && !WithinQuota(GateStep(g1, Write(w, now, aborted)), job.room)) <==>
        unreadable && OverQuota(g, job) && TooLarge(g, job) && OpenRoom(g.tables, job.room) && !aborted
  {
    assert RoomExplained(g.tables, h, g.jobs[w].room);
  }

  // ---------------------------------------------------------------- Unused, exactly

  /** Two writers of one room are between acquire and release at once. */
  ghost predicate Overlap(g: Gate, r: RoomId) {
    exists w, v :: w != v && HoldsFor(g, w, r) && HoldsFor(g, v, r)
  }

  predicate HoldsFor(g: Gate, w: Writer, r: RoomId) {
    w in g.jobs && g.jobs[w].room == r && Holds(g.jobs[w].stage)
  }

  predicate UsesFor(g: Gate, w: Writer, r: RoomId) {
    w in g.jobs && g.jobs[w].room == r && Uses(g.jobs[w].stage)
  }

  lemma {:induction false} ExclusiveAfter(g: Gate, es: seq<GateEvent>, r: RoomId)
    requires Exclusive(g) && Quota(g) && QuotaRun(g, es)
    ensures GateRuns(g, es) && !Overlap(GateOutcome(g, es), r)
  {
    QuotaHolds(g, es);
    ExclusiveRun(g, es);
    var g' := GateOutcome(g, es);
    forall w, v | HoldsFor(g', w, r) && HoldsFor(g', v, r) ensures w == v { SameRoomSameWriter(g', w, v); }
  }

  /** There is always another number. */
  lemma Unheard(s: set<nat>) returns (n: nat)
    ensures n !in s
  {
    n := 0;
    var rest := s;
    while rest != {}
      invariant rest <= s
      invariant forall k :: k in s && k !in rest ==> k < n
      decreases rest
    {
      var k :| k in rest;
      rest := rest - {k};
      n := if k < n then n else k + 1;
    }
  }

  /** With its entry gone, a room gets a second channel, and a second writer through it. */
  lemma SecondWriter(g0: Gate, g: Gate, w: Writer, r: RoomId) returns (g': Gate)
    requires Leads(g0, g) && Exclusive(g) && r !in g.serializers && HoldsFor(g, w, r)
    ensures Leads(g0, g') && Overlap(g', r)
  {
    var v := Unheard(g.jobs.Keys);
    var ch := Unheard(g.made);
    var g1 := LeadOn(g0, g, Spawn(v, r, [], None));
    var g2 := LeadOn(g0, g1, Fetch(v, ch));
    NotFull(g, ch);
    g' := LeadOn(g0, g2, Acquire(v));
    assert HoldsFor(g', w, r) && HoldsFor(g', v, r);
  }

  lemma NotFull(g: Gate, ch: Chan)
    requires Exclusive(g) && ch !in g.made
    ensures ch !in g.full
  {
    forall w ensures !HoldsSlot(g, w, ch) { assert HolderAt(g, w); }
  }

  /** A writer that uses its channel holds it, finds it held by a writer of its own room, or can fill it. */
  lemma FirstWriter(g: Gate, r: RoomId, w: Writer) returns (g': Gate, v: Writer)
    requires Exclusive(g) && Quota(g) && UsesFor(g, w, r)
    ensures Leads(GateStep(g, Drop(r)), g') && Exclusive(g') && r !in g'.serializers && HoldsFor(g', v, r)
  {
    var d := GateStep(g, Drop(r));
    LeadsHere(d);
    ExclusiveStep(g, Drop(r));
    g', v := d, w;
    if g.jobs[w].stage.Fetched? {
      assert CurrentAt(g, w);
      var ch := g.jobs[w].stage.ch;
      if ch in g.full {
        v :| HoldsSlot(g, v, ch);
        assert CurrentAt(g, v);
      } else {
        g' := LeadOn(d, d, Acquire(w));
        ExclusiveStep(d, Acquire(w));
      }
    }
  }

  /**
   * Deleting a room's serializer entry lets two of its writers between acquire and release at once, in
   * some continuation that respects the hypotheses, exactly when a writer of the room uses its channel.
   */
  lemma DropSplitsTheRoomIff(g: Gate, r: RoomId)
    requires Exclusive(g) && Quota(g)
    ensures (exists g' :: Leads(GateStep(g, Drop(r)), g') && Overlap(g', r)) <==> (exists w :: UsesFor(g, w, r))
  {
    var d := GateStep(g, Drop(r));
    if w :| UsesFor(g, w, r) {
      var g1, v := FirstWriter(g, r, w);
      var g2 := SecondWriter(d, g1, v, r);
      assert Leads(d, g2) && Overlap(g2, r);
    } else {
      forall w | w in g.jobs && g.jobs[w].room == r ensures !Uses(g.jobs[w].stage) { assert !UsesFor(g, w, r); }
      ExclusiveStep(g, Drop(r));
      QuotaStep(g, Drop(r));
      forall g' | Leads(d, g') ensures !Overlap(g', r) {
        var es :| QuotaRun(d, es) && GateRuns(d, es) && GateOutcome(d, es) == g';
        ExclusiveAfter(d, es, r);
      }
    }
  }

  // ---------------------------------------------------------------- why the hypotheses are there

  ghost predicate Reached(max: nat, g: Gate) {
    exists es :: GateRuns(GateInit(max), es) && GateOutcome(GateInit(max), es) == g
  }

  lemma {:induction false} GateRunsSplit(g: Gate, es: seq<GateEvent>, more: seq<GateEvent>)
    requires GateRuns(g, es) && GateRuns(GateOutcome(g, es), more)
    ensures GateRuns(g, es + more) && GateOutcome(g, es + more) == GateOutcome(GateOutcome(g, es), more)
    decreases |es|
  {
    if es == [] {
      assert es + more == more;
    } else {
      assert (es + more)[0] == es[0] && (es + more)[1..] == es[1..] + more;
      GateRunsSplit(GateStep(g, es[0]), es[1..], more);
    }
  }

  lemma Reach(max: nat, g: Gate, e: GateEvent) returns (g': Gate)
    requires Reached(max, g) && GateEnabled(g, e)
    ensures g' == GateStep(g, e) && Reached(max, g')
  {
    var es :| GateRuns(GateInit(max), es) && GateOutcome(GateInit(max), es) == g;
    g' := GateStep(g, e);
    assert [e][1..] == [];
    assert GateRuns(g', []) && GateOutcome(g', []) == g';
    assert GateRuns(g, [e]) && GateOutcome(g, [e]) == g';
    GateRunsSplit(GateInit(max), es, [e]);
  }

  /** A writer fetches its channel, fills it, and passes the check. */
  lemma GetCleared(max: nat, g: Gate, w: Writer, r: RoomId, u: Blob, ch: Chan, unreadable: bool) returns (g': Gate)
    requires Reached(max, g) && w !in g.jobs && r !in g.serializers && ch !in g.made && ch !in g.full
    requires unreadable || RoomStorageBytes(g.tables, r) + |u| <= g.max
    ensures Reached(max, g') && g'.tables == g.tables && g'.max == g.max
    ensures g'.jobs == g.jobs[w := Job(r, u, None, Cleared(ch))]
    ensures g'.serializers == g.serializers[r := ch] && g'.made == g.made + {ch} && g'.full == g.full + {ch}
  {
    var g1 := Reach(max, g, Spawn(w, r, u, None));
    var g2 := Reach(max, g1, Fetch(w, ch));
    var g3 := Reach(max, g2, Acquire(w));
    g' := Reach(max, g3, Check(w, unreadable));
  }

  /** A fresh room that one call to EnsureRoom made. */
  lemma FreshRoom(max: nat, r: RoomId, hash: KeyHash, now: Time) returns (g: Gate)
    requires Proper(now)
    ensures Reached(max, g) && g == GateInit(max).(tables := EnsureRoom(EMPTY_TABLES, r, hash, now).0)
  {
    assert GateRuns(GateInit(max), []) && GateOutcome(GateInit(max), []) == GateInit(max);
    g := Reach(max, GateInit(max), Other(Ensure(r, hash, now)));
  }

  /** An unreadable storage_bytes lets through an update larger than the whole quota. */
  lemma UnreadableQuotaOverflows(max: nat, r: RoomId, hash: KeyHash, now: Time, u: Blob)
    requires Proper(now) && |u| > max
    ensures exists g :: Reached(max, g) && RoomStorageBytes(g.tables, r) > max
  {
    var g1 := FreshRoom(max, r, hash, now);
    var g2 := GetCleared(max, g1, 0, r, u, 0, true);
    var g3 := Reach(max, g2, Write(0, now, false));
    assert RoomStorageBytes(g3.tables, r) == |u|;
  }

  /** Deleting a serializer entry in use lets two writers pass the same check, and the second overflows. */
  lemma DroppedSerializerOverflows(max: nat, r: RoomId, hash: KeyHash, now: Time, u: Blob)
    requires Proper(now) && 0 < |u| <= max < 2 * |u|
    ensures exists g :: Reached(max, g) && RoomStorageBytes(g.tables, r) > max
  {
    var g1 := FreshRoom(max, r, hash, now);
    var g2 := GetCleared(max, g1, 0, r, u, 0, false);
    var g3 := Reach(max, g2, Drop(r));
    var g4 := GetCleared(max, g3, 1, r, u, 1, false);
    var g5 := Reach(max, g4, Write(0, now, false));
    var g6 := Reach(max, g5, Write(1, now, false));
    assert RoomStorageBytes(g6.tables, r) == 2 * |u|;
  }

  // ---------------------------------------------------------------- what the quota does not bound

  /** No writer w or later yet, no slot taken, channel 0 for every room served so far. */
  predicate Idle(g: Gate, w: Writer) {
    && (forall v :: v in g.jobs ==> v < w)
    && g.full == {}
    && g.made <= {0}
    && forall r :: r in g.serializers ==> g.serializers[r] == 0 && 0 in g.made
  }

  /** One writer on its own, from spawn to release. */
  lemma WriteAlone(max: nat, g: Gate, w: Writer, r: RoomId, blob: Blob, snapshot: Option<int>, now: Time) returns (g': Gate)
    requires Leads(GateInit(max), g) && Idle(g, w) && Proper(now) && g.max == max
    requires r in g.serializers || g.made == {}
    requires RoomStorageBytes(g.tables, r) + |blob| <= max
    ensures Leads(GateInit(max), g') && Idle(g', w + 1) && g'.max == max && r in g'.serializers
    ensures g'.tables == Apply(g.tables, JobTx(Job(r, blob, snapshot, Started), now))
  {
    var g1 := LeadOn(GateInit(max), g, Spawn(w, r, blob, snapshot));
    var g2 := LeadOn(GateInit(max), g1, Fetch(w, if g.made == {} then 0 else 1));
    var g3 := LeadOn(GateInit(max), g2, Acquire(w));
    var g4 := LeadOn(GateInit(max), g3, Check(w, false));
    var g5 := LeadOn(GateInit(max), g4, Write(w, now, false));
    g' := LeadOn(GateInit(max), g5, Release(w));
  }

  /** A room is made, u and v are stored, then a snapshot based on u alone, then x. */
  function Retaining(r: RoomId, hash: KeyHash, now: Time, u: Blob, v: Blob, state: Blob, x: Blob): Tables {
    Apply(Apply(Apply(Apply(Apply(EMPTY_TABLES,
      Ensure(r, hash, now)), Append(r, u, now)), Append(r, v, now)), Snapshot(r, state, 1, now)), Append(r, x, now))
  }

  lemma RetainedIsNotCounted(r: RoomId, hash: KeyHash, now: Time, u: Blob, v: Blob, state: Blob, x: Blob)
    ensures
      var t := Retaining(r, hash, now, u, v, state, x);
      r in t.rooms && RoomStorageBytes(t, r) == |state| + |x| && TrueBytes(t, r) == |v| + |state| + |x|
  {
    var t := Retaining(r, hash, now, u, v, state, x);
    assert t.updates == map[(r, 2) := v, (r, 3) := x];
    assert StoredBytes(t, r, 0) == 0 && StoredBytes(t, r, 1) == 0;
    assert StoredBytes(t, r, 2) == |v| && StoredBytes(t, r, 3) == |v| + |x|;
  }

  /**
   * The quota bounds storage_bytes, not the bytes truly stored: a run that meets every hypothesis of
   * QuotaIsRespected stores more than roomMaxStorageBytes, because a snapshot forgets what it retains.
   */
  lemma QuotaDoesNotBoundTheTruth(max: nat, r: RoomId, hash: KeyHash, now: Time, u: Blob, v: Blob, state: Blob, x: Blob)
    requires Proper(now) && |u| + |v| + |state| <= max && |state| + |x| <= max < |v| + |state| + |x|
    ensures exists g :: Leads(GateInit(max), g) && r in g.tables.rooms && RoomStorageBytes(g.tables, r) <= max < TrueBytes(g.tables, r)
  {
    LeadsHere(GateInit(max));
    var g0 := LeadOn(GateInit(max), GateInit(max), Other(Ensure(r, hash, now)));
    var g1 := WriteAlone(max, g0, 0, r, u, None, now);
    var g2 := WriteAlone(max, g1, 1, r, v, None, now);
    var g3 := WriteAlone(max, g2, 2, r, state, Some(1), now);
    var g4 := WriteAlone(max, g3, 3, r, x, None, now);
    RetainedIsNotCounted(r, hash, now, u, v, state, x);
    assert g4.tables == Retaining(r, hash, now, u, v, state, x);
    assert RoomStorageBytes(g4.tables, r) <= max < TrueBytes(g4.tables, r);
  }
}
