/**
 * The adoption journal (`journal.rs`): whole snapshots per transaction and one active pointer, with
 * a crash or an I/O error allowed before and after every write.
 */
module AdoptionJournal {
  import opened Lists

  /** A 64-digit lower-case hexadecimal id is a digest; digests are taken to be injective. */
  datatype Id = Digest(text: string) | Malformed(raw: string)

  datatype TransactionState =
    Planned | BackedUp | Applying | InstalledUnverified | Verified | Restoring | Restored | RecoveryRequired

  datatype Entry = Entry(operationIndex: nat, root: string, pathOk: bool, before: Id, after: Id)

  /** `claimsVerified` stands for a receipt that carries a verified result. */
  datatype Journal = Journal(
    version: nat, tx: Id, sequence: nat, plan: string, backup: Id, entries: seq<Entry>, packages: nat,
    state: TransactionState, claimsVerified: bool, restore: bool)

  /** A journal file: a whole snapshot, or bytes that the checksum or the schema refuses. */
  datatype File = Snapshot(record: Journal) | Corrupt

  datatype ActiveFile = Absent | Pointer(tx: Id) | Garbled

  datatype Read = Missing | Accepted(record: Journal) | Refused

  datatype Outcome = Ok | Err | Crashed

  const U64_MAX: nat := 0xFFFF_FFFF_FFFF_FFFF
  const MAX_ENTRIES := 256

  /** Where a sync is interrupted; `published` says whether a failing write still took effect. */
  datatype Fault =
    | NoFault
    | StoreMoved                       // `verify` fails
    | RefusedBeforeWrite               // serialisation, schema or size limit
    | CrashBeforeJournal
    | JournalWriteFails(published: bool)
    | CrashAfterJournal
    | ReadBackFails
    | HookFails
    | CrashBeforePointer
    | PointerWriteFails(published: bool)
    | CrashAfterPointer

  /** A fault that never strikes this sync: only an initial one reaches the hook and the pointer. */
  predicate Harmless(f: Fault, sequence: nat) {
    || f.NoFault?
    || (sequence > 0 && (f.HookFails? || f.CrashBeforePointer? || f.PointerWriteFails? || f.CrashAfterPointer?))
  }

  /** The sync gets as far as replacing the journal file. */
  predicate Published(locked: bool, sequence: nat, f: Fault) {
    && locked && sequence < U64_MAX && !f.StoreMoved? && !f.RefusedBeforeWrite? && !f.CrashBeforeJournal?
    && f != JournalWriteFails(false)
  }

  /** An initial sync under this fault gets as far as replacing the active pointer, once the record is read back. */
  predicate Points(f: Fault) {
    f.NoFault? || f == PointerWriteFails(true) || f.CrashAfterPointer?
  }

  predicate Terminal(s: TransactionState) {
    s in {InstalledUnverified, Verified, Restored}
  }

  predicate GoodEntry(e: Entry, i: nat) {
    e.operationIndex == i && e.root in {"project", "home"} && e.before.Digest? && e.after.Digest? && e.pathOk
  }

  /** What `read` accepts as the journal of `id`; a persisted verified result is never accepted. */
  ghost predicate Readable(id: Id, j: Journal) {
    && id.Digest? && j.state != Verified && !j.claimsVerified
    && j.version == 1 && j.sequence != 0 && j.tx == id && j.tx == Digest(j.plan) && j.backup.Digest?
    && (j.entries != [] || j.packages > 0 || j.restore) && |j.entries| <= MAX_ENTRIES
    && forall i :: 0 <= i < |j.entries| ==> InOrder(j.entries[i], i)
  }

  /** The entry has its own index, one of the two roots, a confined path and both digests. */
  ghost predicate InOrder(e: Entry, i: nat) {
    e.operationIndex == i && (e.root == "project" || e.root == "home") && e.pathOk && e.before.Digest?
        && e.after.Digest?
  }

  /** Both kinds of files of a store. */
  datatype Files = Files(active: ActiveFile, journals: map<Id, File>)

  /** The files after a sync of `j` that meets this fault. */
  ghost function AfterSync(v: Files, locked: bool, j: Journal, f: Fault): (w: Files) {
    var next := j.(sequence := j.sequence + 1);
    if !Published(locked, j.sequence, f) then v
    else Files(if j.sequence == 0 && Points(f) && Readable(j.tx, next) then Pointer(j.tx) else v.active,
               v.journals[j.tx := Snapshot(next)])
  }

  /** The sync gets as far as the point at which the process is killed. */
  ghost predicate CrashMet(locked: bool, j: Journal, f: Fault) {
    && locked && j.sequence < U64_MAX
    && (f.CrashBeforeJournal? || f.CrashAfterJournal?
        || ((f.CrashBeforePointer? || f.CrashAfterPointer?) && j.sequence == 0
            && Readable(j.tx, j.(sequence := j.sequence + 1))))
  }

  /** The active transaction is readable. */
  ghost predicate ActiveRead(v: Files) {
    && v.active.Pointer? && v.active.tx in v.journals && v.journals[v.active.tx].Snapshot?
    && Readable(v.active.tx, v.journals[v.active.tx].record)
  }

  /** The active transaction has ended. */
  ghost predicate ActiveEnded(v: Files) {
    && ActiveRead(v)
    && var state := v.journals[v.active.tx].record.state;
       state == InstalledUnverified || state == Verified || state == Restored
  }

  /** What `ensure_idle` lets pass. */
  ghost predicate Idle(v: Files, candidate: Id) {
    v.active.Absent? || (ActiveRead(v) && v.active.tx == candidate) || ActiveEnded(v)
  }

  /** The journal object a caller mutates; `sync` increments its sequence before anything else. */
  class Record {
    var j: Journal
    constructor (j: Journal)
      ensures this.j == j
    {
      this.j := j;
    }
  }

  class Store {
    const locked: bool
    var journals: map<Id, File>
    var active: ActiveFile

    constructor (locked: bool)
      ensures this.locked == locked && journals == map[] && active == Absent && Backed()
    {
      this.locked, journals, active := locked, map[], Absent;
    }

    ghost function View(): (v: Files)
      reads this
    {
      Files(active, journals)
    }

    /** The active pointer never names a transaction without a journal file. */
    ghost predicate Backed()
      reads this
    {
      active.Pointer? ==> active.tx in journals
    }

    /** The active transaction can be read back. */
    ghost predicate ActiveReadable()
      reads this
    {
      active.Pointer? ==>
        active.tx in journals && journals[active.tx].Snapshot? && Readable(active.tx, journals[active.tx].record)
    }

    method ReadJournal(id: Id) returns (r: Read)
      ensures r.Accepted? <==> id in journals && journals[id].Snapshot? && Readable(id, journals[id].record)
      ensures r.Accepted? ==> r.record == journals[id].record
      ensures r.Missing? <==> id.Digest? && id !in journals
    {
      if !id.Digest? {
        return Refused;
      }
      if id !in journals {
        return Missing;
      }
      if journals[id].Corrupt? {
        return Refused;
      }
      var j := journals[id].record;
      if j.state == Verified || j.claimsVerified {
        return Refused;
      }
      if j.version != 1 || j.sequence == 0 || j.tx != id || (j.entries == [] && j.packages == 0 && !j.restore)
         || |j.entries| > MAX_ENTRIES || j.tx != Digest(j.plan) || !j.backup.Digest? {
        return Refused;
      }
      for i := 0 to |j.entries|
        invariant forall k :: 0 <= k < i ==> GoodEntry(j.entries[k], k)
      {
        if !GoodEntry(j.entries[i], i) {
          return Refused;
        }
      }
      r := Accepted(j);
    }

    /** `ensure_idle`: the active transaction is the candidate itself or has ended. */
    method EnsureIdle(candidate: Id) returns (ok: bool)
      ensures ok <==> Idle(View(), candidate)
    {
      if active.Absent? {
        return true;
      }
      if active.Garbled? {
        return false;
      }
      var prior := ReadJournal(active.tx);
      ok := prior.Accepted? && (active.tx == candidate || Terminal(prior.record.state));
    }

    /**
     * One sync of the journal. Whatever interrupts it, other transactions are untouched, this one's file is
     * the old or the new snapshot whole, and the pointer moves only to a snapshot that was read back.
     */
    method Sync(record: Record, fault: Fault) returns (o: Outcome)
      requires Backed()
      modifies this`journals, this`active, record`j
      ensures Backed() && View() == AfterSync(old(View()), locked, old(record.j), fault)
      ensures record.j == if !fault.StoreMoved? && locked && old(record.j.sequence) < U64_MAX then
                            old(record.j).(sequence := old(record.j.sequence) + 1)
                          else old(record.j)
      ensures var tx, next := old(record.j.tx), Snapshot(old(record.j).(sequence := old(record.j.sequence) + 1));
              || journals == old(journals) || journals == old(journals)[tx := next]
      ensures var tx, next := old(record.j.tx), old(record.j).(sequence := old(record.j.sequence) + 1);
              || active == old(active)
              || (old(record.j.sequence) == 0 && active == Pointer(tx) && Readable(tx, next) && tx in journals
                  && journals[tx] == Snapshot(next))
      ensures o.Ok? <==> Harmless(fault, old(record.j.sequence)) && locked && old(record.j.sequence) < U64_MAX
                         && Readable(old(record.j.tx), old(record.j).(sequence := old(record.j.sequence) + 1))
      ensures o.Crashed? <==> CrashMet(locked, old(record.j), fault)
      ensures o.Ok? ==> record.j.sequence == old(record.j.sequence) + 1 && Readable(record.j.tx, record.j)
                        && record.j.tx in journals && journals[record.j.tx] == Snapshot(record.j)
      ensures o.Ok? && old(record.j.sequence) == 0 ==> active == Pointer(record.j.tx)
      ensures old(ActiveReadable()) ==>
              (ActiveReadable() <==>
                 || Readable(old(record.j.tx), old(record.j).(sequence := old(record.j.sequence) + 1))
                 || old(active) != Pointer(old(record.j.tx))
                 || !Published(locked, old(record.j.sequence), fault))
    {
      o := SyncWithHook(record, fault);
    }

    /** The steps, in their order, and the files they leave. */
    method SyncWithHook(record: Record, fault: Fault) returns (o: Outcome)
      requires Backed()
      modifies this`journals, this`active, record`j
      ensures View() == AfterSync(old(View()), locked, old(record.j), fault)
      ensures record.j == if !fault.StoreMoved? && locked && old(record.j.sequence) < U64_MAX then
                            old(record.j).(sequence := old(record.j.sequence) + 1)
                          else old(record.j)
      ensures o.Ok? <==> Harmless(fault, old(record.j.sequence)) && locked && old(record.j.sequence) < U64_MAX
                         && Readable(old(record.j.tx), old(record.j).(sequence := old(record.j.sequence) + 1))
      ensures o.Ok? ==> record.j.sequence == old(record.j.sequence) + 1
      ensures o.Crashed? <==> CrashMet(locked, old(record.j), fault)
    {
      if fault.StoreMoved? || !locked {
        return Err;
      }
      var initial := record.j.sequence == 0;
      if record.j.sequence >= U64_MAX {
        return Err;
      }
      record.j := record.j.(sequence := record.j.sequence + 1);
      var tx := record.j.tx;
      if fault.RefusedBeforeWrite? {
        return Err;
      }
      if fault.CrashBeforeJournal? {
        return Crashed;
      }
      if fault == JournalWriteFails(false) {
        return Err;
      }
      journals := journals[tx := Snapshot(record.j)];
      if fault == JournalWriteFails(true) {
        return Err;
      }
      if fault.CrashAfterJournal? {
        return Crashed;
      }
      var durable := ReadJournal(tx);
      if fault.ReadBackFails? || !durable.Accepted? || durable.record.sequence != record.j.sequence {
        return Err;
      }
      if initial {
        if fault.HookFails? {
          return Err;
        }
        if fault.CrashBeforePointer? {
          return Crashed;
        }
        if fault == PointerWriteFails(false) {
          return Err;
        }
        active := Pointer(tx);
        if fault == PointerWriteFails(true) {
          return Err;
        }
        if fault.CrashAfterPointer? {
          return Crashed;
        }
      }
      o := Ok;
    }
  }

  // ---------------------------------------------------------------- whole runs

  /** One writer's call: an initial sync asks `ensure_idle` first, a later one does not. */
  datatype Call = Call(record: Journal, fault: Fault)

  /** The files after one call. */
  ghost function AfterCall(v: Files, locked: bool, c: Call): (w: Files) {
    if c.record.sequence == 0 && !Idle(v, c.record.tx) then v else AfterSync(v, locked, c.record, c.fault)
  }

  /** The files after the first `k` calls. */
  ghost function AfterCalls(v: Files, locked: bool, calls: seq<Call>, k: nat): (w: Files)
    requires k <= |calls|
  {
    if k == 0 then v else AfterCall(AfterCalls(v, locked, calls, k - 1), locked, calls[k - 1])
  }

  /** A transaction that is active has a journal file. */
  ghost predicate PointerBacked(v: Files) {
    v.active.Pointer? ==> v.active.tx in v.journals
  }

  /** The pointer stays, or an initial sync moves it to its own transaction, whose new snapshot is on disk and
      readable, from nothing, from itself, or from a transaction that has ended. */
  ghost predicate FairStep(v: Files, c: Call, w: Files) {
    || w.active == v.active
    || (&& c.record.sequence == 0 && w.active == Pointer(c.record.tx) && ActiveRead(w)
        && (v.active.Absent? || v.active == Pointer(c.record.tx) || ActiveEnded(v)))
  }

  /** Only the caller's own transaction is written, to its whole next snapshot. */
  ghost predicate OwnStep(v: Files, c: Call, w: Files) {
    || w.journals == v.journals
    || w.journals == v.journals[c.record.tx := Snapshot(c.record.(sequence := c.record.sequence + 1))]
  }

  lemma CallIsFair(v: Files, locked: bool, c: Call)
    ensures FairStep(v, c, AfterCall(v, locked, c)) && OwnStep(v, c, AfterCall(v, locked, c))
    ensures PointerBacked(v) ==> PointerBacked(AfterCall(v, locked, c))
  {
  }

  /** Over any sequence of calls, interrupted anywhere: the pointer always names a transaction with a journal, and no
      call moves it off a transaction that has not ended or writes another transaction's journal. */
  lemma {:induction false} CallsAreFair(v: Files, locked: bool, calls: seq<Call>, k: nat)
    requires k <= |calls| && PointerBacked(v)
    ensures PointerBacked(AfterCalls(v, locked, calls, k))
    ensures k > 0 ==> var before, after := AfterCalls(v, locked, calls, k - 1), AfterCalls(v, locked, calls, k);
                      FairStep(before, calls[k - 1], after) && OwnStep(before, calls[k - 1], after)
  {
    if k > 0 {
      CallsAreFair(v, locked, calls, k - 1);
      CallIsFair(AfterCalls(v, locked, calls, k - 1), locked, calls[k - 1]);
    }
  }

  /** The call is let through, nothing strikes, and the new snapshot can be read back. */
  ghost predicate Lands(v: Files, locked: bool, c: Call) {
    && (c.record.sequence == 0 ==> Idle(v, c.record.tx))
    && Harmless(c.fault, c.record.sequence) && locked && c.record.sequence < U64_MAX
    && Readable(c.record.tx, c.record.(sequence := c.record.sequence + 1))
  }

  /** One call: the move of the pointer, if any, is stated over the files before and after. */
  method Attempt(store: Store, call: Call) returns (ok: bool)
    requires store.Backed()
    modifies store
    ensures store.Backed() && store.View() == AfterCall(old(store.View()), store.locked, call)
    ensures FairStep(old(store.View()), call, store.View()) && OwnStep(old(store.View()), call, store.View())
    ensures ok <==> Lands(old(store.View()), store.locked, call)
    ensures ok ==> store.View() == AfterSync(old(store.View()), store.locked, call.record, NoFault)
  {
    CallIsFair(store.View(), store.locked, call);
    ok := true;
    if call.record.sequence == 0 {
      ok := store.EnsureIdle(call.record.tx);
    }
    if ok {
      var record := new Record(call.record);
      var o := store.Sync(record, call.fault);
      ok := o.Ok?;
    }
  }

  /** No call moves the pointer off a transaction that has not ended, or writes another transaction's journal. */
  ghost predicate AllFair(v: Files, locked: bool, calls: seq<Call>) {
    forall k | 0 <= k < |calls| ::
      var before, after := AfterCalls(v, locked, calls, k), AfterCalls(v, locked, calls, k + 1);
      FairStep(before, calls[k], after) && OwnStep(before, calls[k], after)
  }

  lemma RunIsFair(v: Files, locked: bool, calls: seq<Call>)
    requires PointerBacked(v)
    ensures AllFair(v, locked, calls)
  {
    forall k | 0 <= k < |calls|
      ensures var before, after := AfterCalls(v, locked, calls, k), AfterCalls(v, locked, calls, k + 1);
              FairStep(before, calls[k], after) && OwnStep(before, calls[k], after)
    {
      CallsAreFair(v, locked, calls, k + 1);
    }
  }

  ghost predicate Answered(v: Files, locked: bool, calls: seq<Call>, oks: seq<bool>) {
    && |oks| <= |calls|
    && forall k | 0 <= k < |oks| :: oks[k] <==> Lands(AfterCalls(v, locked, calls, k), locked, calls[k])
  }

  lemma AnsweredGrows(v: Files, locked: bool, calls: seq<Call>, oks: seq<bool>, ok: bool)
    requires Answered(v, locked, calls, oks) && |oks| < |calls|
    requires ok <==> Lands(AfterCalls(v, locked, calls, |oks|), locked, calls[|oks|])
    ensures Answered(v, locked, calls, oks + [ok])
    ensures AfterCalls(v, locked, calls, |oks| + 1) == AfterCall(AfterCalls(v, locked, calls, |oks|), locked,
              calls[|oks|])
  {
  }

  /** Any sequence of calls, interrupted anywhere, leaves exactly the files `AfterCalls` describes. */
  method Perform(store: Store, calls: seq<Call>) returns (oks: seq<bool>)
    requires store.Backed()
    modifies store
    ensures store.Backed() && store.View() == AfterCalls(old(store.View()), store.locked, calls, |calls|)
    ensures |oks| == |calls| && Answered(old(store.View()), store.locked, calls, oks)
    ensures AllFair(old(store.View()), store.locked, calls)
  {
    ghost var v := store.View();
    oks := [];
    for k := 0 to |calls|
      invariant store.Backed() && |oks| == k && Answered(v, store.locked, calls, oks)
      invariant store.View() == AfterCalls(v, store.locked, calls, k)
    {
      var ok := Attempt(store, calls[k]);
      AnsweredGrows(v, store.locked, calls, oks, ok);
      oks := oks + [ok];
    }
    RunIsFair(v, store.locked, calls);
  }

  /** A sync that does replace the active transaction's readable snapshot with one `read` refuses: an initial sync,
      then a sync of the same transaction with a verified state, which the schema admits. */
  method VerifiedSyncHidesActive() returns (store: Store, first: Outcome, second: Outcome)
    ensures fresh(store) && first.Ok? && second.Err?
    ensures store.active.Pointer? && !store.ActiveReadable()
  {
    store := new Store(true);
    var planned := Journal(1, Digest("plan"), 0, "plan", Digest("backup"), [], 1, Planned, false, false);
    var record := new Record(planned);
    first := store.Sync(record, NoFault);
    record.j := record.j.(state := Verified);
    second := store.Sync(record, NoFault);
  }
}
