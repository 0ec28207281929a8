/** The audit table as a hash chain: how a row is bound to everything before it. */
module AuditChain {
  import opened Models
  import opened Clock
  import opened JobStore

  datatype Row = Row(sequence: nat, occurredAt: string, eventType: string, payload: string,
                     previousHash: string, eventHash: string)

  const SEPARATOR: char := 31 as char
  const GENESIS: string := Zeros(64)

  function Zeros(n: nat): string {
    if n == 0 then "" else Zeros(n - 1) + "0"
  }

  /** `str(n)` */
  function Decimal(n: nat): (s: string)
    ensures s != ""
  {
    var digit := [('0' as int + n % 10) as char];
    if n < 10 then digit else Decimal(n / 10) + digit
  }

  /** The five fields joined with 0x1f. */
  function Material(r: Row): string {
    Decimal(r.sequence) + ([SEPARATOR] + (r.previousHash + ([SEPARATOR] + (r.occurredAt + ([SEPARATOR] +
    (r.eventType + ([SEPARATOR] + r.payload)))))))
  }

  function LastHash(rows: seq<Row>): string {
    if rows == [] then GENESIS else rows[|rows| - 1].eventHash
  }

  /** Row `i` names its predecessor's hash and carries the hash of its own material. */
  predicate Linked(hash: string -> string, rows: seq<Row>, i: nat)
    requires i < |rows|
  {
    rows[i].previousHash == LastHash(rows[..i]) && rows[i].eventHash == hash(Material(rows[i]))
  }

  predicate ChainOk(hash: string -> string, rows: seq<Row>) {
    forall i | 0 <= i < |rows| :: Linked(hash, rows, i)
  }

  // ---------- appending ----------

  function NextSequence(rows: seq<Row>): nat {
    if rows == [] then 1 else rows[|rows| - 1].sequence + 1
  }

  function NewRow(hash: string -> string, rows: seq<Row>, occurredAt: string, eventType: string, payload: string): Row {
    var draft := Row(NextSequence(rows), occurredAt, eventType, payload, LastHash(rows), "");
    draft.(eventHash := hash(Material(draft)))
  }

  /** Appending keeps the chain intact. */
  lemma AppendKeepsChain(hash: string -> string, rows: seq<Row>, occurredAt: string, eventType: string, payload: string)
    requires ChainOk(hash, rows)
    ensures ChainOk(hash, rows + [NewRow(hash, rows, occurredAt, eventType, payload)])
  {
    var rows' := rows + [NewRow(hash, rows, occurredAt, eventType, payload)];
    forall i | 0 <= i < |rows'| ensures Linked(hash, rows', i) {
      assert rows'[..i] == rows[..i];
      if i < |rows| { assert Linked(hash, rows, i); } else { assert rows[..i] == rows; }
    }
  }

  /** A chain cut short still verifies: the check alone does not notice a missing tail. */
  lemma PrefixVerifies(hash: string -> string, rows: seq<Row>, k: nat)
    requires ChainOk(hash, rows) && k <= |rows|
    ensures ChainOk(hash, rows[..k])
  {
    forall i | 0 <= i < k ensures Linked(hash, rows[..k], i) {
      assert Linked(hash, rows, i);
      assert rows[..k][..i] == rows[..i];
    }
  }

  /** The parts with the unit separator, 0x1f, between them. */
  function Joined(parts: seq<string>): string {
    if parts == [] then "" else if |parts| == 1 then parts[0]
    else parts[0] + [31 as char] + Joined(parts[1..])
  }

  /**
   In an intact table each row hashes its number, the hash before it, its time, its type and its
   payload, in this order; before the first row stand sixty-four zeros.
   */
  lemma RowIsBound(hash: string -> string, rows: seq<Row>, i: nat)
    requires ChainOk(hash, rows) && i < |rows|
    ensures var r := rows[i];
            && r.eventHash == hash(Joined([Decimal(r.sequence), r.previousHash, r.occurredAt, r.eventType, r.payload]))
            && (i > 0 ==> r.previousHash == rows[i - 1].eventHash)
            && (i == 0 ==> |r.previousHash| == 64 && forall c | c in r.previousHash :: c == '0')
  {
    var r := rows[i];
    assert Linked(hash, rows, i);
    ManyZeros(64);
    var parts := [Decimal(r.sequence), r.previousHash, r.occurredAt, r.eventType, r.payload];
    assert parts[1..][1..][1..][1..] == [r.payload];
    assert Joined(parts[1..][1..][1..]) == r.eventType + ([SEPARATOR] + r.payload);
    assert Joined(parts[1..][1..]) == r.occurredAt + ([SEPARATOR] + Joined(parts[1..][1..][1..]));
    assert Joined(parts[1..]) == r.previousHash + ([SEPARATOR] + Joined(parts[1..][1..]));
    assert Joined(parts) == Material(r);
  }

  lemma {:induction false} ManyZeros(n: nat)
    ensures |Zeros(n)| == n && forall c | c in Zeros(n) :: c == '0'
  {
    if n > 0 { ManyZeros(n - 1); }
  }

  // ---------- the join determines its fields ----------

  predicate Plain(s: string) {
    SEPARATOR !in s
  }

  /** The first separator stands right after a plain head. */
  lemma FirstSeparator(u: string, a: string, x: string)
    requires Plain(a) && u == a + ([SEPARATOR] + x)
    ensures |a| < |u| && u[|a|] == SEPARATOR && forall i | 0 <= i < |a| :: u[i] != SEPARATOR
    ensures u[..|a|] == a && u[|a| + 1..] == x
  {
  }

  lemma SplitAtSeparator(a: string, x: string, b: string, y: string)
    requires Plain(a) && Plain(b)
    requires a + ([SEPARATOR] + x) == b + ([SEPARATOR] + y)
    ensures a == b && x == y
  {
    FirstSeparator(a + ([SEPARATOR] + x), a, x);
    FirstSeparator(a + ([SEPARATOR] + x), b, y);
  }

  lemma {:induction false} ZerosArePlain(n: nat)
    ensures Plain(Zeros(n))
  {
    if n > 0 { ZerosArePlain(n - 1); }
  }

  lemma {:induction false} DecimalIsPlain(n: nat)
    ensures Plain(Decimal(n))
  {
    if n >= 10 { DecimalIsPlain(n / 10); }
  }

  lemma {:induction false} DecimalIsInjective(m: nat, n: nat)
    requires Decimal(m) == Decimal(n)
    ensures m == n
  {
    var s, t := Decimal(m), Decimal(n);
    assert s[|s| - 1] == ('0' as int + m % 10) as char && t[|t| - 1] == ('0' as int + n % 10) as char;
    if m >= 10 && n >= 10 {
      assert s[..|s| - 1] == Decimal(m / 10) && t[..|t| - 1] == Decimal(n / 10);
      DecimalIsInjective(m / 10, n / 10);
    }
  }

  /** The fields that come before the payload contain no separator. */
  predicate Clean(r: Row) {
    Plain(r.previousHash) && Plain(r.occurredAt) && Plain(r.eventType)
  }

  lemma MaterialIsInjective(r: Row, q: Row)
    requires Clean(r) && Clean(q) && Material(r) == Material(q)
    ensures r.(eventHash := "") == q.(eventHash := "")
  {
    DecimalIsPlain(r.sequence);
    DecimalIsPlain(q.sequence);
    var r3, q3 := r.eventType + ([SEPARATOR] + r.payload), q.eventType + ([SEPARATOR] + q.payload);
    var r2, q2 := r.occurredAt + ([SEPARATOR] + r3), q.occurredAt + ([SEPARATOR] + q3);
    var r1, q1 := r.previousHash + ([SEPARATOR] + r2), q.previousHash + ([SEPARATOR] + q2);
    SplitAtSeparator(Decimal(r.sequence), r1, Decimal(q.sequence), q1);
    SplitAtSeparator(r.previousHash, r2, q.previousHash, q2);
    SplitAtSeparator(r.occurredAt, r3, q.occurredAt, q3);
    SplitAtSeparator(r.eventType, r.payload, q.eventType, q.payload);
    DecimalIsInjective(r.sequence, q.sequence);
  }

  // ---------- the last hash determines the log ----------

  /** The idealised hash: injective, and never the genesis value. */
  ghost predicate Ideal(hash: string -> string) {
    (forall x, y :: hash(x) == hash(y) ==> x == y) && (forall x :: hash(x) != GENESIS)
  }

  predicate AllClean(rows: seq<Row>) {
    forall i | 0 <= i < |rows| :: Clean(rows[i])
  }

  lemma OnlyEmptyEndsInGenesis(hash: string -> string, rows: seq<Row>)
    requires Ideal(hash) && ChainOk(hash, rows)
    ensures LastHash(rows) == GENESIS <==> rows == []
  {
    assert rows != [] ==> Linked(hash, rows, |rows| - 1);
  }

  lemma LastRowsAgree(hash: string -> string, a: seq<Row>, b: seq<Row>)
    requires Ideal(hash) && ChainOk(hash, a) && ChainOk(hash, b) && AllClean(a) && AllClean(b)
    requires a != [] && b != [] && LastHash(a) == LastHash(b)
    ensures var m, n := |a| - 1, |b| - 1;
            a[m] == b[n] && LastHash(a[..m]) == LastHash(b[..n])
  {
    var m, n := |a| - 1, |b| - 1;
    assert Linked(hash, a, m) && Linked(hash, b, n);
    MaterialIsInjective(a[m], b[n]);
  }

  lemma CleanPrefix(hash: string -> string, rows: seq<Row>, k: nat)
    requires ChainOk(hash, rows) && AllClean(rows) && k <= |rows|
    ensures ChainOk(hash, rows[..k]) && AllClean(rows[..k])
  {
    PrefixVerifies(hash, rows, k);
  }

  lemma SameFrontAndLast<T>(a: seq<T>, b: seq<T>)
    requires a != [] && b != [] && a[..|a| - 1] == b[..|b| - 1] && a[|a| - 1] == b[|b| - 1]
    ensures a == b
  {
    assert a == a[..|a| - 1] + [a[|a| - 1]] && b == b[..|b| - 1] + [b[|b| - 1]];
  }

  /** Two verifying logs that end in the same hash are the same log, row for row. */
  lemma {:induction false} LastHashBindsLog(hash: string -> string, a: seq<Row>, b: seq<Row>)
    requires Ideal(hash) && ChainOk(hash, a) && ChainOk(hash, b) && AllClean(a) && AllClean(b)
    requires LastHash(a) == LastHash(b)
    ensures a == b
  {
    OnlyEmptyEndsInGenesis(hash, a);
    OnlyEmptyEndsInGenesis(hash, b);
    if a != [] {
      var m, n := |a| - 1, |b| - 1;
      LastRowsAgree(hash, a, b);
      CleanPrefix(hash, a, m);
      CleanPrefix(hash, b, n);
      LastHashBindsLog(hash, a[..m], b[..n]);
      SameFrontAndLast(a, b);
    }
  }

  /** Any altered, dropped, added or reordered row shows in the last hash, or fails verification. */
  lemma TamperingShows(hash: string -> string, rows: seq<Row>, forged: seq<Row>)
    requires Ideal(hash) && ChainOk(hash, rows) && AllClean(rows) && AllClean(forged) && forged != rows
    ensures !ChainOk(hash, forged) || LastHash(forged) != LastHash(rows)
  {
    if ChainOk(hash, forged) && LastHash(forged) == LastHash(rows) { LastHashBindsLog(hash, forged, rows); }
  }

  // ---------- verify_audit_chain ----------

  /** `compare_digest` raises when either text is not ASCII. */
  datatype ChainVerdict = Intact | Broken | Raises

  /** The first `n` rows are linked, and their hashes can be compared. */
  predicate PassesTo(hash: string -> string, rows: seq<Row>, n: nat)
    requires n <= |rows|
  {
    forall i | 0 <= i < n :: Linked(hash, rows, i) && IsAscii(rows[i].eventHash)
  }

  lemma PassesAll(hash: string -> string, rows: seq<Row>)
    ensures PassesTo(hash, rows, |rows|)
            <==> ChainOk(hash, rows) && forall i | 0 <= i < |rows| :: IsAscii(rows[i].eventHash)
  {
  }

  lemma PassesMore(hash: string -> string, rows: seq<Row>, n: nat)
    requires n < |rows| && PassesTo(hash, rows, n)
    requires Linked(hash, rows, n) && IsAscii(rows[n].eventHash)
    ensures PassesTo(hash, rows, n + 1) && LastHash(rows[..n + 1]) == rows[n].eventHash
  {
  }

  lemma FailsAt(hash: string -> string, rows: seq<Row>, n: nat)
    requires n < |rows|
    ensures !Linked(hash, rows, n) ==> !ChainOk(hash, rows)
    ensures PassesTo(hash, rows, |rows|) ==> Linked(hash, rows, n) && IsAscii(rows[n].eventHash)
  {
  }

  /** A hash function into ASCII: what fails to be ASCII is not linked. */
  lemma NotAsciiNotOk(hash: string -> string, rows: seq<Row>, n: nat)
    requires n < |rows| && (!IsAscii(hash(Material(rows[n]))) || !IsAscii(rows[n].eventHash))
    ensures !Linked(hash, rows, n) || !IsAscii(rows[n].eventHash)
    ensures (forall m :: IsAscii(hash(m))) ==> !ChainOk(hash, rows)
  {
    if ChainOk(hash, rows) { assert Linked(hash, rows, n); }
  }

  method VerifyChain(hash: string -> string, rows: seq<Row>) returns (verdict: ChainVerdict)
    ensures verdict == Intact <==>
              ChainOk(hash, rows) && forall i | 0 <= i < |rows| :: IsAscii(rows[i].eventHash)
    ensures verdict == Broken ==> !ChainOk(hash, rows)
    ensures verdict == Raises && (forall m :: IsAscii(hash(m))) ==> !ChainOk(hash, rows)
  {
    PassesAll(hash, rows);
    var previous := GENESIS;
    for n := 0 to |rows|
      invariant previous == LastHash(rows[..n])
      invariant PassesTo(hash, rows, n)
    {
      FailsAt(hash, rows, n);
      if rows[n].previousHash != previous {
        return Broken;
      }
      var expected := hash(Material(rows[n]));
      if !IsAscii(expected) || !IsAscii(rows[n].eventHash) {
        NotAsciiNotOk(hash, rows, n);
        return Raises;
      }
      if expected != rows[n].eventHash {
        return Broken;
      }
      PassesMore(hash, rows, n);
      previous := rows[n].eventHash;
    }
    return Intact;
  }

  // ---------- the rows the store writes ----------

  function StateName(st: JobState): string {
    match st
    case Received => "received"
    case Validated => "validated"
    case Authorized => "authorized"
    case AwaitingConfirmation => "awaiting_confirmation"
    case Queued => "queued"
    case Running => "running"
    case Verifying => "verifying"
    case Succeeded => "succeeded"
    case Denied => "denied"
    case Rejected => "rejected"
    case Expired => "expired"
    case Cancelled => "cancelled"
    case Failed => "failed"
    case UnknownOutcome => "unknown_outcome"
  }

  function EventType(e: Event): string {
    match e
    case JobQueued(_, _, _) => "job.queued"
    case JobRunning(_, _) => "job.running"
    case JobMoved(_, target, _, _) => "job." + StateName(target)
    case LeaseExpired(_) => "job.unknown_outcome"
    case QueueExpired(_) => "job.expired"
    case ReconcileExhausted(_, _) => "job.reconcile_exhausted"
    case ConfirmationCreated(_, _, _, _) => "confirmation.created"
    case ConfirmationRejected(_, _, _) => "confirmation.rejected"
    case ConfirmationConsumed(_, _) => "confirmation.consumed"
    case ConfirmationCancelled(_, _) => "confirmation.cancelled"
    case PolicyDenied(_, _, _, _, _, _, _) => "policy.denied"
  }

  lemma StateNameIsPlain(st: JobState)
    ensures Plain(StateName(st))
  {
  }

  lemma PlainJoin(a: string, b: string)
    requires Plain(a) && Plain(b)
    ensures Plain(a + b)
  {
  }

  lemma MovedTypeIsPlain(st: JobState)
    ensures Plain("job." + StateName(st))
  {
    StateNameIsPlain(st);
    PlainJoin("job.", StateName(st));
  }

  lemma EventTypeIsPlain(e: Event)
    ensures Plain(EventType(e))
  {
    if e.JobMoved? { MovedTypeIsPlain(e.target); }
  }

  lemma {:induction false} DigitsArePlain(n: nat, width: nat)
    ensures Plain(Digits(n, width))
  {
    if width > 0 { DigitsArePlain(n / 10, width - 1); }
  }

  lemma IsoIsPlain(t: DateTime)
    ensures Plain(Iso(t))
  {
    DigitsArePlain(t.year, 4);
    DigitsArePlain(t.month, 2);
    DigitsArePlain(t.day, 2);
    DigitsArePlain(t.hour, 2);
    DigitsArePlain(t.minute, 2);
    DigitsArePlain(t.second, 2);
    DigitsArePlain(t.micro, 6);
  }

  /** What `_append_audit` is given: the time, the type and the payload as text. */
  datatype Entry = Entry(occurredAt: string, eventType: string, payload: string)

  /** `dump` is the canonical JSON of an event's payload. */
  function EntryOf(dump: Event -> string, t: DateTime, e: Event): Entry {
    Entry(Iso(t), EventType(e), dump(e))
  }

  function Entries(dump: Event -> string, log: seq<Event>, times: seq<DateTime>): seq<Entry>
    requires |log| == |times|
  {
    seq(|log|, i requires 0 <= i < |log| => EntryOf(dump, times[i], log[i]))
  }

  /** The audit table after these appends. */
  function Chained(hash: string -> string, entries: seq<Entry>): (rows: seq<Row>)
    ensures |rows| == |entries|
  {
    if entries == [] then []
    else
      var n := |entries| - 1;
      var rows := Chained(hash, entries[..n]);
      rows + [NewRow(hash, rows, entries[n].occurredAt, entries[n].eventType, entries[n].payload)]
  }

  predicate PlainEntry(e: Entry) {
    Plain(e.occurredAt) && Plain(e.eventType)
  }

  lemma EntryIsPlain(dump: Event -> string, t: DateTime, e: Event)
    ensures PlainEntry(EntryOf(dump, t, e))
  {
    EventTypeIsPlain(e);
    IsoIsPlain(t);
  }

  /** Every table the store can write verifies and is numbered 1, 2, 3, ... without a gap. */
  lemma {:induction false} WrittenTableVerifies(hash: string -> string, entries: seq<Entry>)
    ensures ChainOk(hash, Chained(hash, entries))
    ensures forall i | 0 <= i < |entries| :: Chained(hash, entries)[i].sequence == i + 1
  {
    if entries != [] {
      var n := |entries| - 1;
      var rows := Chained(hash, entries[..n]);
      WrittenTableVerifies(hash, entries[..n]);
      AppendKeepsChain(hash, rows, entries[n].occurredAt, entries[n].eventType, entries[n].payload);
      if n > 0 { assert rows[n - 1].sequence == n; }
    }
  }

  lemma CleanMore(hash: string -> string, rows: seq<Row>, e: Entry)
    requires (forall m :: Plain(hash(m))) && AllClean(rows) && Plain(LastHash(rows)) && PlainEntry(e)
    ensures var rows' := rows + [NewRow(hash, rows, e.occurredAt, e.eventType, e.payload)];
            AllClean(rows') && Plain(LastHash(rows'))
  {
  }

  lemma {:induction false} WrittenTableIsClean(hash: string -> string, entries: seq<Entry>)
    requires forall m :: Plain(hash(m))
    requires forall i | 0 <= i < |entries| :: PlainEntry(entries[i])
    ensures AllClean(Chained(hash, entries))
    ensures Plain(LastHash(Chained(hash, entries)))
  {
    ZerosArePlain(64);
    if entries != [] {
      var n := |entries| - 1;
      WrittenTableIsClean(hash, entries[..n]);
      CleanMore(hash, Chained(hash, entries[..n]), entries[n]);
    }
  }

  lemma {:induction false} RowOf(hash: string -> string, entries: seq<Entry>, i: nat)
    requires i < |entries|
    ensures var r := Chained(hash, entries)[i]; Entry(r.occurredAt, r.eventType, r.payload) == entries[i]
  {
    var n := |entries| - 1;
    if i < n { RowOf(hash, entries[..n], i); }
  }

  lemma EntryDeterminesEvent(dump: Event -> string, t: DateTime, e: Event, t': DateTime, e': Event)
    requires dump(e) == dump(e') && EventType(e) == EventType(e') ==> e == e'
    requires EntryOf(dump, t, e) == EntryOf(dump, t', e')
    ensures t == t' && e == e'
  {
    IsoIsInjective(t, t');
  }

  /** Equal last hashes: the same events at the same instants, given that distinct events of the two logs are dumped apart. */
  lemma LastHashBindsEvents(hash: string -> string, dump: Event -> string,
                            log: seq<Event>, times: seq<DateTime>, log': seq<Event>, times': seq<DateTime>)
    requires |log| == |times| && |log'| == |times'|
    requires Ideal(hash) && forall m :: Plain(hash(m))
    requires forall x, y | x in log && y in log' :: dump(x) == dump(y) && EventType(x) == EventType(y) ==> x == y
    requires LastHash(Chained(hash, Entries(dump, log, times))) == LastHash(Chained(hash, Entries(dump, log', times')))
    ensures log == log' && times == times'
  {
    var a, b := Entries(dump, log, times), Entries(dump, log', times');
    EntriesArePlain(dump, log, times);
    EntriesArePlain(dump, log', times');
    WrittenTableVerifies(hash, a);
    WrittenTableVerifies(hash, b);
    WrittenTableIsClean(hash, a);
    WrittenTableIsClean(hash, b);
    LastHashBindsLog(hash, Chained(hash, a), Chained(hash, b));
    forall i | 0 <= i < |log| ensures log[i] == log'[i] && times[i] == times'[i] {
      RowOf(hash, a, i);
      RowOf(hash, b, i);
      EntryDeterminesEvent(dump, times[i], log[i], times'[i], log'[i]);
    }
  }

  lemma EntriesArePlain(dump: Event -> string, log: seq<Event>, times: seq<DateTime>)
    requires |log| == |times|
    ensures forall i | 0 <= i < |log| :: PlainEntry(Entries(dump, log, times)[i])
  {
    forall i | 0 <= i < |log| ensures PlainEntry(Entries(dump, log, times)[i]) {
      EntryIsPlain(dump, times[i], log[i]);
    }
  }
}
