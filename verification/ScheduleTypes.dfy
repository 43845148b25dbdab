/** Values of the schedules subsystem: schedule rows, run rows, agent instances. */
module ScheduleTypes {
  import opened Basics

  type Id = string

  datatype Kind = CronKind | EveryKind | AtKind

  /** A schedule row; a cron job and a running attempt keep the copy they were started with. */
  datatype Schedule = Schedule(
    id: Id, slug: string, kind: Kind, enabled: bool,
    deleteAfterRun: bool, maxAttempts: Option<int>)

  /** What a schedule is saved with; what is left open takes its default. */
  datatype Definition = Definition(
    slug: string, kind: Kind, enabled: Option<bool>, deleteAfterRun: Option<bool>, maxAttempts: Option<int>)
  {
    function As(id: Id): Schedule {
      Schedule(id, slug, kind, enabled.UnwrapOr(true), deleteAfterRun.UnwrapOr(kind == AtKind), maxAttempts)
    }
  }

  /** The defaults: enabled, and deleted after its run if it is a one-shot schedule. */
  lemma SavedAs(def: Definition, id: Id)
    ensures var rec := def.As(id);
      && rec.id == id && rec.slug == def.slug && rec.kind == def.kind && rec.maxAttempts == def.maxAttempts
      && (rec.enabled <==> def.enabled != Some(false))
      && (rec.deleteAfterRun <==>
            def.deleteAfterRun == Some(true) || (def.deleteAfterRun == None && def.kind == AtKind))
  {
  }

  datatype Status = Queued | Admitted | Running | Succeeded | Failed | Skipped | TimedOut | Lost

  predicate Terminal(s: Status) {
    s in {Succeeded, Failed, Skipped, TimedOut, Lost}
  }

  /** The agent instance an attempt dispatches to; `InstanceId` is its rendered id. */
  datatype Instance = Instance(sid: Id, run: Id, attempt: nat)

  datatype RunRow = RunRow(
    sid: Id, instance: Instance, dispatchId: Option<string>,
    status: Status, error: Option<string>, attempt: nat)

  datatype Config = Config(
    maxConcurrentRuns: nat,
    maxAttempts: int,
    retryOn: set<string>,
    classify: string -> string)

  predicate IsTransient(category: string) {
    category in {"rate_limit", "overloaded", "network", "server_error"}
  }

  /** How many retries a record allows: its own override, else the configured default. */
  function Budget(rec: Schedule, cfg: Config): nat {
    var m := if rec.maxAttempts.Some? then rec.maxAttempts.value else cfg.maxAttempts;
    if m < 0 then 0 else m
  }

  // ---- Rendered instance ids ----

  function Digit(n: nat): char
    requires n < 10
  {
    "0123456789"[n]
  }

  function DigitValue(c: char): nat {
    if '0' <= c <= '9' then (c as int) - ('0' as int) else 0
  }

  function Decimal(n: nat): string {
    if n < 10 then [Digit(n)] else Decimal(n / 10) + [Digit(n % 10)]
  }

  function ReadDecimal(s: string): nat {
    if s == "" then 0 else 10 * ReadDecimal(s[..|s| - 1]) + DigitValue(s[|s| - 1])
  }

  lemma {:induction false} DecimalReadsBack(n: nat)
    ensures ReadDecimal(Decimal(n)) == n
  {
    if n < 10 {
      assert Decimal(n)[..0] == "";
    } else {
      var d := Decimal(n);
      assert d[..|d| - 1] == Decimal(n / 10);
      DecimalReadsBack(n / 10);
    }
  }

  function InstanceId(i: Instance): string {
    "schedule:" + i.sid + ":" + i.run + (if i.attempt == 0 then "" else ":" + Decimal(i.attempt))
  }

  /** ULIDs are 26 characters long, which is all that keeps the fields of an id apart. */
  predicate UlidShaped(i: Instance) {
    |i.sid| == 26 && |i.run| == 26
  }

  /** The parts of an id can be read off: for a retry its number comes last. */
  lemma InstanceIdReads(i: Instance)
    requires UlidShaped(i)
    ensures var s := InstanceId(i);
      && |s| >= 62 && s[..9] == "schedule:" && s[9..35] == i.sid && s[35] == ':' && s[36..62] == i.run
      && (i.attempt == 0 ==> |s| == 62)
      && (i.attempt > 0 ==> |s| > 63 && s[62] == ':' && ReadDecimal(s[63..]) == i.attempt)
  {
    var s := InstanceId(i);
    if i.attempt > 0 {
      assert s[63..] == Decimal(i.attempt);
      DecimalReadsBack(i.attempt);
      DecimalShown(i.attempt);
    }
  }

  lemma DecimalShown(n: nat)
    ensures Decimal(n) != ""
  {
  }

  /** Distinct runs and attempts never share an instance id. */
  lemma InstanceIdInjective(a: Instance, b: Instance)
    requires UlidShaped(a) && UlidShaped(b)
    requires InstanceId(a) == InstanceId(b)
    ensures a == b
  {
    var s, t := InstanceId(a), InstanceId(b);
    assert s[9..35] == a.sid && t[9..35] == b.sid;
    assert s[36..62] == a.run && t[36..62] == b.run;
    assert s[62..] == if a.attempt == 0 then "" else ":" + Decimal(a.attempt);
    assert t[62..] == if b.attempt == 0 then "" else ":" + Decimal(b.attempt);
    if a.attempt != 0 && b.attempt != 0 {
      assert s[62..][1..] == Decimal(a.attempt) && t[62..][1..] == Decimal(b.attempt);
      DecimalReadsBack(a.attempt);
      DecimalReadsBack(b.attempt);
    }
  }
}
