/** What the hourly schedule of `run_account` adds up to: which targets are
    attempted, in which order, how many records, sends, cooldowns, session
    saves and hourly waits a run produces, and why the daily limit never
    stops a batch with the configured constants. */
module Schedule {
  import opened Common
  import opened Inputs
  import opened Audit
  import opened Worker

  /** The events the schedule counts: cooldowns, session saves, hourly
      waits and fresh logins. */
  predicate Paced(e: Event)
  {
    e.Cooldown? || e.SaveSession? || e.WaitHour? || e.FreshLogin?
  }

  /** What every attempt adds to a trace: its own record and nothing else
      that is logged, and of the counted events one cooldown exactly when it
      succeeded. */
  ghost predicate OneRecord(a: AttemptOutcome)
  {
    && RecordsOf(a.events) == [a.record]
    && forall e {:trigger Occurrences(a.events, e)} :: Paced(e) ==>
         Occurrences(a.events, e) == if e == Cooldown && a.record.status == Success then 1 else 0
  }

  lemma AttemptOneRecord(target: string, w: TargetWorld, media: Option<seq<string>>, compose: Composer)
    ensures OneRecord(Attempt(target, w, media, compose))
  {
    forall e | Paced(e)
      ensures TraceOfOne(Attempt(target, w, media, compose), w, e)
    {
      AttemptTrace(target, w, media, compose, e);
    }
    AttemptTrace(target, w, media, compose, Cooldown);
  }

  lemma OutcomesOneRecord(targets: seq<string>, media: Option<seq<string>>, worlds: nat -> TargetWorld, compose: Composer)
    ensures forall k :: 0 <= k < |targets| ==> OneRecord(Outcomes(targets, media, worlds, compose)[k])
  {
    forall k | 0 <= k < |targets|
      ensures OneRecord(Outcomes(targets, media, worlds, compose)[k])
    {
      AttemptOneRecord(targets[k], worlds(k), media, compose);
    }
  }

  /** The records of a run of outcomes, in order. */
  function RecordsIn(outs: seq<AttemptOutcome>): seq<Record>
  {
    seq(|outs|, i requires 0 <= i < |outs| => outs[i].record)
  }

  lemma RecordsInSplit(outs: seq<AttemptOutcome>, a: nat, b: nat, c: nat)
    requires a <= b <= c <= |outs|
    ensures RecordsIn(outs[a..b]) + RecordsIn(outs[b..c]) == RecordsIn(outs[a..c])
  {
  }

  // ----- counting hours -----

  /** How many targets of a list of `n` are ever attempted: the first 35. */
  function Attempted(n: nat): nat
  {
    if n <= TotalHours * DmsPerHour then n else TotalHours * DmsPerHour
  }

  /** How many hours run for `n` targets: one per started batch of seven,
      at most five. */
  function HoursUsed(n: nat): nat
  {
    if (n + DmsPerHour - 1) / DmsPerHour <= TotalHours then (n + DmsPerHour - 1) / DmsPerHour else TotalHours
  }

  function Min(a: nat, b: nat): nat
  {
    if a <= b then a else b
  }

  /** The hours from `hour` on that run; `sleep(3600)` follows each of them
      that is not hour five. */
  function SavesFrom(n: nat, hour: nat): nat
  {
    if hour <= HoursUsed(n) then HoursUsed(n) - hour + 1 else 0
  }

  function WaitsFrom(n: nat, hour: nat): nat
  {
    var last := Min(HoursUsed(n), TotalHours - 1);
    if hour <= last then last - hour + 1 else 0
  }

  // ----- one batch -----

  /** One more outcome in front of a trace. */
  lemma ConsOutcome(a: AttemptOutcome, events: seq<Event>, e: Event)
    requires OneRecord(a) && Paced(e)
    ensures RecordsOf(a.events + events) == [a.record] + RecordsOf(events)
    ensures Occurrences(a.events + events, e) == (if e == Cooldown && a.record.status == Success then 1 else 0) + Occurrences(events, e)
  {
    RecordsOfAppend(a.events, events);
    OccurrencesAppend(a.events, events, e);
  }

  /** One more record in front of a run of outcomes. */
  lemma ConsRecord(outs: seq<AttemptOutcome>, j: nat, hi: nat)
    requires j < hi <= |outs|
    ensures RecordsIn(outs[j..hi]) == [outs[j].record] + RecordsIn(outs[j + 1..hi])
    ensures Successes(RecordsIn(outs[j..hi])) == (if outs[j].record.status == Success then 1 else 0) + Successes(RecordsIn(outs[j + 1..hi]))
  {
    var rec := outs[j].record;
    assert RecordsIn(outs[j..hi]) == [rec] + RecordsIn(outs[j + 1..hi]);
    SuccessesAppend([rec], RecordsIn(outs[j + 1..hi]));
    assert [rec][..0] == [];
  }

  /** A batch below the daily limit attempts every one of its targets, in
      order: its trace holds exactly their records, and the counter grows
      by their successes. */
  lemma {:induction false} BatchRunRecords(outs: seq<AttemptOutcome>, j: nat, hi: nat, sent: nat)
    requires j <= hi <= |outs|
    requires forall k {:trigger OneRecord(outs[k])} :: j <= k < hi ==> OneRecord(outs[k])
    requires sent + (hi - j) <= DailyLimit
    ensures var b := BatchRun(outs, j, hi, sent);
      && RecordsOf(b.events) == RecordsIn(outs[j..hi])
      && b.sent == sent + Successes(RecordsIn(outs[j..hi]))
    decreases hi - j
  {
    if j < hi {
      var a := outs[j];
      var sent' := if a.record.status == Success then sent + 1 else sent;
      var rest := BatchRun(outs, j + 1, hi, sent');
      BatchRunRecords(outs, j + 1, hi, sent');
      ConsOutcome(a, rest.events, Cooldown);
      ConsRecord(outs, j, hi);
    } else {
      assert RecordsIn(outs[j..hi]) == [];
    }
  }

  /** A batch counts at most one send per target. */
  lemma {:induction false} BatchRunSent(outs: seq<AttemptOutcome>, j: nat, hi: nat, sent: nat)
    requires j <= hi <= |outs|
    ensures sent <= BatchRun(outs, j, hi, sent).sent <= sent + (hi - j)
    decreases hi - j
  {
    if j < hi && sent < DailyLimit {
      BatchRunSent(outs, j + 1, hi, if outs[j].record.status == Success then sent + 1 else sent);
    }
  }

  /** Below the daily limit, a batch cools down once per success and never
      saves the session, waits an hour or logs in. */
  lemma {:induction false} BatchRunCounts(outs: seq<AttemptOutcome>, j: nat, hi: nat, sent: nat, e: Event)
    requires j <= hi <= |outs|
    requires forall k {:trigger OneRecord(outs[k])} :: j <= k < hi ==> OneRecord(outs[k])
    requires sent + (hi - j) <= DailyLimit
    requires Paced(e)
    ensures Occurrences(BatchRun(outs, j, hi, sent).events, e) ==
              if e == Cooldown then Successes(RecordsIn(outs[j..hi])) else 0
    decreases hi - j
  {
    if j < hi {
      var a := outs[j];
      var sent' := if a.record.status == Success then sent + 1 else sent;
      var rest := BatchRun(outs, j + 1, hi, sent');
      BatchRunCounts(outs, j + 1, hi, sent', e);
      ConsOutcome(a, rest.events, e);
      ConsRecord(outs, j, hi);
    } else {
      assert RecordsIn(outs[j..hi]) == [];
    }
  }

  // ----- the hours -----

  /** What an hour's save and optional wait add between its batch and the
      following hours. */
  lemma HourTrace(batch: seq<Event>, pause: seq<Event>, rest: seq<Event>, e: Event)
    requires pause == [] || pause == [WaitHour]
    ensures RecordsOf(batch + [SaveSession] + pause + rest) == RecordsOf(batch) + RecordsOf(rest)
    ensures Occurrences(batch + [SaveSession] + pause + rest, e) ==
              Occurrences(batch, e) + (if e == SaveSession then 1 else 0) + (if e == WaitHour then |pause| else 0) + Occurrences(rest, e)
  {
    RecordsOfAppend(batch + [SaveSession] + pause, rest);
    RecordsOfAppend(batch + [SaveSession], pause);
    RecordsOfAppend(batch, [SaveSession]);
    OccurrencesAppend(batch + [SaveSession] + pause, rest, e);
    OccurrencesAppend(batch + [SaveSession], pause, e);
    OccurrencesAppend(batch, [SaveSession], e);
    Singleton(SaveSession, e);
    if pause != [] {
      Singleton(WaitHour, e);
    }
  }

  /** The counts of an hour that runs, against those of the next hour. */
  lemma HourRuns(n: nat, hour: nat)
    requires 1 <= hour <= TotalHours && n > (hour - 1) * DmsPerHour
    ensures HourEnd(n, hour) <= Attempted(n) && Min(hour * DmsPerHour, Attempted(n)) == HourEnd(n, hour)
    ensures SavesFrom(n, hour) == 1 + SavesFrom(n, hour + 1)
    ensures WaitsFrom(n, hour) == (if hour < TotalHours then 1 else 0) + WaitsFrom(n, hour + 1)
  {
  }

  /** The hour at which the schedule stops counts nothing more. */
  lemma HourStops(n: nat, hour: nat)
    requires hour >= 1 && (hour > TotalHours || n <= (hour - 1) * DmsPerHour)
    ensures Min((hour - 1) * DmsPerHour, Attempted(n)) == Attempted(n)
    ensures SavesFrom(n, hour) == 0 && WaitsFrom(n, hour) == 0
  {
  }

  /** The targets attempted from `hour` on: from this hour's first up to the
      35th, or the end of the list. */
  function RecordsFrom(outs: seq<AttemptOutcome>, hour: nat): seq<Record>
    requires hour >= 1
  {
    var cap := Attempted(|outs|);
    RecordsIn(outs[Min((hour - 1) * DmsPerHour, cap)..cap])
  }

  /** The hours from `hour` on, with `sent` no more than the targets before
      this hour: they attempt the targets from this hour's first up to the
      35th, in order, one record each, and the counter grows by their
      successes. */
  lemma {:induction false} HoursRunRecords(outs: seq<AttemptOutcome>, hour: nat, sent: nat, r: Progress)
    requires hour >= 1
    requires forall k {:trigger OneRecord(outs[k])} :: 0 <= k < |outs| ==> OneRecord(outs[k])
    requires sent <= (hour - 1) * DmsPerHour
    requires r == HoursRun(outs, hour, sent)
    ensures RecordsOf(r.events) == RecordsFrom(outs, hour)
    ensures r.sent == sent + Successes(RecordsFrom(outs, hour))
    decreases TotalHours + 1 - hour
  {
    var n := |outs|;
    var lo := (hour - 1) * DmsPerHour;
    if hour > TotalHours || n <= lo {
      HourStops(n, hour);
      var cap := Attempted(n);
      assert RecordsIn(outs[cap..cap]) == [];
    } else {
      var hi := HourEnd(n, hour);
      var b := BatchRun(outs, lo, hi, sent);
      BatchRunRecords(outs, lo, hi, sent);
      BatchRunSent(outs, lo, hi, sent);
      var pause := if hour < TotalHours then [WaitHour] else [];
      var rest := HoursRun(outs, hour + 1, b.sent);
      HoursRunRecords(outs, hour + 1, b.sent, rest);
      HourTrace(b.events, pause, rest.events, Cooldown);
      RecordsStep(outs, hour);
    }
  }

  /** The records from an hour that runs are its batch's, then those of
      the next hour. */
  lemma RecordsStep(outs: seq<AttemptOutcome>, hour: nat)
    requires 1 <= hour <= TotalHours && |outs| > (hour - 1) * DmsPerHour
    ensures var batch := RecordsIn(outs[(hour - 1) * DmsPerHour..HourEnd(|outs|, hour)]);
      && RecordsFrom(outs, hour) == batch + RecordsFrom(outs, hour + 1)
      && Successes(RecordsFrom(outs, hour)) == Successes(batch) + Successes(RecordsFrom(outs, hour + 1))
  {
    var n := |outs|;
    var cap := Attempted(n);
    var lo := (hour - 1) * DmsPerHour;
    var hi := HourEnd(n, hour);
    HourRuns(n, hour);
    RecordsInSplit(outs, lo, hi, cap);
    SuccessesAppend(RecordsIn(outs[lo..hi]), RecordsIn(outs[hi..cap]));
  }

  /** Each hour that runs saves the session once and, unless it is hour
      five, waits once; cooldowns follow the successes; nothing logs in. */
  lemma {:induction false} HoursRunCounts(outs: seq<AttemptOutcome>, hour: nat, sent: nat, e: Event, r: Progress)
    requires hour >= 1
    requires forall k {:trigger OneRecord(outs[k])} :: 0 <= k < |outs| ==> OneRecord(outs[k])
    requires sent <= (hour - 1) * DmsPerHour
    requires Paced(e)
    requires r == HoursRun(outs, hour, sent)
    ensures Occurrences(r.events, e) == CountFrom(outs, hour, e)
    decreases TotalHours + 1 - hour
  {
    var n := |outs|;
    var lo := (hour - 1) * DmsPerHour;
    if hour > TotalHours || n <= lo {
      HourStops(n, hour);
      var cap := Attempted(n);
      assert RecordsIn(outs[cap..cap]) == [];
    } else {
      var b := BatchRun(outs, lo, HourEnd(n, hour), sent);
      HourCounts(outs, hour, sent, e);
      HoursRunCounts(outs, hour + 1, b.sent, e, HoursRun(outs, hour + 1, b.sent));
    }
  }

  /** One hour that runs adds to the counts of the hours after it what
      `CountFrom` says it adds. */
  lemma HourCounts(outs: seq<AttemptOutcome>, hour: nat, sent: nat, e: Event)
    requires 1 <= hour <= TotalHours && |outs| > (hour - 1) * DmsPerHour
    requires forall k {:trigger OneRecord(outs[k])} :: 0 <= k < |outs| ==> OneRecord(outs[k])
    requires sent <= (hour - 1) * DmsPerHour
    requires Paced(e)
    ensures var b := BatchRun(outs, (hour - 1) * DmsPerHour, HourEnd(|outs|, hour), sent);
      && b.sent <= hour * DmsPerHour
      && Occurrences(HoursRun(outs, hour, sent).events, e) + CountFrom(outs, hour + 1, e)
         == CountFrom(outs, hour, e) + Occurrences(HoursRun(outs, hour + 1, b.sent).events, e)
  {
    var lo, hi := (hour - 1) * DmsPerHour, HourEnd(|outs|, hour);
    var b := BatchRun(outs, lo, hi, sent);
    BatchRunSent(outs, lo, hi, sent);
    BatchRunCounts(outs, lo, hi, sent, e);
    var pause := if hour < TotalHours then [WaitHour] else [];
    HourTrace(b.events, pause, HoursRun(outs, hour + 1, b.sent).events, e);
    CountStep(outs, hour, e);
  }

  /** How often the hours from `hour` on produce the counted event `e`. */
  function CountFrom(outs: seq<AttemptOutcome>, hour: nat, e: Event): nat
    requires hour >= 1
  {
    (if e == Cooldown then Successes(RecordsFrom(outs, hour)) else 0)
    + (if e == SaveSession then SavesFrom(|outs|, hour) else 0)
    + (if e == WaitHour then WaitsFrom(|outs|, hour) else 0)
  }

  /** The counts from an hour that runs are its batch's, its save and its
      wait, then those of the next hour. */
  lemma CountStep(outs: seq<AttemptOutcome>, hour: nat, e: Event)
    requires 1 <= hour <= TotalHours && |outs| > (hour - 1) * DmsPerHour
    ensures var lo := (hour - 1) * DmsPerHour;
      CountFrom(outs, hour, e) ==
        (if e == Cooldown then Successes(RecordsIn(outs[lo..HourEnd(|outs|, hour)])) else 0)
        + (if e == SaveSession then 1 else 0) + (if e == WaitHour && hour < TotalHours then 1 else 0)
        + CountFrom(outs, hour + 1, e)
  {
    var n := |outs|;
    var cap := Attempted(n);
    var lo := (hour - 1) * DmsPerHour;
    var hi := HourEnd(n, hour);
    HourRuns(n, hour);
    RecordsInSplit(outs, lo, hi, cap);
    SuccessesAppend(RecordsIn(outs[lo..hi]), RecordsIn(outs[hi..cap]));
  }

  // ----- the whole schedule and the whole worker -----

  /** The schedule from hour one: it attempts the first `min(n, 35)`
      targets, each once, in list order, and no other, so the daily-limit
      check never stops a batch; `sent_total` is the number of successes
      among them and the number of cooldowns; the session is saved once per
      hour that runs, `ceil(n / 7)` of them up to five, and the worker
      waits after each of those hours but the fifth. */
  lemma ScheduleSummary(outs: seq<AttemptOutcome>)
    requires forall k {:trigger OneRecord(outs[k])} :: 0 <= k < |outs| ==> OneRecord(outs[k])
    ensures var r := HoursRun(outs, 1, 0);
      && RecordsOf(r.events) == RecordsIn(outs[..Attempted(|outs|)])
      && r.sent == Successes(RecordsOf(r.events)) <= DailyLimit
      && Occurrences(r.events, Cooldown) == r.sent
      && Occurrences(r.events, SaveSession) == HoursUsed(|outs|)
      && Occurrences(r.events, WaitHour) == Min(HoursUsed(|outs|), TotalHours - 1)
      && Occurrences(r.events, FreshLogin) == 0
  {
    var r := HoursRun(outs, 1, 0);
    HoursRunRecords(outs, 1, 0, r);
    HoursRunCounts(outs, 1, 0, Cooldown, r);
    HoursRunCounts(outs, 1, 0, SaveSession, r);
    HoursRunCounts(outs, 1, 0, WaitHour, r);
    HoursRunCounts(outs, 1, 0, FreshLogin, r);
    assert outs[0..Attempted(|outs|)] == outs[..Attempted(|outs|)];
  }

  /** The login step adds no record, no cooldown, save or wait. */
  lemma LoginCounts(auth: AuthWorld, e: Event)
    requires e != FreshLogin && e != RestoreSession
    ensures Occurrences(Authenticate(auth).events, e) == 0
  {
    var events := Authenticate(auth).events;
    Singleton(RestoreSession, e);
    Singleton(FreshLogin, e);
    if events == [RestoreSession, FreshLogin] {
      OccurrencesAppend([RestoreSession], [FreshLogin], e);
    }
  }

  /** `HoursUsed` is the number of seven-target batches needed, the last
      possibly partial, capped at five hours. */
  lemma HoursUsedIsCeiling(n: nat)
    ensures HoursUsed(n) <= TotalHours
    ensures HoursUsed(n) == 0 <==> n == 0
    ensures 0 < HoursUsed(n) < TotalHours ==> (HoursUsed(n) - 1) * DmsPerHour < n <= HoursUsed(n) * DmsPerHour
    ensures HoursUsed(n) == TotalHours ==> n > (TotalHours - 1) * DmsPerHour
  {
  }

  /** The run's trace after a successful login: the login's events, the
      first session save, then the hourly schedule. */
  lemma WorkTrace(targets: seq<string>, auth: AuthWorld, media: Option<seq<string>>,
                  worlds: nat -> TargetWorld, compose: Composer, r: RunOutcome)
    requires r == WorkRun(targets, auth, media, worlds, compose) && r.end.Finished?
    ensures var hours := HoursRun(Outcomes(targets, media, worlds, compose), 1, 0);
      r.events == Authenticate(auth).events + [SaveSession] + hours.events && r.end.sentTotal == hours.sent
  {
  }

  /** Records and counts of `login + [SaveSession] + hours`. */
  lemma JoinTrace(login: seq<Event>, hours: seq<Event>, e: Event)
    requires RecordsOf(login) == []
    ensures RecordsOf(login + [SaveSession] + hours) == RecordsOf(hours)
    ensures Occurrences(login + [SaveSession] + hours, e)
         == Occurrences(login, e) + (if e == SaveSession then 1 else 0) + Occurrences(hours, e)
  {
    var head := login + [SaveSession];
    RecordsOfAppend(head, hours);
    RecordsOfAppend(login, [SaveSession]);
    OccurrencesAppend(head, hours, e);
    OccurrencesAppend(login, [SaveSession], e);
    Singleton(SaveSession, e);
    assert [] + RecordsOf(hours) == RecordsOf(hours);
  }

  /** A finished run's records are the outcomes of the first `min(n, 35)`
      attempts, each on the target at its own position. */
  lemma FinishedRecords(targets: seq<string>, auth: AuthWorld, media: Option<seq<string>>,
                        worlds: nat -> TargetWorld, compose: Composer, r: RunOutcome)
    requires r == WorkRun(targets, auth, media, worlds, compose) && r.end.Finished?
    ensures var recs := RecordsOf(r.events);
      && |recs| == Attempted(|targets|)
      && (forall k :: 0 <= k < |recs| ==> recs[k] == Attempt(targets[k], worlds(k), media, compose).record)
      && r.end.sentTotal == Successes(recs)
  {
    var outs := Outcomes(targets, media, worlds, compose);
    WorkTrace(targets, auth, media, worlds, compose, r);
    OutcomesOneRecord(targets, media, worlds, compose);
    ScheduleSummary(outs);
    var hours := HoursRun(outs, 1, 0);
    JoinTrace(Authenticate(auth).events, hours.events, SaveSession);
    var recs := RecordsOf(r.events);
    forall k | 0 <= k < |recs|
      ensures recs[k] == Attempt(targets[k], worlds(k), media, compose).record
    {
      assert outs[k] == Attempt(targets[k], worlds(k), media, compose);
    }
  }

  /** A finished run's event counts: a cooldown per success, a save after
      login and per hour, a wait per hour but the fifth, and a fresh login
      exactly when no saved session was restored. */
  lemma FinishedCounts(targets: seq<string>, auth: AuthWorld, media: Option<seq<string>>,
                       worlds: nat -> TargetWorld, compose: Composer, r: RunOutcome)
    requires r == WorkRun(targets, auth, media, worlds, compose) && r.end.Finished?
    ensures && Occurrences(r.events, Cooldown) == r.end.sentTotal
            && Occurrences(r.events, SaveSession) == 1 + HoursUsed(|targets|)
            && Occurrences(r.events, WaitHour) == Min(HoursUsed(|targets|), TotalHours - 1)
            && Occurrences(r.events, FreshLogin) == if auth.sessionFile && auth.restore == Returned then 0 else 1
  {
    var outs := Outcomes(targets, media, worlds, compose);
    WorkTrace(targets, auth, media, worlds, compose, r);
    OutcomesOneRecord(targets, media, worlds, compose);
    ScheduleSummary(outs);
    var login := Authenticate(auth).events;
    var hours := HoursRun(outs, 1, 0).events;
    JoinTrace(login, hours, Cooldown);
    JoinTrace(login, hours, SaveSession);
    JoinTrace(login, hours, WaitHour);
    JoinTrace(login, hours, FreshLogin);
    LoginCounts(auth, Cooldown);
    LoginCounts(auth, WaitHour);
  }

  /** A worker that finished attempted the first `min(n, 35)` of its `n`
      cleaned targets, in list order: record `k` is the outcome of the
      attempt on target `k` (so it names that target); it counted one send
      and one cooldown per success; it saved the session once after the
      login and once per hour that ran, waited after each such hour but the
      fifth, and logged in afresh exactly when no saved session could be
      restored. */
  lemma RunSummary(lines: seq<string>, auth: AuthWorld, media: Option<seq<string>>,
                   worlds: nat -> TargetWorld, compose: Composer)
    ensures var r := RunWith(Some(lines), auth, media, worlds, compose);
      var targets := CleanTargets(lines);
      var recs := RecordsOf(r.events);
      r.end.Finished? ==>
        && |recs| == Attempted(|targets|) <= |targets|
        && (forall k :: 0 <= k < |recs| ==> recs[k] == Attempt(targets[k], worlds(k), media, compose).record)
        && (forall k :: 0 <= k < |recs| ==> recs[k].target == targets[k])
        && r.end.sentTotal == Successes(recs) <= DailyLimit
        && Occurrences(r.events, Cooldown) == r.end.sentTotal
        && Occurrences(r.events, SaveSession) == 1 + HoursUsed(|targets|)
        && Occurrences(r.events, WaitHour) == Min(HoursUsed(|targets|), TotalHours - 1)
        && Occurrences(r.events, FreshLogin) == if auth.sessionFile && auth.restore == Returned then 0 else 1
  {
    var r := RunWith(Some(lines), auth, media, worlds, compose);
    if r.end.Finished? {
      var targets := CleanTargets(lines);
      FinishedRecords(targets, auth, media, worlds, compose, r);
      FinishedCounts(targets, auth, media, worlds, compose, r);
    }
  }

  /** Twenty targets take three hours and three waits, the last after the
      final batch, although hour four has nothing left to send. */
  lemma TwentyTargets(outs: seq<AttemptOutcome>)
    requires |outs| == 20
    requires forall k {:trigger OneRecord(outs[k])} :: 0 <= k < |outs| ==> OneRecord(outs[k])
    ensures var r := HoursRun(outs, 1, 0);
      && |RecordsOf(r.events)| == 20
      && Occurrences(r.events, SaveSession) == 3
      && Occurrences(r.events, WaitHour) == 3
  {
    ScheduleSummary(outs);
    assert HoursUsed(20) == 3;
  }
}
