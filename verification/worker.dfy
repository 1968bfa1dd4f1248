/** `run_account` of multiaccount.py: the per-account worker. Every platform
    call, the language model, the random draws and the clock are inputs
    (oracles); sleeping and the incidental "human-like" action are events in
    a trace. The pure functions here specify one attempt and the hourly
    schedule; the methods at the end run them step by step and are proved
    to follow them. The message generator is a parameter of the attempt and
    of the schedule; `Run` and `RunAccount` fix it to `generate_gpt_dm` with
    its default competitor. */
module Worker {
  import opened Common
  import opened Text
  import opened GptDm
  import opened Inputs
  import opened OutreachDm
  import opened Audit

  const DmsPerHour: nat := 7
  const TotalHours: nat := 5
  const DailyLimit: nat := DmsPerHour * TotalHours

  /** What a profile lookup yields: the user id and the biography, which the
      platform client may give as `None`. */
  datatype Profile = Profile(pk: string, biography: Option<string>)
  datatype Lookup = Found(profile: Profile) | LookupRaised

  /** Everything the outside world decides during the attempt on one target. */
  datatype TargetWorld = TargetWorld(
    lookupV1: Lookup,            // user_info_by_username_v1
    lookupFallback: Lookup,      // user_info_by_username, tried only if the first raised
    llm: string -> LlmReply,     // the chat-completion call, as a function of the prompt
    textSend: Call,              // direct_send of the message
    imagePick: nat,              // random.choice inside random_image
    imageDraw: bool,             // random.random() < 0.8
    imageSend: Call,             // direct_send of the image
    humanDraw: bool,             // random.random() < 0.35
    now: string)                 // datetime.now(timezone.utc).isoformat() at append time

  /** Session restore and login outcomes. `restore` stands for
      `load_settings` followed by `login`. */
  datatype AuthWorld = AuthWorld(sessionFile: bool, restore: Call, login: Call)

  /** Observable effects of the worker, in order. */
  datatype Event =
    | RestoreSession
    | FreshLogin
    | SaveSession
    | SendText(userId: string, text: string)
    | SendImage(userId: string, file: string)
    | Log(record: Record)
    | HumanAction
    | Cooldown
    | WaitHour

  /** A message generator: recipient, biography and language model to message. */
  type Composer = (string, string, string -> LlmReply) -> string

  /** The call `generate_gpt_dm(target, bio=bio)` of the worker, with the
      default competitor; its message is never empty. */
  function GptComposer(toUser: string, bio: string, llm: string -> LlmReply): (m: string)
    ensures m != [] && Stripped(m)
  {
    GenerateGptDm(toUser, bio, DefaultCompetitor, llm)
  }

  // ----- reading a trace -----

  /** The records a trace appends to the audit log, in order. */
  function RecordsOf(events: seq<Event>): seq<Record>
  {
    if events == [] then []
    else
      var last := events[|events| - 1];
      RecordsOf(events[..|events| - 1]) + if last.Log? then [last.record] else []
  }

  function Occurrences(events: seq<Event>, e: Event): nat
  {
    if events == [] then 0
    else Occurrences(events[..|events| - 1], e) + if events[|events| - 1] == e then 1 else 0
  }

  lemma {:induction false} RecordsOfAppend(a: seq<Event>, b: seq<Event>)
    ensures RecordsOf(a + b) == RecordsOf(a) + RecordsOf(b)
  {
    if b != [] {
      assert (a + b)[..|a + b| - 1] == a + b[..|b| - 1];
      RecordsOfAppend(a, b[..|b| - 1]);
    } else {
      assert a + b == a;
    }
  }

  lemma {:induction false} OccurrencesAppend(a: seq<Event>, b: seq<Event>, e: Event)
    ensures Occurrences(a + b, e) == Occurrences(a, e) + Occurrences(b, e)
  {
    if b != [] {
      assert (a + b)[..|a + b| - 1] == a + b[..|b| - 1];
      OccurrencesAppend(a, b[..|b| - 1], e);
    } else {
      assert a + b == a;
    }
  }

  lemma Singleton(x: Event, e: Event)
    ensures RecordsOf([x]) == if x.Log? then [x.record] else []
    ensures Occurrences([x], e) == if x == e then 1 else 0
  {
    assert [x][..0] == [];
  }

  /** The number of successful records. */
  function Successes(recs: seq<Record>): (n: nat)
    ensures n <= |recs|
  {
    if recs == [] then 0
    else Successes(recs[..|recs| - 1]) + if recs[|recs| - 1].status == Success then 1 else 0
  }

  lemma {:induction false} SuccessesAppend(a: seq<Record>, b: seq<Record>)
    ensures Successes(a + b) == Successes(a) + Successes(b)
  {
    if b != [] {
      assert (a + b)[..|a + b| - 1] == a + b[..|b| - 1];
      SuccessesAppend(a, b[..|b| - 1]);
    } else {
      assert a + b == a;
    }
  }

  // ----- one attempt -----

  /** The v1 lookup, or the fallback lookup when it raised. */
  function Resolve(w: TargetWorld): (r: Lookup)
    ensures w.lookupV1.Found? ==> r == w.lookupV1
    ensures w.lookupV1.LookupRaised? ==> r == w.lookupFallback
    ensures r.Found? <==> w.lookupV1.Found? || w.lookupFallback.Found?
  {
    if w.lookupV1.Found? then w.lookupV1 else w.lookupFallback
  }

  /** The attempt gets as far as generating a message: some lookup found the
      user and the biography is a string (`bio.lower()` raises on `None`). */
  predicate ReachesGeneration(w: TargetWorld)
    ensures ReachesGeneration(w) <==>
      || (w.lookupV1.Found? && w.lookupV1.profile.biography.Some?)
      || (w.lookupV1.LookupRaised? && w.lookupFallback.Found? && w.lookupFallback.profile.biography.Some?)
  {
    Resolve(w).Found? && Resolve(w).profile.biography.Some?
  }

  /** The local `message` when the sends start: the message generated from
      the biography of whichever lookup found the user, or still `""` when
      the lookups or the generation raised. */
  function Generated(target: string, w: TargetWorld, compose: Composer): (message: string)
    ensures w.lookupV1.Found? && w.lookupV1.profile.biography.Some? ==>
      message == compose(target, w.lookupV1.profile.biography.value, w.llm)
    ensures w.lookupV1.Found? && w.lookupV1.profile.biography.None? ==> message == ""
    ensures w.lookupV1.LookupRaised? && w.lookupFallback.Found? && w.lookupFallback.profile.biography.Some? ==>
      message == compose(target, w.lookupFallback.profile.biography.value, w.llm)
    ensures w.lookupV1.LookupRaised? && w.lookupFallback.Found? && w.lookupFallback.profile.biography.None? ==>
      message == ""
    ensures w.lookupV1.LookupRaised? && w.lookupFallback.LookupRaised? ==> message == ""
  {
    if ReachesGeneration(w) then compose(target, Resolve(w).profile.biography.value, w.llm) else ""
  }

  /** The image send is attempted: the text went out, `random_image()`
      found an image file and the 80% draw passed. */
  predicate ImageAttempted(w: TargetWorld, media: Option<seq<string>>)
    ensures ImageAttempted(w, media) <==>
      && ReachesGeneration(w) && w.textSend == Returned && w.imageDraw
      && media.Some? && exists f :: f in media.value && IsImage(f)
  {
    ReachesGeneration(w) && w.textSend == Returned && RandomImage(media, w.imagePick).Some? && w.imageDraw
  }

  datatype AttemptOutcome = AttemptOutcome(events: seq<Event>, record: Record)

  /** The `except` branch: log `failed` with the message, or 'N/A' if it is empty. */
  function Failure(target: string, w: TargetWorld, sent: seq<Event>, message: string, imageSent: bool): (a: AttemptOutcome)
    ensures a.record.status == Failed && a.record.target == target && a.record.timestamp == w.now
    ensures a.record.message == if message == [] then "N/A" else message
    ensures a.record.imageSent == imageSent
    ensures |a.events| == |sent| + 1 && a.events[..|sent|] == sent && a.events[|sent|] == Log(a.record)
  {
    var rec := Record(target, Failed, w.now, if message == [] then "N/A" else message, imageSent);
    AttemptOutcome(sent + [Log(rec)], rec)
  }

  /** The end of the `try` block: log `success`, maybe act human, cool down. */
  function Delivered(target: string, w: TargetWorld, sent: seq<Event>, message: string, imageSent: bool): (a: AttemptOutcome)
    ensures a.record.status == Success && a.record.target == target && a.record.timestamp == w.now
    ensures a.record.message == message && a.record.imageSent == imageSent
    ensures |a.events| == |sent| + (if w.humanDraw then 3 else 2) && a.events[..|sent|] == sent
    ensures a.events[|sent|] == Log(a.record) && a.events[|a.events| - 1] == Cooldown
    ensures w.humanDraw ==> a.events[|sent| + 1] == HumanAction
  {
    var rec := Record(target, Success, w.now, message, imageSent);
    AttemptOutcome(sent + [Log(rec)] + (if w.humanDraw then [HumanAction] else []) + [Cooldown], rec)
  }

  /** The body of `for target in batch` once `message` holds what the
      generation step left in it; `img` is what `random_image()` returns
      when it is called after the text send. */
  function AttemptWith(target: string, w: TargetWorld, img: Option<string>, message: string): (a: AttemptOutcome)
    ensures a.record.target == target && a.record.timestamp == w.now
    ensures a.record.imageSent ==> a.record.status == Success
    ensures !ReachesGeneration(w) ==> a.record.status == Failed
  {
    if !ReachesGeneration(w) then
      Failure(target, w, [], message, false)
    else
      var userId := Resolve(w).profile.pk;
      var text := [SendText(userId, message)];
      if w.textSend == Raised then
        Failure(target, w, text, message, false)
      else
        if img.Some? && w.imageDraw then
          var withImage := text + [SendImage(userId, img.value)];
          if w.imageSend == Raised then
            Failure(target, w, withImage, message, false)
          else
            Delivered(target, w, withImage, message, true)
        else
          Delivered(target, w, text, message, false)
  }

  /** The attempt on one target: it yields one record, for that target and
      stamped with the clock. */
  function Attempt(target: string, w: TargetWorld, media: Option<seq<string>>, compose: Composer): (a: AttemptOutcome)
    ensures a.record.target == target && a.record.timestamp == w.now
  {
    AttemptWith(target, w, RandomImage(media, w.imagePick), Generated(target, w, compose))
  }

  /** The outcome of the worker's attempt, case by case: it fails with 'N/A'
      and logs nothing but its record when no message could be generated;
      otherwise the text goes out first, carrying the generated message,
      which is also the logged one; a raised text send fails the attempt; an
      attempted image send decides the outcome and the image flag by whether
      it returned; without an image attempt the text send alone makes it a
      success. */
  lemma AttemptCases(target: string, w: TargetWorld, media: Option<seq<string>>)
    ensures var a := Attempt(target, w, media, GptComposer);
      && (!ReachesGeneration(w) ==>
            a.record.status == Failed && a.record.message == "N/A" && a.events == [Log(a.record)])
      && (ReachesGeneration(w) ==>
            var m := GptComposer(target, Resolve(w).profile.biography.value, w.llm);
            a.record.message == m && a.events[0] == SendText(Resolve(w).profile.pk, m))
      && (ReachesGeneration(w) && w.textSend == Raised ==> a.record.status == Failed && !a.record.imageSent)
      && (ReachesGeneration(w) && w.textSend == Returned && !ImageAttempted(w, media) ==>
            a.record.status == Success && !a.record.imageSent)
      && (ImageAttempted(w, media) ==>
            a.record.status == (if w.imageSend == Returned then Success else Failed)
            && a.record.imageSent == (w.imageSend == Returned))
  {
    var message := Generated(target, w, GptComposer);
    assert ReachesGeneration(w) ==> message != [];
    var a := AttemptWith(target, w, RandomImage(media, w.imagePick), message);
    if !ReachesGeneration(w) {
      assert a == Failure(target, w, [], message, false);
    } else {
      var userId := Resolve(w).profile.pk;
      var text := [SendText(userId, message)];
      if w.textSend == Raised {
        assert a == Failure(target, w, text, message, false);
      } else {
        var img := RandomImage(media, w.imagePick);
        if img.Some? && w.imageDraw {
          var withImage := text + [SendImage(userId, img.value)];
          if w.imageSend == Raised {
            assert a == Failure(target, w, withImage, message, false);
          } else {
            assert a == Delivered(target, w, withImage, message, true);
          }
        } else {
          assert a == Delivered(target, w, text, message, false);
        }
      }
    }
  }

  /** The same facts as equivalences, for any generator: success exactly
      when the message was generated, the text send returned and any
      attempted image send returned; an image counted as sent exactly when
      its send was attempted and returned. */
  lemma AttemptSuccessIff(target: string, w: TargetWorld, media: Option<seq<string>>, compose: Composer)
    ensures Attempt(target, w, media, compose).record.status == Success <==>
              ReachesGeneration(w) && w.textSend == Returned && (ImageAttempted(w, media) ==> w.imageSend == Returned)
    ensures Attempt(target, w, media, compose).record.imageSent <==> ImageAttempted(w, media) && w.imageSend == Returned
  {
    var message := Generated(target, w, compose);
    var a := AttemptWith(target, w, RandomImage(media, w.imagePick), message);
    if ReachesGeneration(w) && w.textSend == Returned {
      var userId := Resolve(w).profile.pk;
      var text := [SendText(userId, message)];
      var img := RandomImage(media, w.imagePick);
      if img.Some? && w.imageDraw {
        var withImage := text + [SendImage(userId, img.value)];
        if w.imageSend == Raised {
          assert a == Failure(target, w, withImage, message, false);
        } else {
          assert a == Delivered(target, w, withImage, message, true);
        }
      } else {
        assert a == Delivered(target, w, text, message, false);
      }
    }
  }

  /** Calls to the platform that neither log nor pace. */
  predicate Sends(events: seq<Event>)
  {
    forall i :: 0 <= i < |events| ==> events[i].SendText? || events[i].SendImage?
  }

  lemma {:induction false} SendsCounts(sent: seq<Event>, e: Event)
    requires Sends(sent)
    ensures RecordsOf(sent) == []
    ensures !(e.SendText? || e.SendImage?) ==> Occurrences(sent, e) == 0
  {
    if sent != [] {
      SendsCounts(sent[..|sent| - 1], e);
    }
  }

  /** What a trace of the form `sends + [Log(rec)] + tail` logs and counts. */
  lemma LoggedTrace(sent: seq<Event>, rec: Record, tail: seq<Event>, e: Event)
    requires Sends(sent)
    requires !(e.SendText? || e.SendImage?)
    ensures RecordsOf(sent + [Log(rec)] + tail) == [rec] + RecordsOf(tail)
    ensures Occurrences(sent + [Log(rec)] + tail, e) == (if e == Log(rec) then 1 else 0) + Occurrences(tail, e)
  {
    SendsCounts(sent, e);
    RecordsOfAppend(sent + [Log(rec)], tail);
    RecordsOfAppend(sent, [Log(rec)]);
    OccurrencesAppend(sent + [Log(rec)], tail, e);
    OccurrencesAppend(sent, [Log(rec)], e);
    Singleton(Log(rec), e);
  }

  /** An attempt's trace adds exactly its own record, and counts `e` once
      when it is the cooldown of a success or the human-like action of a
      success whose draw passed; zero times otherwise. */
  predicate TraceOfOne(a: AttemptOutcome, w: TargetWorld, e: Event)
  {
    && RecordsOf(a.events) == [a.record]
    && Occurrences(a.events, e) == if a.record.status == Success && (e == Cooldown || (e == HumanAction && w.humanDraw)) then 1 else 0
  }

  /** A failed attempt ends with its record and nothing after it. */
  lemma FailureTrace(target: string, w: TargetWorld, sent: seq<Event>, message: string, imageSent: bool, e: Event)
    requires Sends(sent)
    requires !(e.SendText? || e.SendImage? || e.Log?)
    ensures TraceOfOne(Failure(target, w, sent, message, imageSent), w, e)
  {
    var a := Failure(target, w, sent, message, imageSent);
    assert a.events == sent + [Log(a.record)] + [];
    LoggedTrace(sent, a.record, [], e);
  }

  /** A successful attempt ends with its record, the optional human-like
      action and one cooldown. */
  lemma DeliveredTrace(target: string, w: TargetWorld, sent: seq<Event>, message: string, imageSent: bool, e: Event)
    requires Sends(sent)
    requires !(e.SendText? || e.SendImage? || e.Log?)
    ensures TraceOfOne(Delivered(target, w, sent, message, imageSent), w, e)
  {
    var a := Delivered(target, w, sent, message, imageSent);
    var tail := (if w.humanDraw then [HumanAction] else []) + [Cooldown];
    assert a.events == sent + [Log(a.record)] + tail;
    LoggedTrace(sent, a.record, tail, e);
    Singleton(Cooldown, e);
    if w.humanDraw {
      Singleton(HumanAction, e);
      RecordsOfAppend([HumanAction], [Cooldown]);
      OccurrencesAppend([HumanAction], [Cooldown], e);
    } else {
      assert tail == [Cooldown];
    }
  }

  /** The trace of one attempt is some sends, one log append, and then, only
      after a success, the optional human-like action and one cooldown. It
      therefore adds exactly one record, one cooldown per success and no
      session save, hourly wait or login. */
  lemma AttemptTrace(target: string, w: TargetWorld, media: Option<seq<string>>, compose: Composer, e: Event)
    requires !(e.SendText? || e.SendImage? || e.Log?)
    ensures TraceOfOne(Attempt(target, w, media, compose), w, e)
  {
    AttemptWithTrace(target, w, RandomImage(media, w.imagePick), Generated(target, w, compose), e);
  }

  lemma AttemptWithTrace(target: string, w: TargetWorld, img: Option<string>, message: string, e: Event)
    requires !(e.SendText? || e.SendImage? || e.Log?)
    ensures TraceOfOne(AttemptWith(target, w, img, message), w, e)
  {
    if !ReachesGeneration(w) {
      FailureTrace(target, w, [], message, false, e);
    } else {
      SentTrace(target, w, img, message, e);
    }
  }

  /** The same once the profile was found and a message generated. */
  lemma SentTrace(target: string, w: TargetWorld, img: Option<string>, message: string, e: Event)
    requires ReachesGeneration(w)
    requires !(e.SendText? || e.SendImage? || e.Log?)
    ensures TraceOfOne(AttemptWith(target, w, img, message), w, e)
  {
    var text := [SendText(Resolve(w).profile.pk, message)];
    if w.textSend == Raised {
      assert AttemptWith(target, w, img, message) == Failure(target, w, text, message, false);
      FailureTrace(target, w, text, message, false, e);
    } else {
      TextSentTrace(target, w, img, message, e);
    }
  }

  /** The same once the text send returned. */
  lemma TextSentTrace(target: string, w: TargetWorld, img: Option<string>, message: string, e: Event)
    requires ReachesGeneration(w) && w.textSend == Returned
    requires !(e.SendText? || e.SendImage? || e.Log?)
    ensures TraceOfOne(AttemptWith(target, w, img, message), w, e)
  {
    if img.Some? && w.imageDraw {
      ImageSentTrace(target, w, img, message, e);
    } else {
      var text := [SendText(Resolve(w).profile.pk, message)];
      assert AttemptWith(target, w, img, message) == Delivered(target, w, text, message, false);
      DeliveredTrace(target, w, text, message, false, e);
    }
  }

  /** The same once the image send was attempted. */
  lemma ImageSentTrace(target: string, w: TargetWorld, img: Option<string>, message: string, e: Event)
    requires ReachesGeneration(w) && w.textSend == Returned
    requires img.Some? && w.imageDraw
    requires !(e.SendText? || e.SendImage? || e.Log?)
    ensures TraceOfOne(AttemptWith(target, w, img, message), w, e)
  {
    var userId := Resolve(w).profile.pk;
    var sent := [SendText(userId, message), SendImage(userId, img.value)];
    assert [SendText(userId, message)] + [SendImage(userId, img.value)] == sent;
    if w.imageSend == Raised {
      assert AttemptWith(target, w, img, message) == Failure(target, w, sent, message, false);
      FailureTrace(target, w, sent, message, false, e);
    } else {
      assert AttemptWith(target, w, img, message) == Delivered(target, w, sent, message, true);
      DeliveredTrace(target, w, sent, message, true, e);
    }
  }

  // ----- the hourly schedule -----

  /** Where hour `hour`'s batch `targets[(hour - 1) * 7 : hour * 7]` ends
      in a list of `n` targets: Python clamps the slice bound to the list. */
  function HourEnd(n: nat, hour: nat): (hi: nat)
    requires hour >= 1
    ensures hi <= n && hi <= hour * DmsPerHour
    ensures hi == n || hi == hour * DmsPerHour
  {
    if hour * DmsPerHour <= n then hour * DmsPerHour else n
  }

  /** The outcome of the attempt on each target, by position in the list:
      outcome `i` is the attempt on target `i` in its own world. The attempt
      on a target depends only on that target and its world, so the schedule
      below can be stated over these outcomes. */
  function Outcomes(targets: seq<string>, media: Option<seq<string>>, worlds: nat -> TargetWorld,
                    compose: Composer): (outs: seq<AttemptOutcome>)
    ensures |outs| == |targets|
  {
    seq(|targets|, i requires 0 <= i < |targets| => Attempt(targets[i], worlds(i), media, compose))
  }

  datatype Progress = Progress(events: seq<Event>, sent: nat)

  /** `for target in batch` from position `j` on, where the batch is
      targets `j` up to `hi` of the outcome list and `sent` the running
      `sent_total`: stop at the end of the batch, or as soon as the counter
      has reached the daily limit; a success counts one more send. */
  function BatchRun(outs: seq<AttemptOutcome>, j: nat, hi: nat, sent: nat): (r: Progress)
    requires hi <= |outs|
    ensures sent <= DailyLimit ==> r.sent <= DailyLimit
    decreases hi - j
  {
    if j >= hi || sent >= DailyLimit then Progress([], sent)
    else
      var rest := BatchRun(outs, j + 1, hi, if outs[j].record.status == Success then sent + 1 else sent);
      Progress(outs[j].events + rest.events, rest.sent)
  }

  /** `for hour in range(hour, TOTAL_HOURS + 1)` over the outcomes of all
      targets: stop at the first empty batch; otherwise run the batch, save
      the session, and wait an hour unless this was the last hour. */
  function HoursRun(outs: seq<AttemptOutcome>, hour: nat, sent: nat): (r: Progress)
    requires hour >= 1
    ensures sent <= DailyLimit ==> r.sent <= DailyLimit
    decreases TotalHours + 1 - hour, |outs|
  {
    if hour > TotalHours || |outs| <= (hour - 1) * DmsPerHour then Progress([], sent)
    else
      var b := BatchRun(outs, (hour - 1) * DmsPerHour, HourEnd(|outs|, hour), sent);
      var pause := if hour < TotalHours then [WaitHour] else [];
      var rest := HoursRun(outs, hour + 1, b.sent);
      Progress(b.events + [SaveSession] + pause + rest.events, rest.sent)
  }

  /** How a worker ends: the target file is missing, it holds no target, the
      login raised (the exception leaves `run_account`), or it finished with
      `sent_total` successful sends. */
  datatype WorkerEnd = NoTargetList | NoTargets | LoginRaised | Finished(sentTotal: nat)

  datatype LoginOutcome = LoginOutcome(events: seq<Event>, ok: bool)

  /** Restore the saved session if there is one, falling back to one fresh
      login; without a saved session, log in fresh. */
  function Authenticate(auth: AuthWorld): (r: LoginOutcome)
    ensures r.ok <==> (auth.sessionFile && auth.restore == Returned) || auth.login == Returned
    ensures Occurrences(r.events, FreshLogin) == if auth.sessionFile && auth.restore == Returned then 0 else 1
    ensures RecordsOf(r.events) == [] && Occurrences(r.events, SaveSession) == 0
  {
    if auth.sessionFile then
      if auth.restore == Returned then LoginOutcome([RestoreSession], true)
      else LoginOutcome([RestoreSession, FreshLogin], auth.login == Returned)
    else LoginOutcome([FreshLogin], auth.login == Returned)
  }

  datatype RunOutcome = RunOutcome(end: WorkerEnd, events: seq<Event>)

  /** `run_account` from the login on, for a cleaned, non-empty target
      list: log in, save the session, then the hourly schedule. */
  function WorkRun(targets: seq<string>, auth: AuthWorld, media: Option<seq<string>>,
                   worlds: nat -> TargetWorld, compose: Composer): (r: RunOutcome)
    ensures r.end == LoginRaised || r.end.Finished?
    ensures r.end == LoginRaised ==> RecordsOf(r.events) == []
    ensures r.end.Finished? ==> |r.events| > |Authenticate(auth).events|
                                && r.events[..|Authenticate(auth).events|] == Authenticate(auth).events
                                && r.events[|Authenticate(auth).events|] == SaveSession
  {
    var login := Authenticate(auth);
    if !login.ok then RunOutcome(LoginRaised, login.events)
    else
      var hours := HoursRun(Outcomes(targets, media, worlds, compose), 1, 0);
      var r := RunOutcome(Finished(hours.sent), login.events + [SaveSession] + hours.events);
      assert r.events[..|login.events|] == login.events;
      r
  }

  /** The whole worker on the lines of its target file (`None` when the file
      is missing), with a given message generator: nothing happens without
      targets. */
  function RunWith(targetsFile: Option<seq<string>>, auth: AuthWorld, media: Option<seq<string>>,
                   worlds: nat -> TargetWorld, compose: Composer): (r: RunOutcome)
    ensures targetsFile.None? <==> r.end == NoTargetList
    ensures targetsFile.None? || CleanTargets(targetsFile.value) == [] ==> r.events == []
  {
    match targetsFile
    case None => RunOutcome(NoTargetList, [])
    case Some(lines) =>
      var targets := CleanTargets(lines);
      if targets == [] then RunOutcome(NoTargets, [])
      else WorkRun(targets, auth, media, worlds, compose)
  }

  /** `run_account`, with the worker's own message generator. */
  function Run(targetsFile: Option<seq<string>>, auth: AuthWorld, media: Option<seq<string>>,
               worlds: nat -> TargetWorld): (r: RunOutcome)
    ensures r.end.Finished? ==> r.end.sentTotal <= DailyLimit
    ensures r.end.Finished? <==> targetsFile.Some? && CleanTargets(targetsFile.value) != []
                                 && Authenticate(auth).ok
  {
    RunWith(targetsFile, auth, media, worlds, GptComposer)
  }

  // ----- the worker, step by step -----

  /** The `try`/`except` around one target, with the source's locals
      `image_sent` and `message`: look the user up, generate the message,
      then send and log. */
  method TryTarget(target: string, w: TargetWorld, media: Option<seq<string>>, compose: Composer, log: LogFile)
    returns (events: seq<Event>, delivered: bool)
    requires log.Valid()
    modifies log
    ensures log.Valid() && log.created
    ensures events == Attempt(target, w, media, compose).events
    ensures RecordsOf(events) == [Attempt(target, w, media, compose).record]
    ensures delivered <==> Attempt(target, w, media, compose).record.status == Success
    ensures log.rows == old(log.rows) + NewRows(old(log.created), [Attempt(target, w, media, compose).record])
  {
    var message := "";
    var info := w.lookupV1;
    if info.LookupRaised? {
      info := w.lookupFallback;
    }
    var reached := info.Found? && info.profile.biography.Some?;
    if reached {
      message := compose(target, info.profile.biography.value, w.llm);
    }
    events, delivered := SendAndLog(target, w, media, reached, message, log);
    AttemptTrace(target, w, media, compose, Cooldown);
  }

  /** The rest of the `try` block and its `except` handler, once the lookup
      and the generation are done (`reached` is false when either raised):
      the sends, then the log append and what follows it. */
  method SendAndLog(target: string, w: TargetWorld, media: Option<seq<string>>, reached: bool,
                    message: string, log: LogFile)
    returns (events: seq<Event>, delivered: bool)
    requires log.Valid()
    requires reached == ReachesGeneration(w)
    modifies log
    ensures log.Valid() && log.created
    ensures var a := AttemptWith(target, w, RandomImage(media, w.imagePick), message);
      && events == a.events
      && (delivered <==> a.record.status == Success)
      && log.rows == old(log.rows) + NewRows(old(log.created), [a.record])
  {
    var sent, raised, imageSent := SendMessages(target, w, media, reached, message);
    events, delivered := LogOutcome(target, w, sent, raised, message, imageSent, log);
  }

  /** The sends of the `try` block with the local `image_sent`: the text,
      then the image when there is one and the draw passed. `raised` says
      whether the block left for the `except` handler; either way the
      attempt is the one `AttemptWith` specifies. */
  method SendMessages(target: string, w: TargetWorld, media: Option<seq<string>>, reached: bool, message: string)
    returns (sent: seq<Event>, raised: bool, imageSent: bool)
    requires reached == ReachesGeneration(w)
    ensures sent == [] <==> !reached
    ensures |sent| <= 2 && (sent != [] ==> sent[0].SendText?) && (|sent| == 2 ==> sent[1].SendImage?)
    ensures imageSent ==> !raised
    ensures AttemptWith(target, w, RandomImage(media, w.imagePick), message) ==
      if raised then Failure(target, w, sent, message, imageSent) else Delivered(target, w, sent, message, imageSent)
  {
    if !reached {
      sent, raised, imageSent := [], true, false;
      assert AttemptWith(target, w, RandomImage(media, w.imagePick), message) == Failure(target, w, sent, message, imageSent);
    } else {
      sent, raised, imageSent := SendToProfile(target, w, media, message);
    }
  }

  /** The sends of the `try` block once the profile was found: the text, then
      possibly the image; the first send that raises ends the block. */
  method SendToProfile(target: string, w: TargetWorld, media: Option<seq<string>>, message: string)
    returns (sent: seq<Event>, raised: bool, imageSent: bool)
    requires ReachesGeneration(w)
    ensures 1 <= |sent| <= 2 && sent[0].SendText? && (|sent| == 2 ==> sent[1].SendImage?)
    ensures imageSent ==> !raised
    ensures AttemptWith(target, w, RandomImage(media, w.imagePick), message) ==
      if raised then Failure(target, w, sent, message, imageSent) else Delivered(target, w, sent, message, imageSent)
  {
    var userId := Resolve(w).profile.pk;
    sent, raised, imageSent := [SendText(userId, message)], false, false;
    if w.textSend == Raised {
      raised := true;
      assert AttemptWith(target, w, RandomImage(media, w.imagePick), message) == Failure(target, w, sent, message, imageSent);
      return;
    }
    var img := RandomImage(media, w.imagePick);
    sent, raised, imageSent := SendImageAfterText(target, w, img, message, sent);
  }

  /** The image half of the `try` block, once the text send returned, where
      `img` is what `random_image()` gave: the image goes out as a second
      send when there is one and the draw passed. */
  method SendImageAfterText(target: string, w: TargetWorld, img: Option<string>, message: string, text: seq<Event>)
    returns (sent: seq<Event>, raised: bool, imageSent: bool)
    requires ReachesGeneration(w) && w.textSend == Returned
    requires text == [SendText(Resolve(w).profile.pk, message)]
    ensures 1 <= |sent| <= 2 && sent[..1] == text && (|sent| == 2 <==> img.Some? && w.imageDraw)
    ensures |sent| == 2 ==> sent[1] == SendImage(Resolve(w).profile.pk, img.value)
    ensures imageSent ==> !raised
    ensures AttemptWith(target, w, img, message) ==
      if raised then Failure(target, w, sent, message, imageSent) else Delivered(target, w, sent, message, imageSent)
  {
    sent, raised, imageSent := text, false, false;
    if img.Some? && w.imageDraw {
      sent := text + [SendImage(Resolve(w).profile.pk, img.value)];
      raised := w.imageSend == Raised;
      imageSent := !raised;
      assert AttemptWith(target, w, img, message) ==
        if raised then Failure(target, w, sent, message, false) else Delivered(target, w, sent, message, true);
    } else {
      assert AttemptWith(target, w, img, message) == Delivered(target, w, sent, message, imageSent);
    }
  }

  /** The end of the `try` block, or the `except` handler when it raised:
      append the record, then on success the optional human-like action and
      the cooldown. */
  method LogOutcome(target: string, w: TargetWorld, sent: seq<Event>, raised: bool, message: string,
                    imageSent: bool, log: LogFile)
    returns (events: seq<Event>, delivered: bool)
    requires log.Valid()
    modifies log
    ensures log.Valid() && log.created
    ensures var a := if raised then Failure(target, w, sent, message, imageSent) else Delivered(target, w, sent, message, imageSent);
      && events == a.events
      && (delivered <==> !raised)
      && log.rows == old(log.rows) + NewRows(old(log.created), [a.record])
  {
    var rec: Record;
    events := sent;
    if !raised {
      rec := Record(target, Success, w.now, message, imageSent);
      log.Append(rec);
      events := events + [Log(rec)];
      if w.humanDraw {
        events := events + [HumanAction];
      }
      events := events + [Cooldown];
      delivered := true;
    } else {
      rec := Record(target, Failed, w.now, if message == "" then "N/A" else message, imageSent);
      log.Append(rec);
      events := events + [Log(rec)];
      delivered := false;
    }
  }

  /** `TryTarget` on target `j` of the list, stated over its outcome. */
  method TryBatchTarget(targets: seq<string>, j: nat, media: Option<seq<string>>,
                        worlds: nat -> TargetWorld, compose: Composer, log: LogFile, ghost outs: seq<AttemptOutcome>)
    returns (events: seq<Event>, delivered: bool)
    requires j < |targets|
    requires OutcomesOf(outs, targets, media, worlds, compose)
    requires log.Valid()
    modifies log
    ensures log.Valid()
    ensures events == outs[j].events && RecordsOf(events) == [outs[j].record]
    ensures delivered <==> outs[j].record.status == Success
    ensures log.rows == old(log.rows) + NewRows(old(log.created), [outs[j].record])
    ensures log.created
  {
    events, delivered := TryTarget(targets[j], worlds(j), media, compose, log);
  }

  /** One pass of `for target in batch` seen from the loop, for target `j`
      of the batch ending before target `hi`, reached below the daily limit:
      appended to the trace so far, the attempt's events leave the rest of
      the batch from the next target on, and the log gains the attempt's
      row. */
  method NextTarget(targets: seq<string>, j: nat, hi: nat, media: Option<seq<string>>,
                    worlds: nat -> TargetWorld, compose: Composer, log: LogFile, ghost outs: seq<AttemptOutcome>,
                    events: seq<Event>, sentTotal: nat, ghost whole: Progress,
                    ghost rows0: seq<seq<string>>, ghost created0: bool)
    returns (events': seq<Event>, sentTotal': nat)
    requires j < hi <= |targets| && sentTotal < DailyLimit
    requires OutcomesOf(outs, targets, media, worlds, compose)
    requires var rest := BatchRun(outs, j, hi, sentTotal);
      whole == Progress(events + rest.events, rest.sent)
    requires log.Valid()
    requires log.rows == rows0 + NewRows(created0, RecordsOf(events))
    requires log.created == (created0 || RecordsOf(events) != [])
    modifies log
    ensures var rest := BatchRun(outs, j + 1, hi, sentTotal');
      whole == Progress(events' + rest.events, rest.sent)
    ensures log.Valid()
    ensures log.rows == rows0 + NewRows(created0, RecordsOf(events'))
    ensures log.created == (created0 || RecordsOf(events') != [])
  {
    var more, delivered := TryBatchTarget(targets, j, media, worlds, compose, log, outs);
    events' := events + more;
    sentTotal' := if delivered then sentTotal + 1 else sentTotal;
    RecordsOfAppend(events, more);
    FileAppend(rows0, created0, RecordsOf(events), [outs[j].record]);
    BatchRunStep(outs, j, hi, sentTotal);
    AppendAssoc(events, more, BatchRun(outs, j + 1, hi, sentTotal').events);
  }

  /** One unfolding of a batch at a target reached below the daily limit. */
  lemma BatchRunStep(outs: seq<AttemptOutcome>, j: nat, hi: nat, sent: nat)
    requires j < hi <= |outs| && sent < DailyLimit
    ensures var rest := BatchRun(outs, j + 1, hi, if outs[j].record.status == Success then sent + 1 else sent);
      BatchRun(outs, j, hi, sent) == Progress(outs[j].events + rest.events, rest.sent)
  {
  }

  /** At the end of the batch, or at the daily limit, the batch adds
      nothing: the trace so far is the whole of it. */
  lemma BatchDone(outs: seq<AttemptOutcome>, j: nat, hi: nat, sent: nat, whole: Progress, events: seq<Event>)
    requires hi <= |outs| && (j >= hi || sent >= DailyLimit)
    requires whole == Progress(events + BatchRun(outs, j, hi, sent).events, BatchRun(outs, j, hi, sent).sent)
    ensures whole == Progress(events, sent)
  {
    assert events + [] == events;
  }

  /** `for target in batch`, with the running `sent_total`, where the
      batch is targets `base` up to `hi` of the list and `outs` are the
      outcomes of the attempts on all targets: the events it produces and
      the counter it leaves are those of `BatchRun`, and the log gains the
      rows of the records in the trace. */
  method RunBatch(targets: seq<string>, base: nat, hi: nat, sent: nat, media: Option<seq<string>>,
                  worlds: nat -> TargetWorld, compose: Composer, log: LogFile, ghost outs: seq<AttemptOutcome>)
    returns (events: seq<Event>, sentTotal: nat)
    requires base <= hi <= |targets|
    requires OutcomesOf(outs, targets, media, worlds, compose)
    requires log.Valid()
    modifies log
    ensures log.Valid()
    ensures Progress(events, sentTotal) == BatchRun(outs, base, hi, sent)
    ensures log.rows == old(log.rows) + NewRows(old(log.created), RecordsOf(events))
    ensures log.created == (old(log.created) || RecordsOf(events) != [])
  {
    events := [];
    sentTotal := sent;
    ghost var whole := BatchRun(outs, base, hi, sent);
    ghost var rows0, created0 := log.rows, log.created;
    var j := base;
    assert events + whole.events == whole.events;
    while j < hi
      invariant base <= j <= hi
      invariant var rest := BatchRun(outs, j, hi, sentTotal);
        whole == Progress(events + rest.events, rest.sent)
      invariant LogMatches(log, rows0, created0, events)
    {
      if sentTotal >= DailyLimit {
        break;
      }
      events, sentTotal := NextTarget(targets, j, hi, media, worlds, compose, log, outs,
                                      events, sentTotal, whole, rows0, created0);
      j := j + 1;
    }
    BatchDone(outs, j, hi, sentTotal, whole, events);
  }

  /** An hour's session save and wait add no record. */
  lemma HourRecords(events: seq<Event>, pause: seq<Event>)
    requires pause == [] || pause == [WaitHour]
    ensures RecordsOf(events + [SaveSession] + pause) == RecordsOf(events)
  {
    RecordsOfAppend(events + [SaveSession], pause);
    RecordsOfAppend(events, [SaveSession]);
    Singleton(SaveSession, SaveSession);
    if pause != [] {
      Singleton(WaitHour, WaitHour);
    }
  }

  /** `outs` are the outcomes of the attempts on `targets`, position by position. */
  ghost predicate OutcomesOf(outs: seq<AttemptOutcome>, targets: seq<string>, media: Option<seq<string>>,
                             worlds: nat -> TargetWorld, compose: Composer)
  {
    && |outs| == |targets|
    && forall i {:trigger targets[i]} :: 0 <= i < |targets| ==> outs[i] == Attempt(targets[i], worlds(i), media, compose)
  }

  /** One pass of the hourly loop on a non-empty batch: the batch, the
      session save and, before the last hour, the wait; what follows is the
      rest of the schedule from the next hour on. */
  method RunHour(targets: seq<string>, hour: nat, sent: nat, media: Option<seq<string>>,
                 worlds: nat -> TargetWorld, compose: Composer, log: LogFile, ghost outs: seq<AttemptOutcome>)
    returns (events: seq<Event>, sentTotal: nat)
    requires 1 <= hour <= TotalHours && |targets| > (hour - 1) * DmsPerHour
    requires OutcomesOf(outs, targets, media, worlds, compose)
    requires log.Valid()
    modifies log
    ensures log.Valid()
    ensures var rest := HoursRun(outs, hour + 1, sentTotal);
      HoursRun(outs, hour, sent) == Progress(events + rest.events, rest.sent)
    ensures log.rows == old(log.rows) + NewRows(old(log.created), RecordsOf(events))
    ensures log.created == (old(log.created) || RecordsOf(events) != [])
  {
    var base := (hour - 1) * DmsPerHour;
    var hi := HourEnd(|targets|, hour);
    var batchEvents;
    batchEvents, sentTotal := RunBatch(targets, base, hi, sent, media, worlds, compose, log, outs);
    assert hi == HourEnd(|outs|, hour);
    var pause: seq<Event> := [];
    if hour < TotalHours {
      pause := [WaitHour];
    }
    events := batchEvents + [SaveSession] + pause;
    HourClose(outs, hour, sent, batchEvents, sentTotal, events);
  }

  /** An hour's trace is its batch's, the session save and the pause: it
      logs what the batch logged, and the rest of the schedule follows it. */
  lemma HourClose(outs: seq<AttemptOutcome>, hour: nat, sent: nat, batchEvents: seq<Event>, sentTotal: nat,
                  events: seq<Event>)
    requires 1 <= hour <= TotalHours && |outs| > (hour - 1) * DmsPerHour
    requires Progress(batchEvents, sentTotal) == BatchRun(outs, (hour - 1) * DmsPerHour, HourEnd(|outs|, hour), sent)
    requires events == batchEvents + [SaveSession] + (if hour < TotalHours then [WaitHour] else [])
    ensures var rest := HoursRun(outs, hour + 1, sentTotal);
      HoursRun(outs, hour, sent) == Progress(events + rest.events, rest.sent)
    ensures RecordsOf(events) == RecordsOf(batchEvents)
  {
    HourRecords(batchEvents, if hour < TotalHours then [WaitHour] else []);
    HoursRunStep(outs, hour, sent, Progress(batchEvents, sentTotal));
  }

  /** One unfolding of the schedule at an hour that has targets left. */
  lemma HoursRunStep(outs: seq<AttemptOutcome>, hour: nat, sent: nat, b: Progress)
    requires 1 <= hour <= TotalHours && |outs| > (hour - 1) * DmsPerHour
    requires b == BatchRun(outs, (hour - 1) * DmsPerHour, HourEnd(|outs|, hour), sent)
    ensures var pause := if hour < TotalHours then [WaitHour] else [];
      var rest := HoursRun(outs, hour + 1, b.sent);
      HoursRun(outs, hour, sent) == Progress(b.events + [SaveSession] + pause + rest.events, rest.sent)
  {
  }

  /** The trace so far followed by the schedule from `hour` on is the whole
      run `total`. */
  ghost predicate OnSchedule(outs: seq<AttemptOutcome>, total: Progress, trace: seq<Event>, hour: nat, sent: nat)
  {
    hour >= 1 && total == Progress(trace + HoursRun(outs, hour, sent).events, HoursRun(outs, hour, sent).sent)
  }

  /** The log file holds the rows it held at the start followed by those of
      the records in the trace so far. */
  ghost predicate LogMatches(log: LogFile, rows0: seq<seq<string>>, created0: bool, trace: seq<Event>)
    reads log
  {
    log.Valid() && log.rows == rows0 + NewRows(created0, RecordsOf(trace))
    && log.created == (created0 || RecordsOf(trace) != [])
  }

  /** One pass of the hourly loop seen from the loop: appended to the trace
      so far, the hour's events leave the remaining schedule from the next
      hour on, and the log gains the hour's rows. */
  method NextHour(targets: seq<string>, hour: nat, media: Option<seq<string>>, worlds: nat -> TargetWorld,
                  compose: Composer, log: LogFile, ghost outs: seq<AttemptOutcome>,
                  trace: seq<Event>, sentTotal: nat, ghost total: Progress,
                  ghost rows0: seq<seq<string>>, ghost created0: bool)
    returns (trace': seq<Event>, sentTotal': nat)
    requires 1 <= hour <= TotalHours && |targets| > (hour - 1) * DmsPerHour
    requires OutcomesOf(outs, targets, media, worlds, compose)
    requires OnSchedule(outs, total, trace, hour, sentTotal)
    requires LogMatches(log, rows0, created0, trace)
    modifies log
    ensures OnSchedule(outs, total, trace', hour + 1, sentTotal')
    ensures LogMatches(log, rows0, created0, trace')
  {
    var events;
    events, sentTotal' := RunHour(targets, hour, sentTotal, media, worlds, compose, log, outs);
    trace' := trace + events;
    RecordsOfAppend(trace, events);
    FileAppend(rows0, created0, RecordsOf(trace), RecordsOf(events));
    AppendAssoc(trace, events, HoursRun(outs, hour + 1, sentTotal').events);
  }

  /** `for hour in range(1, TOTAL_HOURS + 1)` with `sent_total` starting at
      zero: the events and the counter are those of `HoursRun` on the
      targets' outcomes, and the log gains the rows of the records in the
      trace. */
  method RunHours(targets: seq<string>, media: Option<seq<string>>, worlds: nat -> TargetWorld,
                  compose: Composer, log: LogFile, ghost outs: seq<AttemptOutcome>)
    returns (trace: seq<Event>, sentTotal: nat)
    requires OutcomesOf(outs, targets, media, worlds, compose)
    requires log.Valid()
    modifies log
    ensures log.Valid()
    ensures Progress(trace, sentTotal) == HoursRun(outs, 1, 0)
    ensures log.rows == old(log.rows) + NewRows(old(log.created), RecordsOf(trace))
    ensures log.created == (old(log.created) || RecordsOf(trace) != [])
  {
    assert |outs| == |targets|;
    ghost var rows0, created0 := log.rows, log.created;
    trace := [];
    sentTotal := 0;
    ghost var total := HoursRun(outs, 1, 0);
    var hour: nat := 1;
    assert trace + total.events == total.events;
    while hour <= TotalHours
      invariant 1 <= hour <= TotalHours + 1
      invariant OnSchedule(outs, total, trace, hour, sentTotal)
      invariant LogMatches(log, rows0, created0, trace)
      decreases TotalHours + 1 - hour
    {
      if |targets| <= (hour - 1) * DmsPerHour {
        break;
      }
      trace, sentTotal := NextHour(targets, hour, media, worlds, compose, log, outs,
                                   trace, sentTotal, total, rows0, created0);
      hour := hour + 1;
    }
    ScheduleDone(outs, hour, sentTotal, total, trace);
  }

  /** Past the last hour, or past the end of the targets, the schedule adds
      nothing: the trace so far is the whole of it. */
  lemma ScheduleDone(outs: seq<AttemptOutcome>, hour: nat, sent: nat, total: Progress, trace: seq<Event>)
    requires hour >= 1 && (hour > TotalHours || |outs| <= (hour - 1) * DmsPerHour)
    requires OnSchedule(outs, total, trace, hour, sent)
    ensures total == Progress(trace, sent)
  {
    assert trace + [] == trace;
  }

  /** The body of `run_account` for a given message generator: parse the
      targets, log in, then work through the hourly batches, appending each
      attempt to the account's log file. */
  method RunAccountWith(targetsFile: Option<seq<string>>, auth: AuthWorld,
                        media: Option<seq<string>>, worlds: nat -> TargetWorld, compose: Composer, log: LogFile)
    returns (end: WorkerEnd, trace: seq<Event>)
    requires log.Valid()
    modifies log
    ensures log.Valid()
    ensures RunOutcome(end, trace) == RunWith(targetsFile, auth, media, worlds, compose)
    ensures log.rows == old(log.rows) + NewRows(old(log.created), RecordsOf(trace))
    ensures log.created == (old(log.created) || RecordsOf(trace) != [])
  {
    trace := [];
    if targetsFile.None? {
      end := NoTargetList;
      return;
    }
    var targets := CleanTargets(targetsFile.value);
    if targets == [] {
      end := NoTargets;
      return;
    }
    end, trace := Work(targets, auth, media, worlds, compose, log);
  }

  /** The login step of `run_account`: `load_settings` and `login` when a
      session file exists, with one fresh login if that raises; a fresh
      login otherwise. */
  method LogIn(auth: AuthWorld) returns (events: seq<Event>, loggedIn: bool)
    ensures LoginOutcome(events, loggedIn) == Authenticate(auth)
  {
    if auth.sessionFile {
      events := [RestoreSession];
      if auth.restore == Returned {
        loggedIn := true;
      } else {
        events := events + [FreshLogin];
        loggedIn := auth.login == Returned;
      }
    } else {
      events := [FreshLogin];
      loggedIn := auth.login == Returned;
    }
  }

  /** `run_account` from the login on, for a non-empty target list. */
  method Work(targets: seq<string>, auth: AuthWorld, media: Option<seq<string>>,
              worlds: nat -> TargetWorld, compose: Composer, log: LogFile)
    returns (end: WorkerEnd, trace: seq<Event>)
    requires log.Valid()
    modifies log
    ensures log.Valid()
    ensures RunOutcome(end, trace) == WorkRun(targets, auth, media, worlds, compose)
    ensures log.rows == old(log.rows) + NewRows(old(log.created), RecordsOf(trace))
    ensures log.created == (old(log.created) || RecordsOf(trace) != [])
  {
    var loggedIn;
    trace, loggedIn := LogIn(auth);
    if !loggedIn {
      end := LoginRaised;
      return;
    }
    trace := trace + [SaveSession];
    assert RecordsOf(trace) == [] by {
      RecordsOfAppend(Authenticate(auth).events, [SaveSession]);
      Singleton(SaveSession, SaveSession);
    }
    ghost var outs := Outcomes(targets, media, worlds, compose);
    assert OutcomesOf(outs, targets, media, worlds, compose);
    var events, sentTotal := RunHours(targets, media, worlds, compose, log, outs);
    RecordsOfAppend(trace, events);
    assert [] + RecordsOf(events) == RecordsOf(events);
    trace := trace + events;
    end := Finished(sentTotal);
  }

  /** `run_account(username, password)` on the account's own log file. */
  method RunAccount(username: string, targetsFile: Option<seq<string>>, auth: AuthWorld,
                    media: Option<seq<string>>, worlds: nat -> TargetWorld, log: LogFile)
    returns (end: WorkerEnd, trace: seq<Event>)
    requires log.Valid() && log.owner == username
    modifies log
    ensures log.Valid()
    ensures RunOutcome(end, trace) == Run(targetsFile, auth, media, worlds)
    ensures log.rows == old(log.rows) + NewRows(old(log.created), RecordsOf(trace))
    ensures log.created == (old(log.created) || RecordsOf(trace) != [])
  {
    end, trace := RunAccountWith(targetsFile, auth, media, worlds, GptComposer, log);
  }
}
