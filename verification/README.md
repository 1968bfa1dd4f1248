# InstaDm-Automation outreach worker, modelled in Dafny

This project models the per-account outreach worker of InstaDm-Automation
(`multiaccount.py`) and the message generator of `agent/gptDm.py`.

For one account, the worker does the following:

- It reads its target list. It keeps the non-blank lines, stripped, in file order.
- It restores a saved session or logs in fresh, then saves the session.
- It works through the targets in hourly batches of seven, for at most five hours.
  The running `sent_total` counter is capped by a daily limit of 35.
- For each target it does these steps:
  - looks the profile up, falling back to a second lookup call if the first raises;
  - generates a message from the biography;
  - sends the text, then, when the media directory holds an image and an 80% draw passes, makes a second `direct_send` call whose text argument is the one-element list `[str(img)]` holding the chosen file's path (multiaccount.py:215); this is not a media upload, and `image_sent` means only that this second call returned;
  - appends one CSV row per attempt to the account's log file, writing the header only when it creates the file;
  - on success, sometimes performs a "human-like" action, then cools down.
- After each hour it saves the session again. It then waits an hour, unless that was hour five.

Everything the outside world decides is an input to the model (an oracle):

- the platform calls, each of which returns or raises;
- the language model, as a function from the prompt to its reply;
- the random draws;
- the clock.

The worker's observable effects are written as a trace of events: sends, log appends, cooldowns, session saves, hourly waits and logins. The log file is a class whose rows the worker appends to.

The model is in three layers:

1. Specification functions, `Worker.Attempt`, `Worker.BatchRun`, `Worker.HoursRun` and `Worker.RunWith`, say what one attempt, one batch, the hourly loop and the whole worker produce.
2. Methods, from `Worker.TryTarget` up to `Worker.RunAccount`, follow the source's loops and locals step by step. Each is proved to produce exactly the trace of its specification function and to leave the log file holding exactly the rows of the records in that trace.
3. Lemmas in `Schedule` state what the schedule adds up to:
   - the first `min(n, 35)` targets are attempted, each position once and in order;
   - there is one record per attempt, naming its target;
   - `sent_total` is the number of successes and never exceeds 35;
   - there is one cooldown per success;
   - the session is saved once after login and once per hour that ran;
   - there is one wait per such hour except hour five.

Three details of the code that are easy to miss:

- The header's first column is `username`, while the rows hold the target.
- The hourly wait does not depend on the daily limit. It also follows the last non-empty hour when that hour is below five, so twenty targets cost three waits: hour four then finds nothing to send (`Schedule.TwentyTargets`).
- With seven targets an hour for five hours, the daily-limit check inside the batch loop can never stop a batch. `Schedule.ScheduleSummary` shows that every one of the first 35 targets is attempted.

## Model

| member | source | states |
|---|---|---|
| Text.Strip | multiaccount.py:157 | `str.strip()`: the result starts and ends with non-whitespace and is no longer than the input |
| Text.IsSpace | multiaccount.py:157 | the whitespace `str.strip()` removes: on ASCII exactly space, tab to carriage return and the four separators 0x1C-0x1F; nothing above U+3000 |
| Text.TrimLeft | multiaccount.py:157 | the result is a suffix of the input, everything cut from the front is whitespace, and the result starts with a non-space |
| Text.TrimRight | multiaccount.py:157 | the result is a prefix of the input, everything cut from the end is whitespace, and the result ends with a non-space |
| Text.StripIsSlice | multiaccount.py:157 | the stripped string is a slice of the input, and everything cut away on both sides is whitespace |
| Text.StripIdempotent | multiaccount.py:157 | stripping a stripped string changes nothing |
| Text.StripEmptyIffBlank | multiaccount.py:157 | a line strips to nothing exactly when it is all whitespace, which is the `if t.strip()` filter |
| Text.Contains | multiaccount.py:104-110 | Python's `needle in hay` on strings: the empty needle is always contained, and a contained needle is no longer than the text |
| Text.Lower | multiaccount.py:103 | `bio.lower()` keeps the length and lower-cases each ASCII capital, leaving every other character alone |
| Inputs.CleanTargets | multiaccount.py:157 | the cleaned list is never longer than the lines read |
| Inputs.CleanTargetsClean | multiaccount.py:157 | every cleaned target is non-empty and carries no surrounding whitespace |
| Inputs.CleanTargetsCons | multiaccount.py:157 | the first line contributes its stripped form if it is non-blank, ahead of the cleaned rest |
| Inputs.CleanTargetsAppend | multiaccount.py:157 | cleaning distributes over concatenation, so file order is kept |
| Inputs.CleanTargetsLine | multiaccount.py:157 | a single line is dropped exactly when it is all whitespace, and kept stripped otherwise |
| Inputs.CleanTargetsIdempotent | multiaccount.py:157 | cleaning an already cleaned list changes nothing |
| Inputs.CleanLineClean | multiaccount.py:157 | what cleaning keeps of one line is already clean |
| Inputs.IsAccountRow | multiaccount.py:269 | `row and len(row) >= 2` holds exactly when the row has at least two fields |
| Inputs.FilterAccounts | multiaccount.py:269 | a CSV row is kept exactly when it has at least two fields, and every kept row has two or more |
| Inputs.FilterAccountsAppend | multiaccount.py:269 | account filtering distributes over concatenation, so file order is kept |
| Inputs.Credentials | multiaccount.py:252-255 | username and password are the first two fields, each a slice of its field with only whitespace cut away and neither ending in whitespace |
| Inputs.LastIndexOf | multiaccount.py:76 | the index of the last occurrence of a character, or -1 exactly when it does not occur |
| Inputs.Suffix | multiaccount.py:76 | `Path.suffix`: a final `.ext` with no further dot, never the whole name; empty only when no dot sits strictly inside the name with none after it |
| Inputs.IsImage | multiaccount.py:76 | a file accepted as an image has a suffix of four or five characters starting with a dot, and a non-empty stem before it |
| Inputs.ImageFiles | multiaccount.py:76 | a directory entry is kept exactly when its lower-cased suffix is `.jpg`, `.png` or `.jpeg` |
| Inputs.RandomImage | multiaccount.py:72-77 | `random_image()` returns an image file that is in the directory, or `None` exactly when the directory is missing or holds no image |
| Inputs.ImageSuffixExamples | multiaccount.py:76 | the suffix test ignores case and does not treat a leading dot as a suffix |
| Inputs.OtherSuffixExamples | multiaccount.py:76 | the suffix test rejects a trailing dot and extensions outside the list |
| OutreachDm.InterestOf | multiaccount.py:101-111 | a label, when there is one, is a non-empty interest |
| OutreachDm.FirstMatching | multiaccount.py:104-111 | an independent first-match search over a keyword table: the index returned matches and no earlier rule does, or no rule matches at all |
| OutreachDm.InterestIsFirstMatch | multiaccount.py:102-111 | the `if/elif` chain returns the label of the first rule in the keyword table whose keyword occurs in the lower-cased biography, and no label exactly when none occurs |
| OutreachDm.InterestExamples | multiaccount.py:103-111 | "journal" takes precedence over "travel", the match is case-insensitive, and "art" matches inside "party" |
| OutreachDm.PersonalizationOfBio | multiaccount.py:113-117 | the personalization sentence names the matched interest, or the competitor when nothing matched |
| OutreachDm.WorkerPrompt | multiaccount.py:119-132 | the prompt addresses `@to_user` and carries the personalization sentence as a guideline line of its own |
| OutreachDm.GenerateGptDm | multiaccount.py:96-145 | the message is never empty and never starts or ends with whitespace; it is the model's stripped answer when that is non-blank, and the canned message when the call raises or the answer is blank |
| GptDm.Truthy | agent/gptDm.py:17 | the `if interests` test: `None` and the empty string are falsy, every non-empty string is truthy |
| GptDm.Personalization | agent/gptDm.py:15-19 | with truthy interests the sentence starts with "They seem genuinely into" and contains them; otherwise it starts with "They follow" and contains the competitor |
| GptDm.TemplateMentions | agent/gptDm.py:21-34 | a template of this shape contains the `@user` mention and the personalization line |
| GptDm.AgentPrompt | agent/gptDm.py:21-34 | the prompt addresses `@to_user` and carries the personalization sentence as a guideline line of its own |
| GptDm.FinishReply | agent/gptDm.py:43-47 | the stripped reply when it is non-blank, the canned message when the call raised or the reply is blank; never empty, never whitespace-ended |
| GptDm.GenerateDm | agent/gptDm.py:10-47 | `generate_dm` never raises and never returns an empty message; the result is the stripped model answer or the canned message, case by case |
| Audit.CsvRow | multiaccount.py:67-70 | a log row has as many fields as the header: the target, "success" exactly for a success and "failed" exactly for a failure, the timestamp, the message, and "True" or "False" for the image flag; it is never the header |
| Audit.CsvRows | multiaccount.py:67-70 | one row per record, row `i` being that of record `i` |
| Audit.CsvRowsAppend | multiaccount.py:67-70 | rows are produced record by record |
| Audit.NewRows | multiaccount.py:61-70 | a run of appends adds one row per record, plus one header row in front exactly when the file did not exist and something was appended |
| Audit.NewRowsContents | multiaccount.py:61-70 | after the header, if any, the appends write the rows of their records in order, row `i` being that of record `i` |
| Audit.NewRowsSnoc | multiaccount.py:61-70 | one more append adds its row, preceded by the header only if no earlier append created the file |
| Audit.NewRowsAppend | multiaccount.py:57-70 | two runs of appends add the first run's rows, then the second's on a file that exists if it did before or the first run created it |
| Audit.FileAppend | multiaccount.py:57-70 | the same, for a file that already held rows |
| Audit.HeaderOnce | multiaccount.py:61-66 | a file created by the appends begins with the header and holds it nowhere else; a file that existed never receives it |
| Audit.LogFile.Absent | multiaccount.py:60-61 | a log file that does not exist yet holds no rows |
| Audit.LogFile.Existing | multiaccount.py:60-61 | a log file left by an earlier run keeps its rows |
| Audit.LogFile.Append | multiaccount.py:57-70 | `append_log` adds the record's row, preceded by the header exactly when the file did not exist, and the file exists afterwards |
| Worker.GptComposer | multiaccount.py:206 | the worker's own generator call never yields an empty message |
| Worker.Successes | multiaccount.py:220 | the successes among some records are no more than the records |
| Worker.RecordsOfAppend | multiaccount.py:219-232 | the records of a trace are those of its parts, in order |
| Worker.SuccessesAppend | multiaccount.py:220 | successes add up over concatenation |
| Worker.Resolve | multiaccount.py:199-202 | the v1 lookup's result is used when it returned; when it raised, the fallback's result is used, whatever it is; a profile is found exactly when one of the two returned |
| Worker.ReachesGeneration | multiaccount.py:199-206 | generation is reached exactly when the v1 lookup returned a profile with a biography, or it raised and the fallback returned one; a `None` biography fails at `bio.lower()` (line 103) |
| Worker.Generated | multiaccount.py:195-206 | the `message` local when the sends begin, along the fallback chain: the generator's message on the v1 lookup's biography when v1 returned one; on the fallback's biography when v1 raised and the fallback returned one; `""` when the found profile has a `None` biography or both lookups raised |
| Worker.ImageAttempted | multiaccount.py:212-214 | the image send is attempted exactly when a message was generated, the text send returned, the 80% draw passed, and the media directory exists and holds at least one file with an image suffix (lines 72-77) |
| Worker.Failure | multiaccount.py:230-232 | the `except` branch logs a `failed` row for the target, stamped with the clock, with the message or 'N/A' when it is empty and the image flag as it stood; the events are the sends made so far, unchanged, then that one log append |
| Worker.Delivered | multiaccount.py:219-228 | the success path logs a `success` row for the target, stamped with the clock, with the sent message and the image flag; the events are the sends, unchanged, the log append, the human-like action exactly when its draw passed, and the cooldown last |
| Worker.AttemptWith | multiaccount.py:197-232 | given the message and what `random_image()` returns: the record names the target and the clock; a row never claims the image was sent unless it is a success; a failed lookup or missing biography always fails |
| Worker.Attempt | multiaccount.py:193-232 | the record of an attempt names its target and carries the clock's timestamp |
| Worker.AttemptCases | multiaccount.py:193-232 | case by case: a failed lookup or a `None` biography logs `failed` with 'N/A' and does nothing else; otherwise the text goes out first with the generated message, which is also the one logged; a raised text send fails without image; an attempted image send decides success and the image flag; without one the text send makes it a success |
| Worker.AttemptSuccessIff | multiaccount.py:197-232 | success exactly when the message was generated, the text send returned and any attempted image send returned; the image counts as sent exactly when its send was attempted and returned |
| Worker.SendsCounts | multiaccount.py:209-215 | the sends of an attempt log nothing and count no cooldown, save, wait or login |
| Worker.LoggedTrace | multiaccount.py:219-232 | sends, one log append and a tail log exactly that record followed by the tail's |
| Worker.FailureTrace | multiaccount.py:230-232 | the `except` branch logs exactly one record and adds no cooldown or human-like action |
| Worker.DeliveredTrace | multiaccount.py:219-228 | the success path logs exactly one record, one cooldown, and the human-like action exactly when its draw passed |
| Worker.AttemptWithTrace | multiaccount.py:197-232 | every path of the `try`/`except` logs exactly one record; cooldown and human-like action happen only after a success |
| Worker.SentTrace | multiaccount.py:208-232 | once a message was generated, every path logs exactly one record; cooldown and human-like action happen only after a success |
| Worker.TextSentTrace | multiaccount.py:212-232 | the same once the text send returned |
| Worker.ImageSentTrace | multiaccount.py:214-232 | the same once the image send was attempted |
| Worker.AttemptTrace | multiaccount.py:193-232 | an attempt adds exactly its own record, one cooldown when it succeeded and none otherwise, and no session save, wait or login |
| Worker.HourEnd | multiaccount.py:184 | the slice bound of hour `h` is `h * 7` clamped to the list length |
| Worker.Outcomes | multiaccount.py:188-232 | one outcome per target |
| Worker.Authenticate | multiaccount.py:166-176 | login succeeds exactly when a saved session is restored or the fresh login returns; there is one fresh login exactly when no session was restored; login logs nothing and saves nothing |
| Worker.WorkRun | multiaccount.py:162-240 | after the targets are read, the run either raises at login having logged nothing, or finishes with the login's events followed by a session save |
| Worker.RunWith | multiaccount.py:148-160 | a missing target file ends the worker with nothing done, and so does a file with no non-blank line |
| Worker.Run | multiaccount.py:148-240 | a worker finishes exactly when its target file exists, holds a non-blank line and login succeeds, and a finished worker has sent at most 35 messages |
| Worker.TryTarget | multiaccount.py:193-232 | one pass of the body of `for target in batch` produces the attempt's trace, reports success exactly when the attempt succeeded, and appends the attempt's row to the log |
| Worker.SendAndLog | multiaccount.py:208-232 | the sends, the log append, the human-like action and the cooldown, step by step, equal the specified attempt, and the log gains exactly its row |
| Worker.SendMessages | multiaccount.py:208-215 | the sends of the `try` block: none exactly when the lookup or biography failed, else the text then possibly the image; whether it raised and the image flag select the failed or delivered outcome that the attempt specifies |
| Worker.SendToProfile | multiaccount.py:208-215 | once the profile was found, the text goes first and the image second; the first raising send ends the block, and the result is the attempt's specified outcome |
| Worker.SendImageAfterText | multiaccount.py:213-216 | after the text send returned, the image goes out as a second send exactly when `random_image()` gave one and the draw passed; whether it raised selects the failed or delivered outcome that the attempt specifies |
| Worker.LogOutcome | multiaccount.py:219-232 | after the sends, the log gains exactly the attempt's row; the events and the delivered flag are those of the success path or the `except` branch |
| Worker.TryBatchTarget | multiaccount.py:193-232 | the attempt on target `j` of the list, stated over its outcome |
| Worker.NextTarget | multiaccount.py:188-232 | one target of the batch loop keeps the loop's invariant: the trace so far plus the rest of the batch is the whole batch, and the log holds the rows of the trace so far |
| Worker.BatchRunStep | multiaccount.py:188-232 | a target reached below the daily limit is attempted, and the counter grows by one exactly when it succeeded |
| Worker.BatchDone | multiaccount.py:188-191 | at the end of the batch or at the daily limit, the batch adds nothing more |
| Worker.BatchRun | multiaccount.py:188-232 | a batch started within the daily limit never takes `sent_total` past it |
| Worker.RunBatch | multiaccount.py:184-232 | `for target in batch` over the slice `targets[base:hi]`, with the daily-limit check, produces exactly the specified batch trace and counter, and the log gains exactly the rows of the records in the trace |
| Worker.HourRecords | multiaccount.py:234-238 | the hourly save and wait add no record |
| Worker.HourClose | multiaccount.py:234-238 | the batch, the save and the wait before hour five are the schedule's hour, and the save and wait add no record |
| Worker.RunHour | multiaccount.py:182-238 | one hour runs its batch, saves the session and, before hour five, waits; the rest is the schedule from the next hour |
| Worker.HoursRunStep | multiaccount.py:182-238 | an hour with targets left is its batch, a save and, before hour five, a wait, followed by the following hours |
| Worker.NextHour | multiaccount.py:182-238 | one hour of the hourly loop keeps the loop's invariant, both on the trace and on the log |
| Worker.ScheduleDone | multiaccount.py:182-186 | past hour five, or at the first empty batch, the schedule adds nothing more |
| Worker.HoursRun | multiaccount.py:181-238 | the hourly schedule started within the daily limit never takes `sent_total` past it |
| Worker.RunHours | multiaccount.py:181-240 | the hourly loop produces exactly the specified schedule and final `sent_total`, and the log gains exactly the rows of its records |
| Worker.LogIn | multiaccount.py:166-176 | restore, fallback and fresh login, step by step, agree with `Authenticate` |
| Worker.Work | multiaccount.py:162-240 | login, session save and the hourly loop produce exactly the specified run, and the log gains exactly its rows |
| Worker.RunAccountWith | multiaccount.py:148-240 | the worker's body produces exactly the specified run for any generator, and the log gains exactly the rows of the run's records |
| Worker.RunAccount | multiaccount.py:148-240 | `run_account` with its own generator produces exactly the specified run, and the account's log gains exactly the rows of its records |
| Schedule.AttemptOneRecord | multiaccount.py:193-232 | every attempt adds its own record and, of the counted events, only one cooldown exactly when it succeeded |
| Schedule.OutcomesOneRecord | multiaccount.py:188-232 | the same holds at every position of the outcome list |
| Schedule.BatchRunRecords | multiaccount.py:188-232 | a batch below the daily limit attempts every target, in order, and the counter grows by exactly its successes |
| Schedule.BatchRunSent | multiaccount.py:220 | a batch adds at most one send per target to the counter |
| Schedule.BatchRunCounts | multiaccount.py:188-228 | below the daily limit a batch cools down once per success and never saves, waits or logs in |
| Schedule.HourTrace | multiaccount.py:234-238 | an hour's save adds one save, its wait one wait, and neither adds a record |
| Schedule.HourRuns | multiaccount.py:182-238 | an hour that runs ends within the first 35 targets, saves once, and waits once unless it is hour five |
| Schedule.HourStops | multiaccount.py:182-186 | when the loop stops, no target beyond those already attempted is attempted, and no save or wait follows |
| Schedule.HoursRunRecords | multiaccount.py:181-240 | from any hour on, the schedule attempts the targets from that hour's first up to the 35th, in order, and the counter grows by their successes |
| Schedule.RecordsStep | multiaccount.py:182-238 | the records from an hour are its batch's, then those of the next hour |
| Schedule.HoursRunCounts | multiaccount.py:181-240 | from any hour on, the schedule's cooldowns, saves and waits are its successes, its hours, and its hours before the fifth |
| Schedule.HourCounts | multiaccount.py:182-238 | an hour that runs adds to the counts of the following hours exactly its cooldowns, its save and its wait |
| Schedule.CountStep | multiaccount.py:182-238 | the counts from an hour are its batch's, its save and its wait, then those of the next hour |
| Schedule.ScheduleSummary | multiaccount.py:181-240 | the hourly loop attempts the first `min(n, 35)` targets, each once, in order; `sent_total` is their successes, at most 35, and equals the cooldowns; it saves `ceil(n/7)` times, capped at five, and waits after each of those hours but the fifth |
| Schedule.LoginCounts | multiaccount.py:166-176 | login adds no cooldown, save or wait |
| Schedule.HoursUsedIsCeiling | multiaccount.py:182-186 | the number of hours used is the number of seven-target batches needed, the last possibly partial, capped at five |
| Schedule.WorkTrace | multiaccount.py:162-240 | a finished run is the login's events, one save, then the hourly schedule, with the schedule's counter |
| Schedule.JoinTrace | multiaccount.py:166-182 | joining login, save and schedule adds one save and no record |
| Schedule.FinishedRecords | multiaccount.py:162-240 | a finished run's records are those of the first `min(n, 35)` targets' attempts, position by position, and `sent_total` counts their successes |
| Schedule.FinishedCounts | multiaccount.py:162-240 | a finished run cools down once per success, saves `1 + ceil(n/7)` times (hours capped at five), waits after every hour but the fifth, and logs in fresh exactly when no saved session was restored |
| Schedule.RunSummary | multiaccount.py:148-240 | `run_account` on a target file, when it finishes, logs one record per attempted target, for target `k` at position `k`, attempting the first `min(n, 35)` cleaned targets; `sent_total` is the successes and at most 35; cooldowns, saves, waits and fresh logins are counted as above |
| Schedule.TwentyTargets | multiaccount.py:181-240 | twenty targets take three hours, three saves and three waits, the last wait after the final batch |

## Left out

- `run_concurrent` (multiaccount.py:245-257) and `main`'s thread pool and staggered start are left out: they are concurrency and sleeping. The workers are not independent. All threads share the module-level OpenAI client `client_ai` (line 46, called at line 135), the global `random` generator (drawn at lines 77, 214, 223 and 226) and the media directory. For distinct usernames their log and session files are disjoint. The model still covers each worker: every random draw and every language-model reply is a free input per target, so an interleaving of workers only changes which inputs one worker sees, not what it does with them. Nothing deduplicates the accounts file (line 269), and line 255 strips the names, so an account listed twice (say as `alice` and ` alice`) starts two concurrent workers on the same log and session files. Their header-once test (lines 61-66) can then race, and that interleaving is not modelled.
- `main`'s `FileNotFoundError` for a missing accounts file and its top-level `except` are left out: they are process-level I/O. The accounts-file row filter is modelled as `Inputs.FilterAccounts`.
- The internals of `human_like_action` are left out. They are platform calls inside a `try` that swallows every exception, so the call is one `HumanAction` event that can neither raise nor log.
- Sleeps are left out as durations. The cooldown of `randint(20, 75)` seconds and the one-hour wait are the `Cooldown` and `WaitHour` events.
- Printing is left out, and so are the opening of files and directories and the reading of `.env`.
- File reading is not modelled. The target file is given as its lines (`splitlines()` is taken as done), the accounts file as its CSV rows, and the media directory as its listing, which is the same for every attempt of a run.
- `dump_settings` (lines 178 and 235) and `append_log` are assumed never to raise. An exception from `dump_settings`, or from the `append_log` in the `except` branch (line 232), is not caught and would end the worker. The `append_log` on the success path (line 219) is inside the `try` of line 197. If that row write raised, line 230 would catch it and a `failed` row would be attempted through line 232, and `sent_total` would not grow. Whether the success row was already written depends on where `append_log` raised (lines 61-70). If the `open` raised, no row was written, and the second `append_log` would most likely raise too; being uncaught, it would end the worker. That path is not modelled.
- The clock is an input. `datetime.now(timezone.utc).isoformat()` is each target's `now` string.
- Randomness is an input:
  - `random.choice(images)` is the index `pick % |images|`;
  - the 0.8 and 0.35 draws are booleans.
- The language model is an input: a function from the prompt to a reply, or to an exception. Its model name, temperature and token limit are not modelled.
- The platform's responses are inputs, indexed by the target's position in the list. That is sound because each position of the list is attempted at most once per run. Line 157 keeps duplicate lines, so a handle listed twice is messaged twice, once per position.
- Text.Lower: only ASCII capitals are lower-cased, not every character Python's `str.lower` maps. Outside ASCII, only two characters lower-case to ASCII letters:
  - `'İ'` (U+0130) becomes `i` followed by the combining dot U+0307. The dot can continue no keyword or suffix, and none of them ends in `i`, so that `i` can take part in no match.
  - The Kelvin sign (U+212A) becomes `k`, which occurs in no keyword or suffix.
  So the interest labels and the image filter are unaffected.
- Text.IsSpace follows Python's `str.isspace` table as listed. Unicode data beyond that list is not modelled.
- OutreachDm.InterestOf: its own contract says only that a label is non-empty. Which label it returns is stated by `OutreachDm.InterestIsFirstMatch` and `OutreachDm.InterestExamples`.
- Inputs.CleanTargets: its own contract bounds only the length. What the list holds is stated by `Inputs.CleanTargetsClean`, `Inputs.CleanTargetsLine` and `Inputs.CleanTargetsAppend`.
- The message generator is a parameter (`Worker.Composer`) of the attempt and of the schedule. `Worker.RunAccount` fixes it to `generate_gpt_dm` with its default competitor.
