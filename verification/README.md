# Danger Detector alert orchestration

Danger Detector watches a webcam with an object detector. For every frame it
keeps the detections of the danger classes (`knife`, `gun`) whose confidence
is above 0.5 and counts them per class. If anything dangerous was seen and
more than 5 seconds have passed since the last voice alert, it does the
following:

- writes one CSV log row per class;
- saves one snapshot of the frame;
- speaks a warning such as `Warning! 2 knife, 1 gun detected.`;
- sends an e-mail with the snapshot attached, at most once every 300 seconds
  and at most three times per run;
- sends a WhatsApp message with the labels and the machine's location, once
  per run.

Four module-level variables carry the state between frames:
`last_alert_time`, `last_email_time`, `email_alert_count` and `whatsapp_sent`.

The model has six modules:

- `Danger` (`danger.dfy`): the danger filter. There is a function
  `DangerLabels` and a method `CollectDangers`; the method is the per-box
  loop, proved equal to the function.
- `Counting` (`counting.dfy`): `Counter(detected_dangers)`. A counter is a
  sequence of `(name, count)` entries in first-insertion order, as Python's
  `Counter` keeps its keys. It is built by bumping one label at a time.
- `Text` (`text.dfy`): the strings of the loop. These are `str(count)`,
  `", ".join(...)`, the spoken warning, the snapshot file name and the two
  notification bodies, with the location fallback.
- `Policy` (`policy.dfy`): one pass of the loop from the gate on, as a
  function `Step`.
  - `Step` maps the four gate variables and what the pass reads from outside
    (its `Frame`) to the new gate variables and the effects, in order. The
    effects are `Log`, `Snapshot`, `Speak`, `Email` and `WhatsApp` events.
  - `Run` folds `Step` over a run of frames.
  - The run-level properties are proved about `Run`: the e-mail quota, the
    single WhatsApp message, and the spacing of voice alerts and of e-mails.
    They are all consequences of the invariant `Consistent`.
- `Orchestration` (`orchestration.dfy`): the loop as an object `Orchestrator`.
  - Its fields are the four module-level variables. `Cycle` is one pass of the
    loop, and the effects go to a ghost trace.
  - `ComposeBatch` is the per-entry loop with its `snapshot_taken` flag, and
    `Notify` is the voice, e-mail and WhatsApp block.
  - `Cycle` is proved to move the fields and the trace exactly as `Step` does,
    and to keep `Valid()`. That means the run invariant holds for every
    sequence of frames the object goes through.
- `Scenarios` (`scenarios.dfy`): the first pass of a run that sees two knives
  and a gun, worked out in full.

What a pass reads from outside is an input of the model (`Policy.Frame`):

- the three clock reads (`time.time()` before the gate, in the e-mail check
  and after the e-mail);
- the detections as `(label, confidence)` pairs;
- the order in which `set(detected_dangers)` is iterated;
- the `%Y%m%d_%H%M%S` stamp of the snapshot;
- the outcome of the geolocation lookup.

## Model

| member | source | states |
|---|---|---|
| Danger.CollectDangers | main.py:128-129 | the per-box loop returns exactly the filtered label list `DangerLabels(ds)` |
| Danger.DangerLabelsSingle | main.py:128 | one detection is kept, with its label, exactly when its label is a danger class and its confidence is above 0.5 |
| Danger.DangerLabelsAppend | main.py:128-129 | filtering distributes over concatenation: kept labels stay in input order and duplicates are kept |
| Danger.DangerLabelsMembers | main.py:128-129 | a label is kept iff some detection carries it with a danger class and confidence > 0.5 |
| Danger.DangerLabelsAreDangerClasses | main.py:128-129 | every kept label is `knife` or `gun`, and no more labels are kept than detections seen |
| Counting.TallyKeys | main.py:133 | the counter's keys are exactly the distinct kept labels, each once |
| Counting.TallyCounts | main.py:133 | each count equals the number of occurrences of its label among the kept labels, so it is at least 1 |
| Counting.TallySum | main.py:133 | the counts add up to the number of kept labels |
| Counting.TallyOrder | main.py:133 | entries are in the order in which their labels first occur (insertion order of the dict) |
| Text.DecimalRoundTrip | main.py:141 | `str(count)` is a non-empty decimal numeral with no leading zero that reads back as the count |
| Text.ItemTextUniform | main.py:141 | both branches of the conditional give `"<count> <label>"` for every count >= 1, including 1 |
| Text.JoinSplit | main.py:149 | `sep.join` splits at every boundary: join of a prefix, separator, join of the rest |
| Text.JoinParts | main.py:149 | every part appears whole in the join, preceded by the earlier parts and a separator and followed by a separator and the later parts |
| Text.SnapshotFileNameRoundTrip | main.py:84-85 | `alert_<tag>_<stamp>.jpg` with a 15-character stamp parses back to the tag and the stamp |
| Text.SplitJoin | main.py:149 | splitting a `sep.join` at the separator, as Python's `str.split` does, gives the parts back when no part contains the separator's first character |
| Text.EmailBodyParse | main.py:51 | the e-mail body starts with `Danger detected: `, and the rest split at `", "` gives back the label list |
| Text.LocationParse | main.py:28-34 | the location split at `,` is the single field `Location unavailable` when the lookup failed, and `[city, region, country]` (missing keys empty) when it completed and no field holds a comma |
| Text.LocationSingleLine | main.py:32-34 | the location holds no line break unless a looked-up field does |
| Text.WhatsAppBodyParse | main.py:35 | the WhatsApp body split at the `\n📍Location:` tag gives exactly two pieces: `DANGER DETECTED: ` followed by the labels, which split at `", "` give the label list back, then the location |
| Policy.BatchLogs | main.py:140-147 | the per-entry loop logs one row per counter entry, in counter order |
| Policy.BatchSnapshot | main.py:144-146 | the per-entry loop takes exactly one snapshot when the counter is non-empty |
| Policy.BatchQuiet | main.py:140-147 | the per-entry loop neither speaks nor sends anything |
| Policy.DispatchReadings | main.py:149-165 | after the loop: exactly one spoken warning at the pass's clock, an e-mail exactly when its cooldown has elapsed and the quota allows, a WhatsApp message exactly when none was sent |
| Policy.StepGates | main.py:131-165 | without a kept danger or within 5 s of the last alert: no state change, no effect; otherwise `last_alert_time` becomes the clock and `whatsapp_sent` is set; the e-mail count grows by one exactly when an e-mail is due, never decreases and never exceeds 3; `last_email_time` moves only with an e-mail |
| Policy.StepEffects | main.py:132-165 | a fired pass logs each distinct label once in counter order, takes one snapshot, speaks once, e-mails exactly when due and sends WhatsApp exactly when not yet sent |
| Policy.SnapshotTag | main.py:145 | when the set order lists each distinct kept label once, the snapshot tag has exactly the counter's keys, as many as there are keys, and with a 15-character stamp the file name parses back to that tag and stamp |
| Policy.PartsAt | main.py:140-142 | the i-th part of the warning is the item text of the i-th counter entry |
| Policy.WarningParse | main.py:140-149 | the warning starts with `Warning! ` and ends with ` detected.`; for a counter with counts >= 1 and comma-free labels, the middle split at `", "` gives one `"<count> <label>"` item per entry, in counter order |
| Policy.KeptLabelsPlain | main.py:128-133 | the counter's keys contain no comma and no line break, since each is `knife` or `gun` |
| Policy.SpokenWarning | main.py:128-149 | for any detections, the middle of the spoken warning split at `", "` gives one item per counter entry, in counter order (first-detection order by `Counting.TallyOrder`), each being the label's number of occurrences among the kept labels, a space, and the label |
| Policy.NotificationsParse | main.py:137-163 | in any pass, the e-mail body and the WhatsApp body both read back as the counter's keys, and the WhatsApp body ends with the location |
| Policy.StepConsistent | main.py:131-165 | one more pass preserves the run invariant: e-mails sent = counter <= 3, WhatsApp messages sent = flag, last speak time = `last_alert_time`, last e-mail time = `last_email_time`, voice alerts more than 5 s apart |
| Policy.RunConsistent | main.py:97-165 | every run from the initial values satisfies the run invariant |
| Policy.EmailQuotaHolds | main.py:155-158 | a run sends at most three e-mails, as many as the counter says |
| Policy.WhatsAppOnce | main.py:162-164 | a run sends at most one WhatsApp message, and one exactly when the flag is set |
| Policy.VoiceSpacing | main.py:132-152 | consecutive voice alerts of a run are more than 5 seconds apart |
| Policy.EmailSpacing | main.py:155-157 | consecutive e-mails of a run are more than 300 seconds apart |
| Policy.BusyGates | main.py:152-158 | in a run where every pass fires and finds the e-mail cooldown elapsed, the counter is `min(n, 3)` and the timestamps are those of the last pass or e-mail |
| Policy.EmailQuotaReached | main.py:155-158 | in such a run exactly `min(n, 3)` e-mails are sent: the quota is reached, not just bounded |
| Scenarios.KnivesAndGunCounted | main.py:128-133 | detections knife 0.7, knife 0.65, gun 0.9 keep three labels and count to `knife: 2, gun: 1` |
| Scenarios.KnivesAndGunWarning | main.py:140-149 | that counter gives the parts `2 knife` and `1 gun`, and the warning `Warning! 2 knife, 1 gun detected.` |
| Scenarios.KnivesAndGun | main.py:131-165 | the first pass of a run with those detections logs `knife`, saves the snapshot, logs `gun`, speaks, e-mails and sends WhatsApp with the fallback location, and moves all four gate variables |
| Orchestration.Orchestrator.constructor | main.py:97-103 | the four variables start at 0, 0, 0, false with an empty trace, and the run invariant holds |
| Orchestration.Orchestrator.ComposeBatch | main.py:134-147 | the loop builds the parts of the warning and the label list in counter order, logs each label, and snapshots once, on the first entry |
| Orchestration.Orchestrator.Notify | main.py:149-165 | speak and restart the voice cooldown; e-mail, stamp and count when due; WhatsApp and set the flag when unsent |
| Orchestration.Orchestrator.Fire | main.py:133-165 | a pass through the gate changes the fields and the trace exactly as `Step` does for a fired pass |
| Orchestration.Orchestrator.Cycle | main.py:115-165 | one pass changes the fields and the trace exactly as `Step` does and keeps the run invariant; the e-mail count never decreases or exceeds 3, and the WhatsApp flag is never cleared |

## Left out

- Detector and video: the YOLO model, its `conf=0.6` and `iou` arguments,
  webcam capture, box drawing, the window, the video writer and the quit key.
  Detections are an input sequence of `(label, confidence)` pairs, with the
  `results`/`boxes` nesting flattened into one sequence in detection order.
- Text-to-speech (`pyttsx3`) becomes the `Speak` event. The CSV append
  becomes `Log`, without its `strftime` time column. `cv2.imwrite` becomes
  `Snapshot`.
- SMTP, the attachment, the e-mail subject and headers, the Twilio client,
  the ipinfo HTTP request and the `.env` loading are outside the model.
  - The e-mail is an `Email` event with its body and attachment path.
  - The WhatsApp message is a `WhatsApp` event with its body.
  - The lookup is an input: either a failure or the three optional JSON
    fields.
- Clock formatting: the `%Y%m%d_%H%M%S` stamp is an input string. The clock
  itself is three input reads per pass.
- Set order: Python does not fix the iteration order of
  `set(detected_dangers)`, so it is an input `setOrder`. `Policy.SnapshotTag`
  states only that it lists the distinct kept labels once each, under
  `SetOrderOfKept`.
- Console output: the `print` calls (the start-up banner, the Twilio message
  SID and status, and the e-mail and WhatsApp confirmations) have no effect
  on the policy and are not modelled.
- Send failures: exceptions from the e-mail or WhatsApp sends are not caught
  by the loop and would end it. The model covers successful sends only.
- A send that fails is not retried, and the count is raised only after the
  send. The model does the same: it has no retry, and `email_alert_count`
  counts up towards 3 rather than down from a quota.
- Policy.EmailSpacing: requires each pass's e-mail-check clock read not to
  exceed its post-send read. The model does not assume that the clock is
  monotonic.
- Policy.SnapshotTag: the name parses back only for a 15-character stamp,
  which is the length `%Y%m%d_%H%M%S` produces. Other lengths are left
  unconstrained.
- Text.LocationParse: recovers the three fields only when none of them
  contains a comma. A city, region or country holding one cannot be told
  apart after the join.
- Text.WhatsAppBodyParse: requires that the location holds no line break.
  The tag starts with one, so a field containing a line break would split
  early. `Policy.NotificationsParse` carries the same requirement on the
  looked-up fields.
