/**
 * The alert policy of one pass of the detection loop, as a function from the
 * four process-lifetime gate variables and what the pass reads from outside
 * (clock, detections, set order, file stamp, geolocation) to the new gate
 * variables and the effects performed, in order. `Run` folds it over a run.
 */
module Policy {
  import opened Danger
  import opened Counting
  import opened Text

  /** Seconds between voice alerts; also the master gate. */
  const AlertCooldown: real := 5.0
  /** Seconds between e-mails. */
  const EmailCooldown: real := 300.0
  /** E-mails per run. */
  const EmailQuota: nat := 3

  /** An effect the loop performs; the effects themselves are outside the model. */
  datatype Event =
    | Log(name: string)                              // one CSV row of the audit log
    | Snapshot(file: string)                         // the frame written to this file
    | Speak(at: real, text: string)                  // the spoken warning
    | Email(at: real, body: string, attachment: string)
    | WhatsApp(body: string)

  /** The module-level variables `last_alert_time`, `last_email_time`, `email_alert_count`, `whatsapp_sent`. */
  datatype Gates = Gates(lastAlert: real, lastEmail: real, emailCount: nat, whatsappSent: bool)

  const Initial: Gates := Gates(0.0, 0.0, 0, false)

  /**
   * What one pass reads from outside the policy: the clock before the gate
   * (`now`), before the e-mail check (`emailCheck`) and after the e-mail is
   * sent (`emailSent`); the detections; the order in which the set of kept
   * labels is iterated; the `%Y%m%d_%H%M%S` stamp of the snapshot; the
   * geolocation lookup.
   */
  datatype Frame = Frame(
    now: real, emailCheck: real, emailSent: real,
    detections: seq<Detection>, setOrder: seq<string>,
    fileStamp: string, geo: GeoLookup)

  datatype Outcome = Outcome(gates: Gates, effects: seq<Event>)

  /** The set order lists each kept label once, as iterating `set(detected_dangers)` does. */
  ghost predicate SetOrderOfKept(f: Frame)
  {
    NoDuplicates(f.setOrder) &&
    (forall l :: l in f.setOrder <==> l in DangerLabels(f.detections))
  }

  /** The master gate: something dangerous was seen and the voice cooldown has elapsed. */
  predicate Fires(g: Gates, f: Frame)
  {
    DangerLabels(f.detections) != [] && f.now - g.lastAlert > AlertCooldown
  }

  predicate EmailDue(g: Gates, f: Frame)
  {
    f.emailCheck - g.lastEmail > EmailCooldown && g.emailCount < EmailQuota
  }

  /** The parts of the warning, one per counter entry. */
  function Parts(es: seq<Entry>): (r: seq<string>)
    ensures |r| == |es|
  {
    if es == [] then [] else Parts(es[..|es| - 1]) + [ItemText(es[|es| - 1])]
  }

  /** The log rows and the one snapshot of the per-entry loop. */
  function BatchEffects(es: seq<Entry>, file: string): seq<Event>
  {
    if es == [] then []
    else BatchEffects(es[..|es| - 1], file) + [Log(es[|es| - 1].name)]
         + (if |es| == 1 then [Snapshot(file)] else [])
  }

  function SnapshotFile(f: Frame): string
  {
    SnapshotFileName(Join(f.setOrder, "_"), f.fileStamp)
  }

  /** The spoken warning, then the e-mail if due, then the WhatsApp message if none was sent. */
  function Dispatch(g: Gates, f: Frame, entries: seq<Entry>, file: string): seq<Event>
  {
    var labels := Names(entries);
    [Speak(f.now, AlertMessage(Parts(entries)))]
    + (if EmailDue(g, f) then [Email(f.emailSent, EmailBody(labels), file)] else [])
    + (if g.whatsappSent then [] else [WhatsApp(WhatsAppBody(labels, LocationText(f.geo)))])
  }

  /** One pass of the loop from the gate on. */
  function Step(g: Gates, f: Frame): Outcome
  {
    if !Fires(g, f) then Outcome(g, [])
    else
      var entries := Tally(DangerLabels(f.detections));
      var file := SnapshotFile(f);
      var emailDue := EmailDue(g, f);
      Outcome(
        Gates(f.now,
              if emailDue then f.emailSent else g.lastEmail,
              if emailDue then g.emailCount + 1 else g.emailCount,
              true),
        BatchEffects(entries, file) + Dispatch(g, f, entries, file))
  }

  /** A fired pass: the entry loop's effects, then the dispatch. */
  lemma StepFired(g: Gates, f: Frame)
    requires Fires(g, f)
    ensures Step(g, f) == Outcome(
      Gates(f.now,
            if EmailDue(g, f) then f.emailSent else g.lastEmail,
            if EmailDue(g, f) then g.emailCount + 1 else g.emailCount,
            true),
      BatchEffects(Tally(DangerLabels(f.detections)), SnapshotFile(f)) +
      Dispatch(g, f, Tally(DangerLabels(f.detections)), SnapshotFile(f)))
  {
  }

  /** The outcome so far followed by one more pass. */
  function Next(o: Outcome, f: Frame): Outcome
  {
    var s := Step(o.gates, f);
    Outcome(s.gates, o.effects + s.effects)
  }

  /** A run of passes from gate state `g`. */
  function Run(g: Gates, fs: seq<Frame>): Outcome
  {
    if fs == [] then Outcome(g, []) else Next(Run(g, fs[..|fs| - 1]), fs[|fs| - 1])
  }

  // ------------------------------------------------------- reading a trace

  function Logged(t: seq<Event>): seq<string>
  {
    if t == [] then [] else (if t[0].Log? then [t[0].name] else []) + Logged(t[1..])
  }

  function Snapshots(t: seq<Event>): seq<string>
  {
    if t == [] then [] else (if t[0].Snapshot? then [t[0].file] else []) + Snapshots(t[1..])
  }

  function SpeakTimes(t: seq<Event>): seq<real>
  {
    if t == [] then [] else (if t[0].Speak? then [t[0].at] else []) + SpeakTimes(t[1..])
  }

  function EmailTimes(t: seq<Event>): seq<real>
  {
    if t == [] then [] else (if t[0].Email? then [t[0].at] else []) + EmailTimes(t[1..])
  }

  function WhatsApps(t: seq<Event>): seq<string>
  {
    if t == [] then [] else (if t[0].WhatsApp? then [t[0].body] else []) + WhatsApps(t[1..])
  }

  /** Consecutive entries of `ts` are more than `gap` apart. */
  predicate Spaced(ts: seq<real>, gap: real)
  {
    forall k :: 0 < k < |ts| ==> ts[k] - ts[k - 1] > gap
  }

  lemma {:induction false} LoggedAppend(a: seq<Event>, b: seq<Event>)
    ensures Logged(a + b) == Logged(a) + Logged(b)
  {
    if a == [] {
      assert a + b == b;
    } else {
      assert (a + b)[0] == a[0];
      assert (a + b)[1..] == a[1..] + b;
      LoggedAppend(a[1..], b);
    }
  }

  lemma {:induction false} SnapshotsAppend(a: seq<Event>, b: seq<Event>)
    ensures Snapshots(a + b) == Snapshots(a) + Snapshots(b)
  {
    if a == [] {
      assert a + b == b;
    } else {
      assert (a + b)[0] == a[0];
      assert (a + b)[1..] == a[1..] + b;
      SnapshotsAppend(a[1..], b);
    }
  }

  lemma {:induction false} SpeakTimesAppend(a: seq<Event>, b: seq<Event>)
    ensures SpeakTimes(a + b) == SpeakTimes(a) + SpeakTimes(b)
  {
    if a == [] {
      assert a + b == b;
    } else {
      assert (a + b)[0] == a[0];
      assert (a + b)[1..] == a[1..] + b;
      SpeakTimesAppend(a[1..], b);
    }
  }

  lemma {:induction false} EmailTimesAppend(a: seq<Event>, b: seq<Event>)
    ensures EmailTimes(a + b) == EmailTimes(a) + EmailTimes(b)
  {
    if a == [] {
      assert a + b == b;
    } else {
      assert (a + b)[0] == a[0];
      assert (a + b)[1..] == a[1..] + b;
      EmailTimesAppend(a[1..], b);
    }
  }

  lemma {:induction false} WhatsAppsAppend(a: seq<Event>, b: seq<Event>)
    ensures WhatsApps(a + b) == WhatsApps(a) + WhatsApps(b)
  {
    if a == [] {
      assert a + b == b;
    } else {
      assert (a + b)[0] == a[0];
      assert (a + b)[1..] == a[1..] + b;
      WhatsAppsAppend(a[1..], b);
    }
  }

  /** Every reading of a trace distributes over concatenation. */
  lemma TraceAppend(a: seq<Event>, b: seq<Event>)
    ensures Logged(a + b) == Logged(a) + Logged(b)
    ensures Snapshots(a + b) == Snapshots(a) + Snapshots(b)
    ensures SpeakTimes(a + b) == SpeakTimes(a) + SpeakTimes(b)
    ensures EmailTimes(a + b) == EmailTimes(a) + EmailTimes(b)
    ensures WhatsApps(a + b) == WhatsApps(a) + WhatsApps(b)
  {
    LoggedAppend(a, b);
    SnapshotsAppend(a, b);
    SpeakTimesAppend(a, b);
    EmailTimesAppend(a, b);
    WhatsAppsAppend(a, b);
  }

  lemma TraceOne(e: Event)
    ensures Logged([e]) == (if e.Log? then [e.name] else [])
    ensures Snapshots([e]) == (if e.Snapshot? then [e.file] else [])
    ensures SpeakTimes([e]) == (if e.Speak? then [e.at] else [])
    ensures EmailTimes([e]) == (if e.Email? then [e.at] else [])
    ensures WhatsApps([e]) == (if e.WhatsApp? then [e.body] else [])
  {
    assert [e][1..] == [];
  }

  // ------------------------------------------------------------ one pass

  /** The per-entry loop logs each entry's label once, in counter order. */
  lemma {:induction false} BatchLogs(es: seq<Entry>, file: string)
    ensures Logged(BatchEffects(es, file)) == Names(es)
  {
    if es != [] {
      var p, e := es[..|es| - 1], es[|es| - 1];
      BatchLogs(p, file);
      var t := BatchEffects(p, file);
      var snap: seq<Event> := if |es| == 1 then [Snapshot(file)] else [];
      assert BatchEffects(es, file) == t + [Log(e.name)] + snap;
      TraceAppend(t, [Log(e.name)]);
      TraceAppend(t + [Log(e.name)], snap);
      TraceOne(Log(e.name));
      TraceOne(Snapshot(file));
      NamesSnoc(es);
    }
  }

  /** The per-entry loop takes exactly one snapshot when there is an entry. */
  lemma {:induction false} BatchSnapshot(es: seq<Entry>, file: string)
    ensures Snapshots(BatchEffects(es, file)) == if es == [] then [] else [file]
  {
    if es != [] {
      var p, e := es[..|es| - 1], es[|es| - 1];
      BatchSnapshot(p, file);
      var t := BatchEffects(p, file);
      var snap: seq<Event> := if |es| == 1 then [Snapshot(file)] else [];
      assert BatchEffects(es, file) == t + [Log(e.name)] + snap;
      TraceAppend(t, [Log(e.name)]);
      TraceAppend(t + [Log(e.name)], snap);
      TraceOne(Log(e.name));
      TraceOne(Snapshot(file));
    }
  }

  /** The per-entry loop neither speaks nor notifies. */
  lemma {:induction false} BatchQuiet(es: seq<Entry>, file: string)
    ensures SpeakTimes(BatchEffects(es, file)) == []
    ensures EmailTimes(BatchEffects(es, file)) == []
    ensures WhatsApps(BatchEffects(es, file)) == []
  {
    if es != [] {
      var p, e := es[..|es| - 1], es[|es| - 1];
      BatchQuiet(p, file);
      var t := BatchEffects(p, file);
      var snap: seq<Event> := if |es| == 1 then [Snapshot(file)] else [];
      assert BatchEffects(es, file) == t + [Log(e.name)] + snap;
      TraceAppend(t, [Log(e.name)]);
      TraceAppend(t + [Log(e.name)], snap);
      TraceOne(Log(e.name));
      TraceOne(Snapshot(file));
    }
  }


  /**
   * A pass that does not get through the master gate changes no variable and
   * has no effect; one that does sets `last_alert_time` to its clock and leaves
   * `whatsapp_sent` set. The e-mail count only ever grows by one, and only when
   * the e-mail is due; `last_email_time` moves only with it.
   */
  lemma StepGates(g: Gates, f: Frame)
    ensures !Fires(g, f) ==> Step(g, f) == Outcome(g, [])
    ensures Fires(g, f) ==> Step(g, f).gates.lastAlert == f.now && Step(g, f).gates.whatsappSent
    ensures Step(g, f).gates.emailCount == g.emailCount + (if Fires(g, f) && EmailDue(g, f) then 1 else 0)
    ensures Step(g, f).gates.lastEmail == if Fires(g, f) && EmailDue(g, f) then f.emailSent else g.lastEmail
    ensures g.emailCount <= EmailQuota ==> Step(g, f).gates.emailCount <= EmailQuota
    ensures g.whatsappSent ==> Step(g, f).gates.whatsappSent
  {
  }

  /**
   * What a fired pass does: one log row per distinct kept label, in counter
   * order; exactly one snapshot; one spoken warning at the pass's clock; an
   * e-mail exactly when it is due; a WhatsApp message exactly when none was
   * sent before.
   */
  lemma StepEffects(g: Gates, f: Frame)
    requires Fires(g, f)
    ensures var t := Step(g, f).effects;
      var entries := Tally(DangerLabels(f.detections));
      Logged(t) == Names(entries) &&
      Snapshots(t) == [SnapshotFile(f)] &&
      SpeakTimes(t) == [f.now] &&
      EmailTimes(t) == (if EmailDue(g, f) then [f.emailSent] else []) &&
      |WhatsApps(t)| == (if g.whatsappSent then 0 else 1)
  {
    var entries := Tally(DangerLabels(f.detections));
    var file := SnapshotFile(f);
    TallyKeys(DangerLabels(f.detections));
    assert entries != [] by {
      assert DangerLabels(f.detections)[0] in Names(entries);
    }
    TraceAppend(BatchEffects(entries, file), Dispatch(g, f, entries, file));
    BatchLogs(entries, file);
    BatchSnapshot(entries, file);
    BatchQuiet(entries, file);
    DispatchReadings(g, f, entries, file);
  }

  /** The dispatch speaks once, sends the e-mail when due and the WhatsApp message when unsent. */
  lemma DispatchReadings(g: Gates, f: Frame, entries: seq<Entry>, file: string)
    ensures var t := Dispatch(g, f, entries, file);
      Logged(t) == [] && Snapshots(t) == [] && SpeakTimes(t) == [f.now] &&
      EmailTimes(t) == (if EmailDue(g, f) then [f.emailSent] else []) &&
      |WhatsApps(t)| == (if g.whatsappSent then 0 else 1)
  {
    var labels := Names(entries);
    var speak := Speak(f.now, AlertMessage(Parts(entries)));
    var email := Email(f.emailSent, EmailBody(labels), file);
    var whatsapp := WhatsApp(WhatsAppBody(labels, LocationText(f.geo)));
    TraceOne(speak);
    TraceOne(email);
    TraceOne(whatsapp);
    if EmailDue(g, f) {
      TraceAppend([speak], [email]);
      if !g.whatsappSent {
        TraceAppend([speak] + [email], [whatsapp]);
      }
    } else if !g.whatsappSent {
      TraceAppend([speak], [whatsapp]);
    }
  }

  lemma {:induction false} NoDuplicatesCard<T>(s: seq<T>)
    requires NoDuplicates(s)
    ensures |set x | x in s| == |s|
  {
    if s != [] {
      var p := s[..|s| - 1];
      NoDuplicatesCard(p);
      assert s == p + [s[|s| - 1]];
      assert (set x | x in s) == (set x | x in p) + {s[|s| - 1]};
    }
  }

  /**
   * In a well-formed pass the snapshot is named after the distinct kept
   * labels: the set order lists exactly the counter's keys, each once, in
   * some order.
   */
  lemma SnapshotTag(f: Frame)
    requires SetOrderOfKept(f)
    ensures var keys := Names(Tally(DangerLabels(f.detections)));
      (set x | x in f.setOrder) == (set x | x in keys) && |f.setOrder| == |keys|
    ensures |f.fileStamp| == FileStampLength ==>
      ParseSnapshotFileName(SnapshotFile(f)) == Some((Join(f.setOrder, "_"), f.fileStamp))
  {
    var kept := DangerLabels(f.detections);
    var keys := Names(Tally(kept));
    TallyKeys(kept);
    NoDuplicatesCard(f.setOrder);
    NoDuplicatesCard(keys);
    assert (set x | x in f.setOrder) == (set x | x in keys);
    if |f.fileStamp| == FileStampLength {
      SnapshotFileNameRoundTrip(Join(f.setOrder, "_"), f.fileStamp);
    }
  }

  // ------------------------------------------------------ reading messages

  lemma {:induction false} PartsAt(es: seq<Entry>)
    ensures forall i :: 0 <= i < |es| ==> Parts(es)[i] == ItemText(es[i])
  {
    if es != [] {
      var p := es[..|es| - 1];
      PartsAt(p);
      assert forall i :: 0 <= i < |p| ==> p[i] == es[i];
    }
  }

  /**
   * The spoken warning reads back: between its lead and its tail, splitting
   * at `", "` gives one `"<count> <label>"` item per counter entry, in
   * counter order.
   */
  lemma WarningParse(es: seq<Entry>)
    requires forall i :: 0 <= i < |es| ==> es[i].count >= 1 && ',' !in es[i].name
    ensures var m := AlertMessage(Parts(es));
      |m| >= |WarningLead| + |WarningTail| &&
      m[..|WarningLead|] == WarningLead && m[|m| - |WarningTail|..] == WarningTail &&
      (es != [] ==>
        var items := Split(m[|WarningLead|..|m| - |WarningTail|], ", ");
        |items| == |es| &&
        forall i :: 0 <= i < |es| ==> items[i] == Decimal(es[i].count) + " " + es[i].name)
  {
    var ps := Parts(es);
    var m := AlertMessage(ps);
    assert m[|WarningLead|..|m| - |WarningTail|] == Join(ps, ", ");
    PartsAt(es);
    forall i | 0 <= i < |es|
      ensures ps[i] == Decimal(es[i].count) + " " + es[i].name && ',' !in ps[i]
    {
      ItemTextUniform(es[i]);
      DecimalRoundTrip(es[i].count);
      var d := Decimal(es[i].count);
      assert forall k :: 0 <= k < |d| ==> d[k] != ',';
    }
    if es != [] {
      SplitJoin(ps, ", ");
    }
  }

  /** The counter's keys are plain class names: no comma and no line break. */
  lemma KeptLabelsPlain(ds: seq<Detection>)
    ensures forall k :: 0 <= k < |Names(Tally(DangerLabels(ds)))| ==>
      ',' !in Names(Tally(DangerLabels(ds)))[k] && '\n' !in Names(Tally(DangerLabels(ds)))[k]
  {
    var kept := DangerLabels(ds);
    var labels := Names(Tally(kept));
    TallyKeys(kept);
    DangerLabelsAreDangerClasses(ds);
    forall k | 0 <= k < |labels|
      ensures ',' !in labels[k] && '\n' !in labels[k]
    {
      assert labels[k] in kept;
      var j :| 0 <= j < |kept| && kept[j] == labels[k];
      assert labels[k] == "knife" || labels[k] == "gun";
    }
  }

  /**
   * In every pass the spoken warning lists each distinct kept label once, in
   * order of first detection, with its number of occurrences.
   */
  lemma SpokenWarning(ds: seq<Detection>)
    ensures var es := Tally(DangerLabels(ds));
      var m := AlertMessage(Parts(es));
      |m| >= |WarningLead| + |WarningTail| &&
      (es != [] ==>
        var items := Split(m[|WarningLead|..|m| - |WarningTail|], ", ");
        |items| == |es| &&
        forall i :: 0 <= i < |es| ==>
          items[i] == Decimal(multiset(DangerLabels(ds))[es[i].name]) + " " + es[i].name)
  {
    var kept := DangerLabels(ds);
    var es := Tally(kept);
    assert forall i :: 0 <= i < |es| ==> es[i].count >= 1 && ',' !in es[i].name by {
      TallyCounts(kept);
      KeptLabelsPlain(ds);
      NamesAt(es);
    }
    assert forall i :: 0 <= i < |es| ==> es[i].count == multiset(kept)[es[i].name] by {
      TallyCounts(kept);
    }
    WarningParse(es);
  }

  /**
   * In every pass the e-mail body and the WhatsApp body read back as the
   * counter's keys, and the WhatsApp body ends with the location, as long as
   * the lookup's fields hold no line break.
   */
  lemma NotificationsParse(f: Frame)
    requires f.geo.LookupDone? ==>
      '\n' !in OrEmpty(f.geo.city) && '\n' !in OrEmpty(f.geo.region) && '\n' !in OrEmpty(f.geo.country)
    ensures var labels := Names(Tally(DangerLabels(f.detections)));
      var parts := Split(WhatsAppBody(labels, LocationText(f.geo)), LocationTag);
      labels != [] ==>
        Split(EmailBody(labels)[|EmailLead|..], ", ") == labels &&
        |parts| == 2 && parts[1] == LocationText(f.geo) && |parts[0]| >= |WhatsAppLead| &&
        Split(parts[0][|WhatsAppLead|..], ", ") == labels
  {
    var labels := Names(Tally(DangerLabels(f.detections)));
    KeptLabelsPlain(f.detections);
    LocationSingleLine(f.geo);
    EmailBodyParse(labels);
    WhatsAppBodyParse(labels, LocationText(f.geo));
  }

  // ------------------------------------------------------------ a whole run

  /** What holds of every run from the initial gate values. */
  ghost predicate Consistent(o: Outcome)
  {
    |EmailTimes(o.effects)| == o.gates.emailCount <= EmailQuota &&
    |WhatsApps(o.effects)| == (if o.gates.whatsappSent then 1 else 0) &&
    (SpeakTimes(o.effects) != [] ==> SpeakTimes(o.effects)[|SpeakTimes(o.effects)| - 1] == o.gates.lastAlert) &&
    (EmailTimes(o.effects) != [] ==> EmailTimes(o.effects)[|EmailTimes(o.effects)| - 1] == o.gates.lastEmail) &&
    Spaced(SpeakTimes(o.effects), AlertCooldown)
  }

  lemma SpacedSnoc(ts: seq<real>, x: real, gap: real)
    requires Spaced(ts, gap)
    requires ts != [] ==> x - ts[|ts| - 1] > gap
    ensures Spaced(ts + [x], gap)
  {
  }

  /** One more pass keeps the gates and the trace in step. */
  lemma StepConsistent(g: Gates, t: seq<Event>, f: Frame)
    requires Consistent(Outcome(g, t))
    ensures Consistent(Outcome(Step(g, f).gates, t + Step(g, f).effects))
  {
    var s := Step(g, f);
    StepGates(g, f);
    if Fires(g, f) {
      StepEffects(g, f);
      TraceAppend(t, s.effects);
      SpacedSnoc(SpeakTimes(t), f.now, AlertCooldown);
    } else {
      assert t + s.effects == t;
    }
  }

  /**
   * Every run from the initial values keeps the gates and the trace in step:
   * as many e-mails as the counter says and never more than the quota, a
   * WhatsApp message exactly when the flag is set, voice alerts more than the
   * cooldown apart.
   */
  lemma {:induction false} RunConsistent(fs: seq<Frame>)
    ensures Consistent(Run(Initial, fs))
  {
    if fs != [] {
      RunConsistent(fs[..|fs| - 1]);
      var r := Run(Initial, fs[..|fs| - 1]);
      StepConsistent(r.gates, r.effects, fs[|fs| - 1]);
    }
  }

  /** At most three e-mails in a run, and the counter never exceeds the quota. */
  lemma EmailQuotaHolds(fs: seq<Frame>)
    ensures |EmailTimes(Run(Initial, fs).effects)| == Run(Initial, fs).gates.emailCount <= EmailQuota
  {
    RunConsistent(fs);
  }

  /** At most one WhatsApp message in a run, sent exactly when the flag is set. */
  lemma WhatsAppOnce(fs: seq<Frame>)
    ensures |WhatsApps(Run(Initial, fs).effects)| <= 1
    ensures |WhatsApps(Run(Initial, fs).effects)| == 1 <==> Run(Initial, fs).gates.whatsappSent
  {
    RunConsistent(fs);
  }

  /** Any two consecutive voice alerts of a run are more than five seconds apart. */
  lemma VoiceSpacing(fs: seq<Frame>)
    ensures Spaced(SpeakTimes(Run(Initial, fs).effects), AlertCooldown)
  {
    RunConsistent(fs);
  }

  /**
   * Any two consecutive e-mails of a run whose clock reads are in order are
   * more than five minutes apart.
   */
  lemma {:induction false} EmailSpacing(fs: seq<Frame>)
    requires forall k :: 0 <= k < |fs| ==> fs[k].emailCheck <= fs[k].emailSent
    ensures Spaced(EmailTimes(Run(Initial, fs).effects), EmailCooldown)
  {
    if fs == [] {
    } else {
      var r := Run(Initial, fs[..|fs| - 1]);
      var f := fs[|fs| - 1];
      EmailSpacing(fs[..|fs| - 1]);
      RunConsistent(fs[..|fs| - 1]);
      var s := Step(r.gates, f);
      if Fires(r.gates, f) {
        StepEffects(r.gates, f);
        TraceAppend(r.effects, s.effects);
        if EmailDue(r.gates, f) {
          SpacedSnoc(EmailTimes(r.effects), f.emailSent, EmailCooldown);
        }
      } else {
        assert r.effects + s.effects == r.effects;
      }
    }
  }

  /**
   * A run that keeps the channels busy: every pass keeps a danger label,
   * comes more than the voice cooldown after the pass before it, and reads
   * the clock more than the e-mail cooldown after that pass's e-mail.
   */
  ghost predicate Busy(fs: seq<Frame>)
  {
    (forall k :: 0 <= k < |fs| ==> DangerLabels(fs[k].detections) != []) &&
    (fs != [] ==> fs[0].now - Initial.lastAlert > AlertCooldown &&
                  fs[0].emailCheck - Initial.lastEmail > EmailCooldown) &&
    (forall k :: 0 < k < |fs| ==>
       fs[k].now - fs[k - 1].now > AlertCooldown &&
       fs[k].emailCheck - fs[k - 1].emailSent > EmailCooldown)
  }

  lemma {:induction false} BusyGates(fs: seq<Frame>)
    requires Busy(fs)
    ensures var g := Run(Initial, fs).gates;
      g.emailCount == (if |fs| < EmailQuota then |fs| else EmailQuota) &&
      (fs != [] ==> g.lastAlert == fs[|fs| - 1].now) &&
      (0 < |fs| <= EmailQuota ==> g.lastEmail == fs[|fs| - 1].emailSent)
  {
    if fs != [] {
      var p, f := fs[..|fs| - 1], fs[|fs| - 1];
      assert Busy(p);
      BusyGates(p);
      var g := Run(Initial, p).gates;
      assert Fires(g, f);
      assert EmailDue(g, f) <==> |p| < EmailQuota;
      StepGates(g, f);
    }
  }

  /**
   * The quota is reached and not exceeded: a busy run of `n` passes sends
   * one e-mail per pass until the third, then none.
   */
  lemma EmailQuotaReached(fs: seq<Frame>)
    requires Busy(fs)
    ensures |EmailTimes(Run(Initial, fs).effects)| == if |fs| < EmailQuota then |fs| else EmailQuota
  {
    BusyGates(fs);
    RunConsistent(fs);
  }
}
