/**
 * The detection loop's alert handling as an object: the four module-level
 * variables become fields, one pass of the loop becomes `Cycle`, and the
 * effects the pass performs are appended to a ghost trace.
 */
module Orchestration {
  import opened Danger
  import opened Counting
  import opened Text
  import opened Policy

  class Orchestrator {
    var lastAlertTime: real
    var lastEmailTime: real
    var emailAlertCount: nat
    var whatsappSent: bool

    /** The effects performed so far. */
    ghost var trace: seq<Event>

    function State(): Gates
      reads this
    {
      Gates(lastAlertTime, lastEmailTime, emailAlertCount, whatsappSent)
    }

    /**
     * The fields and the trace are in step: the e-mail counter counts the
     * e-mails and stays within the quota, the flag records the one WhatsApp
     * message, and the voice alerts are more than the cooldown apart.
     */
    ghost predicate Valid()
      reads this
    {
      Consistent(Outcome(State(), trace))
    }

    /** The start of the process: no alert, no e-mail, no WhatsApp message yet. */
    constructor ()
      ensures Valid()
      ensures State() == Initial && trace == []
    {
      lastAlertTime := 0.0;
      lastEmailTime := 0.0;
      emailAlertCount := 0;
      whatsappSent := false;
      trace := [];
    }

    /**
     * The loop over the counter's entries: build the parts of the warning,
     * log each label, take the snapshot on the first entry, collect the labels.
     */
    method ComposeBatch(dangerCounts: seq<Entry>, f: Frame)
      returns (alertParts: seq<string>, detectedLabels: seq<string>, snapshotPath: string)
      modifies this`trace
      ensures alertParts == Parts(dangerCounts)
      ensures detectedLabels == Names(dangerCounts)
      ensures dangerCounts != [] ==> snapshotPath == SnapshotFile(f)
      ensures trace == old(trace) + BatchEffects(dangerCounts, SnapshotFile(f))
    {
      alertParts, detectedLabels, snapshotPath := [], [], "";
      var snapshotTaken := false;
      ghost var file := SnapshotFile(f);
      for i := 0 to |dangerCounts|
        invariant alertParts == Parts(dangerCounts[..i])
        invariant detectedLabels == Names(dangerCounts[..i])
        invariant snapshotTaken <==> i > 0
        invariant snapshotTaken ==> snapshotPath == file
        invariant trace == old(trace) + BatchEffects(dangerCounts[..i], file)
      {
        assert dangerCounts[..i + 1][..i] == dangerCounts[..i];
        var e := dangerCounts[i];
        alertParts := alertParts + [ItemText(e)];
        trace := trace + [Log(e.name)];
        if !snapshotTaken {
          snapshotPath := SnapshotFileName(Join(f.setOrder, "_"), f.fileStamp);
          trace := trace + [Snapshot(snapshotPath)];
          snapshotTaken := true;
        }
        NamesSnoc(dangerCounts[..i + 1]);
        detectedLabels := detectedLabels + [e.name];
      }
      assert dangerCounts[..|dangerCounts|] == dangerCounts;
    }

    /**
     * The notifications of a fired pass: speak the warning and restart the
     * voice cooldown, send the e-mail when its cooldown has elapsed and the
     * quota allows, send the WhatsApp message if none was sent yet.
     */
    method Notify(f: Frame, dangerCounts: seq<Entry>, alertParts: seq<string>,
                  detectedLabels: seq<string>, snapshotPath: string)
      requires alertParts == Parts(dangerCounts) && detectedLabels == Names(dangerCounts)
      modifies this
      ensures var g := old(State());
        State() == Gates(f.now,
                         if EmailDue(g, f) then f.emailSent else g.lastEmail,
                         if EmailDue(g, f) then g.emailCount + 1 else g.emailCount,
                         true)
      ensures trace == old(trace) + Dispatch(old(State()), f, dangerCounts, snapshotPath)
    {
      var alertMessage := AlertMessage(alertParts);
      trace := trace + [Speak(f.now, alertMessage)];
      lastAlertTime := f.now;
      if f.emailCheck - lastEmailTime > EmailCooldown && emailAlertCount < EmailQuota {
        trace := trace + [Email(f.emailSent, EmailBody(detectedLabels), snapshotPath)];
        lastEmailTime := f.emailSent;
        emailAlertCount := emailAlertCount + 1;
      }
      if !whatsappSent {
        trace := trace + [WhatsApp(WhatsAppBody(detectedLabels, LocationText(f.geo)))];
        whatsappSent := true;
      }
    }

    /**
     * A pass that got through the master gate: count the kept labels, run the
     * per-entry loop, then notify. The new fields and the effects are those
     * `Step` gives for a fired pass.
     */
    method Fire(f: Frame, kept: seq<string>)
      requires kept == DangerLabels(f.detections) && Fires(State(), f)
      modifies this
      ensures State() == Step(old(State()), f).gates
      ensures trace == old(trace) + Step(old(State()), f).effects
    {
      ghost var g, t := State(), trace;
      StepFired(g, f);
      var dangerCounts := Tally(kept);
      assert dangerCounts != [] by {
        TallyKeys(kept);
        assert kept[0] in Names(dangerCounts);
      }
      ghost var batch := BatchEffects(dangerCounts, SnapshotFile(f));
      var alertParts, detectedLabels, snapshotPath := ComposeBatch(dangerCounts, f);
      ghost var dispatch := Dispatch(g, f, dangerCounts, snapshotPath);
      Notify(f, dangerCounts, alertParts, detectedLabels, snapshotPath);
      assert trace == (t + batch) + dispatch;
    }

    /**
     * One pass of the detection loop, from the danger filter to the WhatsApp
     * message. The new fields and the effects are those of `Step`, so the
     * object goes through the same states as `Run` over its passes.
     */
    method Cycle(f: Frame)
      requires Valid()
      modifies this
      ensures Valid()
      ensures State() == Step(old(State()), f).gates
      ensures trace == old(trace) + Step(old(State()), f).effects
      ensures old(emailAlertCount) <= emailAlertCount <= EmailQuota
      ensures old(whatsappSent) ==> whatsappSent
    {
      ghost var g, t := State(), trace;
      StepConsistent(g, t, f);
      StepGates(g, f);
      var kept := CollectDangers(f.detections);
      if kept != [] && f.now - lastAlertTime > AlertCooldown {
        Fire(f, kept);
      } else {
        assert !Fires(g, f);
      }
    }
  }
}
