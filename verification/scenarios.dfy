/**
 * A concrete pass of the policy: two knives and a gun in the first frame of
 * a run.
 */
module Scenarios {
  import opened Danger
  import opened Counting
  import opened Text
  import opened Policy

  const Stamp: string := "20250101_120000"

  function Pass(now: real, ds: seq<Detection>, order: seq<string>): Frame
  {
    Frame(now, now, now, ds, order, Stamp, LookupFailed)
  }

  const KnivesAndGunFrame: seq<Detection> :=
    [Detection("knife", 0.7), Detection("knife", 0.65), Detection("gun", 0.9)]

  /** Two knives and a gun: both classes kept, counted in detection order. */
  lemma KnivesAndGunCounted()
    ensures DangerLabels(KnivesAndGunFrame) == ["knife", "knife", "gun"]
    ensures Tally(DangerLabels(KnivesAndGunFrame)) == KnivesAndGunCounter
  {
    var ds := KnivesAndGunFrame;
    assert ds[..2][..1] == [ds[0]] && ds[..2] == [ds[0], ds[1]] && ds[..3] == ds;
    assert DangerLabels([ds[0]]) == ["knife"] by { DangerLabelsSingle(ds[0]); }
    var kept := ["knife", "knife", "gun"];
    assert DangerLabels(ds) == kept;
    assert kept[..1] == ["knife"] && kept[..2] == ["knife", "knife"];
    assert Tally(["knife"]) == [Entry("knife", 1)] by {
      assert ["knife"][..0] == [];
    }
    assert Tally(["knife", "knife"]) == [Entry("knife", 2)] by {
      assert [Entry("knife", 1)][1..] == [];
    }
    assert [Entry("knife", 2)][1..] == [];
  }

  const KnivesAndGunCounter: seq<Entry> := [Entry("knife", 2), Entry("gun", 1)]

  /** The spoken warning for that counter. */
  lemma KnivesAndGunWarning()
    ensures Parts(KnivesAndGunCounter) == ["2 knife", "1 gun"]
    ensures AlertMessage(Parts(KnivesAndGunCounter)) == WarningLead + "2 knife, 1 gun" + WarningTail
  {
    var es := KnivesAndGunCounter;
    assert Parts(es) == ["2 knife", "1 gun"] by {
      assert es[..1] == [Entry("knife", 2)] && es[..1][..0] == [];
      assert Decimal(2) == "2";
      assert ItemText(es[0]) == "2 knife" && ItemText(es[1]) == "1 gun";
      assert Parts(es[..1]) == ["2 knife"];
    }
    assert Join(["2 knife", "1 gun"], ", ") == "2 knife, 1 gun" by {
      assert ["2 knife", "1 gun"][..1] == ["2 knife"];
    }
  }

  /** The label list of the two messages and the tag of the snapshot. */
  lemma KnivesAndGunLabels()
    ensures Names(KnivesAndGunCounter) == ["knife", "gun"]
    ensures Join(["knife", "gun"], ", ") == "knife, gun"
    ensures Join(["gun", "knife"], "_") == "gun_knife"
  {
    assert ["gun", "knife"][..1] == ["gun"];
    assert ["knife", "gun"][..1] == ["knife"];
  }

  /**
   * Two knives and a gun above the threshold, first pass of the run: one log
   * row per class in detection order, one snapshot, the spoken warning
   * "Warning! 2 knife, 1 gun detected.", an e-mail and a WhatsApp message
   * whose location fell back to the fixed text.
   */
  lemma KnivesAndGun()
    ensures var file := SnapshotFileName("gun_knife", Stamp);
      Step(Initial, Pass(1000.0, KnivesAndGunFrame, ["gun", "knife"])) ==
      Outcome(Gates(1000.0, 1000.0, 1, true),
              [Log("knife"), Snapshot(file), Log("gun"),
               Speak(1000.0, WarningLead + "2 knife, 1 gun" + WarningTail),
               Email(1000.0, EmailLead + "knife, gun", file),
               WhatsApp(WhatsAppLead + "knife, gun" + LocationTag + LocationUnavailable)])
  {
    var f := Pass(1000.0, KnivesAndGunFrame, ["gun", "knife"]);
    var es := KnivesAndGunCounter;
    KnivesAndGunCounted();
    KnivesAndGunWarning();
    KnivesAndGunLabels();
    assert Tally(DangerLabels(f.detections)) == es;
    assert Fires(Initial, f) && EmailDue(Initial, f);
    StepFired(Initial, f);
    var file := SnapshotFile(f);
    assert file == SnapshotFileName("gun_knife", Stamp);
    assert es[..1] == [Entry("knife", 2)] && es[..1][..0] == [];
    assert BatchEffects(es, file) == [Log("knife"), Snapshot(file), Log("gun")];
    assert EmailBody(Names(es)) == EmailLead + "knife, gun";
    assert WhatsAppBody(Names(es), LocationText(f.geo)) ==
      WhatsAppLead + "knife, gun" + LocationTag + LocationUnavailable;
    assert Dispatch(Initial, f, es, file) ==
      [Speak(1000.0, WarningLead + "2 knife, 1 gun" + WarningTail),
       Email(1000.0, EmailLead + "knife, gun", file),
       WhatsApp(WhatsAppLead + "knife, gun" + LocationTag + LocationUnavailable)];
  }
}
