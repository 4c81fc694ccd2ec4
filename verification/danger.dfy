/**
 * The danger filter of the detection loop: every box the detector reports
 * becomes a (label, confidence) pair, and only the labels of the configured
 * danger classes whose confidence is above 0.5 are kept, in detection order,
 * duplicates included.
 */
module Danger {

  /** One box reported by the detector, reduced to what the alert policy reads. */
  datatype Detection = Detection(name: string, confidence: real)

  /** The configured danger classes. */
  const DangerClasses: seq<string> := ["knife", "gun"]

  /** A detection counts only with a confidence strictly above this. */
  const MinConfidence: real := 0.5

  predicate IsDanger(d: Detection)
  {
    d.name in DangerClasses && d.confidence > MinConfidence
  }

  /** The labels kept from `ds`, in order; defined from the right, as the loop appends. */
  function DangerLabels(ds: seq<Detection>): seq<string>
  {
    if ds == [] then []
    else DangerLabels(ds[..|ds| - 1]) + (if IsDanger(ds[|ds| - 1]) then [ds[|ds| - 1].name] else [])
  }

  /** Filtering a single detection keeps its label exactly when it is a danger. */
  lemma DangerLabelsSingle(d: Detection)
    ensures DangerLabels([d]) == if IsDanger(d) then [d.name] else []
  {
    assert [d][..0] == [];
  }

  /** Filtering distributes over concatenation: order is kept and nothing is merged. */
  lemma {:induction false} DangerLabelsAppend(a: seq<Detection>, b: seq<Detection>)
    ensures DangerLabels(a + b) == DangerLabels(a) + DangerLabels(b)
    decreases |b|
  {
    if b == [] {
      assert a + b == a;
    } else {
      var b' := b[..|b| - 1];
      assert (a + b)[..|a + b| - 1] == a + b';
      assert (a + b)[|a + b| - 1] == b[|b| - 1];
      DangerLabelsAppend(a, b');
    }
  }

  /** A label is kept exactly when some detection carries it and qualifies. */
  lemma {:induction false} DangerLabelsMembers(ds: seq<Detection>, l: string)
    ensures l in DangerLabels(ds) <==> exists i :: 0 <= i < |ds| && ds[i].name == l && IsDanger(ds[i])
  {
    if ds != [] {
      var p := ds[..|ds| - 1];
      DangerLabelsMembers(p, l);
      if l in DangerLabels(p) {
        var i :| 0 <= i < |p| && p[i].name == l && IsDanger(p[i]);
        assert ds[i] == p[i];
      }
      if exists i :: 0 <= i < |ds| && ds[i].name == l && IsDanger(ds[i]) {
        var i :| 0 <= i < |ds| && ds[i].name == l && IsDanger(ds[i]);
        if i < |p| {
          assert p[i] == ds[i];
        }
      }
    }
  }

  /** Every kept label is one of the danger classes. */
  lemma {:induction false} DangerLabelsAreDangerClasses(ds: seq<Detection>)
    ensures forall k :: 0 <= k < |DangerLabels(ds)| ==> DangerLabels(ds)[k] in DangerClasses
    ensures |DangerLabels(ds)| <= |ds|
  {
    if ds != [] {
      DangerLabelsAreDangerClasses(ds[..|ds| - 1]);
    }
  }

  /** The per-box loop of the detection loop, appending each qualifying label. */
  method CollectDangers(ds: seq<Detection>) returns (kept: seq<string>)
    ensures kept == DangerLabels(ds)
  {
    kept := [];
    for i := 0 to |ds|
      invariant kept == DangerLabels(ds[..i])
    {
      assert ds[..i + 1][..i] == ds[..i];
      var d := ds[i];
      if d.name in DangerClasses && d.confidence > MinConfidence {
        kept := kept + [d.name];
      }
    }
    assert ds[..|ds|] == ds;
  }
}
