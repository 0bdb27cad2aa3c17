/** Which section a task belongs to and what orders the sections, told from the tables of epics, features and
    tasks as they are given. */
module TaskSections {
  import opened Common
  import opened TaskRenderer

  lemma {:induction false} FinalizedOnlyIs(tasks: seq<Task>, t: Task)
    ensures multiset(FinalizedOnly(tasks))[t] == if t.finalized then multiset(tasks)[t] else 0
  {
    if tasks != [] {
      FinalizedOnlyIs(tasks[1..], t);
      assert tasks == [tasks[0]] + tasks[1..];
    }
  }

  lemma {:induction false} KnownFeatureIff(fs: seq<Feature>, f: FeatureId)
    ensures f in AllFeatures(fs) <==> exists i :: 0 <= i < |fs| && fs[i].id == f
    decreases |fs|
  {
    if fs != [] {
      var front := fs[..|fs| - 1];
      KnownFeatureIff(front, f);
      assert forall i :: 0 <= i < |front| ==> front[i] == fs[i];
    }
  }

  lemma {:induction false} FinalizedEpicIff(es: seq<Epic>, e: EpicId)
    ensures e in FinalizedEpics(es) <==> exists i :: 0 <= i < |es| && es[i].id == e && es[i].finalized
    decreases |es|
  {
    if es != [] {
      var front := es[..|es| - 1];
      FinalizedEpicIff(front, e);
      assert forall i :: 0 <= i < |front| ==> front[i] == es[i];
    }
  }

  /** A task is an orphan exactly when its feature is unknown or the feature's epic is not finalized:
      whether the feature itself is finalized does not matter. */
  lemma OrphanIff(t: Task, fs: seq<Feature>, es: seq<Epic>)
    ensures SectionOf(t, AllFeatures(fs), FinalizedEpics(es)) == Orphans <==>
              && t.feature.Some?
              && (t.feature.value in AllFeatures(fs) ==>
                    forall i :: 0 <= i < |es| && es[i].id == AllFeatures(fs)[t.feature.value].epic ==> !es[i].finalized)
  {
    if t.feature.Some? {
      KnownFeatureIff(fs, t.feature.value);
      if t.feature.value in AllFeatures(fs) { FinalizedEpicIff(es, AllFeatures(fs)[t.feature.value].epic); }
    }
  }

  /** The row is the last one of the feature. */
  ghost predicate LastRow(fs: seq<Feature>, i: nat, f: FeatureId) {
    i < |fs| && fs[i].id == f && forall j :: i < j < |fs| ==> fs[j].id != f
  }

  /** Of several rows of one feature the last one counts. */
  lemma {:induction false} LastFeatureCounts(fs: seq<Feature>, f: FeatureId)
    ensures forall i: nat :: LastRow(fs, i, f) ==> f in AllFeatures(fs) && AllFeatures(fs)[f] == fs[i]
    ensures f in AllFeatures(fs) ==> exists i: nat :: LastRow(fs, i, f)
    decreases |fs|
  {
    if fs != [] {
      var front, n := fs[..|fs| - 1], |fs| - 1;
      LastFeatureCounts(front, f);
      assert forall i :: 0 <= i < n ==> front[i] == fs[i];
      if fs[n].id == f {
        assert LastRow(fs, n, f);
      } else {
        assert forall i: nat :: LastRow(fs, i, f) <==> LastRow(front, i, f);
      }
    }
  }

  /** A task stands under an epic and a feature exactly if it names the feature, the last row of the feature names
      the epic, and some row of the epic is finalized. */
  lemma InFeatureIff(t: Task, fs: seq<Feature>, es: seq<Epic>, e: EpicId, f: FeatureId)
    ensures SectionOf(t, AllFeatures(fs), FinalizedEpics(es)) == InFeature(e, f) <==>
              && t.feature == Some(f)
              && (exists i: nat :: LastRow(fs, i, f) && fs[i].epic == e)
              && (exists k :: 0 <= k < |es| && es[k].id == e && es[k].finalized)
  {
    LastFeatureCounts(fs, f);
    FinalizedEpicIff(es, e);
  }

  /** Without a feature it is a legacy task. */
  lemma LegacyIff(t: Task, fs: seq<Feature>, es: seq<Epic>)
    ensures SectionOf(t, AllFeatures(fs), FinalizedEpics(es)) == Legacy <==> t.feature == None
  {
  }

  /** The row is the last finalized one of the feature. */
  ghost predicate LastFinalizedRow(fs: seq<Feature>, i: nat, f: FeatureId) {
    && i < |fs| && fs[i].id == f && fs[i].finalized
    && forall j :: i < j < |fs| ==> fs[j].id != f || !fs[j].finalized
  }

  /** A feature is placed by its last finalized row, and last if it has none. */
  lemma {:induction false} FeatureKeyIs(fs: seq<Feature>, f: FeatureId)
    ensures forall i: nat :: LastFinalizedRow(fs, i, f) ==> FeatureKey(f, FinalizedFeatures(fs)) == fs[i].ordinal
    ensures (forall i: nat :: !LastFinalizedRow(fs, i, f)) ==> FeatureKey(f, FinalizedFeatures(fs)) == NO_ORDINAL
    decreases |fs|
  {
    if fs != [] {
      var front, n := fs[..|fs| - 1], |fs| - 1;
      FeatureKeyIs(front, f);
      assert forall i :: 0 <= i < n ==> front[i] == fs[i];
      if fs[n].id == f && fs[n].finalized {
        assert LastFinalizedRow(fs, n, f);
      } else {
        assert forall i: nat :: LastFinalizedRow(fs, i, f) <==> LastFinalizedRow(front, i, f);
      }
    }
  }

  ghost predicate LastFinalizedEpic(es: seq<Epic>, i: nat, e: EpicId) {
    && i < |es| && es[i].id == e && es[i].finalized
    && forall j :: i < j < |es| ==> es[j].id != e || !es[j].finalized
  }

  /** So is an epic. */
  lemma {:induction false} EpicKeyIs(es: seq<Epic>, e: EpicId)
    ensures forall i: nat :: LastFinalizedEpic(es, i, e) ==> EpicKey(e, FinalizedEpics(es)) == es[i].ordinal
    ensures (forall i: nat :: !LastFinalizedEpic(es, i, e)) ==> EpicKey(e, FinalizedEpics(es)) == NO_ORDINAL
    decreases |es|
  {
    if es != [] {
      var front, n := es[..|es| - 1], |es| - 1;
      EpicKeyIs(front, e);
      assert forall i :: 0 <= i < n ==> front[i] == es[i];
      if es[n].id == e && es[n].finalized {
        assert LastFinalizedEpic(es, n, e);
      } else {
        assert forall i: nat :: LastFinalizedEpic(es, i, e) <==> LastFinalizedEpic(front, i, e);
      }
    }
  }
}
