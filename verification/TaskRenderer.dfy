/** The rows of the finalized-task view: tasks are grouped by epic and feature, and those without a
    finalized epic are moved to the orphans while the sections are written. */
module TaskRenderer {
  import opened Common

  type EpicId(==, !new)
  type FeatureId(==, !new)
  type TaskId(==, !new)

  datatype Task = Task(id: TaskId, feature: Option<FeatureId>, finalized: bool, ordinal: int)

  datatype Feature = Feature(id: FeatureId, epic: EpicId, finalized: bool, ordinal: int)

  datatype Epic = Epic(id: EpicId, finalized: bool, ordinal: int)

  /** The grouping, in the order in which epics and features first occur. */
  datatype FeatureGroup = FeatureGroup(id: FeatureId, tasks: seq<Task>)

  datatype EpicGroup = EpicGroup(id: EpicId, features: seq<FeatureGroup>)

  datatype Section = InFeature(epic: EpicId, feature: FeatureId) | Orphans | Legacy

  datatype Row = Row(section: Section, task: Task)

  const NO_ORDINAL: int := 9999

  // -------- bags --------

  /** All the tasks of some things together. */
  ghost function BagOf<T>(s: seq<T>, f: T -> multiset<Task>): multiset<Task> {
    if s == [] then multiset{} else f(s[0]) + BagOf(s[1..], f)
  }

  lemma {:induction false} BagConcat<T>(a: seq<T>, b: seq<T>, f: T -> multiset<Task>)
    ensures BagOf(a + b, f) == BagOf(a, f) + BagOf(b, f)
    decreases |a|
  {
    if a == [] {
      assert a + b == b;
    } else {
      assert (a + b)[1..] == a[1..] + b;
      BagConcat(a[1..], b, f);
    }
  }

  ghost function FeatureBag(g: FeatureGroup): multiset<Task> {
    multiset(g.tasks)
  }

  ghost function EpicBag(g: EpicGroup): multiset<Task> {
    BagOf(g.features, FeatureBag)
  }

  ghost function RowBag(r: Row): multiset<Task> {
    multiset{r.task}
  }

  // -------- stable sorting by a key --------

  function Insert<T>(x: T, s: seq<T>, key: T -> int): seq<T> {
    if s == [] || key(x) <= key(s[0]) then [x] + s else [s[0]] + Insert(x, s[1..], key)
  }

  function SortBy<T>(s: seq<T>, key: T -> int): (r: seq<T>) {
    if s == [] then [] else Insert(s[0], SortBy(s[1..], key), key)
  }

  predicate SortedBy<T>(s: seq<T>, key: T -> int) {
    forall i, j :: 0 <= i < j < |s| ==> key(s[i]) <= key(s[j])
  }

  lemma {:induction false} InsertedMember<T>(x: T, s: seq<T>, key: T -> int, y: T)
    ensures y in Insert(x, s, key) <==> y == x || y in s
  {
    if s != [] && key(x) > key(s[0]) { InsertedMember(x, s[1..], key, y); }
  }

  lemma {:induction false} InsertedSorted<T>(x: T, s: seq<T>, key: T -> int)
    requires SortedBy(s, key)
    ensures SortedBy(Insert(x, s, key), key)
  {
    if s != [] && key(x) > key(s[0]) {
      InsertedSorted(x, s[1..], key);
      var t := Insert(x, s[1..], key);
      forall j | 0 <= j < |t| ensures key(s[0]) <= key(t[j]) {
        InsertedMember(x, s[1..], key, t[j]);
        if t[j] != x {
          var i :| 0 <= i < |s[1..]| && s[1..][i] == t[j];
          assert s[i + 1] == t[j];
        }
      }
    }
  }

  lemma {:induction false} SortedMember<T>(s: seq<T>, key: T -> int, y: T)
    ensures y in SortBy(s, key) <==> y in s
  {
    if s != [] {
      SortedMember(s[1..], key, y);
      InsertedMember(s[0], SortBy(s[1..], key), key, y);
    }
  }

  lemma {:induction false} SortedIs<T>(s: seq<T>, key: T -> int)
    ensures SortedBy(SortBy(s, key), key)
  {
    if s != [] {
      SortedIs(s[1..], key);
      InsertedSorted(s[0], SortBy(s[1..], key), key);
    }
  }

  lemma {:induction false} InsertKeepsBag<T>(x: T, s: seq<T>, key: T -> int, f: T -> multiset<Task>)
    ensures BagOf(Insert(x, s, key), f) == f(x) + BagOf(s, f)
  {
    if s == [] || key(x) <= key(s[0]) {
      assert ([x] + s)[1..] == s;
    } else {
      InsertKeepsBag(x, s[1..], key, f);
      assert ([s[0]] + Insert(x, s[1..], key))[1..] == Insert(x, s[1..], key);
    }
  }

  lemma {:induction false} SortKeepsBag<T>(s: seq<T>, key: T -> int, f: T -> multiset<Task>)
    ensures BagOf(SortBy(s, key), f) == BagOf(s, f)
  {
    if s != [] {
      SortKeepsBag(s[1..], key, f);
      InsertKeepsBag(s[0], SortBy(s[1..], key), key, f);
    }
  }

  ghost function One(t: Task): multiset<Task> {
    multiset{t}
  }

  lemma {:induction false} OnesAreTheSequence(ts: seq<Task>)
    ensures BagOf(ts, One) == multiset(ts)
  {
    if ts != [] {
      OnesAreTheSequence(ts[1..]);
      assert ts == [ts[0]] + ts[1..];
    }
  }

  /** No two have the same id. */
  predicate DistinctIds<T, I(==)>(s: seq<T>, id: T -> I) {
    forall i, j :: 0 <= i < j < |s| ==> id(s[i]) != id(s[j])
  }

  lemma {:induction false} InsertedDistinct<T, I>(x: T, s: seq<T>, key: T -> int, id: T -> I)
    requires DistinctIds(s, id) && forall y :: y in s ==> id(y) != id(x)
    ensures DistinctIds(Insert(x, s, key), id)
  {
    if s != [] && key(x) > key(s[0]) {
      InsertedDistinct(x, s[1..], key, id);
      var t := Insert(x, s[1..], key);
      forall j | 0 <= j < |t| ensures id(t[j]) != id(s[0]) {
        InsertedMember(x, s[1..], key, t[j]);
        if t[j] != x {
          var i :| 0 <= i < |s[1..]| && s[1..][i] == t[j];
          assert s[i + 1] == t[j];
        }
      }
    }
  }

  lemma {:induction false} SortedDistinct<T, I>(s: seq<T>, key: T -> int, id: T -> I)
    requires DistinctIds(s, id)
    ensures DistinctIds(SortBy(s, key), id)
  {
    if s != [] {
      SortedDistinct(s[1..], key, id);
      forall y | y in SortBy(s[1..], key) ensures id(y) != id(s[0]) {
        SortedMember(s[1..], key, y);
        var i :| 0 <= i < |s[1..]| && s[1..][i] == y;
        assert s[i + 1] == y;
      }
      InsertedDistinct(s[0], SortBy(s[1..], key), key, id);
    }
  }

  // -------- grouping --------

  function FeatureOf(g: FeatureGroup): FeatureId {
    g.id
  }

  function EpicOf(g: EpicGroup): EpicId {
    g.id
  }

  /** One group for each epic, and in it one for each feature. */
  predicate OneGroupEach(groups: seq<EpicGroup>) {
    DistinctIds(groups, EpicOf) && forall i :: 0 <= i < |groups| ==> DistinctIds(groups[i].features, FeatureOf)
  }

  function AddToFeature(fs: seq<FeatureGroup>, f: FeatureId, t: Task): seq<FeatureGroup> {
    if fs == [] then [FeatureGroup(f, [t])]
    else if fs[0].id == f then [FeatureGroup(f, fs[0].tasks + [t])] + fs[1..]
    else [fs[0]] + AddToFeature(fs[1..], f, t)
  }

  function AddToEpic(es: seq<EpicGroup>, e: EpicId, f: FeatureId, t: Task): seq<EpicGroup> {
    if es == [] then [EpicGroup(e, AddToFeature([], f, t))]
    else if es[0].id == e then [EpicGroup(e, AddToFeature(es[0].features, f, t))] + es[1..]
    else [es[0]] + AddToEpic(es[1..], e, f, t)
  }

  lemma {:induction false} AddedFeature(fs: seq<FeatureGroup>, f: FeatureId, t: Task)
    requires DistinctIds(fs, FeatureOf)
    ensures DistinctIds(AddToFeature(fs, f, t), FeatureOf)
    ensures forall g :: g in AddToFeature(fs, f, t) ==> g.id == f || g in fs
  {
    if fs != [] && fs[0].id != f {
      AddedFeature(fs[1..], f, t);
      var rest := AddToFeature(fs[1..], f, t);
      forall j | 0 <= j < |rest| ensures rest[j].id != fs[0].id {
        assert rest[j] in rest;
        if rest[j] in fs[1..] {
          var i :| 0 <= i < |fs[1..]| && fs[1..][i] == rest[j];
          assert fs[i + 1] == rest[j] && FeatureOf(fs[0]) != FeatureOf(fs[i + 1]);
        }
      }
    }
  }

  lemma {:induction false} AddedEpic(es: seq<EpicGroup>, e: EpicId, f: FeatureId, t: Task)
    requires OneGroupEach(es)
    ensures OneGroupEach(AddToEpic(es, e, f, t))
    ensures forall g :: g in AddToEpic(es, e, f, t) ==> g.id == e || g in es
  {
    if es == [] {
      AddedFeature([], f, t);
    } else if es[0].id == e {
      AddedFeature(es[0].features, f, t);
    } else {
      AddedEpic(es[1..], e, f, t);
      var rest := AddToEpic(es[1..], e, f, t);
      forall j | 0 <= j < |rest| ensures rest[j].id != es[0].id {
        assert rest[j] in rest;
        if rest[j] in es[1..] {
          var i :| 0 <= i < |es[1..]| && es[1..][i] == rest[j];
          assert es[i + 1] == rest[j] && EpicOf(es[0]) != EpicOf(es[i + 1]);
        }
      }
    }
  }

  lemma {:induction false} FeatureBagGrows(fs: seq<FeatureGroup>, f: FeatureId, t: Task)
    ensures BagOf(AddToFeature(fs, f, t), FeatureBag) == BagOf(fs, FeatureBag) + multiset{t}
  {
    if fs == [] {
      assert [FeatureGroup(f, [t])][1..] == [];
    } else if fs[0].id == f {
      assert ([FeatureGroup(f, fs[0].tasks + [t])] + fs[1..])[1..] == fs[1..];
    } else {
      FeatureBagGrows(fs[1..], f, t);
      assert ([fs[0]] + AddToFeature(fs[1..], f, t))[1..] == AddToFeature(fs[1..], f, t);
    }
  }

  lemma {:induction false} EpicBagGrows(es: seq<EpicGroup>, e: EpicId, f: FeatureId, t: Task)
    ensures BagOf(AddToEpic(es, e, f, t), EpicBag) == BagOf(es, EpicBag) + multiset{t}
  {
    if es == [] {
      FeatureBagGrows([], f, t);
      assert [EpicGroup(e, AddToFeature([], f, t))][1..] == [];
    } else if es[0].id == e {
      FeatureBagGrows(es[0].features, f, t);
      assert ([EpicGroup(e, AddToFeature(es[0].features, f, t))] + es[1..])[1..] == es[1..];
    } else {
      EpicBagGrows(es[1..], e, f, t);
      assert ([es[0]] + AddToEpic(es[1..], e, f, t))[1..] == AddToEpic(es[1..], e, f, t);
    }
  }

  /** The last feature of each id, and the last finalized one. */
  function AllFeatures(fs: seq<Feature>): map<FeatureId, Feature>
    decreases |fs|
  {
    if fs == [] then map[] else AllFeatures(fs[..|fs| - 1])[fs[|fs| - 1].id := fs[|fs| - 1]]
  }

  function FinalizedFeatures(fs: seq<Feature>): map<FeatureId, Feature>
    decreases |fs|
  {
    if fs == [] then map[]
    else
      var front := FinalizedFeatures(fs[..|fs| - 1]);
      if fs[|fs| - 1].finalized then front[fs[|fs| - 1].id := fs[|fs| - 1]] else front
  }

  function FinalizedEpics(es: seq<Epic>): map<EpicId, Epic>
    decreases |es|
  {
    if es == [] then map[]
    else
      var front := FinalizedEpics(es[..|es| - 1]);
      if es[|es| - 1].finalized then front[es[|es| - 1].id := es[|es| - 1]] else front
  }

  /** The section a finalized task belongs to. */
  function SectionOf(t: Task, all: map<FeatureId, Feature>, epics: map<EpicId, Epic>): Section {
    if t.feature.None? then Legacy
    else if t.feature.value !in all || all[t.feature.value].epic !in epics then Orphans
    else InFeature(all[t.feature.value].epic, t.feature.value)
  }

  /** The groups, the orphans and the legacy tasks after the first pass. */
  datatype Grouping = Grouping(groups: seq<EpicGroup>, orphans: seq<Task>, legacy: seq<Task>)

  ghost function GroupingBag(g: Grouping): multiset<Task> {
    BagOf(g.groups, EpicBag) + multiset(g.orphans) + multiset(g.legacy)
  }

  /** Each task stands in the group of its feature and that feature's epic. */
  predicate GroupedRight(groups: seq<EpicGroup>, all: map<FeatureId, Feature>) {
    forall i :: 0 <= i < |groups| ==> EpicRight(groups[i], all)
  }

  predicate EpicRight(g: EpicGroup, all: map<FeatureId, Feature>) {
    forall i :: 0 <= i < |g.features| ==> FeatureRight(g.features[i], g.id, all)
  }

  predicate FeatureRight(g: FeatureGroup, e: EpicId, all: map<FeatureId, Feature>) {
    g.id in all && all[g.id].epic == e && forall i :: 0 <= i < |g.tasks| ==> g.tasks[i].feature == Some(g.id)
  }

  predicate LeftRight(g: Grouping, all: map<FeatureId, Feature>) {
    && (forall i :: 0 <= i < |g.orphans| ==> g.orphans[i].feature.Some? && g.orphans[i].feature.value !in all)
    && (forall i :: 0 <= i < |g.legacy| ==> g.legacy[i].feature.None?)
  }

  lemma {:induction false} AddKeepsFeatureRight(fs: seq<FeatureGroup>, e: EpicId, all: map<FeatureId, Feature>,
                                                f: FeatureId, t: Task)
    requires forall i :: 0 <= i < |fs| ==> FeatureRight(fs[i], e, all)
    requires f in all && all[f].epic == e && t.feature == Some(f)
    ensures forall i :: 0 <= i < |AddToFeature(fs, f, t)| ==> FeatureRight(AddToFeature(fs, f, t)[i], e, all)
  {
    if fs != [] { AddKeepsFeatureRight(fs[1..], e, all, f, t); }
  }

  lemma {:induction false} AddKeepsEpicRight(es: seq<EpicGroup>, all: map<FeatureId, Feature>, e: EpicId,
                                             f: FeatureId, t: Task)
    requires GroupedRight(es, all) && f in all && all[f].epic == e && t.feature == Some(f)
    ensures GroupedRight(AddToEpic(es, e, f, t), all)
  {
    if es == [] {
      AddKeepsFeatureRight([], e, all, f, t);
    } else if es[0].id == e {
      AddKeepsFeatureRight(es[0].features, e, all, f, t);
    } else {
      AddKeepsEpicRight(es[1..], all, e, f, t);
    }
  }

  /** The first pass over the finalized tasks. */
  method GroupTasks(tasks: seq<Task>, all: map<FeatureId, Feature>) returns (g: Grouping)
    ensures GroupingBag(g) == multiset(tasks)
    ensures GroupedRight(g.groups, all) && LeftRight(g, all) && OneGroupEach(g.groups)
  {
    g := Grouping([], [], []);
    assert tasks[..0] == [];
    for k := 0 to |tasks|
      invariant GroupingBag(g) == multiset(tasks[..k])
      invariant GroupedRight(g.groups, all) && LeftRight(g, all) && OneGroupEach(g.groups)
    {
      g := PlaceTask(g, tasks[k], all);
      assert tasks[..k + 1] == tasks[..k] + [tasks[k]];
    }
    assert tasks[..|tasks|] == tasks;
  }

  method PlaceTask(g: Grouping, t: Task, all: map<FeatureId, Feature>) returns (z: Grouping)
    requires GroupedRight(g.groups, all) && LeftRight(g, all) && OneGroupEach(g.groups)
    ensures GroupingBag(z) == GroupingBag(g) + multiset{t}
    ensures GroupedRight(z.groups, all) && LeftRight(z, all) && OneGroupEach(z.groups)
  {
    if t.feature.None? { return g.(legacy := g.legacy + [t]); }
    if t.feature.value !in all { return g.(orphans := g.orphans + [t]); }
    var e := all[t.feature.value].epic;
    EpicBagGrows(g.groups, e, t.feature.value, t);
    AddKeepsEpicRight(g.groups, all, e, t.feature.value, t);
    AddedEpic(g.groups, e, t.feature.value, t);
    return g.(groups := AddToEpic(g.groups, e, t.feature.value, t));
  }

  // -------- sections --------

  function TaskOrdinal(t: Task): int {
    t.ordinal
  }

  /** Every row is where its task belongs. */
  predicate RowsRight(rows: seq<Row>, all: map<FeatureId, Feature>, epics: map<EpicId, Epic>) {
    forall i :: 0 <= i < |rows| ==> rows[i].section == SectionOf(rows[i].task, all, epics)
  }

  function EpicKey(e: EpicId, epics: map<EpicId, Epic>): int {
    if e in epics then epics[e].ordinal else NO_ORDINAL
  }

  function FeatureKey(f: FeatureId, finalized: map<FeatureId, Feature>): int {
    if f in finalized then finalized[f].ordinal else NO_ORDINAL
  }

  /** The first row may stand before the second: epics by ordinal, in an epic the features by ordinal, those not
      finalized last, in a table the tasks by ordinal; then the orphans, then the legacy tasks. */
  predicate Before(a: Row, b: Row, finalized: map<FeatureId, Feature>, epics: map<EpicId, Epic>) {
    match (a.section, b.section)
    case (InFeature(e, f), InFeature(d, g)) =>
      && EpicKey(e, epics) <= EpicKey(d, epics)
      && (e == d ==> FeatureKey(f, finalized) <= FeatureKey(g, finalized))
      && (e == d && f == g ==> a.task.ordinal <= b.task.ordinal)
    case (InFeature(_, _), _) => true
    case (Orphans, Orphans) => a.task.ordinal <= b.task.ordinal
    case (Orphans, Legacy) => true
    case (Legacy, Legacy) => a.task.ordinal <= b.task.ordinal
    case _ => false
  }

  predicate InReadingOrder(rows: seq<Row>, finalized: map<FeatureId, Feature>, epics: map<EpicId, Epic>) {
    forall i, j :: 0 <= i < j < |rows| ==> Before(rows[i], rows[j], finalized, epics)
  }

  predicate AllBefore(a: seq<Row>, b: seq<Row>, finalized: map<FeatureId, Feature>, epics: map<EpicId, Epic>) {
    forall i, j :: 0 <= i < |a| && 0 <= j < |b| ==> Before(a[i], b[j], finalized, epics)
  }

  lemma OrderConcat(a: seq<Row>, b: seq<Row>, finalized: map<FeatureId, Feature>, epics: map<EpicId, Epic>)
    requires InReadingOrder(a, finalized, epics) && InReadingOrder(b, finalized, epics)
    requires AllBefore(a, b, finalized, epics)
    ensures InReadingOrder(a + b, finalized, epics)
  {
    forall i, j | 0 <= i < j < |a + b| ensures Before((a + b)[i], (a + b)[j], finalized, epics) {
      if i < |a| <= j {
        assert Before(a[i], b[j - |a|], finalized, epics);
      } else if j < |a| {
        assert Before(a[i], a[j], finalized, epics);
      } else {
        assert Before(b[i - |a|], b[j - |a|], finalized, epics);
      }
    }
  }

  /** All rows stand in one section. */
  predicate OneTable(rows: seq<Row>, section: Section) {
    forall i :: 0 <= i < |rows| ==> rows[i].section == section
  }

  lemma TableInOrder(rows: seq<Row>, section: Section, finalized: map<FeatureId, Feature>, epics: map<EpicId, Epic>)
    requires OneTable(rows, section)
    requires forall i, j :: 0 <= i < j < |rows| ==> rows[i].task.ordinal <= rows[j].task.ordinal
    ensures InReadingOrder(rows, finalized, epics)
  {
    forall i, j | 0 <= i < j < |rows| ensures Before(rows[i], rows[j], finalized, epics) {
      assert rows[i].section == section && rows[j].section == section;
    }
  }

  /** The rows are of the epic, and of features that come before those still to do. */
  predicate FeaturesBehind(rows: seq<Row>, e: EpicId, todo: seq<FeatureGroup>, finalized: map<FeatureId, Feature>) {
    forall i :: 0 <= i < |rows| ==>
      && rows[i].section.InFeature? && rows[i].section.epic == e
      && forall f :: f in todo ==> FeatureBehind(rows[i].section.feature, f.id, finalized)
  }

  predicate FeatureBehind(f: FeatureId, next: FeatureId, finalized: map<FeatureId, Feature>) {
    f != next && FeatureKey(f, finalized) <= FeatureKey(next, finalized)
  }

  predicate FeaturesSorted(fs: seq<FeatureGroup>, finalized: map<FeatureId, Feature>) {
    SortedBy(fs, (f: FeatureGroup) => FeatureKey(f.id, finalized)) && DistinctIds(fs, FeatureOf)
  }

  lemma FeaturesTail(fs: seq<FeatureGroup>, finalized: map<FeatureId, Feature>)
    requires fs != [] && FeaturesSorted(fs, finalized)
    ensures FeaturesSorted(fs[1..], finalized)
    ensures forall f :: f in fs[1..] ==> f in fs && FeatureBehind(fs[0].id, f.id, finalized)
  {
    forall f | f in fs[1..] ensures f in fs && FeatureBehind(fs[0].id, f.id, finalized) {
      var i :| 0 <= i < |fs[1..]| && fs[1..][i] == f;
      assert fs[i + 1] == f && FeatureOf(fs[0]) != FeatureOf(fs[i + 1]);
    }
  }

  /** The tables made so far are in order, and so are the features still to do. */
  predicate TablesSoFar(rows: seq<Row>, e: EpicId, todo: seq<FeatureGroup>, finalized: map<FeatureId, Feature>,
                        epics: map<EpicId, Epic>)
  {
    && InReadingOrder(rows, finalized, epics)
    && FeaturesSorted(todo, finalized)
    && FeaturesBehind(rows, e, todo, finalized)
  }

  lemma NextTable(rows: seq<Row>, e: EpicId, todo: seq<FeatureGroup>, table: seq<Row>,
                  finalized: map<FeatureId, Feature>, epics: map<EpicId, Epic>)
    requires todo != [] && TablesSoFar(rows, e, todo, finalized, epics)
    requires OneTable(table, InFeature(e, todo[0].id)) && InReadingOrder(table, finalized, epics)
    ensures TablesSoFar(rows + table, e, todo[1..], finalized, epics)
  {
    FeaturesTail(todo, finalized);
    forall i, j | 0 <= i < |rows| && 0 <= j < |table| ensures Before(rows[i], table[j], finalized, epics) {
      assert todo[0] in todo && table[j].section == InFeature(e, todo[0].id);
      assert FeatureBehind(rows[i].section.feature, todo[0].id, finalized);
    }
    OrderConcat(rows, table, finalized, epics);
  }

  /** The rows are of epics that come before those still to do. */
  predicate EpicsBehind(rows: seq<Row>, todo: seq<EpicGroup>, epics: map<EpicId, Epic>) {
    forall i :: 0 <= i < |rows| ==>
      rows[i].section.InFeature? && forall g :: g in todo ==> EpicBehind(rows[i].section.epic, g.id, epics)
  }

  predicate EpicBehind(e: EpicId, next: EpicId, epics: map<EpicId, Epic>) {
    e != next && EpicKey(e, epics) <= EpicKey(next, epics)
  }

  predicate EpicsSorted(es: seq<EpicGroup>, epics: map<EpicId, Epic>) {
    SortedBy(es, (g: EpicGroup) => EpicKey(g.id, epics)) && DistinctIds(es, EpicOf)
  }

  lemma EpicsTail(es: seq<EpicGroup>, epics: map<EpicId, Epic>)
    requires es != [] && EpicsSorted(es, epics)
    ensures EpicsSorted(es[1..], epics)
    ensures forall g :: g in es[1..] ==> g in es && EpicBehind(es[0].id, g.id, epics)
  {
    forall g | g in es[1..] ensures g in es && EpicBehind(es[0].id, g.id, epics) {
      var i :| 0 <= i < |es[1..]| && es[1..][i] == g;
      assert es[i + 1] == g && EpicOf(es[0]) != EpicOf(es[i + 1]);
    }
  }

  /** The sections made so far are in order, and so are the epics still to do. */
  predicate SectionsSoFar(rows: seq<Row>, todo: seq<EpicGroup>, finalized: map<FeatureId, Feature>,
                          epics: map<EpicId, Epic>)
  {
    InReadingOrder(rows, finalized, epics) && EpicsSorted(todo, epics) && EpicsBehind(rows, todo, epics)
  }

  lemma NextSection(rows: seq<Row>, todo: seq<EpicGroup>, section: seq<Row>, finalized: map<FeatureId, Feature>,
                    epics: map<EpicId, Epic>)
    requires todo != [] && SectionsSoFar(rows, todo, finalized, epics)
    requires InReadingOrder(section, finalized, epics) && FeaturesBehind(section, todo[0].id, [], finalized)
    ensures SectionsSoFar(rows + section, todo[1..], finalized, epics)
  {
    EpicsTail(todo, epics);
    forall i, j | 0 <= i < |rows| && 0 <= j < |section| ensures Before(rows[i], section[j], finalized, epics) {
      assert todo[0] in todo && EpicBehind(rows[i].section.epic, todo[0].id, epics);
    }
    OrderConcat(rows, section, finalized, epics);
  }

  lemma SkippedSection(rows: seq<Row>, todo: seq<EpicGroup>, finalized: map<FeatureId, Feature>,
                       epics: map<EpicId, Epic>)
    requires todo != [] && SectionsSoFar(rows, todo, finalized, epics)
    ensures SectionsSoFar(rows, todo[1..], finalized, epics)
  {
    EpicsTail(todo, epics);
  }

  lemma {:induction false} RowsHoldTheTasks(rows: seq<Row>, tasks: seq<Task>)
    requires |rows| == |tasks| && forall i :: 0 <= i < |rows| ==> rows[i].task == tasks[i]
    ensures BagOf(rows, RowBag) == multiset(tasks)
    decreases |rows|
  {
    if rows != [] {
      RowsHoldTheTasks(rows[1..], tasks[1..]);
      assert tasks == [tasks[0]] + tasks[1..];
    }
  }

  lemma BagFirst<T>(s: seq<T>, f: T -> multiset<Task>)
    requires s != []
    ensures BagOf(s, f) == f(s[0]) + BagOf(s[1..], f)
  {
  }

  lemma RightConcat(a: seq<Row>, b: seq<Row>, all: map<FeatureId, Feature>, epics: map<EpicId, Epic>)
    requires RowsRight(a, all, epics) && RowsRight(b, all, epics)
    ensures RowsRight(a + b, all, epics)
  {
  }

  /** The tasks are orphans. */
  predicate OrphansRight(tasks: seq<Task>, all: map<FeatureId, Feature>, epics: map<EpicId, Epic>) {
    forall t :: t in tasks ==> SectionOf(t, all, epics) == Orphans
  }

  method TasksInOrder(tasks: seq<Task>) returns (sorted: seq<Task>)
    ensures multiset(sorted) == multiset(tasks)
    ensures forall t :: t in sorted <==> t in tasks
    ensures SortedBy(sorted, TaskOrdinal)
  {
    sorted := SortBy(tasks, TaskOrdinal);
    SortedIs(tasks, TaskOrdinal);
    forall t ensures t in sorted <==> t in tasks { SortedMember(tasks, TaskOrdinal, t); }
    SortKeepsBag(tasks, TaskOrdinal, One);
    OnesAreTheSequence(tasks);
    OnesAreTheSequence(sorted);
  }

  /** One table: a row for each task, by ordinal. */
  method TableRows(section: Section, tasks: seq<Task>) returns (rows: seq<Row>)
    ensures BagOf(rows, RowBag) == multiset(tasks)
    ensures forall i :: 0 <= i < |rows| ==> rows[i].section == section && rows[i].task in tasks
    ensures forall i, j :: 0 <= i < j < |rows| ==> TaskOrdinal(rows[i].task) <= TaskOrdinal(rows[j].task)
  {
    var sorted := TasksInOrder(tasks);
    rows := [];
    for k := 0 to |sorted|
      invariant |rows| == k && forall i :: 0 <= i < k ==> rows[i] == Row(section, sorted[i])
    {
      rows := rows + [Row(section, sorted[k])];
    }
    RowsHoldTheTasks(rows, sorted);
  }

  /** By ordinal, those not finalized last. */
  method FeaturesInOrder(fs: seq<FeatureGroup>, finalized: map<FeatureId, Feature>) returns (sorted: seq<FeatureGroup>)
    ensures BagOf(sorted, FeatureBag) == BagOf(fs, FeatureBag) && forall f :: f in sorted <==> f in fs
    ensures DistinctIds(fs, FeatureOf) ==> FeaturesSorted(sorted, finalized)
  {
    var key := (f: FeatureGroup) => FeatureKey(f.id, finalized);
    if DistinctIds(fs, FeatureOf) { SortedDistinct(fs, key, FeatureOf); }
    sorted := SortBy(fs, key);
    SortedIs(fs, key);
    SortKeepsBag(fs, key, FeatureBag);
    forall f ensures f in sorted <==> f in fs { SortedMember(fs, key, f); }
  }

  method EpicsInOrder(es: seq<EpicGroup>, epics: map<EpicId, Epic>) returns (sorted: seq<EpicGroup>)
    ensures BagOf(sorted, EpicBag) == BagOf(es, EpicBag) && forall g :: g in sorted <==> g in es
    ensures DistinctIds(es, EpicOf) ==> EpicsSorted(sorted, epics)
  {
    var key := (g: EpicGroup) => EpicKey(g.id, epics);
    if DistinctIds(es, EpicOf) { SortedDistinct(es, key, EpicOf); }
    sorted := SortBy(es, key);
    SortedIs(es, key);
    SortKeepsBag(es, key, EpicBag);
    forall g ensures g in sorted <==> g in es { SortedMember(es, key, g); }
  }

  /** The tables of one finalized epic, its features by ordinal. */
  method EpicRows(g: EpicGroup, all: map<FeatureId, Feature>, finalized: map<FeatureId, Feature>,
                  epics: map<EpicId, Epic>)
    returns (rows: seq<Row>)
    requires EpicRight(g, all) && g.id in epics && DistinctIds(g.features, FeatureOf)
    ensures BagOf(rows, RowBag) == EpicBag(g) && RowsRight(rows, all, epics)
    ensures InReadingOrder(rows, finalized, epics) && FeaturesBehind(rows, g.id, [], finalized)
  {
    var todo := FeaturesInOrder(g.features, finalized);
    rows := [];
    while todo != []
      invariant forall f :: f in todo ==> FeatureRight(f, g.id, all)
      invariant EpicBag(g) == BagOf(rows, RowBag) + BagOf(todo, FeatureBag)
      invariant RowsRight(rows, all, epics) && TablesSoFar(rows, g.id, todo, finalized, epics)
      decreases |todo|
    {
      BagFirst(todo, FeatureBag);
      rows := AddTable(rows, g.id, todo, all, finalized, epics);
      todo := todo[1..];
    }
  }

  /** Adds the table of the next feature. */
  method AddTable(rows: seq<Row>, e: EpicId, todo: seq<FeatureGroup>, all: map<FeatureId, Feature>,
                  finalized: map<FeatureId, Feature>, epics: map<EpicId, Epic>)
    returns (more: seq<Row>)
    requires todo != [] && e in epics && FeatureRight(todo[0], e, all)
    requires RowsRight(rows, all, epics) && TablesSoFar(rows, e, todo, finalized, epics)
    ensures BagOf(more, RowBag) == BagOf(rows, RowBag) + FeatureBag(todo[0])
    ensures RowsRight(more, all, epics) && TablesSoFar(more, e, todo[1..], finalized, epics)
  {
    var f := todo[0];
    var table := TableRows(InFeature(e, f.id), f.tasks);
    TableIsRight(table, e, f, all, epics);
    BagConcat(rows, table, RowBag);
    RightConcat(rows, table, all, epics);
    TableInOrder(table, InFeature(e, f.id), finalized, epics);
    NextTable(rows, e, todo, table, finalized, epics);
    more := rows + table;
  }

  lemma TableIsRight(table: seq<Row>, e: EpicId, f: FeatureGroup, all: map<FeatureId, Feature>,
                     epics: map<EpicId, Epic>)
    requires e in epics && FeatureRight(f, e, all)
    requires forall i :: 0 <= i < |table| ==> table[i].section == InFeature(e, f.id) && table[i].task in f.tasks
    ensures RowsRight(table, all, epics)
  {
  }

  /** The sections of the finalized epics; the tasks of the others join the orphans. */
  method EpicSections(groups: seq<EpicGroup>, orphans: seq<Task>, all: map<FeatureId, Feature>,
                      finalized: map<FeatureId, Feature>, epics: map<EpicId, Epic>)
    returns (rows: seq<Row>, late: seq<Task>)
    requires GroupedRight(groups, all) && OneGroupEach(groups)
    requires OrphansRight(orphans, all, epics)
    ensures BagOf(rows, RowBag) + multiset(late) == BagOf(groups, EpicBag) + multiset(orphans)
    ensures RowsRight(rows, all, epics) && OrphansRight(late, all, epics)
    ensures SectionsSoFar(rows, [], finalized, epics)
  {
    var todo := EpicsInOrder(groups, epics);
    rows, late := [], orphans;
    ghost var total := BagOf(groups, EpicBag) + multiset(orphans);
    while todo != []
      invariant forall g :: g in todo ==> EpicRight(g, all) && DistinctIds(g.features, FeatureOf)
      invariant total == BagOf(rows, RowBag) + multiset(late) + BagOf(todo, EpicBag)
      invariant RowsRight(rows, all, epics) && OrphansRight(late, all, epics)
      invariant SectionsSoFar(rows, todo, finalized, epics)
      decreases |todo|
    {
      var g := todo[0];
      BagFirst(todo, EpicBag);
      MoveBag(total, BagOf(rows, RowBag), multiset(late), EpicBag(g), BagOf(todo[1..], EpicBag));
      rows, late := AddSection(rows, late, todo, all, finalized, epics);
      todo := todo[1..];
    }
  }

  /** Adds the section of the next epic, or its tasks to the orphans if it is not finalized. */
  method AddSection(rows: seq<Row>, late: seq<Task>, todo: seq<EpicGroup>, all: map<FeatureId, Feature>,
                    finalized: map<FeatureId, Feature>, epics: map<EpicId, Epic>)
    returns (more: seq<Row>, later: seq<Task>)
    requires todo != [] && EpicRight(todo[0], all) && DistinctIds(todo[0].features, FeatureOf)
    requires RowsRight(rows, all, epics) && OrphansRight(late, all, epics)
    requires SectionsSoFar(rows, todo, finalized, epics)
    ensures todo[0].id in epics ==> later == late && BagOf(more, RowBag) == BagOf(rows, RowBag) + EpicBag(todo[0])
    ensures todo[0].id !in epics ==> more == rows && multiset(later) == multiset(late) + EpicBag(todo[0])
    ensures RowsRight(more, all, epics) && OrphansRight(later, all, epics)
    ensures SectionsSoFar(more, todo[1..], finalized, epics)
  {
    more, later := rows, late;
    if todo[0].id !in epics {
      later := MoveToOrphans(todo[0], late, all, epics);
      SkippedSection(rows, todo, finalized, epics);
      return;
    }
    var section := EpicRows(todo[0], all, finalized, epics);
    BagConcat(rows, section, RowBag);
    RightConcat(rows, section, all, epics);
    NextSection(rows, todo, section, finalized, epics);
    more := rows + section;
  }

  lemma MoveBag(total: multiset<Task>, rows: multiset<Task>, late: multiset<Task>, group: multiset<Task>,
                rest: multiset<Task>)
    requires total == rows + late + (group + rest)
    ensures total == (rows + group) + late + rest && total == rows + (late + group) + rest
  {
  }

  method MoveToOrphans(g: EpicGroup, orphans: seq<Task>, all: map<FeatureId, Feature>, epics: map<EpicId, Epic>)
    returns (more: seq<Task>)
    requires EpicRight(g, all) && g.id !in epics
    requires OrphansRight(orphans, all, epics)
    ensures multiset(more) == multiset(orphans) + EpicBag(g)
    ensures OrphansRight(more, all, epics)
  {
    more := orphans;
    var todo := g.features;
    while todo != []
      invariant forall f :: f in todo ==> FeatureRight(f, g.id, all)
      invariant multiset(more) + BagOf(todo, FeatureBag) == multiset(orphans) + EpicBag(g)
      invariant OrphansRight(more, all, epics)
      decreases |todo|
    {
      var f := todo[0];
      assert FeatureRight(f, g.id, all);
      BagFirst(todo, FeatureBag);
      more := more + f.tasks;
      todo := todo[1..];
    }
  }

  function FinalizedOnly(tasks: seq<Task>): seq<Task> {
    if tasks == [] then [] else (if tasks[0].finalized then [tasks[0]] else []) + FinalizedOnly(tasks[1..])
  }

  lemma LastTables(sections: seq<Row>, orphans: seq<Row>, legacy: seq<Row>, finalized: map<FeatureId, Feature>,
                   epics: map<EpicId, Epic>)
    requires SectionsSoFar(sections, [], finalized, epics)
    requires OneTable(orphans, Orphans) && InReadingOrder(orphans, finalized, epics)
    requires OneTable(legacy, Legacy) && InReadingOrder(legacy, finalized, epics)
    ensures InReadingOrder(sections + orphans + legacy, finalized, epics)
  {
    OrderConcat(sections, orphans, finalized, epics);
    OrderConcat(sections + orphans, legacy, finalized, epics);
  }

  /** Every finalized task stands in exactly one row, in the section where it belongs, no other task stands
      anywhere, and the rows are in reading order. */
  method RenderFinalizedTasks(epics: seq<Epic>, features: seq<Feature>, tasks: seq<Task>) returns (rows: seq<Row>)
    ensures BagOf(rows, RowBag) == multiset(FinalizedOnly(tasks))
    ensures RowsRight(rows, AllFeatures(features), FinalizedEpics(epics))
    ensures InReadingOrder(rows, FinalizedFeatures(features), FinalizedEpics(epics))
  {
    var finalizedTasks := FinalizedOnly(tasks);
    if finalizedTasks == [] { return []; }
    var all, finalized, epicsById := AllFeatures(features), FinalizedFeatures(features), FinalizedEpics(epics);
    var g := GroupTasks(finalizedTasks, all);
    var sections, orphans := EpicSections(g.groups, g.orphans, all, finalized, epicsById);
    var orphanRows := TableRows(Orphans, orphans);
    var legacyRows := TableRows(Legacy, g.legacy);
    BagConcat(sections, orphanRows, RowBag);
    BagConcat(sections + orphanRows, legacyRows, RowBag);
    TableInOrder(orphanRows, Orphans, finalized, epicsById);
    TableInOrder(legacyRows, Legacy, finalized, epicsById);
    LastTables(sections, orphanRows, legacyRows, finalized, epicsById);
    assert RowsRight(orphanRows, all, epicsById) && RowsRight(legacyRows, all, epicsById);
    RightConcat(sections, orphanRows, all, epicsById);
    RightConcat(sections + orphanRows, legacyRows, all, epicsById);
    rows := sections + orphanRows + legacyRows;
  }
}
