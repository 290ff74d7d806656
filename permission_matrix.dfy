/**
 * The per-user permission matrix: the nine features in their fixed display order, their
 * labels, and `buildRowsFromMap`, which turns a partial permission map into one row per feature.
 */
module PermissionMatrix {
  datatype FeatureKey =
    | User | Role | Project | TestCase | TestSchedule | TestHistory | ApiDoc | Dashboard | Report

  /** The key as the source spells it. */
  function KeyName(k: FeatureKey): string {
    match k
    case User => "user"
    case Role => "role"
    case Project => "project"
    case TestCase => "test_case"
    case TestSchedule => "test_schedule"
    case TestHistory => "test_history"
    case ApiDoc => "api_doc"
    case Dashboard => "dashboard"
    case Report => "report"
  }

  /** `FEATURE_ORDER` */
  const FeatureOrder: seq<FeatureKey> :=
    [User, Role, Project, TestCase, TestSchedule, TestHistory, ApiDoc, Dashboard, Report]

  /** Where a feature sits in `FEATURE_ORDER`. */
  function Position(k: FeatureKey): (i: nat)
    ensures i < |FeatureOrder| && FeatureOrder[i] == k
  {
    match k
    case User => 0
    case Role => 1
    case Project => 2
    case TestCase => 3
    case TestSchedule => 4
    case TestHistory => 5
    case ApiDoc => 6
    case Dashboard => 7
    case Report => 8
  }

  /** `FEATURE_ORDER` lists each of the nine features exactly once. */
  lemma FeatureOrderListsEachKeyOnce()
    ensures |FeatureOrder| == 9
    ensures forall k: FeatureKey :: k in FeatureOrder
    ensures forall i, j :: 0 <= i < j < |FeatureOrder| ==> FeatureOrder[i] != FeatureOrder[j]
  {
    forall k: FeatureKey ensures k in FeatureOrder {
      assert FeatureOrder[Position(k)] == k;
    }
  }

  /** `FEATURE_LABELS` */
  function FeatureLabel(k: FeatureKey): string {
    match k
    case User => "User"
    case Role => "Role"
    case Project => "Project"
    case TestCase => "Test Case"
    case TestSchedule => "Test Schedule"
    case TestHistory => "Test History"
    case ApiDoc => "API Doc"
    case Dashboard => "Dashboard"
    case Report => "Report"
  }

  /** Key names and labels are both one-to-one. */
  lemma NamesAndLabelsDistinct(a: FeatureKey, b: FeatureKey)
    requires a != b
    ensures KeyName(a) != KeyName(b) && FeatureLabel(a) != FeatureLabel(b)
  {
  }

  datatype Perm = Perm(read: bool, write: bool)

  datatype FeatureRow = FeatureRow(feature: FeatureKey, name: string, read: bool, write: bool)

  /** A partial permission record; an absent feature has no entry. Maps carry no key order. */
  type PermMap = map<FeatureKey, Perm>

  /** `perms[k] ?? { read: false, write: false }` */
  function Effective(perms: PermMap, k: FeatureKey): (p: Perm)
    ensures k in perms ==> p == perms[k]
    ensures k !in perms ==> p == Perm(false, false)
  {
    if k in perms then perms[k] else Perm(false, false)
  }

  function RowFor(perms: PermMap, k: FeatureKey): FeatureRow {
    FeatureRow(k, FeatureLabel(k), Effective(perms, k).read, Effective(perms, k).write)
  }

  /** `buildRowsFromMap(perms)`: one row per feature, in `FEATURE_ORDER`, labelled, with a
      missing entry read as no access. */
  function BuildRowsFromMap(perms: PermMap): (rows: seq<FeatureRow>)
    ensures |rows| == |FeatureOrder| == 9
    ensures forall i :: 0 <= i < |rows| ==>
              && rows[i].feature == FeatureOrder[i]
              && rows[i].name == FeatureLabel(FeatureOrder[i])
              && (rows[i].read <==> FeatureOrder[i] in perms && perms[FeatureOrder[i]].read)
              && (rows[i].write <==> FeatureOrder[i] in perms && perms[FeatureOrder[i]].write)
  {
    seq(|FeatureOrder|, i requires 0 <= i < |FeatureOrder| => RowFor(perms, FeatureOrder[i]))
  }

  /** Two permission maps give the same rows exactly when they grant the same access to
      every feature, counting a missing entry as no access. */
  lemma SameRowsIffSameAccess(p1: PermMap, p2: PermMap)
    ensures BuildRowsFromMap(p1) == BuildRowsFromMap(p2) <==> forall k :: Effective(p1, k) == Effective(p2, k)
  {
    var r1, r2 := BuildRowsFromMap(p1), BuildRowsFromMap(p2);
    if r1 == r2 {
      forall k: FeatureKey ensures Effective(p1, k) == Effective(p2, k) {
        var i := Position(k);
        assert r1[i] == r2[i];
      }
    } else {
      var i :| 0 <= i < |r1| && r1[i] != r2[i];
      assert Effective(p1, FeatureOrder[i]) != Effective(p2, FeatureOrder[i]);
    }
  }
}
