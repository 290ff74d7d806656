/**
 * The create-permission page: its initial rows, one per feature with no access and a name
 * formatted from the feature key, the form's changes, and the submit.
 */
module CreatePermission {
  import opened Js
  import opened PermissionMatrix
  import PermissionForm

  /** `.replace(/_/g, ' ')` */
  function Underscores(s: string): (r: string)
    ensures |r| == |s|
    ensures forall i :: 0 <= i < |s| ==> r[i] == (if s[i] == '_' then ' ' else s[i])
  {
    seq(|s|, i requires 0 <= i < |s| => if s[i] == '_' then ' ' else s[i])
  }

  /** Position `i` matches `\b\w`: a word character with no word character before it. */
  predicate WordStart(s: string, i: int)
    requires 0 <= i < |s|
  {
    IsWordChar(s[i]) && (i == 0 || !IsWordChar(s[i - 1]))
  }

  /** `.replace(/\b\w/g, (l) => l.toUpperCase())` */
  function CapitalizeWords(s: string): (r: string)
    ensures |r| == |s|
    ensures forall i :: 0 <= i < |s| ==> r[i] == (if WordStart(s, i) then ToUpperAscii(s[i]) else s[i])
  {
    seq(|s|, i requires 0 <= i < |s| => if WordStart(s, i) then ToUpperAscii(s[i]) else s[i])
  }

  /** The name the page gives a feature key. */
  function TitleCase(s: string): (r: string)
    ensures |r| == |s|
    ensures forall i :: 0 <= i < |s| ==> r[i] != '_'
  {
    CapitalizeWords(Underscores(s))
  }

  predicate LowerWord(w: string) {
    |w| > 0 && forall i :: 0 <= i < |w| ==> 'a' <= w[i] <= 'z'
  }

  /** A word with its first letter upper-cased. */
  function Capitalized(w: string): string
    requires |w| > 0
  {
    [ToUpperAscii(w[0])] + w[1..]
  }

  lemma OneWordTitle(w: string)
    requires LowerWord(w)
    ensures TitleCase(w) == Capitalized(w)
  {
    var t := Underscores(w);
    assert t == w;
    forall i | 0 < i < |t| ensures !WordStart(t, i) { }
  }

  lemma OneWordLabel(w: string, caption: string)
    requires LowerWord(w) && |caption| == |w|
    requires caption[0] == ToUpperAscii(w[0]) && caption[1..] == w[1..]
    ensures TitleCase(w) == caption
  {
    OneWordTitle(w);
    assert Capitalized(w) == caption;
  }

  lemma ApiDocTitle()
    ensures TitleCase("api_doc") == "Api Doc"
  {
    var t := Underscores("api_doc");
    assert t == "api doc";
    assert WordStart(t, 0) && WordStart(t, 4);
    assert forall i :: 0 <= i < |t| && i != 0 && i != 4 ==> !WordStart(t, i);
  }

  lemma TestCaseTitle()
    ensures TitleCase("test_case") == "Test Case"
  {
    var t := Underscores("test_case");
    assert t == "test case";
    assert WordStart(t, 0) && WordStart(t, 5);
    assert forall i :: 0 <= i < |t| && i != 0 && i != 5 ==> !WordStart(t, i);
  }

  lemma TestScheduleTitle()
    ensures TitleCase("test_schedule") == "Test Schedule"
  {
    var t := Underscores("test_schedule");
    assert t == "test schedule";
    assert WordStart(t, 0) && WordStart(t, 5);
    assert forall i :: 0 <= i < |t| && i != 0 && i != 5 ==> !WordStart(t, i);
  }

  lemma TestHistoryTitle()
    ensures TitleCase("test_history") == "Test History"
  {
    var t := Underscores("test_history");
    assert t == "test history";
    assert WordStart(t, 0) && WordStart(t, 5);
    assert forall i :: 0 <= i < |t| && i != 0 && i != 5 ==> !WordStart(t, i);
  }

  /** Formatting an already formatted name changes nothing. */
  lemma {:induction false} TitleCaseIdempotent(s: string)
    ensures TitleCase(TitleCase(s)) == TitleCase(s)
  {
    var t := Underscores(s);
    var u := CapitalizeWords(t);
    assert Underscores(u) == u;
    forall i | 0 <= i < |u| ensures IsWordChar(u[i]) <==> IsWordChar(t[i]) { }
    forall i | 0 <= i < |u| ensures WordStart(u, i) <==> WordStart(t, i) { }
    forall i | 0 <= i < |u| ensures CapitalizeWords(u)[i] == u[i] {
      if WordStart(u, i) {
        assert ToUpperAscii(ToUpperAscii(t[i])) == ToUpperAscii(t[i]);
      }
    }
  }

  /** The page's names agree with `FEATURE_LABELS` for every feature but `api_doc`, which the
      labels spell 'API Doc' and this page 'Api Doc'. */
  lemma NamesMatchLabelsExceptApiDoc(k: FeatureKey)
    ensures TitleCase(KeyName(k)) == FeatureLabel(k) <==> k != ApiDoc
  {
    match k
    case User => OneWordLabel("user", "User");
    case Role => OneWordLabel("role", "Role");
    case Project => OneWordLabel("project", "Project");
    case TestCase => TestCaseTitle();
    case TestSchedule => TestScheduleTitle();
    case TestHistory => TestHistoryTitle();
    case ApiDoc =>
      ApiDocTitle();
      assert "Api Doc"[1] != "API Doc"[1];
    case Dashboard => OneWordLabel("dashboard", "Dashboard");
    case Report => OneWordLabel("report", "Report");
  }

  /** The initial rows: one per feature in `FEATURE_ORDER`, formatted name, no access. */
  function InitialRows(): (rows: seq<FeatureRow>)
    ensures |rows| == |FeatureOrder|
    ensures forall i :: 0 <= i < |rows| ==>
              rows[i] == FeatureRow(FeatureOrder[i], TitleCase(KeyName(FeatureOrder[i])), false, false)
  {
    seq(|FeatureOrder|, i requires 0 <= i < |FeatureOrder| =>
      FeatureRow(FeatureOrder[i], TitleCase(KeyName(FeatureOrder[i])), false, false))
  }

  /** Apart from the names, the initial rows are what an empty permission map builds. */
  lemma InitialRowsGrantNothing()
    ensures |InitialRows()| == |BuildRowsFromMap(map[])|
    ensures forall i :: 0 <= i < |InitialRows()| ==>
              InitialRows()[i] == BuildRowsFromMap(map[])[i].(name := TitleCase(KeyName(FeatureOrder[i])))
  {
  }

  /** The user id `handleSubmit` sends: a fixed placeholder, not a real user. */
  const PlaceholderUserId := "new-user-id"

  /** The page's state cell. */
  class CreatePermissionPage {
    var data: seq<FeatureRow>

    constructor ()
      ensures data == InitialRows()
    {
      data := InitialRows();
    }

    /** `onChange={setData}` */
    method OnChange(newData: seq<FeatureRow>)
      modifies this
      ensures data == newData
    {
      data := newData;
    }

    /** A click on cell (`index`, `field`) in the embedded form. */
    method Toggle(index: int, f: PermissionForm.Field)
      requires 0 <= index < |data|
      modifies this
      ensures data == PermissionForm.ToggleCell(old(data), index, f)
    {
      var current := new FeatureRow[|data|](i requires 0 <= i < |data| reads this => data[i]);
      assert current[..] == data;
      var next := PermissionForm.HandleToggle(current, index, f);
      OnChange(next[..]);
    }

    /** `handleSubmit`: the update goes to the fixed placeholder user id, with the current
        rows unchanged. */
    method HandleSubmit() returns (userId: string, sent: seq<FeatureRow>)
      ensures userId == PlaceholderUserId
      ensures sent == data
    {
      userId := PlaceholderUserId;
      sent := data;
    }
  }
}
