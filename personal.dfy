/** The report selection of the account page (frontend/src/pages/Personal.tsx): checkboxes
    toggle report ids in a selection, and "delete selected" sends one DELETE per selected
    report, reloads the user's reports and clears the selection. */
module ReportSelection {
  import opened Wrappers

  /** A report as the page lists it; only the id matters to the selection. */
  datatype ReportOutput = ReportOutput(id: int, createdAt: string, title: string)

  /** A JavaScript Set keeps insertion order, which is the order Array.from gives back. */
  ghost predicate Distinct(s: seq<int>) {
    forall i, j :: 0 <= i < j < |s| ==> s[i] != s[j]
  }

  /** Set.prototype.delete: the sequence without x, the rest in order. */
  function Remove(s: seq<int>, x: int): (r: seq<int>)
    ensures forall y :: y in r <==> y in s && y != x
    ensures |r| <= |s|
  {
    if s == [] then []
    else if s[0] == x then Remove(s[1..], x)
    else [s[0]] + Remove(s[1..], x)
  }

  lemma {:induction false} RemoveAbsent(s: seq<int>, x: int)
    requires x !in s
    ensures Remove(s, x) == s
  {
    if s != [] {
      RemoveAbsent(s[1..], x);
      assert s == [s[0]] + s[1..];
    }
  }

  lemma {:induction false} RemoveDistinct(s: seq<int>, x: int)
    requires Distinct(s)
    ensures Distinct(Remove(s, x))
  {
    if s != [] {
      assert Distinct(s[1..]) by {
        forall i, j | 0 <= i < j < |s[1..]| ensures s[1..][i] != s[1..][j] {
          assert s[1..][i] == s[i + 1] && s[1..][j] == s[j + 1];
        }
      }
      RemoveDistinct(s[1..], x);
      var r := Remove(s[1..], x);
      if s[0] != x {
        assert s[0] !in s[1..] by {
          forall k | 0 <= k < |s[1..]| ensures s[1..][k] != s[0] {
            assert s[1..][k] == s[k + 1];
          }
        }
        assert s[0] !in r;
        forall i, j | 0 <= i < j < |[s[0]] + r| ensures ([s[0]] + r)[i] != ([s[0]] + r)[j] {
          if i == 0 {
            assert ([s[0]] + r)[j] == r[j - 1];
          } else {
            assert ([s[0]] + r)[i] == r[i - 1] && ([s[0]] + r)[j] == r[j - 1];
          }
        }
      }
    }
  }

  /** handleCheckboxChange's update: delete the id when present, add it at the end when absent. */
  function Toggle(s: seq<int>, id: int): seq<int> {
    if id in s then Remove(s, id) else s + [id]
  }

  /** The toggled id changes membership, and no other id does. */
  lemma ToggleFlips(s: seq<int>, id: int, other: int)
    requires other != id
    ensures id in Toggle(s, id) <==> id !in s
    ensures other in Toggle(s, id) <==> other in s
  {
  }

  /** Toggling keeps the selection free of duplicates. */
  lemma ToggleDistinct(s: seq<int>, id: int)
    requires Distinct(s)
    ensures Distinct(Toggle(s, id))
  {
    if id in s {
      RemoveDistinct(s, id);
    }
  }

  /** Toggling the same id twice gives back the same set of ids; when the id was not
      selected, it gives back the very same sequence. */
  lemma ToggleTwice(s: seq<int>, id: int)
    ensures forall x :: x in Toggle(Toggle(s, id), id) <==> x in s
    ensures id !in s ==> Toggle(Toggle(s, id), id) == s
  {
    if id !in s {
      RemoveAbsent(s, id);
      RemoveAppended(s, id);
    }
  }

  lemma {:induction false} RemoveAppended(s: seq<int>, id: int)
    requires id !in s
    ensures Remove(s + [id], id) == s
  {
    if s == [] {
      assert [] + [id] == [id];
    } else {
      assert (s + [id])[1..] == s[1..] + [id];
      RemoveAppended(s[1..], id);
      assert s == [s[0]] + s[1..];
    }
  }

  /** JavaScript truthiness of `user?.id`: a missing user and the id 0 are both false. */
  predicate HasUserId(userId: Option<int>) {
    userId.Some? && userId.value != 0
  }

  /** The page's selection and report list. */
  class PersonalPage {
    var reports: seq<ReportOutput>
    var selected: seq<int>

    ghost predicate Valid()
      reads this
    {
      Distinct(selected)
    }

    constructor ()
      ensures reports == [] && selected == []
      ensures Valid()
    {
      reports := [];
      selected := [];
    }

    /** handleCheckboxChange. */
    method CheckboxChange(reportId: int)
      requires Valid()
      modifies this
      ensures selected == Toggle(old(selected), reportId)
      ensures reports == old(reports)
      ensures Valid()
    {
      ToggleDistinct(selected, reportId);
      selected := Toggle(selected, reportId);
    }

    /** handleDeleteSelected. The DELETE requests are all sent before any is awaited;
        `deleteFailed` says whether one of them rejected, and `reloaded` is the list the
        reload answers, None when its body does not parse. Either failure is caught and
        logged, and the selection stays as it was. */
    method DeleteSelected(userId: Option<int>, deleteFailed: bool, reloaded: Option<seq<ReportOutput>>)
      returns (deleteRequests: seq<int>)
      requires Valid()
      modifies this
      ensures old(selected) == [] ==> deleteRequests == [] && selected == old(selected) && reports == old(reports)
      ensures old(selected) != [] ==> deleteRequests == old(selected)
      ensures old(selected) != [] && !deleteFailed && (HasUserId(userId) ==> reloaded.Some?) ==>
        && selected == []
        && reports == (if HasUserId(userId) then reloaded.value else old(reports))
      ensures deleteFailed || (HasUserId(userId) && reloaded.None?) ==>
        selected == old(selected) && reports == old(reports)
      ensures Valid()
    {
      if |selected| == 0 {
        return [];
      }
      deleteRequests := selected;
      if deleteFailed {
        return;
      }
      if HasUserId(userId) {
        if reloaded.None? {
          return;
        }
        reports := reloaded.value;
      }
      selected := [];
    }
  }
}
