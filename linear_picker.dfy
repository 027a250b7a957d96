/** The issue picker: a paged, filtered issue list with an in-flight guard,
    and a selection that survives reloads. The selection is a map from issue
    id to issue; a map keeps its keys in insertion order, so it is modelled
    as a sequence of issues with distinct ids. */
module LinearPicker {
  import opened Wrappers
  import opened Types
  import JsText

  datatype PageInfo = PageInfo(hasNextPage: bool, endCursor: string)

  const NoPage: PageInfo := PageInfo(false, "")

  const FetchFailedMessage: string := "Failed to fetch issues."
  const ErrorPrefix: string := "Error: "

  /** The arguments of one `fetchLinearIssues` call. */
  datatype Request = Request(cursor: Option<string>, query: string, assigneeId: Option<string>)

  /** How the awaited fetch ended: a page, or an error with its `message`
      (absent or a string). */
  datatype FetchOutcome = Fetched(nodes: seq<Issue>, pageInfo: PageInfo) | Failed(message: Option<string>)

  datatype PickerState = PickerState(
    issues: seq<Issue>,
    selection: seq<Issue>,
    loadingRef: bool,
    loading: bool,
    loadingMore: bool,
    error: string,
    pageInfo: PageInfo,
    viewer: Option<Assignee>,
    assigneeFilter: string,
    query: string)

  function IdsOf(s: seq<Issue>): set<string> {
    set i | 0 <= i < |s| :: s[i].id
  }

  predicate DistinctIds(s: seq<Issue>) {
    forall i, j :: 0 <= i < j < |s| ==> s[i].id != s[j].id
  }

  /** A cursor is used only when it is a non-empty string. */
  predicate Truthy(cursor: Option<string>) {
    cursor.Some? && cursor.value != ""
  }

  // ---------------------------------------------------------------
  // Pure parts
  // ---------------------------------------------------------------

  /** The entries whose id is not `id`, in order (`Map.delete`). */
  function WithoutId(s: seq<Issue>, id: string): (r: seq<Issue>)
    ensures IdsOf(r) == IdsOf(s) - {id}
    ensures forall x :: x in r <==> x in s && x.id != id
    decreases |s|
  {
    if |s| == 0 then []
    else
      var rest := WithoutId(s[1..], id);
      IdsCons(s[0], s[1..]);
      IdsCons(s[0], rest);
      assert s == [s[0]] + s[1..];
      if s[0].id == id then rest else [s[0]] + rest
  }

  lemma IdsCons(x: Issue, s: seq<Issue>)
    ensures IdsOf([x] + s) == {x.id} + IdsOf(s)
  {
    var r := [x] + s;
    forall y | y in IdsOf(r) ensures y in {x.id} + IdsOf(s) {
      var i :| 0 <= i < |r| && r[i].id == y;
      if i > 0 { assert r[i] == s[i - 1]; }
    }
    forall y | y in IdsOf(s) ensures y in IdsOf(r) {
      var i :| 0 <= i < |s| && s[i].id == y;
      assert r[i + 1] == s[i];
    }
    assert r[0] == x;
  }

  /** `toggleIssue` on the map: delete a selected id, otherwise add the
      issue as the last entry. */
  function ToggleSelection(selection: seq<Issue>, issue: Issue): seq<Issue> {
    if issue.id in IdsOf(selection) then WithoutId(selection, issue.id) else selection + [issue]
  }

  /** The list after a fetched page: a next page appends the nodes whose
      ids are not listed yet, a first page replaces the list. */
  function MergePage(prev: seq<Issue>, nodes: seq<Issue>, cursor: Option<string>): seq<Issue> {
    if Truthy(cursor) then prev + NotListed(nodes, IdsOf(prev)) else nodes
  }

  /** `data.nodes.filter(n => !existingIds.has(n.id))`. */
  function NotListed(nodes: seq<Issue>, listed: set<string>): (r: seq<Issue>)
    ensures forall x :: x in r <==> x in nodes && x.id !in listed
    decreases |nodes|
  {
    if |nodes| == 0 then []
    else (if nodes[0].id in listed then [] else [nodes[0]]) + NotListed(nodes[1..], listed)
  }

  /** The assignee id sent with the request: the viewer for 'ME' once the
      viewer is known, no filter for 'ALL' or an empty filter, and the
      filter itself otherwise. */
  function ResolveAssignee(assignee: string, viewer: Option<Assignee>): Option<string> {
    if assignee == "ME" && viewer.Some? then Some(viewer.value.id)
    else if assignee != "" && assignee != "ALL" && assignee != "ME" then Some(assignee)
    else None
  }

  /** The message shown for a failed fetch: the error's message, or the
      fallback when it is absent or empty, with one leading "Error: "
      removed. */
  function ErrorText(message: Option<string>): string {
    var msg := if message.Some? && message.value != "" then message.value else FetchFailedMessage;
    StripErrorPrefix(msg)
  }

  /** `msg.replace(/^Error: /, '')`. */
  function StripErrorPrefix(msg: string): string {
    if JsText.StartsWith(msg, ErrorPrefix) then msg[|ErrorPrefix|..] else msg
  }

  // ---------------------------------------------------------------
  // The component's steps on its state
  // ---------------------------------------------------------------

  /** `loadIssues` up to the await: refused while a load is in flight;
      otherwise raise the guard and the spinner for the kind of load. */
  function BeginSpec(s: PickerState, cursor: Option<string>): (PickerState, Option<Request>) {
    if s.loadingRef then (s, None)
    else
      var shown := if !Truthy(cursor) then s.(loading := true, error := "") else s.(loadingMore := true);
      (shown.(loadingRef := true), Some(Request(cursor, s.query, ResolveAssignee(s.assigneeFilter, s.viewer))))
  }

  /** `loadIssues` after the await, with its `finally`. */
  function FinishSpec(s: PickerState, cursor: Option<string>, outcome: FetchOutcome): PickerState {
    var after := match outcome
      case Fetched(nodes, page) => s.(issues := MergePage(s.issues, nodes, cursor), pageInfo := page)
      case Failed(message) => s.(error := ErrorText(message));
    after.(loading := false, loadingMore := false, loadingRef := false)
  }

  /** The reload effect: wait for the viewer under 'ME'; otherwise clear the
      shown list and page, never the selection, and load the first page. */
  function ReloadSpec(s: PickerState): (PickerState, Option<Request>) {
    if s.assigneeFilter == "ME" && s.viewer.None? then (s, None)
    else BeginSpec(s.(issues := [], pageInfo := NoPage), None)
  }

  /** `handleNextPage`. */
  function NextPageSpec(s: PickerState): (PickerState, Option<Request>) {
    if s.pageInfo.hasNextPage && !s.loadingRef then BeginSpec(s, Some(s.pageInfo.endCursor)) else (s, None)
  }

  class Picker {
    var issues: seq<Issue>
    var selection: seq<Issue>
    var loadingRef: bool
    var loading: bool
    var loadingMore: bool
    var error: string
    var pageInfo: PageInfo
    var viewer: Option<Assignee>
    var assigneeFilter: string
    var query: string

    function Snapshot(): PickerState
      reads this
    {
      PickerState(issues, selection, loadingRef, loading, loadingMore, error, pageInfo, viewer, assigneeFilter, query)
    }

    /** The map holds each id once. */
    predicate Valid()
      reads this
    {
      DistinctIds(selection)
    }

    constructor ()
      ensures Snapshot() == PickerState([], [], false, false, false, "", NoPage, None, "ALL", "")
      ensures Valid()
    {
      issues, selection := [], [];
      loadingRef, loading, loadingMore := false, false, false;
      error, pageInfo, viewer, assigneeFilter, query := "", NoPage, None, "ALL", "";
    }

    method Restore(s: PickerState)
      modifies this
      ensures Snapshot() == s
    {
      issues, selection, loadingRef, loading, loadingMore := s.issues, s.selection, s.loadingRef, s.loading, s.loadingMore;
      error, pageInfo, viewer, assigneeFilter, query := s.error, s.pageInfo, s.viewer, s.assigneeFilter, s.query;
    }

    /** `loadIssues` up to the await; the request is what is fetched. */
    method BeginLoad(cursor: Option<string>) returns (request: Option<Request>)
      modifies this
      ensures (Snapshot(), request) == BeginSpec(old(Snapshot()), cursor)
      ensures selection == old(selection)
    {
      if loadingRef {
        return None;
      }
      loadingRef := true;
      if !Truthy(cursor) {
        loading := true;
        error := "";
      } else {
        loadingMore := true;
      }
      var apiAssigneeId: Option<string> := None;
      if assigneeFilter == "ME" && viewer.Some? {
        apiAssigneeId := Some(viewer.value.id);
      } else if assigneeFilter != "" && assigneeFilter != "ALL" && assigneeFilter != "ME" {
        apiAssigneeId := Some(assigneeFilter);
      }
      request := Some(Request(cursor, query, apiAssigneeId));
    }

    /** `loadIssues` once the fetch has settled. */
    method FinishLoad(cursor: Option<string>, outcome: FetchOutcome)
      modifies this
      ensures Snapshot() == FinishSpec(old(Snapshot()), cursor, outcome)
      ensures selection == old(selection)
    {
      match outcome {
        case Fetched(nodes, page) =>
          if Truthy(cursor) {
            issues := issues + NotListed(nodes, IdsOf(issues));
          } else {
            issues := nodes;
          }
          pageInfo := page;
        case Failed(message) =>
          error := ErrorText(message);
      }
      loading := false;
      loadingMore := false;
      loadingRef := false;
    }

    /** A new debounced query or filter, then the reload effect. */
    method ChangeFilters(newQuery: string, newFilter: string) returns (request: Option<Request>)
      modifies this
      ensures (Snapshot(), request) == ReloadSpec(old(Snapshot()).(query := newQuery, assigneeFilter := newFilter))
      ensures selection == old(selection)
    {
      query, assigneeFilter := newQuery, newFilter;
      request := Reload();
    }

    /** The viewer has loaded, then the reload effect. */
    method ViewerLoaded(v: Assignee) returns (request: Option<Request>)
      modifies this
      ensures (Snapshot(), request) == ReloadSpec(old(Snapshot()).(viewer := Some(v)))
      ensures selection == old(selection)
    {
      viewer := Some(v);
      request := Reload();
    }

    method Reload() returns (request: Option<Request>)
      modifies this
      ensures (Snapshot(), request) == ReloadSpec(old(Snapshot()))
      ensures selection == old(selection)
    {
      if assigneeFilter == "ME" && viewer.None? {
        return None;
      }
      issues := [];
      pageInfo := NoPage;
      request := BeginLoad(None);
    }

    /** `handleNextPage`. */
    method NextPage() returns (request: Option<Request>)
      modifies this
      ensures (Snapshot(), request) == NextPageSpec(old(Snapshot()))
    {
      request := None;
      if pageInfo.hasNextPage && !loadingRef {
        request := BeginLoad(Some(pageInfo.endCursor));
      }
    }

    /** `toggleIssue`. */
    method ToggleIssue(issue: Issue)
      requires Valid()
      modifies this
      ensures Snapshot() == old(Snapshot()).(selection := ToggleSelection(old(selection), issue))
      ensures Valid()
    {
      var newMap := selection;
      if issue.id in IdsOf(newMap) {
        newMap := WithoutId(newMap, issue.id);
      } else {
        newMap := newMap + [issue];
      }
      ToggleKeepsDistinct(selection, issue);
      selection := newMap;
    }

    /** `handleConfirm`: the selected issues in selection order, each once. */
    method Confirm() returns (chosen: seq<Issue>)
      requires Valid()
      ensures chosen == selection && DistinctIds(chosen)
    {
      chosen := selection;
    }
  }

  // ---------------------------------------------------------------
  // Properties
  // ---------------------------------------------------------------

  lemma {:induction false} WithoutIdDistinct(s: seq<Issue>, id: string)
    requires DistinctIds(s)
    ensures DistinctIds(WithoutId(s, id))
    decreases |s|
  {
    if |s| > 0 {
      WithoutIdDistinct(s[1..], id);
      var rest := WithoutId(s[1..], id);
      forall x | x in rest ensures x.id != s[0].id {
        var i :| 0 <= i < |s[1..]| && s[1..][i] == x;
        assert s[i + 1] == x;
      }
    }
  }

  lemma {:induction false} WithoutAbsent(s: seq<Issue>, id: string)
    requires id !in IdsOf(s)
    ensures WithoutId(s, id) == s
    decreases |s|
  {
    if |s| > 0 {
      assert IdsOf(s[1..]) <= IdsOf(s) by {
        forall x | x in IdsOf(s[1..]) ensures x in IdsOf(s) {
          var i :| 0 <= i < |s[1..]| && s[1..][i].id == x;
          assert s[i + 1] == s[1..][i];
        }
      }
      assert s[0].id in IdsOf(s);
      WithoutAbsent(s[1..], id);
      assert s == [s[0]] + s[1..];
    }
  }

  lemma {:induction false} WithoutAppend(a: seq<Issue>, b: seq<Issue>, id: string)
    ensures WithoutId(a + b, id) == WithoutId(a, id) + WithoutId(b, id)
    decreases |a|
  {
    if |a| == 0 {
      assert a + b == b;
    } else {
      assert (a + b)[0] == a[0] && (a + b)[1..] == a[1..] + b;
      WithoutAppend(a[1..], b, id);
    }
  }

  lemma ToggleKeepsDistinct(selection: seq<Issue>, issue: Issue)
    requires DistinctIds(selection)
    ensures DistinctIds(ToggleSelection(selection, issue))
  {
    if issue.id in IdsOf(selection) {
      WithoutIdDistinct(selection, issue.id);
    } else {
      var r := selection + [issue];
      forall i, j | 0 <= i < j < |r| ensures r[i].id != r[j].id {
        if j == |selection| {
          assert r[i].id in IdsOf(selection);
        }
      }
    }
  }

  /** Toggling flips exactly the issue's key and keeps every other entry,
      in its order. */
  lemma ToggleSelectionEffect(selection: seq<Issue>, issue: Issue)
    ensures var r := ToggleSelection(selection, issue);
      (issue.id in IdsOf(r) <==> issue.id !in IdsOf(selection))
      && IdsOf(r) - {issue.id} == IdsOf(selection) - {issue.id}
      && WithoutId(r, issue.id) == WithoutId(selection, issue.id)
      && (issue.id !in IdsOf(selection) ==> r[|r| - 1] == issue)
  {
    var id := issue.id;
    if id !in IdsOf(selection) {
      var r := selection + [issue];
      WithoutAppend(selection, [issue], id);
      assert [issue][1..] == [];
      assert IdsOf(r) == IdsOf(selection) + {id} by {
        forall x | x in IdsOf(r) ensures x in IdsOf(selection) + {id} {
          var i :| 0 <= i < |r| && r[i].id == x;
          if i < |selection| { assert r[i] == selection[i]; }
        }
        forall x | x in IdsOf(selection) ensures x in IdsOf(r) {
          var i :| 0 <= i < |selection| && selection[i].id == x;
          assert r[i] == selection[i];
        }
        assert r[|selection|] == issue;
      }
    } else {
      WithoutAbsent(WithoutId(selection, id), id);
    }
  }

  /** Toggling an unselected issue twice restores the selection; toggling
      a selected one twice keeps the same keys but moves the entry to the
      end, holding the issue passed in. */
  lemma ToggleTwice(selection: seq<Issue>, issue: Issue)
    ensures issue.id !in IdsOf(selection) ==>
      ToggleSelection(ToggleSelection(selection, issue), issue) == selection
    ensures issue.id in IdsOf(selection) ==>
      ToggleSelection(ToggleSelection(selection, issue), issue) == WithoutId(selection, issue.id) + [issue]
      && IdsOf(ToggleSelection(ToggleSelection(selection, issue), issue)) == IdsOf(selection)
  {
    var id := issue.id;
    if id !in IdsOf(selection) {
      ToggleSelectionEffect(selection, issue);
      WithoutAppend(selection, [issue], id);
      WithoutAbsent(selection, id);
      assert [issue][1..] == [];
    } else {
      var once := WithoutId(selection, id);
      var twice := once + [issue];
      assert IdsOf(twice) == IdsOf(once) + {id} by {
        forall x | x in IdsOf(twice) ensures x in IdsOf(once) + {id} {
          var i :| 0 <= i < |twice| && twice[i].id == x;
          if i < |once| { assert twice[i] == once[i]; }
        }
        forall x | x in IdsOf(once) ensures x in IdsOf(twice) {
          var i :| 0 <= i < |once| && once[i].id == x;
          assert twice[i] == once[i];
        }
        assert twice[|once|] == issue;
      }
    }
  }

  lemma {:induction false} NotListedNone(nodes: seq<Issue>, listed: set<string>)
    requires IdsOf(nodes) <= listed
    ensures NotListed(nodes, listed) == []
    decreases |nodes|
  {
    if |nodes| > 0 {
      assert nodes[0].id in IdsOf(nodes);
      assert IdsOf(nodes[1..]) <= IdsOf(nodes) by {
        forall x | x in IdsOf(nodes[1..]) ensures x in IdsOf(nodes) {
          var i :| 0 <= i < |nodes[1..]| && nodes[1..][i].id == x;
          assert nodes[i + 1] == nodes[1..][i];
        }
      }
      NotListedNone(nodes[1..], listed);
    }
  }

  lemma {:induction false} NotListedDistinct(nodes: seq<Issue>, listed: set<string>)
    requires DistinctIds(nodes)
    ensures DistinctIds(NotListed(nodes, listed))
    decreases |nodes|
  {
    if |nodes| > 0 {
      NotListedDistinct(nodes[1..], listed);
      forall x | x in NotListed(nodes[1..], listed) ensures x.id != nodes[0].id {
        var i :| 0 <= i < |nodes[1..]| && nodes[1..][i] == x;
        assert nodes[i + 1] == x;
      }
    }
  }

  /** A next page keeps the listed issues in front and appends exactly the
      nodes not yet listed; merging the same page again adds nothing; a
      first page replaces the list; distinct pages stay distinct. */
  lemma MergePageEffect(prev: seq<Issue>, nodes: seq<Issue>, cursor: Option<string>)
    ensures !Truthy(cursor) ==> MergePage(prev, nodes, cursor) == nodes
    ensures Truthy(cursor) ==>
      var r := MergePage(prev, nodes, cursor);
      r[..|prev|] == prev
      && (forall x :: x in r[|prev|..] <==> x in nodes && x.id !in IdsOf(prev))
      && IdsOf(r) == IdsOf(prev) + IdsOf(nodes)
      && MergePage(r, nodes, cursor) == r
    ensures Truthy(cursor) && DistinctIds(prev) && DistinctIds(nodes) ==> DistinctIds(MergePage(prev, nodes, cursor))
  {
    if Truthy(cursor) {
      var added := NotListed(nodes, IdsOf(prev));
      var r := prev + added;
      assert r[..|prev|] == prev && r[|prev|..] == added;
      assert IdsOf(r) == IdsOf(prev) + IdsOf(nodes) by {
        forall x | x in IdsOf(r) ensures x in IdsOf(prev) + IdsOf(nodes) {
          var i :| 0 <= i < |r| && r[i].id == x;
          if i < |prev| {
            assert r[i] == prev[i];
          } else {
            assert r[i] == added[i - |prev|];
            assert r[i] in nodes;
            var j :| 0 <= j < |nodes| && nodes[j] == r[i];
          }
        }
        forall x | x in IdsOf(prev) ensures x in IdsOf(r) {
          var i :| 0 <= i < |prev| && prev[i].id == x;
          assert r[i] == prev[i];
        }
        forall x | x in IdsOf(nodes) && x !in IdsOf(prev) ensures x in IdsOf(r) {
          var i :| 0 <= i < |nodes| && nodes[i].id == x;
          assert nodes[i] in added;
          var j :| 0 <= j < |added| && added[j] == nodes[i];
          assert r[|prev| + j] == added[j];
        }
      }
      NotListedNone(nodes, IdsOf(r));
      assert r + [] == r;
      if DistinctIds(prev) && DistinctIds(nodes) {
        NotListedDistinct(nodes, IdsOf(prev));
        forall i, j | 0 <= i < j < |r| ensures r[i].id != r[j].id {
          if i < |prev| && j >= |prev| {
            assert r[j] == added[j - |prev|];
            assert r[j] in added;
            assert r[i] == prev[i];
          } else if i >= |prev| {
            assert r[i] == added[i - |prev|] && r[j] == added[j - |prev|];
          }
        }
      }
    }
  }

  /** 'ME' resolves to the viewer once it is known, 'ALL' and the empty
      filter to no filter, any other value to itself. */
  lemma ResolveAssigneeCases(assignee: string, viewer: Option<Assignee>)
    ensures assignee == "ME" && viewer.Some? ==> ResolveAssignee(assignee, viewer) == Some(viewer.value.id)
    ensures assignee == "ME" && viewer.None? ==> ResolveAssignee(assignee, viewer) == None
    ensures assignee == "ALL" || assignee == "" ==> ResolveAssignee(assignee, viewer) == None
    ensures assignee != "ME" && ResolveAssignee(assignee, viewer).Some? ==> ResolveAssignee(assignee, viewer) == Some(assignee)
    ensures assignee != "ME" && assignee != "ALL" && assignee != "" ==> ResolveAssignee(assignee, viewer) == Some(assignee)
  {
  }

  /** One leading "Error: " goes, and only at the front: a doubled prefix
      keeps its second copy, and a message without it is kept. */
  lemma StripOnce(rest: string)
    ensures StripErrorPrefix(ErrorPrefix + rest) == rest
    ensures StripErrorPrefix(ErrorPrefix + ErrorPrefix + rest) == ErrorPrefix + rest
    ensures !JsText.StartsWith(rest, ErrorPrefix) ==> StripErrorPrefix(rest) == rest
    ensures ErrorText(None) == FetchFailedMessage && ErrorText(Some("")) == FetchFailedMessage
    ensures ErrorText(Some(ErrorPrefix + rest)) == rest
  {
    assert (ErrorPrefix + rest)[..|ErrorPrefix|] == ErrorPrefix;
    assert (ErrorPrefix + ErrorPrefix + rest)[..|ErrorPrefix|] == ErrorPrefix;
    assert (ErrorPrefix + ErrorPrefix + rest)[|ErrorPrefix|..] == ErrorPrefix + rest;
    assert !JsText.StartsWith(FetchFailedMessage, ErrorPrefix) by {
      assert FetchFailedMessage[0] != ErrorPrefix[0];
    }
  }

  /** While a load is in flight a new load changes nothing and fetches
      nothing; otherwise the guard goes up with the right spinner. */
  lemma InFlightGuard(s: PickerState, cursor: Option<string>)
    ensures s.loadingRef ==> BeginSpec(s, cursor) == (s, None)
    ensures !s.loadingRef ==>
      var (t, req) := BeginSpec(s, cursor);
      t.loadingRef && req == Some(Request(cursor, s.query, ResolveAssignee(s.assigneeFilter, s.viewer)))
      && t.issues == s.issues && t.selection == s.selection
      && (!Truthy(cursor) ==> t.loading && t.error == "" && t.loadingMore == s.loadingMore)
      && (Truthy(cursor) ==> t.loadingMore && t.loading == s.loading && t.error == s.error)
  {
  }

  /** A settled load always lowers the guard and both spinners and never
      touches the selection; a page updates the list and the page info, a
      failure only the error. */
  lemma FinishEffect(s: PickerState, cursor: Option<string>, outcome: FetchOutcome)
    ensures var t := FinishSpec(s, cursor, outcome);
      !t.loadingRef && !t.loading && !t.loadingMore && t.selection == s.selection
      && (outcome.Fetched? ==> t.issues == MergePage(s.issues, outcome.nodes, cursor) && t.pageInfo == outcome.pageInfo
                               && t.error == s.error)
      && (outcome.Failed? ==> t.issues == s.issues && t.pageInfo == s.pageInfo && t.error == ErrorText(outcome.message))
    ensures !s.loadingRef ==>
      var (t, req) := BeginSpec(s, cursor);
      req.Some? && !FinishSpec(t, cursor, outcome).loadingRef
  {
  }

  /** Under 'ME' the reload waits for the viewer; otherwise it clears the
      shown issues and the page info but keeps the selection, and asks for a
      first page unless a load is in flight. */
  lemma ReloadEffect(s: PickerState)
    ensures s.assigneeFilter == "ME" && s.viewer.None? ==> ReloadSpec(s) == (s, None)
    ensures !(s.assigneeFilter == "ME" && s.viewer.None?) ==>
      var (t, req) := ReloadSpec(s);
      t.issues == [] && t.pageInfo == NoPage && t.selection == s.selection
      && (req.Some? <==> !s.loadingRef)
      && (req.Some? ==> req.value.cursor == None && req.value.assigneeId == ResolveAssignee(s.assigneeFilter, s.viewer))
  {
  }

  /** A next page is asked for only when there is one and nothing is in
      flight, from the last page's cursor. */
  lemma NextPageEffect(s: PickerState)
    ensures NextPageSpec(s).1.Some? <==> s.pageInfo.hasNextPage && !s.loadingRef
    ensures NextPageSpec(s).1.Some? ==> NextPageSpec(s).1.value.cursor == Some(s.pageInfo.endCursor)
    ensures NextPageSpec(s).1.None? ==> NextPageSpec(s).0 == s
  {
  }
}
