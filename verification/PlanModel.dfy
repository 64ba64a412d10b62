/** Plans, tasks and the parent relation between tasks. */
module PlanModel {
  import opened GoStrings

  datatype TaskStatus = Pending | Doing | Done | Failed

  datatype Task = Task(id: string, parentTaskID: string, goal: string, status: TaskStatus,
                       finishedReason: string, action: string)

  /** Splits a comma-separated parent list, trimming the pieces and dropping blank ones. */
  function SplitParentIDs(raw: string): seq<string> {
    if TrimSpace(raw) == "" then [] else Kept(Split(TrimSpace(raw), ','))
  }

  function Kept(parts: seq<string>): seq<string> {
    if parts == [] then []
    else
      var last := TrimSpace(parts[|parts| - 1]);
      Kept(parts[..|parts| - 1]) + if last != "" then [last] else []
  }

  method SplitParents(raw: string) returns (result: seq<string>)
    ensures result == SplitParentIDs(raw)
  {
    var trimmed := TrimSpace(raw);
    if trimmed == "" { return []; }
    var parts := Split(trimmed, ',');
    result := [];
    for i := 0 to |parts|
      invariant result == Kept(parts[..i])
    {
      assert parts[..i + 1][..i] == parts[..i];
      var p := TrimSpace(parts[i]);
      if p != "" { result := result + [p]; }
    }
    assert parts[..|parts|] == parts;
  }

  /** An id that survives being written into a parent list. */
  predicate CleanID(id: string) {
    id != "" && Trimmed(id) && ',' !in id
  }

  lemma {:induction false} KeptCleanIDs(ids: seq<string>)
    requires forall i :: 0 <= i < |ids| ==> CleanID(ids[i])
    ensures Kept(ids) == ids
  {
    hide IsSpace;
    if ids != [] {
      KeptCleanIDs(ids[..|ids| - 1]);
    }
  }

  lemma {:induction false} JoinedIDsAreTrimmed(ids: seq<string>)
    requires |ids| > 0 && forall i :: 0 <= i < |ids| ==> CleanID(ids[i])
    ensures Join(ids, ',') != "" && Trimmed(Join(ids, ','))
  {
    hide IsSpace;
    if |ids| > 1 { JoinedIDsAreTrimmed(ids[1..]); }
  }

  /** Writing ids separated by commas and splitting them again loses nothing. */
  lemma ParentListRoundTrip(ids: seq<string>)
    requires |ids| > 0 && forall i :: 0 <= i < |ids| ==> CleanID(ids[i])
    ensures SplitParentIDs(Join(ids, ',')) == ids
  {
    JoinedIDsAreTrimmed(ids);
    hide IsSpace;
    SplitJoin(ids, ',');
    KeptCleanIDs(ids);
  }

  // ---- White space and blank pieces ----

  /** The pieces with white space written around each. */
  function Padded(pieces: seq<string>, left: seq<string>, right: seq<string>): (r: seq<string>)
    requires |left| == |right| == |pieces|
    ensures |r| == |pieces| && forall i :: 0 <= i < |r| ==> r[i] == left[i] + pieces[i] + right[i]
  {
    seq(|pieces|, i requires 0 <= i < |pieces| => left[i] + pieces[i] + right[i])
  }

  function NonBlank(pieces: seq<string>): seq<string> {
    if pieces == [] then []
    else (if pieces[0] != "" then [pieces[0]] else []) + NonBlank(pieces[1..])
  }

  /** However a list of ids is written down, with white space around the ids, blank pieces
      between them or none at all, splitting gives the ids in order. */
  lemma PaddedListRoundTrip(pieces: seq<string>, left: seq<string>, right: seq<string>)
    requires |pieces| == |left| == |right| > 0
    requires forall i :: 0 <= i < |pieces| ==> pieces[i] == "" || CleanID(pieces[i])
    requires forall i :: 0 <= i < |pieces| ==> AllSpace(left[i]) && AllSpace(right[i])
    ensures SplitParentIDs(Join(Padded(pieces, left, right), ',')) == NonBlank(pieces)
    ensures (forall i :: 0 <= i < |pieces| ==> pieces[i] != "") ==> NonBlank(pieces) == pieces
  {
    hide IsSpace, AllSpace, Join, Split, Kept, NonBlank, SplitParentIDs;
    var parts := Padded(pieces, left, right);
    NoCommaInPadding(pieces, left, right);
    SplitJoin(parts, ',');
    SplitIgnoresEnds(Join(parts, ','));
    KeptPadded(pieces, left, right);
    if forall i :: 0 <= i < |pieces| ==> pieces[i] != "" { NothingBlank(pieces); }
  }

  /** A text is a parent listed if and only if it is not blank and is what trimming leaves
      of some stretch between two commas, or a comma and an end. */
  lemma ParentsAreStretches(raw: string, p: string)
    ensures p in SplitParentIDs(raw) <==>
              p != "" && exists i: nat, j: nat :: IsStretch(raw, ',', i, j) && TrimSpace(raw[i..j]) == p
  {
    hide Split, TrimSpace;
    SplitIgnoresEnds(raw);
    var parts := Split(raw, ',');
    KeptHolds(parts, p);
    hide SplitParentIDs, Kept;
    if k :| 0 <= k < |parts| && TrimSpace(parts[k]) == p {
      var i, j := PieceIsStretch(raw, ',', k);
    }
    if i: nat, j: nat :| IsStretch(raw, ',', i, j) && TrimSpace(raw[i..j]) == p {
      var k := StretchIsPiece(raw, ',', i, j);
    }
  }

  lemma {:induction false} NothingBlank(pieces: seq<string>)
    requires forall i :: 0 <= i < |pieces| ==> pieces[i] != ""
    ensures NonBlank(pieces) == pieces
  {
    if pieces != [] { NothingBlank(pieces[1..]); }
  }

  lemma {:induction false} NonBlankLast(pieces: seq<string>)
    requires pieces != []
    ensures var n := |pieces| - 1;
            NonBlank(pieces) == NonBlank(pieces[..n]) + if pieces[n] != "" then [pieces[n]] else []
  {
    if |pieces| == 1 {
      assert pieces[1..] == [] && pieces[..0] == [];
    } else {
      NonBlankLast(pieces[1..]);
      assert pieces[1..][..|pieces| - 2] == pieces[..|pieces| - 1][1..];
    }
  }

  lemma NoCommaInPadding(pieces: seq<string>, left: seq<string>, right: seq<string>)
    requires |pieces| == |left| == |right|
    requires forall i :: 0 <= i < |pieces| ==> ',' !in pieces[i] && AllSpace(left[i]) && AllSpace(right[i])
    ensures forall i :: 0 <= i < |pieces| ==> ',' !in Padded(pieces, left, right)[i]
  {
    forall i | 0 <= i < |pieces| ensures ',' !in Padded(pieces, left, right)[i] {
      NoCommaInSpace(left[i]);
      NoCommaInSpace(right[i]);
    }
  }

  lemma {:induction false} KeptPadded(pieces: seq<string>, left: seq<string>, right: seq<string>)
    requires |pieces| == |left| == |right|
    requires forall i :: 0 <= i < |pieces| ==> Trimmed(pieces[i]) && AllSpace(left[i]) && AllSpace(right[i])
    ensures Kept(Padded(pieces, left, right)) == NonBlank(pieces)
  {
    hide AllSpace, Trimmed, TrimSpace;
    if pieces != [] {
      var n := |pieces| - 1;
      KeptPadded(pieces[..n], left[..n], right[..n]);
      assert Padded(pieces, left, right)[..n] == Padded(pieces[..n], left[..n], right[..n]);
      TrimPadded(left[n], pieces[n], right[n]);
      NonBlankLast(pieces);
    }
  }

  /** Trimming the whole text first changes nothing. */
  lemma SplitIgnoresEnds(raw: string)
    ensures SplitParentIDs(raw) == Kept(Split(raw, ','))
  {
    hide IsSpace, TrimSpace, Split, AllSpace, Kept;
    var t := TrimSpace(raw);
    var front, back := TrimSpaceIsMiddle(raw);
    var parts := Split(t, ',');
    SplitPiecesAreClean(t, ',');
    EndsPadded(parts, front, back);
    KeptOfNothing();
  }

  lemma KeptOfNothing()
    ensures Kept(Split("", ',')) == []
  {
    assert [""][..0] == [];
  }

  /** White space before and behind a joined list belongs to its first and last piece. */
  lemma EndsPadded(parts: seq<string>, front: string, back: string)
    requires |parts| > 0 && AllSpace(front) && AllSpace(back)
    requires forall i :: 0 <= i < |parts| ==> ',' !in parts[i]
    ensures Kept(Split(front + Join(parts, ',') + back, ',')) == Kept(parts)
  {
    var n := |parts| - 1;
    var longer := parts[0 := front + parts[0]];
    var longest := longer[n := longer[n] + back];
    NoCommaInSpace(front);
    NoCommaInSpace(back);
    JoinWithFront(parts, front);
    JoinWithBack(longer, back);
    hide AllSpace, IsSpace, Split, Join, TrimSpace, Kept;
    SplitJoin(longest, ',');
    forall i | 0 <= i <= n ensures TrimSpace(longest[i]) == TrimSpace(parts[i]) {
      PieceTrimsAlike(parts[i], front, back, longest[i], i == 0, i == n);
    }
    KeptByTrimming(longest, parts);
  }

  lemma PieceTrimsAlike(piece: string, front: string, back: string, longer: string, first: bool, last: bool)
    requires AllSpace(front) && AllSpace(back)
    requires longer == (if first then front + piece else piece) + if last then back else ""
    ensures TrimSpace(longer) == TrimSpace(piece)
  {
    NoSpace();
    hide AllSpace, IsSpace, TrimSpace;
    var left, right := if first then front else "", if last then back else "";
    assert longer == left + piece + right;
    TrimIgnoresPadding(left, piece, right);
  }

  lemma NoCommaInSpace(s: string)
    requires AllSpace(s)
    ensures ',' !in s
  {
    assert !IsSpace(',');
  }

  lemma JoinWithFront(parts: seq<string>, front: string)
    requires |parts| > 0
    ensures Join(parts[0 := front + parts[0]], ',') == front + Join(parts, ',')
  {
    var longer := parts[0 := front + parts[0]];
    assert longer[1..] == parts[1..];
  }

  lemma {:induction false} JoinWithBack(parts: seq<string>, back: string)
    requires |parts| > 0
    ensures var n := |parts| - 1; Join(parts[n := parts[n] + back], ',') == Join(parts, ',') + back
  {
    var n := |parts| - 1;
    var longer := parts[n := parts[n] + back];
    if n > 0 {
      JoinWithBack(parts[1..], back);
      assert longer[1..] == parts[1..][n - 1 := parts[1..][n - 1] + back];
      assert parts[0] + [','] + (Join(parts[1..], ',') + back) == (parts[0] + [','] + Join(parts[1..], ',')) + back;
    }
  }

  lemma {:induction false} KeptByTrimming(a: seq<string>, b: seq<string>)
    requires |a| == |b| && forall i :: 0 <= i < |a| ==> TrimSpace(a[i]) == TrimSpace(b[i])
    ensures Kept(a) == Kept(b)
  {
    hide TrimSpace;
    if a != [] { KeptByTrimming(a[..|a| - 1], b[..|b| - 1]); }
  }

  lemma {:induction false} KeptHolds(parts: seq<string>, p: string)
    ensures p in Kept(parts) <==> p != "" && exists i :: 0 <= i < |parts| && TrimSpace(parts[i]) == p
  {
    hide TrimSpace;
    if parts != [] {
      var n := |parts| - 1;
      KeptHolds(parts[..n], p);
      KeptLast(parts, p);
      hide Kept;
      assert forall i :: 0 <= i < n ==> parts[..n][i] == parts[i];
    }
  }

  lemma KeptLast(parts: seq<string>, p: string)
    requires parts != []
    ensures var n := |parts| - 1;
            p in Kept(parts) <==> p in Kept(parts[..n]) || (p != "" && TrimSpace(parts[n]) == p)
  {
    hide TrimSpace;
  }

  /** And whatever is written, what comes out is a list of clean ids. */
  lemma SplitGivesCleanIDs(raw: string)
    ensures forall p :: p in SplitParentIDs(raw) ==> CleanID(p)
  {
    var parts := Split(TrimSpace(raw), ',');
    SplitPiecesAreClean(TrimSpace(raw), ',');
    KeptAreClean(parts);
  }

  lemma {:induction false} KeptAreClean(parts: seq<string>)
    requires forall i :: 0 <= i < |parts| ==> ',' !in parts[i]
    ensures forall p :: p in Kept(parts) ==> CleanID(p)
  {
    hide IsSpace, AllSpace;
    if parts != [] {
      KeptAreClean(parts[..|parts| - 1]);
      var front, back := TrimSpaceIsMiddle(parts[|parts| - 1]);
    }
  }

  // ---- The parent relation ----

  ghost predicate IsTask(tasks: seq<Task>, id: string) {
    exists i :: 0 <= i < |tasks| && tasks[i].id == id
  }

  /** Some task with this id lists pid among its parents. */
  ghost predicate DependsOn(tasks: seq<Task>, id: string, pid: string) {
    exists i :: 0 <= i < |tasks| && tasks[i].id == id && pid in SplitParentIDs(tasks[i].parentTaskID)
  }

  /** A closed walk along the parent relation. */
  ghost predicate IsCycle(tasks: seq<Task>, c: seq<string>) {
    && |c| >= 2 && c[0] == c[|c| - 1]
    && forall i :: 0 <= i < |c| - 1 ==> DependsOn(tasks, c[i], c[i + 1])
  }

  ghost predicate Acyclic(tasks: seq<Task>) {
    forall c :: !IsCycle(tasks, c)
  }

  /** Every parent named is a task, and no task names itself. */
  ghost predicate ParentsExist(tasks: seq<Task>) {
    forall id, pid :: DependsOn(tasks, id, pid) ==> IsTask(tasks, pid) && pid != id
  }

  ghost predicate WellFormed(tasks: seq<Task>) {
    tasks != [] && ParentsExist(tasks) && Acyclic(tasks)
  }

  ghost predicate UniqueIDs(tasks: seq<Task>) {
    forall i, j :: 0 <= i < |tasks| && 0 <= j < |tasks| && tasks[i].id == tasks[j].id ==> i == j
  }

  // ---- Finding a task in a plan ----

  /** The position of the first task with an id, or -1. */
  function FindTaskIdx(tasks: seq<Task>, id: string): (i: int)
    ensures i == -1 || 0 <= i < |tasks|
    ensures i == -1 ==> forall j :: 0 <= j < |tasks| ==> tasks[j].id != id
    ensures i != -1 ==> tasks[i].id == id
  {
    if tasks == [] then -1
    else if tasks[0].id == id then 0
    else var i := FindTaskIdx(tasks[1..], id); if i == -1 then -1 else i + 1
  }

  /** Position i holds the first task with an id. */
  predicate IsFirst(tasks: seq<Task>, i: nat, id: string) {
    i < |tasks| && tasks[i].id == id && forall j :: 0 <= j < i ==> tasks[j].id != id
  }

  lemma {:induction false} FindsFirst(tasks: seq<Task>, id: string)
    ensures var i := FindTaskIdx(tasks, id); i != -1 ==> IsFirst(tasks, i, id)
    ensures FindTaskIdx(tasks, id) == -1 <==> forall j :: 0 <= j < |tasks| ==> tasks[j].id != id
  {
    if tasks != [] && tasks[0].id != id {
      FindsFirst(tasks[1..], id);
      assert forall j :: 1 <= j < |tasks| ==> tasks[j] == tasks[1..][j - 1];
    }
  }

  method FindIndex(tasks: seq<Task>, id: string) returns (i: int)
    ensures i == FindTaskIdx(tasks, id)
    ensures i != -1 ==> IsFirst(tasks, i, id)
    ensures i == -1 ==> forall j :: 0 <= j < |tasks| ==> tasks[j].id != id
  {
    FindsFirst(tasks, id);
    for k := 0 to |tasks|
      invariant FindTaskIdx(tasks, id) == var r := FindTaskIdx(tasks[k..], id); if r == -1 then -1 else r + k
    {
      if tasks[k].id == id { return k; }
      assert tasks[k..][1..] == tasks[k + 1..];
    }
    return -1;
  }
}
