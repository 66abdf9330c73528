/**
 * The document slot of src/components/forms/FileUpload.tsx: the list of
 * in-flight transfers (`uploading`), the slot-level error (`localError`),
 * and the rules by which file batches, transfer callbacks and dismissals
 * rewrite that list.
 *
 * The transfer callbacks are modelled as events applied one at a time to
 * the list: every listener of the source changes the list by a `map` or a
 * `filter` keyed on a temporary id, so the pure transforms below say, for
 * every element, whether and how it changes. Temporary ids are supplied by
 * the caller; the model does not assume they are unique, and states what
 * follows when they are.
 */
module UploadSlot {
  import opened Options
  import opened FileLimits

  /** One entry of `uploading`: a transfer in flight, or one that failed and awaits dismissal. */
  datatype Task = Task(tempId: string, fileName: string, fileSize: nat, progress: nat, error: Option<string>)

  /** The document reported to the parent through `onUploadComplete`. */
  datatype UploadedDoc = UploadedDoc(id: string, fileName: string, storagePath: string, fileSize: nat, url: Option<string>)

  /**
   * What `JSON.parse(xhr.responseText)` yields, as far as the listeners read it.
   * Malformed stands for text that does not parse and for the JSON literal null:
   * in both the success branch (reading `.path` throws inside the `try`) and the
   * failure branch (`?.error` is undefined) they behave alike.
   */
  datatype Body = Malformed | Json(path: string, url: Option<string>, error: Option<string>)

  /** An upload request the slot issues: the file, posted to `path` under the API root. */
  datatype Request = Request(tempId: string, path: string, file: File)

  const DefaultUploadError: string := "Erreur lors de l'upload"
  const NetworkErrorMessage: string := "Erreur réseau"

  /** `endpointMap[documentType] || 'cv'`: IDENTITY goes to the identity endpoint, every other type to cv. */
  function Endpoint(documentType: string): (e: string)
    ensures e == "identity" <==> documentType == "IDENTITY"
    ensures e == "cv" <==> documentType != "IDENTITY"
  {
    if documentType == "CV" then "cv"
    else if documentType == "IDENTITY" then "identity"
    else "cv"
  }

  /** The path `uploadFile` posts to, below the API root. */
  function UploadPath(documentType: string): (p: string)
    ensures p == "/api/upload/identity" <==> documentType == "IDENTITY"
    ensures p == "/api/upload/cv" <==> documentType != "IDENTITY"
  {
    var p := "/api/upload/" + Endpoint(documentType);
    assert p == "/api/upload/identity" ==> p[12..] == "identity";
    assert p == "/api/upload/cv" ==> p[12..] == "cv";
    p
  }

  /** `handleDelete`: the id handed to `onDeleteComplete`, which happens only when the response is ok. */
  function DeleteOutcome(docId: string, ok: bool): (deleted: Option<string>)
    ensures deleted.Some? <==> ok
    ensures deleted.Some? ==> deleted.value == docId
  {
    if ok then Some(docId) else None
  }

  /** A task counts as failed when `u.error` is truthy: present and not the empty string. */
  function Failed(t: Task): (b: bool)
    ensures b ==> t.error.Some?
    ensures t.error == Some("") ==> !b
  {
    t.error.Some? && t.error.value != ""
  }

  /** `uploading.some((u) => !u.error)`: some transfer has not failed. */
  function IsUploading(tasks: seq<Task>): (b: bool)
    ensures b <==> exists i :: 0 <= i < |tasks| && !Failed(tasks[i])
  {
    if |tasks| == 0 then false
    else if !Failed(tasks[0]) then true
    else
      var b := IsUploading(tasks[1..]);
      assert forall i :: 1 <= i < |tasks| ==> tasks[i] == tasks[1..][i - 1];
      b
  }

  /** The task `uploadFile` appends for a file: progress 0 and no error. */
  function NewTask(tempId: string, file: File): (t: Task)
    ensures t.tempId == tempId && t.fileName == file.name && t.fileSize == file.size
    ensures t.progress == 0 && t.error == None && !Failed(t)
  {
    Task(tempId, file.name, file.size, 0, None)
  }

  /** The tasks for a batch of files, in order, with the ids the caller supplies. */
  function NewTasks(ids: seq<string>, files: seq<File>): (r: seq<Task>)
    requires |ids| >= |files|
    ensures |r| == |files|
    ensures forall i :: 0 <= i < |files| ==> r[i] == NewTask(ids[i], files[i])
  {
    if |files| == 0 then [] else [NewTask(ids[0], files[0])] + NewTasks(ids[1..], files[1..])
  }

  /** The two rewrites a listener applies to the task it belongs to. */
  datatype Patch = SetProgress(percent: nat) | SetFailed(message: string)

  function Patched(t: Task, p: Patch): (r: Task)
    ensures r.tempId == t.tempId && r.fileName == t.fileName && r.fileSize == t.fileSize
    ensures p.SetFailed? ==> r.progress == 0 && r.error == Some(p.message)
    ensures p.SetProgress? ==> r.progress == p.percent && r.error == t.error
  {
    match p
    case SetProgress(n) => t.(progress := n)
    case SetFailed(m) => t.(error := Some(m), progress := 0)
  }

  /** `prev.map((u) => (u.tempId === tempId ? patched : u))`. */
  function PatchTasks(tasks: seq<Task>, tempId: string, p: Patch): (r: seq<Task>)
    ensures |r| == |tasks|
    ensures forall i :: 0 <= i < |tasks| ==>
      r[i] == if tasks[i].tempId == tempId then Patched(tasks[i], p) else tasks[i]
  {
    if |tasks| == 0 then []
    else [if tasks[0].tempId == tempId then Patched(tasks[0], p) else tasks[0]] + PatchTasks(tasks[1..], tempId, p)
  }

  /** `prev.filter((u) => u.tempId !== tempId)`. */
  function DropTasks(tasks: seq<Task>, tempId: string): (r: seq<Task>)
    ensures |r| <= |tasks|
  {
    if |tasks| == 0 then []
    else (if tasks[0].tempId == tempId then [] else [tasks[0]]) + DropTasks(tasks[1..], tempId)
  }

  /** Dismissing an id no task carries leaves the list as it is. */
  lemma {:induction false} DropAbsent(tasks: seq<Task>, tempId: string)
    requires forall i :: 0 <= i < |tasks| ==> tasks[i].tempId != tempId
    ensures DropTasks(tasks, tempId) == tasks
  {
    if |tasks| > 0 {
      var rest := tasks[1..];
      assert forall i :: 0 <= i < |rest| ==> rest[i].tempId != tempId by {
        forall i | 0 <= i < |rest| ensures rest[i].tempId != tempId {
          assert rest[i] == tasks[i + 1];
        }
      }
      DropAbsent(rest, tempId);
      assert tasks[0].tempId != tempId;
      assert tasks == [tasks[0]] + rest;
    }
  }

  /** The filter keeps exactly the tasks whose id differs. */
  lemma {:induction false} DropTasksMembers(tasks: seq<Task>, tempId: string)
    ensures forall t :: t in DropTasks(tasks, tempId) <==> t in tasks && t.tempId != tempId
  {
    if |tasks| > 0 {
      DropTasksMembers(tasks[1..], tempId);
      assert tasks == [tasks[0]] + tasks[1..];
    }
  }

  /** The tasks carrying id `x`, in order: what an event for another id must leave alone. */
  function WithId(tasks: seq<Task>, x: string): seq<Task> {
    if |tasks| == 0 then []
    else (if tasks[0].tempId == x then [tasks[0]] else []) + WithId(tasks[1..], x)
  }

  /** A transfer callback or a dismissal, addressed to one temporary id. */
  datatype Event =
    | Progress(tempId: string, lengthComputable: bool, percent: nat)
    | Load(tempId: string, status: int, body: Body)
    | NetworkError(tempId: string)
    | Dismiss(tempId: string)

  predicate Succeeded(status: int) {
    status == 200 || status == 201
  }

  /** `JSON.parse(xhr.responseText)?.error || errMsg`: the server's message if it gives a non-empty one. */
  function FailureMessage(body: Body): (m: string)
    ensures m != ""
    ensures m == DefaultUploadError || (body.Json? && body.error == Some(m))
    ensures body.Json? && body.error.Some? && body.error.value != "" ==> m == body.error.value
  {
    if body.Json? && body.error.Some? && body.error.value != "" then body.error.value else DefaultUploadError
  }

  /** The document the load listener reports on success: only when the body parses. */
  function Report(tempId: string, file: File, body: Body): (d: Option<UploadedDoc>)
    ensures d.Some? <==> body.Json?
    ensures d.Some? ==> d.value.id == tempId && d.value.fileName == file.name && d.value.fileSize == file.size
    ensures d.Some? ==> d.value.storagePath == body.path && d.value.url == body.url
  {
    match body
    case Malformed => None
    case Json(path, url, _) => Some(UploadedDoc(tempId, file.name, path, file.size, url))
  }

  /** How one event rewrites the list. */
  function Step(tasks: seq<Task>, e: Event): (r: seq<Task>)
    ensures |r| <= |tasks|
    ensures e.Progress? || e.NetworkError? || (e.Load? && !Succeeded(e.status)) ==> |r| == |tasks|
  {
    match e
    case Progress(id, computable, n) =>
      if computable then PatchTasks(tasks, id, SetProgress(n)) else tasks
    case Load(id, status, body) =>
      if Succeeded(status) then DropTasks(tasks, id) else PatchTasks(tasks, id, SetFailed(FailureMessage(body)))
    case NetworkError(id) => PatchTasks(tasks, id, SetFailed(NetworkErrorMessage))
    case Dismiss(id) => DropTasks(tasks, id)
  }

  /** The list after a sequence of events, applied in order. */
  function Run(tasks: seq<Task>, events: seq<Event>): (r: seq<Task>)
    ensures |r| <= |tasks|
    decreases |events|
  {
    if |events| == 0 then tasks else Run(Step(tasks, events[0]), events[1..])
  }

  // ── Invariants of the list ──────────────────────────────────────────

  predicate DistinctIds(tasks: seq<Task>) {
    forall i, j :: 0 <= i < j < |tasks| ==> tasks[i].tempId != tasks[j].tempId
  }

  /** No task carries an error that is the empty string, so `Failed` is exactly "has an error". */
  predicate NoEmptyErrors(tasks: seq<Task>) {
    forall i :: 0 <= i < |tasks| && tasks[i].error.Some? ==> tasks[i].error.value != ""
  }

  predicate WellFormed(tasks: seq<Task>) {
    DistinctIds(tasks) && NoEmptyErrors(tasks)
  }

  /** Ids that are pairwise distinct and unused by the current list. */
  predicate FreshIds(ids: seq<string>, tasks: seq<Task>) {
    && (forall i, j :: 0 <= i < j < |ids| ==> ids[i] != ids[j])
    && (forall i, k :: 0 <= i < |ids| && 0 <= k < |tasks| ==> ids[i] != tasks[k].tempId)
  }

  predicate SameFile(a: Task, b: Task) {
    a.tempId == b.tempId && a.fileName == b.fileName && a.fileSize == b.fileSize
  }

  /** Some task of `tasks` is the transfer of the same file under the same id as `t`. */
  predicate Tracked(tasks: seq<Task>, t: Task) {
    exists j :: 0 <= j < |tasks| && SameFile(t, tasks[j])
  }

  /** Every task of `after` is a task of `before`, possibly with new progress or error. */
  predicate NoInventedTasks(after: seq<Task>, before: seq<Task>) {
    forall i :: 0 <= i < |after| ==> Tracked(before, after[i])
  }

  // ── Properties of the transforms ────────────────────────────────────

  lemma {:induction false} DropTasksAppend(a: seq<Task>, b: seq<Task>, id: string)
    ensures DropTasks(a + b, id) == DropTasks(a, id) + DropTasks(b, id)
  {
    if |a| > 0 {
      var head := if a[0].tempId == id then [] else [a[0]];
      assert (a + b)[0] == a[0] && (a + b)[1..] == a[1..] + b;
      assert DropTasks(a + b, id) == head + DropTasks(a[1..] + b, id);
      DropTasksAppend(a[1..], b, id);
    } else {
      assert a + b == b;
    }
  }

  /** Dismissing the id of a task no other task carries removes exactly that task. */
  lemma DropSingle(before: seq<Task>, t: Task, after: seq<Task>)
    requires forall i :: 0 <= i < |before| ==> before[i].tempId != t.tempId
    requires forall i :: 0 <= i < |after| ==> after[i].tempId != t.tempId
    ensures DropTasks(before + ([t] + after), t.tempId) == before + after
  {
    var id := t.tempId;
    assert DropTasks([t] + after, id) == after by {
      DropTasksAppend([t], after, id);
      DropAbsent(after, id);
      assert DropTasks([t], id) == [];
      assert [] + after == after;
    }
    DropTasksAppend(before, [t] + after, id);
    DropAbsent(before, id);
  }

  /** With distinct ids, dismissing a task removes exactly that one position and keeps the rest in order. */
  lemma DropUnique(tasks: seq<Task>, k: nat)
    requires DistinctIds(tasks) && k < |tasks|
    ensures DropTasks(tasks, tasks[k].tempId) == tasks[..k] + tasks[k + 1..]
  {
    forall i | 0 <= i < |tasks| && i != k ensures tasks[i].tempId != tasks[k].tempId {
      if i < k {
        assert tasks[i].tempId != tasks[k].tempId;
      } else {
        assert tasks[k].tempId != tasks[i].tempId;
      }
    }
    DropAt(tasks, k);
  }

  /** Dismissing an id that only position `k` carries removes exactly position `k`. */
  lemma {:induction false} DropAt(tasks: seq<Task>, k: nat)
    requires k < |tasks|
    requires forall i :: 0 <= i < |tasks| && i != k ==> tasks[i].tempId != tasks[k].tempId
    ensures DropTasks(tasks, tasks[k].tempId) == tasks[..k] + tasks[k + 1..]
  {
    var id, rest := tasks[k].tempId, tasks[1..];
    assert forall i :: 0 <= i < |rest| && i + 1 != k ==> rest[i].tempId != id by {
      forall i | 0 <= i < |rest| && i + 1 != k ensures rest[i].tempId != id {
        assert rest[i] == tasks[i + 1];
      }
    }
    if k == 0 {
      DropAbsent(rest, id);
      assert tasks[..0] + tasks[1..] == rest;
    } else {
      assert rest[k - 1] == tasks[k];
      DropAt(rest, k - 1);
      assert tasks[0].tempId != id;
      assert tasks[..k] + tasks[k + 1..] == [tasks[0]] + (rest[..k - 1] + rest[k..]);
    }
  }

  lemma {:induction false} DropPreservesDistinct(tasks: seq<Task>, id: string)
    requires DistinctIds(tasks)
    ensures DistinctIds(DropTasks(tasks, id))
  {
    if |tasks| > 0 {
      var tail := DropTasks(tasks[1..], id);
      DropPreservesDistinct(tasks[1..], id);
      DropTasksMembers(tasks[1..], id);
      if tasks[0].tempId != id {
        forall j | 0 <= j < |tail|
          ensures tasks[0].tempId != tail[j].tempId
        {
          assert tail[j] in tasks[1..];
        }
        assert DropTasks(tasks, id) == [tasks[0]] + tail;
      } else {
        assert DropTasks(tasks, id) == tail;
      }
    }
  }

  lemma {:induction false} WithIdAppend(a: seq<Task>, b: seq<Task>, x: string)
    ensures WithId(a + b, x) == WithId(a, x) + WithId(b, x)
  {
    if |a| > 0 {
      assert (a + b)[1..] == a[1..] + b;
      WithIdAppend(a[1..], b, x);
    } else {
      assert a + b == b;
    }
  }

  lemma {:induction false} PatchKeepsOthers(tasks: seq<Task>, id: string, p: Patch, x: string)
    requires id != x
    ensures WithId(PatchTasks(tasks, id, p), x) == WithId(tasks, x)
  {
    if |tasks| > 0 {
      var r := PatchTasks(tasks, id, p);
      assert r == [r[0]] + r[1..];
      assert r[1..] == PatchTasks(tasks[1..], id, p);
      PatchKeepsOthers(tasks[1..], id, p, x);
    }
  }

  lemma {:induction false} DropKeepsOthers(tasks: seq<Task>, id: string, x: string)
    requires id != x
    ensures WithId(DropTasks(tasks, id), x) == WithId(tasks, x)
  {
    if |tasks| > 0 {
      var head := if tasks[0].tempId == id then [] else [tasks[0]];
      WithIdAppend(head, DropTasks(tasks[1..], id), x);
      DropKeepsOthers(tasks[1..], id, x);
      if head != [] {
        assert WithId(head, x) == (if tasks[0].tempId == x then [tasks[0]] else []) + WithId([], x);
      }
    }
  }

  /** An event addressed to another id leaves the tasks with id `x` exactly as they were. */
  lemma StepKeepsOthers(tasks: seq<Task>, e: Event, x: string)
    requires e.tempId != x
    ensures WithId(Step(tasks, e), x) == WithId(tasks, x)
  {
    match e
    case Progress(id, computable, n) =>
      if computable { PatchKeepsOthers(tasks, id, SetProgress(n), x); }
    case Load(id, status, body) =>
      if Succeeded(status) { DropKeepsOthers(tasks, id, x); }
      else { PatchKeepsOthers(tasks, id, SetFailed(FailureMessage(body)), x); }
    case NetworkError(id) => PatchKeepsOthers(tasks, id, SetFailed(NetworkErrorMessage), x);
    case Dismiss(id) => DropKeepsOthers(tasks, id, x);
  }

  /** Transfers are independent: however the other transfers' events interleave, they never touch task `x`. */
  lemma {:induction false} RunKeepsOthers(tasks: seq<Task>, events: seq<Event>, x: string)
    requires forall i :: 0 <= i < |events| ==> events[i].tempId != x
    ensures WithId(Run(tasks, events), x) == WithId(tasks, x)
    decreases |events|
  {
    if |events| > 0 {
      StepKeepsOthers(tasks, events[0], x);
      RunKeepsOthers(Step(tasks, events[0]), events[1..], x);
    }
  }

  lemma PatchPatchCommute(tasks: seq<Task>, a: string, p: Patch, b: string, q: Patch)
    requires a != b
    ensures PatchTasks(PatchTasks(tasks, a, p), b, q) == PatchTasks(PatchTasks(tasks, b, q), a, p)
  {
  }

  lemma {:induction false} PatchTasksAppend(a: seq<Task>, b: seq<Task>, id: string, p: Patch)
    ensures PatchTasks(a + b, id, p) == PatchTasks(a, id, p) + PatchTasks(b, id, p)
  {
    if |a| > 0 {
      assert (a + b)[1..] == a[1..] + b;
      PatchTasksAppend(a[1..], b, id, p);
    }
  }

  lemma {:induction false} PatchDropCommute(tasks: seq<Task>, a: string, p: Patch, b: string)
    requires a != b
    ensures DropTasks(PatchTasks(tasks, a, p), b) == PatchTasks(DropTasks(tasks, b), a, p)
  {
    if |tasks| > 0 {
      var t := tasks[0];
      var pt := if t.tempId == a then Patched(t, p) else t;
      var head := if t.tempId == b then [] else [t];
      assert PatchTasks(tasks, a, p) == [pt] + PatchTasks(tasks[1..], a, p);
      DropTasksAppend([pt], PatchTasks(tasks[1..], a, p), b);
      PatchDropCommute(tasks[1..], a, p, b);
      PatchTasksAppend(head, DropTasks(tasks[1..], b), a, p);
      assert DropTasks([pt], b) == PatchTasks(head, a, p);
    }
  }

  lemma {:induction false} DropDropCommute(tasks: seq<Task>, a: string, b: string)
    ensures DropTasks(DropTasks(tasks, a), b) == DropTasks(DropTasks(tasks, b), a)
  {
    if |tasks| > 0 {
      var ha := if tasks[0].tempId == a then [] else [tasks[0]];
      var hb := if tasks[0].tempId == b then [] else [tasks[0]];
      DropTasksAppend(ha, DropTasks(tasks[1..], a), b);
      DropTasksAppend(hb, DropTasks(tasks[1..], b), a);
      DropDropCommute(tasks[1..], a, b);
      assert DropTasks(ha, b) == DropTasks(hb, a);
    }
  }

  /** Events for two different transfers commute: their relative order does not matter. */
  lemma StepCommute(tasks: seq<Task>, e1: Event, e2: Event)
    requires e1.tempId != e2.tempId
    ensures Step(Step(tasks, e1), e2) == Step(Step(tasks, e2), e1)
  {
    var a, b := e1.tempId, e2.tempId;
    match (e1, e2) {
      case (Progress(_, c1, n1), Progress(_, c2, n2)) =>
        if c1 && c2 { PatchPatchCommute(tasks, a, SetProgress(n1), b, SetProgress(n2)); }
      case (Progress(_, c1, n1), Load(_, s2, body2)) =>
        if c1 {
          if Succeeded(s2) { PatchDropCommute(tasks, a, SetProgress(n1), b); }
          else { PatchPatchCommute(tasks, a, SetProgress(n1), b, SetFailed(FailureMessage(body2))); }
        }
      case (Progress(_, c1, n1), NetworkError(_)) =>
        if c1 { PatchPatchCommute(tasks, a, SetProgress(n1), b, SetFailed(NetworkErrorMessage)); }
      case (Progress(_, c1, n1), Dismiss(_)) =>
        if c1 { PatchDropCommute(tasks, a, SetProgress(n1), b); }
      case (Load(_, s1, body1), _) =>
        var p1 := SetFailed(FailureMessage(body1));
        match e2 {
          case Progress(_, c2, n2) =>
            if c2 {
              if Succeeded(s1) { PatchDropCommute(tasks, b, SetProgress(n2), a); }
              else { PatchPatchCommute(tasks, a, p1, b, SetProgress(n2)); }
            }
          case Load(_, s2, body2) =>
            var p2 := SetFailed(FailureMessage(body2));
            if Succeeded(s1) && Succeeded(s2) { DropDropCommute(tasks, a, b); }
            else if Succeeded(s1) { PatchDropCommute(tasks, b, p2, a); }
            else if Succeeded(s2) { PatchDropCommute(tasks, a, p1, b); }
            else { PatchPatchCommute(tasks, a, p1, b, p2); }
          case NetworkError(_) =>
            var p2 := SetFailed(NetworkErrorMessage);
            if Succeeded(s1) { PatchDropCommute(tasks, b, p2, a); }
            else { PatchPatchCommute(tasks, a, p1, b, p2); }
          case Dismiss(_) =>
            if Succeeded(s1) { DropDropCommute(tasks, a, b); }
            else { PatchDropCommute(tasks, a, p1, b); }
        }
      case (NetworkError(_), _) =>
        var p1 := SetFailed(NetworkErrorMessage);
        match e2 {
          case Progress(_, c2, n2) =>
            if c2 { PatchPatchCommute(tasks, a, p1, b, SetProgress(n2)); }
          case Load(_, s2, body2) =>
            if Succeeded(s2) { PatchDropCommute(tasks, a, p1, b); }
            else { PatchPatchCommute(tasks, a, p1, b, SetFailed(FailureMessage(body2))); }
          case NetworkError(_) => PatchPatchCommute(tasks, a, p1, b, p1);
          case Dismiss(_) => PatchDropCommute(tasks, a, p1, b);
        }
      case (Dismiss(_), _) =>
        match e2 {
          case Progress(_, c2, n2) =>
            if c2 { PatchDropCommute(tasks, b, SetProgress(n2), a); }
          case Load(_, s2, body2) =>
            if Succeeded(s2) { DropDropCommute(tasks, a, b); }
            else { PatchDropCommute(tasks, b, SetFailed(FailureMessage(body2)), a); }
          case NetworkError(_) => PatchDropCommute(tasks, b, SetFailed(NetworkErrorMessage), a);
          case Dismiss(_) => DropDropCommute(tasks, a, b);
        }
    }
  }

  /** Events rewrite progress and errors but never invent a task or rename one. */
  lemma PatchNoInvented(tasks: seq<Task>, id: string, p: Patch)
    ensures NoInventedTasks(PatchTasks(tasks, id, p), tasks)
  {
    var r := PatchTasks(tasks, id, p);
    forall i | 0 <= i < |r|
      ensures Tracked(tasks, r[i])
    {
      assert SameFile(r[i], tasks[i]);
    }
  }

  lemma DropNoInvented(tasks: seq<Task>, id: string)
    ensures NoInventedTasks(DropTasks(tasks, id), tasks)
  {
    var r := DropTasks(tasks, id);
    DropTasksMembers(tasks, id);
    forall i | 0 <= i < |r|
      ensures Tracked(tasks, r[i])
    {
      assert r[i] in tasks;
      var j :| 0 <= j < |tasks| && tasks[j] == r[i];
      assert SameFile(r[i], tasks[j]);
    }
  }

  /** Events rewrite progress and errors but never invent a task or rename one. */
  lemma StepNoInvented(tasks: seq<Task>, e: Event)
    ensures NoInventedTasks(Step(tasks, e), tasks)
  {
    match e
    case Progress(id, computable, n) =>
      if computable { PatchNoInvented(tasks, id, SetProgress(n)); }
      else { NoInventedRefl(tasks); }
    case Load(id, status, body) =>
      if Succeeded(status) { DropNoInvented(tasks, id); }
      else { PatchNoInvented(tasks, id, SetFailed(FailureMessage(body))); }
    case NetworkError(id) => PatchNoInvented(tasks, id, SetFailed(NetworkErrorMessage));
    case Dismiss(id) => DropNoInvented(tasks, id);
  }

  lemma NoInventedRefl(tasks: seq<Task>)
    ensures NoInventedTasks(tasks, tasks)
  {
    forall i | 0 <= i < |tasks|
      ensures Tracked(tasks, tasks[i])
    {
      assert SameFile(tasks[i], tasks[i]);
    }
  }

  lemma {:induction false} RunNoInvented(tasks: seq<Task>, events: seq<Event>)
    ensures NoInventedTasks(Run(tasks, events), tasks)
    decreases |events|
  {
    if |events| > 0 {
      var mid := Step(tasks, events[0]);
      StepNoInvented(tasks, events[0]);
      RunNoInvented(mid, events[1..]);
      var r := Run(tasks, events);
      forall i | 0 <= i < |r|
        ensures Tracked(tasks, r[i])
      {
        var m :| 0 <= m < |mid| && SameFile(r[i], mid[m]);
        assert Tracked(tasks, mid[m]);
        var j :| 0 <= j < |tasks| && SameFile(mid[m], tasks[j]);
        assert SameFile(r[i], tasks[j]);
      }
    }
  }

  lemma DropWellFormed(tasks: seq<Task>, id: string)
    requires WellFormed(tasks)
    ensures WellFormed(DropTasks(tasks, id))
  {
    DropPreservesDistinct(tasks, id);
    DropTasksMembers(tasks, id);
    var r := DropTasks(tasks, id);
    forall i | 0 <= i < |r| && r[i].error.Some?
      ensures r[i].error.value != ""
    {
      assert r[i] in tasks;
    }
  }

  lemma PatchWellFormed(tasks: seq<Task>, id: string, p: Patch)
    requires WellFormed(tasks)
    requires p.SetFailed? ==> p.message != ""
    ensures WellFormed(PatchTasks(tasks, id, p))
  {
    var r := PatchTasks(tasks, id, p);
    assert forall i :: 0 <= i < |r| ==> r[i].tempId == tasks[i].tempId;
  }

  lemma StepWellFormed(tasks: seq<Task>, e: Event)
    requires WellFormed(tasks)
    ensures WellFormed(Step(tasks, e))
  {
    match e
    case Progress(id, _, n) => PatchWellFormed(tasks, id, SetProgress(n));
    case Load(id, status, body) =>
      DropWellFormed(tasks, id);
      PatchWellFormed(tasks, id, SetFailed(FailureMessage(body)));
    case NetworkError(id) => PatchWellFormed(tasks, id, SetFailed(NetworkErrorMessage));
    case Dismiss(id) => DropWellFormed(tasks, id);
  }

  /** Any sequence of callbacks and dismissals keeps ids distinct and errors non-empty. */
  lemma {:induction false} RunWellFormed(tasks: seq<Task>, events: seq<Event>)
    requires WellFormed(tasks)
    ensures WellFormed(Run(tasks, events))
    decreases |events|
  {
    if |events| > 0 {
      StepWellFormed(tasks, events[0]);
      RunWellFormed(Step(tasks, events[0]), events[1..]);
    }
  }

  /** Appending the tasks of a batch under fresh ids keeps the list well formed. */
  lemma AppendWellFormed(tasks: seq<Task>, ids: seq<string>, files: seq<File>)
    requires WellFormed(tasks) && FreshIds(ids, tasks) && |ids| >= |files|
    ensures WellFormed(tasks + NewTasks(ids, files))
  {
    var r := tasks + NewTasks(ids, files);
    forall i, j | 0 <= i < j < |r|
      ensures r[i].tempId != r[j].tempId
    {
      if j >= |tasks| && i >= |tasks| {
        assert r[i].tempId == ids[i - |tasks|];
      } else if j >= |tasks| {
        assert r[j].tempId == ids[j - |tasks|];
      }
    }
  }

  /** In a well formed list the slot is busy exactly when some task has no error. */
  lemma IsUploadingWellFormed(tasks: seq<Task>)
    requires NoEmptyErrors(tasks)
    ensures IsUploading(tasks) <==> exists i :: 0 <= i < |tasks| && tasks[i].error.None?
  {
  }

  /** Admitting a non-empty batch makes the slot busy. */
  lemma AdmittedBatchIsUploading(tasks: seq<Task>, ids: seq<string>, files: seq<File>)
    requires |ids| >= |files| > 0
    ensures IsUploading(tasks + NewTasks(ids, files))
  {
    assert !Failed((tasks + NewTasks(ids, files))[|tasks|]);
  }

  /** A successful load removes every task with that id, whether or not the body parses. */
  lemma SuccessRemoves(tasks: seq<Task>, id: string, status: int, body: Body)
    requires Succeeded(status)
    ensures forall t :: t in Step(tasks, Load(id, status, body)) ==> t.tempId != id
  {
    DropTasksMembers(tasks, id);
  }

  /**
   * The document a load reports describes the entry its request created:
   * when `uploadFile` appended `NewTask(request.tempId, request.file)` under
   * an id no other entry carries, every entry with that id after any events
   * is that transfer, with the file's name and size, and a parsed body
   * reports exactly that entry.
   */
  lemma ReportMatchesEntry(tasks: seq<Task>, request: Request, events: seq<Event>, i: nat, body: Body)
    requires DistinctIds(tasks + [NewTask(request.tempId, request.file)])
    requires i < |Run(tasks + [NewTask(request.tempId, request.file)], events)|
    requires Run(tasks + [NewTask(request.tempId, request.file)], events)[i].tempId == request.tempId
    ensures SameFile(Run(tasks + [NewTask(request.tempId, request.file)], events)[i], NewTask(request.tempId, request.file))
    ensures body.Json? ==>
      var e := Run(tasks + [NewTask(request.tempId, request.file)], events)[i];
      Report(request.tempId, request.file, body) == Some(UploadedDoc(e.tempId, e.fileName, body.path, e.fileSize, body.url))
  {
    var t := NewTask(request.tempId, request.file);
    var start := tasks + [t];
    var after := Run(start, events);
    RunNoInvented(start, events);
    assert Tracked(start, after[i]);
    assert start[|tasks|] == t;
    TrackedUnique(start, |tasks|, after[i]);
  }

  /** With distinct ids, an entry tracked in `tasks` under the id of position `n` is that entry's transfer. */
  lemma TrackedUnique(tasks: seq<Task>, n: nat, e: Task)
    requires DistinctIds(tasks) && n < |tasks|
    requires e.tempId == tasks[n].tempId && Tracked(tasks, e)
    ensures SameFile(e, tasks[n])
  {
    var j :| 0 <= j < |tasks| && SameFile(e, tasks[j]);
    assert tasks[j].tempId == tasks[n].tempId;
    assert j == n;
  }

  /** A failed load or a network error keeps the list's shape and marks the matching tasks failed at 0. */
  lemma FailureMarks(tasks: seq<Task>, e: Event, i: nat)
    requires (e.Load? && !Succeeded(e.status)) || e.NetworkError?
    requires i < |tasks| && tasks[i].tempId == e.tempId
    ensures |Step(tasks, e)| == |tasks|
    ensures Failed(Step(tasks, e)[i]) && Step(tasks, e)[i].progress == 0
    ensures e.NetworkError? ==> Step(tasks, e)[i].error == Some(NetworkErrorMessage)
  {
  }

  // ── The component's state ───────────────────────────────────────────

  /** One mounted slot: its props and the two state cells the listeners update. */
  class Slot {
    const documentType: string
    const multiple: bool
    const maxSizeMB: nat
    var uploading: seq<Task>
    var localError: Option<string>

    constructor (documentType: string, multiple: bool, maxSizeMB: nat)
      ensures this.documentType == documentType && this.multiple == multiple && this.maxSizeMB == maxSizeMB
      ensures uploading == [] && localError == None
    {
      this.documentType := documentType;
      this.multiple := multiple;
      this.maxSizeMB := maxSizeMB;
      uploading := [];
      localError := None;
    }

    /** `uploadFile`: append the task and issue the request to the slot's endpoint. */
    method UploadFile(file: File, tempId: string) returns (request: Request)
      modifies this
      ensures uploading == old(uploading) + [NewTask(tempId, file)]
      ensures localError == old(localError)
      ensures request == Request(tempId, UploadPath(documentType), file)
    {
      uploading := uploading + [NewTask(tempId, file)];
      request := Request(tempId, UploadPath(documentType), file);
    }

    /**
     * `processFiles`: a null list changes nothing; otherwise the error is cleared, a
     * single oversized file rejects the whole batch, and an admitted batch starts one
     * transfer per kept file. `ids` supplies the temporary id of each transfer.
     */
    method ProcessFiles(incoming: Option<seq<File>>, ids: seq<string>) returns (requests: seq<Request>)
      requires incoming.Some? ==> |ids| >= |Admit(incoming.value, multiple)|
      modifies this
      ensures incoming.None? ==> uploading == old(uploading) && localError == old(localError) && requests == []
      ensures incoming.Some? && FirstOversize(incoming.value, MaxBytes(maxSizeMB)).Some? ==>
        && uploading == old(uploading) && requests == []
        && localError == Some(OversizeMessage(incoming.value[FirstOversize(incoming.value, MaxBytes(maxSizeMB)).value].name, maxSizeMB))
      ensures incoming.Some? && FirstOversize(incoming.value, MaxBytes(maxSizeMB)).None? ==>
        var admitted := Admit(incoming.value, multiple);
        && localError == None
        && uploading == old(uploading) + NewTasks(ids, admitted)
        && |requests| == |admitted|
        && (forall i :: 0 <= i < |admitted| ==> requests[i] == Request(ids[i], UploadPath(documentType), admitted[i]))
    {
      requests := [];
      if incoming.None? {
        return;
      }
      var files := incoming.value;
      localError := None;
      var maxBytes := MaxBytes(maxSizeMB);
      var i := 0;
      while i < |files|
        invariant 0 <= i <= |files|
        invariant AllWithin(files[..i], maxBytes)
        invariant uploading == old(uploading) && localError == None
      {
        if files[i].size > maxBytes {
          FirstOversizeAt(files, maxBytes, i);
          localError := Some(OversizeMessage(files[i].name, maxSizeMB));
          return;
        }
        i := i + 1;
      }
      assert files[..i] == files;
      requests := UploadAll(Admit(files, multiple), ids);
    }

    /** The second loop of `processFiles`: one `uploadFile` per kept file, in order. */
    method UploadAll(files: seq<File>, ids: seq<string>) returns (requests: seq<Request>)
      requires |ids| >= |files|
      modifies this
      ensures uploading == old(uploading) + NewTasks(ids, files)
      ensures localError == old(localError)
      ensures |requests| == |files|
      ensures forall i :: 0 <= i < |files| ==> requests[i] == Request(ids[i], UploadPath(documentType), files[i])
    {
      requests := [];
      var j := 0;
      while j < |files|
        invariant 0 <= j <= |files|
        invariant |uploading| == |old(uploading)| + j && uploading[..|old(uploading)|] == old(uploading)
        invariant forall k :: 0 <= k < j ==> uploading[|old(uploading)| + k] == NewTask(ids[k], files[k])
        invariant localError == old(localError)
        invariant |requests| == j
        invariant forall k :: 0 <= k < j ==> requests[k] == Request(ids[k], UploadPath(documentType), files[k])
      {
        var request := UploadFile(files[j], ids[j]);
        requests := requests + [request];
        j := j + 1;
      }
      assert uploading == old(uploading) + NewTasks(ids, files);
    }

    /** The upload `progress` listener; an event whose length is not computable is ignored. */
    method OnProgress(tempId: string, lengthComputable: bool, percent: nat)
      modifies this
      ensures uploading == Step(old(uploading), Progress(tempId, lengthComputable, percent))
      ensures localError == old(localError)
    {
      if lengthComputable {
        uploading := PatchTasks(uploading, tempId, SetProgress(percent));
      }
    }

    /**
     * The `load` listener of the transfer `request` started: 200 or 201 removes
     * its task and reports the document if the body parses. The listener's
     * temporary id and file are the ones `uploadFile` closed over.
     */
    method OnLoad(request: Request, status: int, body: Body) returns (reported: Option<UploadedDoc>)
      modifies this
      ensures uploading == Step(old(uploading), Load(request.tempId, status, body))
      ensures localError == old(localError)
      ensures reported == if Succeeded(status) then Report(request.tempId, request.file, body) else None
    {
      var tempId := request.tempId;
      if status == 200 || status == 201 {
        reported := Report(tempId, request.file, body);
        uploading := DropTasks(uploading, tempId);
      } else {
        reported := None;
        uploading := PatchTasks(uploading, tempId, SetFailed(FailureMessage(body)));
      }
    }

    /** The `error` listener: the task stays, failed with the network message. */
    method OnNetworkError(tempId: string)
      modifies this
      ensures uploading == Step(old(uploading), NetworkError(tempId))
      ensures localError == old(localError)
    {
      uploading := PatchTasks(uploading, tempId, SetFailed(NetworkErrorMessage));
    }

    /** `removeUploadingError`: drop the tasks with this id. */
    method RemoveUploadingError(tempId: string)
      modifies this
      ensures uploading == Step(old(uploading), Dismiss(tempId))
      ensures localError == old(localError)
    {
      uploading := DropTasks(uploading, tempId);
    }
  }
}
