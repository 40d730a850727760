/** Task configuration (internal/conf/task.go, internal/conf/config.go): validation, the
    task-editing state machine, and what directory disjointness means for the path index. */
module Config {
  import opened Bytes
  import opened Index

  datatype Task = Task(
    id: string, name: string, enabled: bool, localDir: string, cloudDir: string,
    upload: bool, watch: bool, quietMinutes: int, instantNow: bool, toStrm: bool, toCache: bool,
    download: bool, archive: bool, toStrmDl: bool, cronEnabled: bool, cronHours: int)

  // ---- paths ----

  /** The pieces between slashes. */
  function Split(p: string): (r: seq<string>)
    ensures forall i :: 0 <= i < |r| ==> '/' !in r[i]
    decreases |p|
  {
    var i := IndexByte(p, '/');
    if i < 0 then [p] else [p[..i]] + Split(p[i + 1..])
  }

  /** Empty and "." pieces vanish, ".." drops the piece before it. */
  function Resolve(pieces: seq<string>, done: seq<string>): (r: seq<string>)
    requires forall i :: 0 <= i < |pieces| ==> '/' !in pieces[i]
    requires forall i :: 0 <= i < |done| ==> done[i] != "" && '/' !in done[i]
    ensures forall i :: 0 <= i < |r| ==> r[i] != "" && '/' !in r[i]
  {
    if pieces == [] then done
    else
      Resolve(pieces[1..],
        if pieces[0] == "" || pieces[0] == "." then done
        else if pieces[0] == ".." then (if done == [] then [] else done[..|done| - 1])
        else done + [pieces[0]])
  }

  function Join(pieces: seq<string>): (r: string)
    requires forall i :: 0 <= i < |pieces| ==> pieces[i] != "" && '/' !in pieces[i]
    ensures pieces != [] ==> |r| > 1 && r[0] == '/' && r[1] != '/' && r[|r| - 1] != '/'
  {
    if pieces == [] then ""
    else
      var last := pieces[|pieces| - 1];
      assert last[|last| - 1] in last && last[0] in last;
      Join(pieces[..|pieces| - 1]) + "/" + last
  }

  /** Absolute, and without a trailing slash unless it is the root. */
  predicate IsTrimmed(p: string) {
    p == "/" || (|p| > 1 && p[0] == '/' && p[|p| - 1] != '/')
  }

  /** `filepath.Clean` on an absolute Unix path. */
  function Clean(p: string): (r: string)
    ensures IsTrimmed(r) && !("//" <= r)
  {
    var pieces := Resolve(Split(p), []);
    if pieces == [] then "/" else Join(pieces)
  }

  /** `CleanCloudPath`. */
  function CleanCloudPath(p: string): (r: string)
    ensures p != "" && p[0] == '/' ==> IsTrimmed(r)
  {
    TrimSlashesMeaning(p, TrimSlashes(p));
    var t := TrimSlashes(p);
    if t == "" then "/" else t
  }

  // ---- overlap ----

  /** `overlapClean`. */
  predicate Overlaps(a: string, b: string) {
    a == b || b + "/" <= a || a + "/" <= b
  }

  /** `p` is the directory `root` or lies below it. */
  predicate Under(root: string, p: string) {
    p == root || DirPrefix(root) <= p
  }

  ghost predicate ShareAPath(a: string, b: string) {
    exists p :: Under(a, p) && Under(b, p)
  }

  lemma OverlapShares(a: string, b: string)
    requires IsTrimmed(a) && IsTrimmed(b)
    requires Overlaps(a, b) || a == "/" || b == "/"
    ensures ShareAPath(a, b)
  {
    if a == b { assert Under(a, a) && Under(b, a); }
    else if b == "/" || b + "/" <= a { assert Under(a, a) && Under(b, a); }
    else { assert Under(a, b) && Under(b, b); }
  }

  /** The overlap test is exact except for the root: two directories share a path if and only
      if the test says so, unless exactly one of them is "/" (and neither begins with "//",
      which only an uncleaned cloud path can). */
  lemma OverlapIsExact(a: string, b: string)
    requires IsTrimmed(a) && IsTrimmed(b)
    ensures (Overlaps(a, b) <==> ShareAPath(a, b))
      <==> ((a == "/") == (b == "/") || "//" <= a || "//" <= b)
  {
    if a != "/" && b != "/" {
      if Overlaps(a, b) { OverlapShares(a, b); }
    } else {
      OverlapShares(a, b);
      if a != b { RootOverlaps(if a == "/" then b else a); }
    }
  }

  lemma RootOverlaps(d: string)
    requires IsTrimmed(d) && d != "/"
    ensures Overlaps("/", d) <==> "//" <= d
    ensures Overlaps(d, "/") <==> "//" <= d
  {
    assert "/" + "/" == "//";
    assert |d + "/"| > 1;
  }

  // ---- validation ----

  /** `normalize`: an uploading task never archives, any other never watches; negative
      durations become 0. */
  function Normalize(t: Task): Task {
    t.(archive := t.archive && !t.upload,
       watch := t.watch && t.upload,
       instantNow := t.instantNow && t.upload,
       quietMinutes := if t.quietMinutes < 0 then 0 else t.quietMinutes,
       cronHours := if t.cronHours < 0 then 0 else t.cronHours)
  }

  predicate Blank(s: string) {
    forall i :: 0 <= i < |s| ==> s[i] == ' ' || '\t' <= s[i] <= '\r'
  }

  /** `Validate`. */
  predicate Valid(t: Task) {
    && !Blank(t.name)
    && (t.localDir != "" && t.localDir[0] == '/')
    && (t.cloudDir != "" && t.cloudDir[0] == '/')
    && (t.enabled ==> t.upload || t.download || t.archive)
  }

  /** A task is refused for a name of white space only, a relative local directory, a cloud directory
      that does not start at the root, or for being enabled with no direction. */
  lemma ValidExactly(t: Task)
    ensures !Valid(t) <==>
      || (forall c :: c in t.name ==> c in {' ', '\t', '\n', '\U{000B}', '\U{000C}', '\r'})
      || !("/" <= t.localDir) || !("/" <= t.cloudDir)
      || (t.enabled && !t.upload && !t.download && !t.archive)
  {
    if Blank(t.name) {
      forall c | c in t.name ensures c in {' ', '\t', '\n', '\U{000B}', '\U{000C}', '\r'} {
        var i :| 0 <= i < |t.name| && t.name[i] == c;
      }
    } else {
      var i :| 0 <= i < |t.name| && !(t.name[i] == ' ' || '\t' <= t.name[i] <= '\r');
      assert t.name[i] in t.name;
    }
  }

  /** A cloud directory loses the slashes at its end; the root keeps its one. */
  lemma CleanCloudPathExactly(p: string, r: string)
    ensures r == CleanCloudPath(p) <==> if WithoutSlashes(p, "") then r == "/" else WithoutSlashes(p, r)
  {
    TrimSlashesMeaning(p, "");
    TrimSlashesMeaning(p, r);
  }

  predicate LocalClash(a: Task, b: Task) {
    Overlaps(Clean(a.localDir), Clean(b.localDir))
  }

  predicate CloudClash(a: Task, b: Task) {
    Overlaps(CleanCloudPath(a.cloudDir), CleanCloudPath(b.cloudDir))
  }

  /** What the checks reject, by position. */
  datatype Fault = BadTask(i: nat) | SameName(i: nat, j: nat) | LocalOverlap(i: nat, j: nat)
    | CloudOverlap(i: nat, j: nat)

  predicate Faulty(ts: seq<Task>, f: Fault) {
    match f
    case BadTask(i) => i < |ts| && !Valid(ts[i])
    case SameName(i, j) => i < j < |ts| && ts[i].name == ts[j].name
    case LocalOverlap(i, j) => i < j < |ts| && LocalClash(ts[i], ts[j])
    case CloudOverlap(i, j) => i < j < |ts| && CloudClash(ts[i], ts[j])
  }

  /** A validated task set. */
  predicate Sound(ts: seq<Task>) {
    && (forall i :: 0 <= i < |ts| ==> Valid(ts[i]))
    && (forall i, j :: 0 <= i < j < |ts| ==> ts[i].name != ts[j].name)
    && (forall i, j :: 0 <= i < j < |ts| ==> !LocalClash(ts[i], ts[j]))
    && (forall i, j :: 0 <= i < j < |ts| ==> !CloudClash(ts[i], ts[j]))
  }

  predicate Normalized(ts: seq<Task>) {
    forall i :: 0 <= i < |ts| ==> Normalize(ts[i]) == ts[i]
  }

  /** `validateOverlaps`. */
  method ValidateOverlaps(ts: seq<Task>) returns (r: Option<Fault>)
    ensures r.Some? ==> Faulty(ts, r.value) && (r.value.LocalOverlap? || r.value.CloudOverlap?)
    ensures r.None? ==> forall i, j :: 0 <= i < j < |ts| ==> !LocalClash(ts[i], ts[j]) && !CloudClash(ts[i], ts[j])
  {
    hide Overlaps, Clean, CleanCloudPath;
    var locals, clouds := [], [];
    for k := 0 to |ts|
      invariant |locals| == |clouds| == k
      invariant forall m :: 0 <= m < k ==> locals[m] == Clean(ts[m].localDir)
      invariant forall m :: 0 <= m < k ==> clouds[m] == CleanCloudPath(ts[m].cloudDir)
    {
      locals := locals + [Clean(ts[k].localDir)];
      clouds := clouds + [CleanCloudPath(ts[k].cloudDir)];
    }
    var pair := FirstOverlap(locals);
    if pair.Some? { return Some(LocalOverlap(pair.value.0, pair.value.1)); }
    pair := FirstOverlap(clouds);
    if pair.Some? { return Some(CloudOverlap(pair.value.0, pair.value.1)); }
    return None;
  }

  /** The double loop over one list of directories. */
  method FirstOverlap(dirs: seq<string>) returns (r: Option<(nat, nat)>)
    ensures r.Some? ==> r.value.0 < r.value.1 < |dirs| && Overlaps(dirs[r.value.0], dirs[r.value.1])
    ensures r.None? ==> forall i, j :: 0 <= i < j < |dirs| ==> !Overlaps(dirs[i], dirs[j])
  {
    hide Overlaps;
    for i := 0 to |dirs|
      invariant forall x, y :: 0 <= x < i && x < y < |dirs| ==> !Overlaps(dirs[x], dirs[y])
    {
      for j := i + 1 to |dirs|
        invariant forall y :: i < y < j ==> !Overlaps(dirs[i], dirs[y])
      {
        if Overlaps(dirs[i], dirs[j]) { return Some((i, j)); }
      }
    }
    return None;
  }

  /** `validateTasks`: accepts exactly the sound sets, and otherwise names a real fault. */
  method ValidateTasks(ts: seq<Task>) returns (r: Option<Fault>)
    ensures r.None? <==> Sound(ts)
    ensures r.Some? ==> Faulty(ts, r.value)
  {
    hide Valid, LocalClash, CloudClash;
    var seen: map<string, nat> := map[];
    for i := 0 to |ts|
      invariant forall k :: 0 <= k < i ==> Valid(ts[k]) && ts[k].name in seen
      invariant forall x :: x in seen ==> seen[x] < i && ts[seen[x]].name == x
      invariant forall k, m :: 0 <= k < m < i ==> ts[k].name != ts[m].name
    {
      if !Valid(ts[i]) { return Some(BadTask(i)); }
      if ts[i].name in seen { return Some(SameName(seen[ts[i].name], i)); }
      seen := seen[ts[i].name := i];
    }
    r := ValidateOverlaps(ts);
  }

  // ---- editing ----

  datatype Status = Done | Rejected | NotFound | NotWritten

  /** One edit; `written` says whether the file write that follows it succeeds. */
  datatype Edit =
    | Add(task: Task, freshId: string, written: bool)
    | Update(task: Task, written: bool)
    | Remove(id: string, written: bool)

  function IndexOf(ts: seq<Task>, id: string): (i: int)
    ensures -1 <= i < |ts|
    ensures i >= 0 ==> ts[i].id == id
    ensures forall k :: 0 <= k < (if i < 0 then |ts| else i) ==> ts[k].id != id
  {
    if ts == [] then -1
    else if ts[0].id == id then 0
    else
      var r := IndexOf(ts[1..], id);
      if r < 0 then -1 else r + 1
  }

  function NormalizeAll(ts: seq<Task>): (r: seq<Task>)
    ensures |r| == |ts|
  {
    seq(|ts|, i requires 0 <= i < |ts| => Normalize(ts[i]))
  }

  /** `commitLocked`: a rejected set changes nothing; an accepted one is in force even when the
      write fails. */
  function Commit(ts: seq<Task>, next: seq<Task>, written: bool): (seq<Task>, Status) {
    if !Sound(next) then (ts, Rejected)
    else (NormalizeAll(next), if written then Done else NotWritten)
  }

  function Step(ts: seq<Task>, e: Edit): (seq<Task>, Status) {
    match e
    case Add(t, freshId, written) =>
      Commit(ts, ts + [Normalize(if t.id == "" then t.(id := freshId) else t)], written)
    case Update(t, written) =>
      var i := IndexOf(ts, t.id);
      if i < 0 then (ts, NotFound) else Commit(ts, ts[i := Normalize(t)], written)
    case Remove(id, written) =>
      var i := IndexOf(ts, id);
      if i < 0 then (ts, NotFound)
      else (ts[..i] + ts[i + 1..], if written then Done else NotWritten)
  }

  function Run(ts: seq<Task>, edits: seq<Edit>): seq<Task> {
    if edits == [] then ts else Step(Run(ts, edits[..|edits| - 1]), edits[|edits| - 1]).0
  }

  lemma NormalizeTwice(t: Task)
    ensures Normalize(Normalize(t)) == Normalize(t)
  {}

  /** What a normalized task is: no archive beside an upload, no watching without one, no
      negative duration. */
  lemma NormalizedMeans(t: Task)
    ensures Normalize(t) == t <==>
      && (t.upload ==> !t.archive)
      && (!t.upload ==> !t.watch && !t.instantNow)
      && t.quietMinutes >= 0 && t.cronHours >= 0
  {}

  /** What is cleaned up, and nothing else: an archive beside an upload, watching without one, negative
      durations. */
  lemma NormalizeExactly(t: Task)
    ensures var r := Normalize(t);
      && (t.upload ==> !r.archive && r.watch == t.watch && r.instantNow == t.instantNow)
      && (!t.upload ==> r.archive == t.archive && !r.watch && !r.instantNow)
      && (t.quietMinutes >= 0 ==> r.quietMinutes == t.quietMinutes)
      && (t.quietMinutes < 0 ==> r.quietMinutes == 0)
      && (t.cronHours >= 0 ==> r.cronHours == t.cronHours) && (t.cronHours < 0 ==> r.cronHours == 0)
      && r == Task(t.id, t.name, t.enabled, t.localDir, t.cloudDir, t.upload, r.watch, r.quietMinutes, r.instantNow,
                   t.toStrm, t.toCache, t.download, r.archive, t.toStrmDl, t.cronEnabled, r.cronHours)
  {}

  /** Normalizing never invalidates a task: switching the archive off needs the upload on. */
  lemma NormalizeKeepsValid(t: Task)
    requires Valid(t)
    ensures Valid(Normalize(t))
  {}

  lemma NormalizeAllSound(ts: seq<Task>)
    requires Sound(ts)
    ensures Sound(NormalizeAll(ts)) && Normalized(NormalizeAll(ts))
  {
    hide Overlaps, Clean, CleanCloudPath;
    var r := NormalizeAll(ts);
    forall i | 0 <= i < |r| ensures Valid(r[i]) && Normalize(r[i]) == r[i] {
      NormalizeKeepsValid(ts[i]);
      NormalizeTwice(ts[i]);
    }
    forall i, j | 0 <= i < j < |r|
      ensures !LocalClash(r[i], r[j]) && !CloudClash(r[i], r[j]) && r[i].name != r[j].name
    {
      assert !LocalClash(ts[i], ts[j]) && !CloudClash(ts[i], ts[j]);
    }
  }

  lemma WithoutSound(ts: seq<Task>, k: nat)
    requires k < |ts| && Sound(ts) && Normalized(ts)
    ensures Sound(ts[..k] + ts[k + 1..]) && Normalized(ts[..k] + ts[k + 1..])
  {
    hide Valid, LocalClash, CloudClash, Normalize;
    var r := ts[..k] + ts[k + 1..];
    forall i | 0 <= i < |r| ensures r[i] == ts[if i < k then i else i + 1] {}
  }

  lemma StepKeepsSound(ts: seq<Task>, e: Edit)
    requires Sound(ts) && Normalized(ts)
    ensures Sound(Step(ts, e).0) && Normalized(Step(ts, e).0)
  {
    hide Sound, Normalized, Normalize;
    match e
    case Add(t, freshId, written) =>
      var next := ts + [Normalize(if t.id == "" then t.(id := freshId) else t)];
      if Sound(next) { NormalizeAllSound(next); }
    case Update(t, written) =>
      var i := IndexOf(ts, t.id);
      if i >= 0 && Sound(ts[i := Normalize(t)]) { NormalizeAllSound(ts[i := Normalize(t)]); }
    case Remove(id, written) =>
      var i := IndexOf(ts, id);
      if i >= 0 { WithoutSound(ts, i); }
  }

  /** Every sequence of edits keeps a validated configuration validated and normalized,
      whatever the edits and whether their writes succeed. */
  lemma {:induction false} RunKeepsSound(ts: seq<Task>, edits: seq<Edit>)
    requires Sound(ts) && Normalized(ts)
    ensures Sound(Run(ts, edits)) && Normalized(Run(ts, edits))
  {
    hide Sound, Normalized, Step;
    if edits != [] {
      RunKeepsSound(ts, edits[..|edits| - 1]);
      StepKeepsSound(Run(ts, edits[..|edits| - 1]), edits[|edits| - 1]);
    }
  }

  // ---- what disjointness buys ----

  function Root(t: Task): (r: string)
    ensures IsTrimmed(r) && !("//" <= r)
  {
    Clean(t.localDir)
  }

  lemma SoundIsDisjoint(ts: seq<Task>, i: nat, j: nat)
    requires Sound(ts) && i < |ts| && j < |ts| && i != j
    requires Root(ts[i]) != "/" && Root(ts[j]) != "/"
    ensures !ShareAPath(Root(ts[i]), Root(ts[j]))
  {
    hide Clean, Overlaps, ShareAPath, Valid;
    OverlapIsExact(Root(ts[i]), Root(ts[j]));
    if i < j {
      assert !LocalClash(ts[i], ts[j]);
    } else {
      assert !LocalClash(ts[j], ts[i]);
      assert Overlaps(Root(ts[i]), Root(ts[j])) == Overlaps(Root(ts[j]), Root(ts[i]))
        by { OverlapSymmetric(Root(ts[i]), Root(ts[j])); }
    }
  }

  /** Nor does any cloud path, under the same condition. */
  lemma CloudsAreDisjoint(ts: seq<Task>, i: nat, j: nat)
    requires Sound(ts) && i < |ts| && j < |ts| && i != j
    requires CleanCloudPath(ts[i].cloudDir) != "/" && CleanCloudPath(ts[j].cloudDir) != "/"
    ensures !ShareAPath(CleanCloudPath(ts[i].cloudDir), CleanCloudPath(ts[j].cloudDir))
  {
    hide CleanCloudPath, Overlaps, ShareAPath, Clean;
    var a, b := CleanCloudPath(ts[i].cloudDir), CleanCloudPath(ts[j].cloudDir);
    assert Valid(ts[i]) && Valid(ts[j]);
    OverlapIsExact(a, b);
    OverlapSymmetric(a, b);
    if i < j {
      assert !CloudClash(ts[i], ts[j]);
    } else {
      assert !CloudClash(ts[j], ts[i]);
    }
  }

  lemma OverlapSymmetric(a: string, b: string)
    ensures Overlaps(a, b) == Overlaps(b, a)
  {}

  // ---- directories as typed ----

  predicate Proper(pieces: seq<string>) {
    forall i :: 0 <= i < |pieces| ==> pieces[i] != "" && pieces[i] != "." && pieces[i] != ".." && '/' !in pieces[i]
  }

  lemma {:induction false} ResolveIsProper(pieces: seq<string>, done: seq<string>)
    requires forall i :: 0 <= i < |pieces| ==> '/' !in pieces[i]
    requires Proper(done)
    ensures Proper(Resolve(pieces, done))
    decreases |pieces|
  {
    if pieces != [] {
      ResolveIsProper(pieces[1..],
        if pieces[0] == "" || pieces[0] == "." then done
        else if pieces[0] == ".." then (if done == [] then [] else done[..|done| - 1])
        else done + [pieces[0]]);
    }
  }

  lemma {:induction false} ResolveProper(pieces: seq<string>, done: seq<string>)
    requires Proper(pieces) && Proper(done)
    ensures Resolve(pieces, done) == done + pieces
    decreases |pieces|
  {
    if pieces == [] {
      assert done + pieces == done;
    } else {
      ResolveProper(pieces[1..], done + [pieces[0]]);
      assert done + [pieces[0]] + pieces[1..] == done + pieces;
    }
  }

  /** The last piece is resolved last. */
  lemma {:induction false} ResolveSnoc(pieces: seq<string>, last: string, done: seq<string>)
    requires '/' !in last && forall i :: 0 <= i < |pieces| ==> '/' !in pieces[i]
    requires forall i :: 0 <= i < |done| ==> done[i] != "" && '/' !in done[i]
    ensures Resolve(pieces + [last], done) == Resolve([last], Resolve(pieces, done))
    decreases |pieces|
  {
    if pieces == [] {
      assert pieces + [last] == [last];
    } else {
      assert (pieces + [last])[1..] == pieces[1..] + [last];
      ResolveSnoc(pieces[1..], last,
        if pieces[0] == "" || pieces[0] == "." then done
        else if pieces[0] == ".." then (if done == [] then [] else done[..|done| - 1])
        else done + [pieces[0]]);
    }
  }

  lemma {:induction false} FirstAt(s: string, c: char, i: nat)
    requires i < |s| && s[i] == c && forall j :: 0 <= j < i ==> s[j] != c
    ensures IndexByte(s, c) == i
  {
    if i > 0 { FirstAt(s[1..], c, i - 1); }
  }

  lemma SplitFirst(a: string, b: string)
    requires '/' !in a
    ensures Split(a + "/" + b) == [a] + Split(b)
  {
    var q := a + "/" + b;
    assert forall j :: 0 <= j < |a| ==> q[j] == a[j] && a[j] in a;
    FirstAt(q, '/', |a|);
    assert q[..|a|] == a && q[|a| + 1..] == b;
  }

  /** Splitting at the last slash. */
  lemma {:induction false} SplitAppend(p: string, last: string)
    requires '/' !in last
    ensures Split(p + "/" + last) == Split(p) + [last]
    decreases |p|
  {
    hide Split, IndexByte;
    var i := IndexByte(p, '/');
    if i < 0 {
      SplitFirst(p, last);
      SplitAlone(p);
      SplitAlone(last);
    } else {
      SplitAppend(p[i + 1..], last);
      SplitAppendStep(p[..i], p[i + 1..], last);
      assert p == p[..i] + "/" + p[i + 1..];
    }
  }

  lemma SplitAppendStep(a: string, b: string, last: string)
    requires '/' !in a && '/' !in last && Split(b + "/" + last) == Split(b) + [last]
    ensures Split(a + "/" + b + "/" + last) == Split(a + "/" + b) + [last]
  {
    hide Split;
    SplitFirst(a, b);
    SplitFirst(a, b + "/" + last);
    assert a + "/" + b + "/" + last == a + "/" + (b + "/" + last);
    assert [a] + (Split(b) + [last]) == [a] + Split(b) + [last];
  }

  lemma SplitAlone(p: string)
    requires '/' !in p
    ensures Split(p) == [p]
  {}

  lemma {:induction false} SplitJoin(pieces: seq<string>)
    requires Proper(pieces)
    ensures Split(Join(pieces)) == [""] + pieces
    decreases |pieces|
  {
    hide Split, Join;
    if pieces == [] {
      SplitAlone("");
      JoinNone();
      assert [""] + pieces == [""];
    } else {
      var n := |pieces| - 1;
      SplitJoin(pieces[..n]);
      JoinSnoc(pieces);
      SplitAppend(Join(pieces[..n]), pieces[n]);
      assert [""] + pieces == [""] + pieces[..n] + [pieces[n]];
    }
  }

  lemma JoinNone()
    ensures Join([]) == ""
  {}

  lemma JoinSnoc(pieces: seq<string>)
    requires Proper(pieces) && pieces != []
    ensures Join(pieces) == Join(pieces[..|pieces| - 1]) + "/" + pieces[|pieces| - 1]
  {}

  lemma CleanJoin(pieces: seq<string>)
    requires Proper(pieces) && pieces != []
    ensures Clean(Join(pieces)) == Join(pieces)
  {
    SplitJoin(pieces);
    assert ([""] + pieces)[1..] == pieces;
    ResolveProper(pieces, []);
    assert [] + pieces == pieces;
  }

  /** A trailing slash is cleaned away. */
  lemma CleanOfSelf(p: string)
    requires p != "" && p[0] == '/' && p != "/"
    ensures Clean(SelfKey(p)) == Clean(p)
  {
    if p[|p| - 1] == '/' {
      var x := p[..|p| - 1];
      assert p == x + "/" + "";
      SplitAppend(x, "");
      ResolveSnoc(Split(x), "", []);
    }
  }

  /** A prefix that ends at a slash of a joined path joins the first pieces. */
  lemma {:induction false} PrefixJoins(p: string, pieces: seq<string>) returns (n: nat)
    requires Proper(pieces) && p + "/" <= Join(pieces)
    ensures n < |pieces| && p == Join(pieces[..n])
    decreases |pieces|
  {
    var m := |pieces| - 1;
    var front, last := Join(pieces[..m]), pieces[m];
    var whole := front + "/" + last;
    assert whole == Join(pieces) && whole[|p|] == '/';
    forall k | |front| < k < |whole| ensures whole[k] != '/' {
      assert whole[k] == last[k - |front| - 1] && whole[k] in last;
    }
    if |p| == |front| {
      assert p == whole[..|p|] == front;
      n := m;
    } else {
      assert |p| < |front|;
      assert front == whole[..|front|] && p + "/" == whole[..|p| + 1] == front[..|p| + 1];
      n := PrefixJoins(p, pieces[..m]);
      assert pieces[..m][..n] == pieces[..n];
    }
  }

  /** Directories above a clean path are clean: what lies textually below a typed directory and
      is clean lies below the cleaned directory. */
  lemma CleanBelowTyped(p: string, k: string)
    requires p != "" && p[0] == '/' && Clean(p) != "/"
    requires Clean(k) == k && (k == SelfKey(p) || DirPrefix(p) <= k)
    ensures Under(Clean(p), k)
  {
    CleanOfRoot();
    CleanOfSelf(p);
    if DirPrefix(p) <= k {
      var pieces := Resolve(Split(k), []);
      ResolveIsProper(Split(k), []);
      CleanIsJoin(p, k, pieces);
    }
  }

  lemma CleanIsJoin(p: string, k: string, pieces: seq<string>)
    requires p != "" && p[0] == '/' && p != "/" && Clean(SelfKey(p)) == Clean(p)
    requires Proper(pieces) && k == (if pieces == [] then "/" else Join(pieces)) && DirPrefix(p) <= k
    ensures Under(Clean(p), k)
  {
    hide Clean, Join, SelfKey, DirPrefix, Under;
    SelfShape(p);
    var n := PrefixJoins(SelfKey(p), pieces);
    JoinNone();
    assert pieces[..n] != [];
    CleanJoin(pieces[..n]);
    UnderSelf(p, k);
  }

  lemma SelfShape(p: string)
    requires p != "" && p[0] == '/' && p != "/"
    ensures SelfKey(p) != "" && DirPrefix(p) == SelfKey(p) + "/"
    ensures !(DirPrefix(p) <= "/")
  {
    var r := DirPrefix(p);
    assert r == r[..|r| - 1] + "/";
  }

  /** A clean path lies textually below a typed directory only when that is typed clean, but for a
      slash at its end. */
  lemma CleanBelowClean(p: string, k: string)
    requires p != "" && p[0] == '/' && Clean(k) == k && DirPrefix(p) <= k
    ensures DirPrefix(p) == DirPrefix(Clean(p))
  {
    hide Split, Resolve, Join;
    CleanOfRoot();
    if p != "/" {
      CleanPieces(k);
      SelfIsClean(p, k, Resolve(Split(k), []));
      SelfPrefix(p);
    }
  }

  lemma CleanPieces(k: string)
    ensures var pieces := Resolve(Split(k), []);
      Proper(pieces) && Clean(k) == (if pieces == [] then "/" else Join(pieces))
  {
    hide Split, Join;
    ResolveIsProper(Split(k), []);
  }

  lemma SelfPrefix(p: string)
    requires p != "" && p[0] == '/' && p != "/" && Clean(SelfKey(p)) == SelfKey(p) && SelfKey(p) != "/"
    ensures DirPrefix(p) == DirPrefix(Clean(p))
  {
    hide Clean;
    CleanOfSelf(p);
    SelfShape(p);
    assert Clean(SelfKey(p))[|Clean(SelfKey(p))| - 1] != '/';
  }

  /** `filepath.Join` of a directory and a name. */
  lemma CleanOfJoined(p: string, n: string)
    requires Proper([n])
    ensures Clean(p + "/" + n) == DirPrefix(Clean(p)) + n
  {
    hide Split, Join, Resolve;
    var pieces := Resolve(Split(p), []);
    CleanPieces(p);
    CleanPieces(p + "/" + n);
    assert '/' !in [n][0];
    SplitAppend(p, n);
    ResolveSnoc(Split(p), n, []);
    ResolveProper([n], pieces);
    assert Proper(pieces + [n]);
    JoinSnoc(pieces + [n]);
    assert (pieces + [n])[..|pieces|] == pieces;
    JoinNone();
  }

  lemma SelfIsClean(p: string, k: string, pieces: seq<string>)
    requires p != "" && p[0] == '/' && p != "/"
    requires Proper(pieces) && k == (if pieces == [] then "/" else Join(pieces)) && DirPrefix(p) <= k
    ensures Clean(SelfKey(p)) == SelfKey(p) && SelfKey(p) != "/"
  {
    hide Clean, Join, SelfKey, DirPrefix;
    SelfShape(p);
    var n := PrefixJoins(SelfKey(p), pieces);
    JoinNone();
    CleanJoin(pieces[..n]);
  }

  lemma UnderSelf(p: string, k: string)
    requires p != "" && p[0] == '/' && p != "/" && DirPrefix(p) <= k
    requires SelfKey(p)[|SelfKey(p)| - 1] != '/'
    ensures Under(SelfKey(p), k)
  {
    SelfShape(p);
    assert DirPrefix(SelfKey(p)) == SelfKey(p) + "/";
  }

  /** The paths a task records and clears: its directory as typed, and clean paths in its tree. */
  predicate Owns(t: Task, q: string) {
    q == t.localDir || (Clean(q) == q && Under(Root(t), q))
  }

  /** A clear by one task of a validated set reaches a record of another exactly when that
      record is the other's typed directory and, with its dots unresolved, begins with the
      cleared path and a slash (and no other key lies in between). */
  lemma ClearReachesExactly(ts: seq<Task>, i: nat, j: nat, keys: set<string>, q: string, k: string)
    requires Sound(ts) && i < |ts| && j < |ts| && i != j
    requires Root(ts[i]) != "/" && Root(ts[j]) != "/"
    requires Owns(ts[i], q) && Owns(ts[j], k)
    ensures Doomed(keys, q, k) <==> k == ts[j].localDir && DirPrefix(q) <= k && !Blocked(keys, q)
  {
    hide Clean, Blocked, SelfKey, DirPrefix;
    SoundIsDisjoint(ts, i, j);
    assert Valid(ts[i]) && Valid(ts[j]);
    if k == SelfKey(q) { SelfIsOwn(ts[i], ts[j], q, k); }
    if Clean(k) == k && DirPrefix(q) <= k { BelowIsOwn(ts[i], q, k); }
    if k == ts[j].localDir && Clean(k) == k { assert Under(Root(ts[j]), k); }
  }

  lemma SelfIsOwn(a: Task, b: Task, q: string, k: string)
    requires Valid(a) && Root(a) != "/" && Owns(a, q) && Owns(b, k) && k == SelfKey(q)
    ensures ShareAPath(Root(a), Root(b))
  {
    CleanOfRoot();
    hide Clean;
    if q == a.localDir {
      CleanOfSelf(q);
    } else {
      NotTheRoot(Root(a), q);
    }
    assert Clean(k) == k ==> Under(Root(a), k);
    assert Clean(k) != k ==> Clean(k) == Root(a);
    assert Under(Root(a), Root(a));
    if Clean(k) == k {
      assert Under(Root(b), k);
    } else {
      assert Root(b) == Root(a);
    }
  }

  lemma BelowIsOwn(t: Task, q: string, k: string)
    requires Valid(t) && Root(t) != "/" && Owns(t, q) && Clean(k) == k && DirPrefix(q) <= k
    ensures Under(Root(t), k)
  {
    hide Clean;
    if q == t.localDir {
      CleanBelowTyped(q, k);
    } else {
      NotTheRoot(Root(t), q);
      assert DirPrefix(Root(t)) <= DirPrefix(q);
    }
  }

  /** Such a pair passes validation: "/a" and "/a/../b", which is "/b" once cleaned. */
  lemma DottedDirectoryIsReached(a: Task, b: Task)
    requires Valid(a) && Valid(b) && a.name != b.name && !CloudClash(a, b)
    requires a.localDir == "/a" && b.localDir == "/a/../b"
    ensures Sound([a, b]) && Root(a) == "/a" && Root(b) == "/b"
    ensures Doomed({b.localDir}, a.localDir, b.localDir)
  {
    DottedRoots();
    hide Clean, Less, Valid, CloudClash;
    assert !LocalClash(a, b) by { assert "/a" + "/" == "/a/" && "/b" + "/" == "/b/"; }
    assert DirPrefix("/a") == "/a/";
    PrefixNotAbove("/a/", "/a/../b");
    assert Doomed({"/a/../b"}, "/a", "/a/../b");
  }

  lemma DottedRoots()
    ensures Clean("/a") == "/a" && Clean("/a/../b") == "/b"
  {
    hide Split, Resolve, Join, IndexByte;
    DottedPieces();
    DottedResolve("a", "b");
    JoinOne("a");
    JoinOne("b");
  }

  lemma DottedPieces()
    ensures Split("/a") == ["", "a"] && Split("/a/../b") == ["", "a", "..", "b"]
  {
    hide Split, IndexByte;
    assert "" + "/" + "a" == "/a" && "/a" + "/" + ".." == "/a/.." && "/a/.." + "/" + "b" == "/a/../b";
    SplitAlone("");
    SplitAppend("", "a");
    SplitAppend("/a", "..");
    SplitAppend("/a/..", "b");
    assert [""] + ["a"] + [".."] + ["b"] == ["", "a", "..", "b"];
  }

  lemma DottedResolve(a: string, b: string)
    requires '/' !in a && '/' !in b && Proper([a]) && Proper([b])
    ensures Resolve(["", a], []) == [a] && Resolve(["", a, "..", b], []) == [b]
  {
    hide Resolve;
    assert [""] + [a] == ["", a] && ["", a] + [".."] == ["", a, ".."] && ["", a, ".."] + [b] == ["", a, "..", b];
    OnePiece("", []);
    OnePiece(a, []);
    OnePiece(b, []);
    OnePiece("..", [a]);
    ResolveSnoc([""], a, []);
    ResolveSnoc(["", a], "..", []);
    ResolveSnoc(["", a, ".."], b, []);
  }

  lemma OnePiece(piece: string, done: seq<string>)
    requires '/' !in piece && forall i :: 0 <= i < |done| ==> done[i] != "" && '/' !in done[i]
    ensures piece == "" ==> Resolve([piece], done) == done
    ensures piece == ".." && |done| == 1 ==> Resolve([piece], done) == []
    ensures Proper([piece]) ==> Resolve([piece], done) == done + [piece]
  {
    assert [piece][0] == piece && [piece][1..] == [];
  }

  lemma JoinOne(piece: string)
    requires Proper([piece])
    ensures Join([piece]) == "/" + piece
  {
    JoinSnoc([piece]);
    JoinNone();
    assert [piece][..0] == [] && "" + "/" + piece == "/" + piece;
  }

  /** Task isolation over whole runs: after any edits to a validated configuration, whatever
      sequence of subtrees one task clears, its directory as typed among them, no clean path of
      another task is lost or changed, provided neither is rooted at "/". */
  lemma {:induction false} TasksAreIsolated<V>(ts: seq<Task>, edits: seq<Edit>, i: nat, j: nat,
      m: map<string, V>, cleared: seq<string>, k: string)
    requires Sound(ts) && Normalized(ts)
    requires var now := Run(ts, edits);
      i < |now| && j < |now| && i != j && Root(now[i]) != "/" && Root(now[j]) != "/"
      && (forall q :: q in cleared ==>
            (IsTrimmed(q) && Under(Root(now[i]), q)) || (q == now[i].localDir && Clean(k) == k))
      && k in m && Under(Root(now[j]), k)
    ensures k in ClearedAll(m, cleared) && ClearedAll(m, cleared)[k] == m[k]
    decreases |cleared|
  {
    hide Sound, Normalized, Run, Clean, IsTrimmed, Under, DirPrefix;
    if cleared != [] {
      var front, q := cleared[..|cleared| - 1], cleared[|cleared| - 1];
      TasksAreIsolated(ts, edits, i, j, m, front, k);
      var now := Run(ts, edits);
      RunKeepsSound(ts, edits);
      SoundIsDisjoint(now, i, j);
      assert q in cleared;
      if Doomed(ClearedAll(m, front).Keys, q, k) {
        DoomedIsOwn(now, i, q, ClearedAll(m, front).Keys, k);
      }
    }
  }

  lemma DoomedIsOwn(ts: seq<Task>, i: nat, q: string, keys: set<string>, k: string)
    requires Sound(ts) && i < |ts| && Root(ts[i]) != "/" && Doomed(keys, q, k)
    requires (IsTrimmed(q) && Under(Root(ts[i]), q)) || (q == ts[i].localDir && Clean(k) == k)
    ensures Under(Root(ts[i]), k)
  {
    hide Clean, Blocked;
    assert Valid(ts[i]);
    if IsTrimmed(q) && Under(Root(ts[i]), q) {
      NotTheRoot(Root(ts[i]), q);
    } else {
      CleanBelowTyped(q, k);
    }
  }

  lemma NotTheRoot(root: string, q: string)
    requires IsTrimmed(root) && root != "/" && Under(root, q)
    ensures q != "/"
  {}

  /** A task rooted at "/" is not isolated: the validator accepts it beside any other
      directory, and clearing its root removes every record of an index of absolute paths. */
  lemma RootTaskIsNotIsolated<V>(root: Task, other: Task, m: map<string, V>)
    requires root.localDir == "/" && Root(other) != "/"
    requires forall k :: k in m ==> "/" <= k
    ensures !LocalClash(root, other)
    ensures Cleared(m, Root(root)) == map[]
  {
    hide Less;
    CleanOfRoot();
    RootOverlaps(Root(other));
    forall k | k in m ensures Doomed(m.Keys, "/", k) {
      if j :| j in m && Less(SelfKey("/"), j) && Less(j, DirPrefix("/")) {
        PrefixNotAbove("/", j);
      }
    }
  }

  lemma CleanOfRoot()
    ensures Clean("/") == "/"
  {
    assert "/"[1..] == "";
    assert Split("/") == ["", ""];
  }

  /** The first task with the ID, and only that one, is now `t` in normal form. */
  ghost predicate ReplacedFirst(was: seq<Task>, now: seq<Task>, i: nat, t: Task) {
    && i < |was| == |now| && was[i].id == t.id && now[i] == Normalize(t)
    && (forall k :: 0 <= k < i ==> was[k].id != t.id)
    && (forall k :: 0 <= k < |was| && k != i ==> now[k] == was[k])
  }

  /** The first task with the ID, and only that one, is gone; the others keep their order. */
  ghost predicate RemovedFirst(was: seq<Task>, now: seq<Task>, i: nat, id: string) {
    && i < |was| && was[i].id == id && (forall k :: 0 <= k < i ==> was[k].id != id)
    && now == was[..i] + was[i + 1..]
  }

  lemma NormalizeAllNormal(ts: seq<Task>)
    ensures Normalized(ts) ==> NormalizeAll(ts) == ts
  {
    hide Normalize;
  }

  lemma CommittedIsSound(next: seq<Task>)
    ensures Sound(next) ==> Sound(NormalizeAll(next)) && Normalized(NormalizeAll(next))
    ensures Normalized(next) ==> NormalizeAll(next) == next
  {
    hide Sound, Normalized, NormalizeAll;
    if Sound(next) { NormalizeAllSound(next); }
    NormalizeAllNormal(next);
  }

  lemma NormalizedMore(ts: seq<Task>, t: Task)
    requires Normalize(t) == t
    ensures Normalized(ts) ==> Normalized(ts + [t])
  {
    hide Normalize;
  }

  lemma NormalizedAt(ts: seq<Task>, i: nat, t: Task)
    requires i < |ts| && Normalize(t) == t
    ensures Normalized(ts) ==> Normalized(ts[i := t])
  {
    hide Normalize;
  }

  class Config {
    var tasks: seq<Task>

    constructor ()
      ensures tasks == [] && Sound(tasks) && Normalized(tasks)
    {
      tasks := [];
    }

    method CommitTasks(next: seq<Task>, written: bool) returns (s: Status)
      modifies this
      ensures (tasks, s) == Commit(old(tasks), next, written)
      ensures s.Rejected? <==> !Sound(next)
      ensures s.Rejected? ==> tasks == old(tasks)
      ensures !s.Rejected? ==> Sound(tasks) && Normalized(tasks) && |tasks| == |next| && (s.Done? <==> written)
      ensures !s.Rejected? && Normalized(next) ==> tasks == next
    {
      hide Sound, Normalized, Normalize;
      CommittedIsSound(next);
      var fault := ValidateTasks(next);
      if fault.Some? { return Rejected; }
      tasks := next;
      var i := 0;
      while i < |tasks|
        invariant 0 <= i <= |tasks| == |next|
        invariant forall k :: 0 <= k < i ==> tasks[k] == Normalize(next[k])
        invariant forall k :: i <= k < |tasks| ==> tasks[k] == next[k]
      {
        tasks := tasks[i := Normalize(tasks[i])];
        i := i + 1;
      }
      assert tasks == NormalizeAll(next);
      return if written then Done else NotWritten;
    }

    /** `AddTask`; `freshId` stands for the random identifier. */
    method AddTask(task: Task, freshId: string, written: bool) returns (s: Status)
      modifies this
      ensures (tasks, s) == Step(old(tasks), Add(task, freshId, written))
      ensures s == Rejected ==> tasks == old(tasks)
      ensures s != Rejected ==> Sound(tasks) && Normalized(tasks) && |tasks| == |old(tasks)| + 1
      ensures s != Rejected ==> (s == Done <==> written)
      ensures s != Rejected && Normalized(old(tasks)) ==> tasks[..|old(tasks)|] == old(tasks)
      ensures s != Rejected ==>
        var added := tasks[|tasks| - 1];
        && added.id == (if task.id == "" then freshId else task.id) && added.name == task.name
        && added.localDir == task.localDir && added.cloudDir == task.cloudDir && added.upload == task.upload
    {
      hide Sound, Normalized;
      var t := if task.id == "" then task.(id := freshId) else task;
      NormalizeTwice(t);
      NormalizedMore(tasks, Normalize(t));
      s := CommitTasks(tasks + [Normalize(t)], written);
    }

    method UpdateTask(task: Task, written: bool) returns (s: Status)
      modifies this
      ensures (tasks, s) == Step(old(tasks), Update(task, written))
      ensures s == NotFound <==> forall k :: 0 <= k < |old(tasks)| ==> old(tasks)[k].id != task.id
      ensures s == Rejected || s == NotFound ==> tasks == old(tasks)
      ensures s == Done || s == NotWritten ==> Sound(tasks) && Normalized(tasks) && |tasks| == |old(tasks)|
      ensures (s == Done || s == NotWritten) && Normalized(old(tasks)) ==>
        exists i :: ReplacedFirst(old(tasks), tasks, i, task)
    {
      hide Sound, Normalized;
      var i := IndexOf(tasks, task.id);
      if i < 0 { return NotFound; }
      NormalizeTwice(task);
      NormalizedAt(tasks, i, Normalize(task));
      s := CommitTasks(tasks[i := Normalize(task)], written);
      if !s.Rejected? && Normalized(old(tasks)) { assert ReplacedFirst(old(tasks), tasks, i, task); }
    }

    method RemoveTask(id: string, written: bool) returns (s: Status)
      modifies this
      ensures (tasks, s) == Step(old(tasks), Remove(id, written))
      ensures s == NotFound <==> forall k :: 0 <= k < |old(tasks)| ==> old(tasks)[k].id != id
      ensures s == NotFound ==> tasks == old(tasks)
      ensures s != NotFound ==> (s == Done <==> written) && exists i :: RemovedFirst(old(tasks), tasks, i, id)
    {
      var i := IndexOf(tasks, id);
      if i < 0 { return NotFound; }
      tasks := tasks[..i] + tasks[i + 1..];
      assert RemovedFirst(old(tasks), tasks, i, id);
      return if written then Done else NotWritten;
    }
  }
}
