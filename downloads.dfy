/**
 * The downloads panel of the browser script: which torrent is expanded, the
 * two-second refresh of its file list, the cache of file lists, the guard that
 * keeps one downloads request in flight, and the handlers that act on torrents.
 *
 * Network calls are recorded as outbound requests. A call the handler awaits is
 * followed inline, its reply given as a parameter; a call it does not await
 * (`loadDownloads()`, `loadFilesForHash(h, false)`) only starts here, and its
 * reply arrives later as an event of its own.
 */
module Downloads {
  import opened Common
  import Format

  // ====================================================================
  // messages
  // ====================================================================

  /** The requests the panel sends to its own server. */
  datatype Request =
    | GetDownloads                                                 // GET /api/qb/downloads
    | GetFiles(hash: string)                                       // GET /api/qb/files?hash=
    | PostStop(hash: string)                                       // POST /api/qb/stop
    | PostStart(hash: string)                                      // POST /api/qb/start
    | PostDelete(hash: string)                                     // POST /api/qb/delete
    | SetFilePriority(hash: string, fileIds: seq<int>, priority: int) // POST /api/qb/setfileprio
    | GetAdd(provider: string, id: string)                         // GET /api/qb/add

  /** One file of a torrent as the files endpoint lists it. */
  datatype FileEntry = FileEntry(index: int, priority: Option<int>)

  /** The outcome of a files request: `ok` with a `files` array, any other answer, or a failed fetch. */
  datatype FilesReply = FilesListed(files: seq<FileEntry>) | FilesRefused | FilesFailed

  /** The outcome of a downloads request: `ok` with a `torrents` array (their hashes), `ok` false, or a failed fetch. */
  datatype DownloadsReply =
    | Torrents(hashes: seq<string>)
    | DownloadsRefused(error: Option<string>)
    | DownloadsFailed(message: string)

  /** The answer to an add request: `r.ok` and the `hash` field of its body ("" when absent). */
  datatype AddReply = AddReply(ok: bool, hash: string)

  /** What the downloads table shows. */
  datatype Table =
    | NotLoaded
    | NoDownloads
    | Listed(hashes: seq<string>)
    | ListError(error: string)
    | FetchError(message: string)

  /** A file checkbox of the files panel: its `data-file-id` and whether it is ticked. */
  datatype Checkbox = Checkbox(fileId: int, checked: bool)

  // ====================================================================
  // the panel's state and what each handler does to it
  // ====================================================================

  /**
   * The script's globals. `filesRefresh` is the file-list interval: `Some(h)` while
   * one runs for torrent `h`.
   */
  datatype ViewState = ViewState(
    expandedHash: Option<string>,
    filesRefresh: Option<string>,
    filesCache: map<string, seq<FileEntry>>,
    isRefreshing: bool,
    autoRefreshEnabled: bool,
    table: Table,
    outbox: seq<Request>)
  {
    /** The file-list refresh runs only for the expanded torrent, and never for an empty hash. */
    predicate Valid() {
      filesRefresh.Some? ==> filesRefresh == expandedHash && filesRefresh.value != ""
    }
  }

  /** The globals as declared, before the script's first `loadDownloads()`. */
  const Declared := ViewState(None, None, map[], false, true, NotLoaded, [])

  function Send(s: ViewState, r: Request): ViewState {
    s.(outbox := s.outbox + [r])
  }

  /** `loadDownloads()` up to its first await: nothing at all while a refresh is in flight. */
  function AfterLoadDownloads(s: ViewState): ViewState {
    if s.isRefreshing then s else Send(s.(isRefreshing := true), GetDownloads)
  }

  /** `stopFilesAutoRefresh()`. */
  function AfterStopRefresh(s: ViewState): ViewState {
    s.(filesRefresh := None)
  }

  /** `startFilesAutoRefresh(hash)`: stop any interval; for a non-empty hash, load its files and start one. */
  function AfterStartRefresh(s: ViewState, hash: string): ViewState {
    var t := AfterStopRefresh(s);
    if hash == "" then t else Send(t, GetFiles(hash)).(filesRefresh := Some(hash))
  }

  /** One tick of the interval started for `hash`: reload quietly while it is expanded, otherwise stop. */
  function AfterFilesTick(s: ViewState, hash: string): ViewState {
    if s.expandedHash == Some(hash) then Send(s, GetFiles(hash)) else AfterStopRefresh(s)
  }

  /** The reply to `loadFilesForHash(hash, force)`: cache a listed array, then reload downloads when forced. */
  function AfterFilesReply(s: ViewState, hash: string, reply: FilesReply, force: bool): ViewState {
    var t := if reply.FilesListed? then s.(filesCache := s.filesCache[hash := reply.files]) else s;
    if force then AfterLoadDownloads(t) else t
  }

  /** The files loads `renderDownloads` starts: one per row of the expanded torrent while its files are not cached. */
  function FilesLoads(hashes: seq<string>, expanded: Option<string>, cache: map<string, seq<FileEntry>>): (r: seq<Request>)
    ensures forall q :: q in r ==> expanded.Some? && expanded.value !in cache && q == GetFiles(expanded.value)
  {
    if hashes == [] then []
    else
      var last := hashes[|hashes| - 1];
      var init := FilesLoads(hashes[..|hashes| - 1], expanded, cache);
      var more := if expanded == Some(last) && last !in cache then [GetFiles(last)] else [];
      init + more
  }

  /** Some files load starts exactly when the expanded torrent is listed and its files are not cached. */
  lemma {:induction false} FilesLoadsWhen(hashes: seq<string>, expanded: Option<string>, cache: map<string, seq<FileEntry>>)
    ensures FilesLoads(hashes, expanded, cache) != [] <==> expanded.Some? && expanded.value in hashes && expanded.value !in cache
  {
    if hashes != [] {
      var init := hashes[..|hashes| - 1];
      FilesLoadsWhen(init, expanded, cache);
      assert hashes == init + [hashes[|hashes| - 1]];
    }
  }

  /** The text after "Error loading downloads: ". */
  function ErrorText(error: Option<string>): string {
    if error.Some? && error.value != "" then error.value else "Unknown error"
  }

  /** The reply to `loadDownloads()`: render, then clear the in-flight flag whatever happened. */
  function AfterDownloadsReply(s: ViewState, reply: DownloadsReply): ViewState {
    var t := match reply
      case Torrents(hs) =>
        if hs == [] then s.(table := NoDownloads)
        else s.(table := Listed(hs), outbox := s.outbox + FilesLoads(hs, s.expandedHash, s.filesCache))
      case DownloadsRefused(error) => s.(table := ListError(ErrorText(error)))
      case DownloadsFailed(message) => s.(table := FetchError(message));
    t.(isRefreshing := false)
  }

  /** `toggleExpand(hash)`: collapse it if expanded, otherwise expand it alone; then redraw. */
  function AfterToggleExpand(s: ViewState, hash: string): ViewState {
    AfterLoadDownloads(
      if s.expandedHash == Some(hash) then AfterStopRefresh(s.(expandedHash := None))
      else AfterStartRefresh(s.(expandedHash := Some(hash)), hash))
  }

  /** `pauseTorrent(hash)`: post the stop; redraw once the reply has been read. */
  function AfterPause(s: ViewState, hash: string, answered: bool): ViewState {
    var t := Send(s, PostStop(hash));
    if answered then AfterLoadDownloads(t) else t
  }

  /** `resumeTorrent(hash)`: post the start; redraw once the reply has been read. */
  function AfterResume(s: ViewState, hash: string, answered: bool): ViewState {
    var t := Send(s, PostStart(hash));
    if answered then AfterLoadDownloads(t) else t
  }

  /** `deleteTorrent(hash)`: once confirmed and the request has gone through, collapse it if it was expanded and redraw. */
  function AfterDelete(s: ViewState, hash: string, confirmed: bool, delivered: bool): ViewState {
    if !confirmed then s
    else
      var t := Send(s, PostDelete(hash));
      if !delivered then t
      else AfterLoadDownloads(if t.expandedHash == Some(hash) then AfterStopRefresh(t.(expandedHash := None)) else t)
  }

  /** The ids of the boxes whose state is `want`, in box order. */
  function Pick(boxes: seq<Checkbox>, want: bool): seq<int> {
    if boxes == [] then []
    else Pick(boxes[..|boxes| - 1], want) + if boxes[|boxes| - 1].checked == want then [boxes[|boxes| - 1].fileId] else []
  }

  /** The priority updates Apply sends: 1 for the ticked files, 0 for the others, each only when non-empty. */
  function PriorityRequests(hash: string, selected: seq<int>, unselected: seq<int>): seq<Request> {
    (if |selected| > 0 then [SetFilePriority(hash, selected, 1)] else [])
    + (if |unselected| > 0 then [SetFilePriority(hash, unselected, 0)] else [])
  }

  /**
   * The Apply button: priority updates, then the files reload (forced, so it redraws),
   * then the resume. A rejected priority update ends the handler.
   */
  function AfterApply(s: ViewState, hash: string, boxes: seq<Checkbox>, selectedPost: bool, unselectedPost: bool,
                      files: FilesReply, resumeAnswered: bool): ViewState
  {
    var selected, unselected := Pick(boxes, true), Pick(boxes, false);
    var s1 := if |selected| > 0 then Send(s, SetFilePriority(hash, selected, 1)) else s;
    if |selected| > 0 && !selectedPost then s1
    else
      var s2 := if |unselected| > 0 then Send(s1, SetFilePriority(hash, unselected, 0)) else s1;
      if |unselected| > 0 && !unselectedPost then s2
      else AfterResume(AfterFilesReply(Send(s2, GetFiles(hash)), hash, files, true), hash, resumeAnswered)
  }

  /** `addToQb`: post the add; with no hash in a successful answer, redraw at once. */
  function AfterAdd(s: ViewState, provider: string, id: string, reply: AddReply): ViewState {
    var t := Send(s, GetAdd(provider, id));
    if reply.ok && reply.hash == "" then AfterLoadDownloads(t) else t
  }

  /**
   * The timer `addToQb` sets for a new torrent: with more than one file, pause it,
   * cache its files, expand it and start its refresh; redraw in every case.
   */
  function AfterAddedCheck(s: ViewState, hash: string, files: FilesReply, pauseAnswered: bool): ViewState {
    var t := Send(s, GetFiles(hash));
    if files.FilesListed? && |files.files| > 1 then
      var p := AfterPause(t, hash, pauseAnswered);
      AfterLoadDownloads(AfterStartRefresh(p.(filesCache := p.filesCache[hash := files.files], expandedHash := Some(hash)), hash))
    else AfterLoadDownloads(t)
  }

  /** The five-second timer: reload while auto-refresh is on. */
  function AfterAutoRefreshTick(s: ViewState): ViewState {
    if s.autoRefreshEnabled then AfterLoadDownloads(s) else s
  }

  /** The auto-refresh button: flip the setting, reload when it comes on. */
  function AfterAutoRefreshToggle(s: ViewState): ViewState {
    var t := s.(autoRefreshEnabled := !s.autoRefreshEnabled);
    if t.autoRefreshEnabled then AfterLoadDownloads(t) else t
  }

  // ====================================================================
  // events and runs
  // ====================================================================

  /** Everything that can happen to the panel. */
  datatype Event =
    | ToggleClicked(hash: string)
    | FilesTimerFired(hash: string)
    | FilesArrived(hash: string, filesReply: FilesReply, force: bool)
    | DownloadsArrived(downloadsReply: DownloadsReply)
    | RefreshClicked
    | PauseClicked(hash: string, answered: bool)
    | ResumeClicked(hash: string, answered: bool)
    | DeleteClicked(hash: string, confirmed: bool, delivered: bool)
    | ApplyClicked(hash: string, boxes: seq<Checkbox>, selectedPost: bool, unselectedPost: bool, files: FilesReply, resumeAnswered: bool)
    | AddClicked(provider: string, id: string, addReply: AddReply)
    | AddedTimerFired(hash: string, files: FilesReply, pauseAnswered: bool)
    | AutoRefreshTimerFired
    | AutoRefreshToggled

  /** The state after one event; a files timer fires only while its interval runs. */
  function Step(s: ViewState, e: Event): ViewState {
    match e
    case ToggleClicked(h) => AfterToggleExpand(s, h)
    case FilesTimerFired(h) => if s.filesRefresh == Some(h) then AfterFilesTick(s, h) else s
    case FilesArrived(h, reply, force) => AfterFilesReply(s, h, reply, force)
    case DownloadsArrived(reply) => AfterDownloadsReply(s, reply)
    case RefreshClicked => AfterLoadDownloads(s)
    case PauseClicked(h, answered) => AfterPause(s, h, answered)
    case ResumeClicked(h, answered) => AfterResume(s, h, answered)
    case DeleteClicked(h, confirmed, delivered) => AfterDelete(s, h, confirmed, delivered)
    case ApplyClicked(h, boxes, sp, up, files, ra) => AfterApply(s, h, boxes, sp, up, files, ra)
    case AddClicked(p, id, reply) => AfterAdd(s, p, id, reply)
    case AddedTimerFired(h, files, pa) => AfterAddedCheck(s, h, files, pa)
    case AutoRefreshTimerFired => AfterAutoRefreshTick(s)
    case AutoRefreshToggled => AfterAutoRefreshToggle(s)
  }

  function Run(s: ViewState, es: seq<Event>): ViewState
    decreases |es|
  {
    if es == [] then s else Run(Step(s, es[0]), es[1..])
  }

  /** The page as loaded: the globals, then the first `loadDownloads()`. */
  function PageLoaded(): ViewState {
    AfterLoadDownloads(Declared)
  }

  // ====================================================================
  // properties
  // ====================================================================

  /** The re-entrancy guard: while a refresh is in flight nothing is sent; otherwise exactly one request is. */
  lemma LoadDownloadsGuard(s: ViewState)
    ensures s.isRefreshing ==> AfterLoadDownloads(s) == s
    ensures !s.isRefreshing ==> AfterLoadDownloads(s) == s.(isRefreshing := true, outbox := s.outbox + [GetDownloads])
  {
  }

  /** Every reply to a downloads request clears the in-flight flag; an empty list shows "No active downloads". */
  lemma DownloadsReplyEndsRefresh(s: ViewState, reply: DownloadsReply)
    ensures !AfterDownloadsReply(s, reply).isRefreshing
    ensures AfterDownloadsReply(s, reply).table == NoDownloads <==> reply == Torrents([])
  {
  }

  /** toggleExpand leaves at most the clicked torrent expanded, and its refresh running only for it. */
  lemma ToggleExpandSingle(s: ViewState, hash: string)
    ensures AfterToggleExpand(s, hash).expandedHash == if s.expandedHash == Some(hash) then None else Some(hash)
    ensures AfterToggleExpand(s, hash).filesRefresh ==
      if s.expandedHash == Some(hash) || hash == "" then None else Some(hash)
    ensures AfterToggleExpand(s, hash).Valid()
  {
  }

  /** Deleting collapses the deleted torrent only; any other expansion stays. */
  lemma DeleteKeepsOtherExpansion(s: ViewState, hash: string, confirmed: bool, delivered: bool)
    ensures AfterDelete(s, hash, confirmed, delivered).expandedHash ==
      if confirmed && delivered && s.expandedHash == Some(hash) then None else s.expandedHash
    ensures s.Valid() ==> AfterDelete(s, hash, confirmed, delivered).Valid()
  {
  }

  /** Apply keeps the refresh tied to the expanded torrent. */
  lemma ApplyKeepsValid(s: ViewState, hash: string, boxes: seq<Checkbox>, sp: bool, up: bool, files: FilesReply, ra: bool)
    requires s.Valid()
    ensures AfterApply(s, hash, boxes, sp, up, files, ra).Valid()
  {
    var selected, unselected := Pick(boxes, true), Pick(boxes, false);
    var s1 := if |selected| > 0 then Send(s, SetFilePriority(hash, selected, 1)) else s;
    var s2 := if |unselected| > 0 then Send(s1, SetFilePriority(hash, unselected, 0)) else s1;
    assert s2.Valid();
  }

  /** The check after an add expands the torrent it starts refreshing, so the two stay tied. */
  lemma AddedCheckKeepsValid(s: ViewState, hash: string, files: FilesReply, pa: bool)
    requires s.Valid()
    ensures AfterAddedCheck(s, hash, files, pa).Valid()
  {
  }

  /** Every event keeps the refresh tied to the expanded torrent. */
  lemma StepKeepsValid(s: ViewState, e: Event)
    requires s.Valid()
    ensures Step(s, e).Valid()
  {
    match e
    case ToggleClicked(h) => ToggleExpandSingle(s, h);
    case DeleteClicked(h, c, d) => DeleteKeepsOtherExpansion(s, h, c, d);
    case ApplyClicked(h, boxes, sp, up, files, ra) => ApplyKeepsValid(s, h, boxes, sp, up, files, ra);
    case AddedTimerFired(h, files, pa) => AddedCheckKeepsValid(s, h, files, pa);
    case _ =>
  }

  /** In every state the page can reach, the refresh runs only for the expanded torrent. */
  lemma {:induction false} RunKeepsValid(s: ViewState, es: seq<Event>)
    requires s.Valid()
    ensures Run(s, es).Valid()
    decreases |es|
  {
    if es != [] {
      StepKeepsValid(s, es[0]);
      RunKeepsValid(Step(s, es[0]), es[1..]);
    }
  }

  lemma ReachableValid(es: seq<Event>)
    ensures Run(PageLoaded(), es).Valid()
  {
    RunKeepsValid(PageLoaded(), es);
  }

  /**
   * `t` follows `s` by appending requests only; and if a downloads request was in
   * flight in `s`, it still is in `t` and no other one was sent.
   */
  predicate Follows(s: ViewState, t: ViewState) {
    |s.outbox| <= |t.outbox| && t.outbox[..|s.outbox|] == s.outbox
    && (s.isRefreshing ==> t.isRefreshing && GetDownloads !in t.outbox[|s.outbox|..])
  }

  lemma FollowsTrans(s: ViewState, t: ViewState, u: ViewState)
    requires Follows(s, t) && Follows(t, u)
    ensures Follows(s, u)
  {
    assert u.outbox[..|t.outbox|][..|s.outbox|] == u.outbox[..|s.outbox|];
    assert u.outbox[|s.outbox|..] == t.outbox[|s.outbox|..] + u.outbox[|t.outbox|..];
  }

  lemma SendFollows(s: ViewState, r: Request)
    requires r != GetDownloads
    ensures Follows(s, Send(s, r))
  {
    assert Send(s, r).outbox[|s.outbox|..] == [r];
  }

  lemma LoadFollows(s: ViewState)
    ensures Follows(s, AfterLoadDownloads(s))
  {
    assert s.outbox[..|s.outbox|] == s.outbox;
  }

  lemma OutboxKeptFollows(s: ViewState, t: ViewState)
    requires t.outbox == s.outbox && t.isRefreshing == s.isRefreshing
    ensures Follows(s, t)
  {
    assert s.outbox[..|s.outbox|] == s.outbox;
  }

  lemma ApplyFollows(s: ViewState, hash: string, boxes: seq<Checkbox>, sp: bool, up: bool, files: FilesReply, ra: bool)
    ensures Follows(s, AfterApply(s, hash, boxes, sp, up, files, ra))
  {
    var selected, unselected := Pick(boxes, true), Pick(boxes, false);
    var s1 := if |selected| > 0 then Send(s, SetFilePriority(hash, selected, 1)) else s;
    if |selected| > 0 { SendFollows(s, SetFilePriority(hash, selected, 1)); } else { OutboxKeptFollows(s, s); }
    if |selected| > 0 && !sp {
      return;
    }
    var s2 := if |unselected| > 0 then Send(s1, SetFilePriority(hash, unselected, 0)) else s1;
    if |unselected| > 0 { SendFollows(s1, SetFilePriority(hash, unselected, 0)); } else { OutboxKeptFollows(s1, s1); }
    FollowsTrans(s, s1, s2);
    if |unselected| > 0 && !up {
      return;
    }
    var s3 := Send(s2, GetFiles(hash));
    SendFollows(s2, GetFiles(hash));
    FollowsTrans(s, s2, s3);
    var s4 := AfterFilesReply(s3, hash, files, true);
    var s3a := if files.FilesListed? then s3.(filesCache := s3.filesCache[hash := files.files]) else s3;
    OutboxKeptFollows(s3, s3a);
    LoadFollows(s3a);
    FollowsTrans(s3, s3a, s4);
    FollowsTrans(s, s3, s4);
    var s5 := Send(s4, PostStart(hash));
    SendFollows(s4, PostStart(hash));
    FollowsTrans(s, s4, s5);
    if ra {
      LoadFollows(s5);
      FollowsTrans(s, s5, AfterLoadDownloads(s5));
    }
  }

  lemma AddedCheckFollows(s: ViewState, hash: string, files: FilesReply, pa: bool)
    ensures Follows(s, AfterAddedCheck(s, hash, files, pa))
  {
    var t := Send(s, GetFiles(hash));
    SendFollows(s, GetFiles(hash));
    if files.FilesListed? && |files.files| > 1 {
      var t1 := Send(t, PostStop(hash));
      SendFollows(t, PostStop(hash));
      FollowsTrans(s, t, t1);
      var p := AfterPause(t, hash, pa);
      if pa {
        LoadFollows(t1);
        FollowsTrans(s, t1, p);
      }
      var q := p.(filesCache := p.filesCache[hash := files.files], expandedHash := Some(hash)).(filesRefresh := None);
      OutboxKeptFollows(p, q);
      FollowsTrans(s, p, q);
      var r := AfterStartRefresh(p.(filesCache := p.filesCache[hash := files.files], expandedHash := Some(hash)), hash);
      if hash != "" {
        SendFollows(q, GetFiles(hash));
        assert r == Send(q, GetFiles(hash)).(filesRefresh := Some(hash));
        OutboxKeptFollows(Send(q, GetFiles(hash)), r);
        FollowsTrans(q, Send(q, GetFiles(hash)), r);
        FollowsTrans(s, q, r);
      }
      LoadFollows(r);
      FollowsTrans(s, r, AfterLoadDownloads(r));
    } else {
      LoadFollows(t);
      FollowsTrans(s, t, AfterLoadDownloads(t));
    }
  }

  /** Events only append requests; while a downloads request is in flight, only its reply lets another one out. */
  lemma StepFollows(s: ViewState, e: Event)
    requires !e.DownloadsArrived?
    ensures Follows(s, Step(s, e))
  {
    match e
    case ApplyClicked(h, boxes, sp, up, files, ra) => ApplyFollows(s, h, boxes, sp, up, files, ra);
    case AddedTimerFired(h, files, pa) => AddedCheckFollows(s, h, files, pa);
    case ToggleClicked(h) =>
      var t := if s.expandedHash == Some(h) then AfterStopRefresh(s.(expandedHash := None))
               else AfterStartRefresh(s.(expandedHash := Some(h)), h);
      if s.expandedHash == Some(h) || h == "" {
        OutboxKeptFollows(s, t);
      } else {
        assert t == Send(s, GetFiles(h)).(expandedHash := Some(h), filesRefresh := Some(h));
        SendFollows(s, GetFiles(h));
        OutboxKeptFollows(Send(s, GetFiles(h)), t);
        FollowsTrans(s, Send(s, GetFiles(h)), t);
      }
      LoadFollows(t);
      FollowsTrans(s, t, AfterLoadDownloads(t));
    case _ => StepFollowsSimple(s, e);
  }

  lemma StepFollowsSimple(s: ViewState, e: Event)
    requires !e.DownloadsArrived? && !e.ApplyClicked? && !e.AddedTimerFired? && !e.ToggleClicked?
    ensures Follows(s, Step(s, e))
  {
    assert s.outbox[..|s.outbox|] == s.outbox;
    match e
    case FilesTimerFired(h) =>
      if s.filesRefresh == Some(h) && s.expandedHash == Some(h) { SendFollows(s, GetFiles(h)); }
    case FilesArrived(h, reply, force) =>
      var t := if reply.FilesListed? then s.(filesCache := s.filesCache[h := reply.files]) else s;
      LoadFollows(t);
    case PauseClicked(h, answered) =>
      SendFollows(s, PostStop(h));
      LoadFollows(Send(s, PostStop(h)));
      FollowsTrans(s, Send(s, PostStop(h)), AfterLoadDownloads(Send(s, PostStop(h))));
    case ResumeClicked(h, answered) =>
      SendFollows(s, PostStart(h));
      LoadFollows(Send(s, PostStart(h)));
      FollowsTrans(s, Send(s, PostStart(h)), AfterLoadDownloads(Send(s, PostStart(h))));
    case DeleteClicked(h, confirmed, delivered) =>
      var t := Send(s, PostDelete(h));
      SendFollows(s, PostDelete(h));
      var u := if t.expandedHash == Some(h) then AfterStopRefresh(t.(expandedHash := None)) else t;
      OutboxKeptFollows(t, u);
      FollowsTrans(s, t, u);
      LoadFollows(u);
      FollowsTrans(s, u, AfterLoadDownloads(u));
    case AddClicked(p, id, reply) =>
      SendFollows(s, GetAdd(p, id));
      LoadFollows(Send(s, GetAdd(p, id)));
      FollowsTrans(s, Send(s, GetAdd(p, id)), AfterLoadDownloads(Send(s, GetAdd(p, id))));
    case RefreshClicked => LoadFollows(s);
    case AutoRefreshTimerFired => LoadFollows(s);
    case AutoRefreshToggled =>
      LoadFollows(s.(autoRefreshEnabled := !s.autoRefreshEnabled));
  }

  /** A downloads reply only appends the files loads of the rows it renders. */
  lemma DownloadsReplyAppends(s: ViewState, reply: DownloadsReply)
    ensures |s.outbox| <= |AfterDownloadsReply(s, reply).outbox|
    ensures AfterDownloadsReply(s, reply).outbox[..|s.outbox|] == s.outbox
  {
    if reply.Torrents? {
      assert (s.outbox + FilesLoads(reply.hashes, s.expandedHash, s.filesCache))[..|s.outbox|] == s.outbox;
    } else {
      assert s.outbox[..|s.outbox|] == s.outbox;
    }
  }

  /** Apply sends priority 1 exactly when some box is ticked and priority 0 exactly when some box is not. */
  lemma ApplyPriorities(hash: string, boxes: seq<Checkbox>)
    ensures (exists k :: 0 <= k < |PriorityRequests(hash, Pick(boxes, true), Pick(boxes, false))|
               && PriorityRequests(hash, Pick(boxes, true), Pick(boxes, false))[k].priority == 1)
            <==> exists i :: 0 <= i < |boxes| && boxes[i].checked
    ensures (exists k :: 0 <= k < |PriorityRequests(hash, Pick(boxes, true), Pick(boxes, false))|
               && PriorityRequests(hash, Pick(boxes, true), Pick(boxes, false))[k].priority == 0)
            <==> exists i :: 0 <= i < |boxes| && !boxes[i].checked
  {
    PickNonEmpty(boxes, true);
    PickNonEmpty(boxes, false);
    var ps := PriorityRequests(hash, Pick(boxes, true), Pick(boxes, false));
    if |Pick(boxes, true)| > 0 {
      assert ps[0].priority == 1;
    }
    if |Pick(boxes, false)| > 0 {
      assert ps[|ps| - 1].priority == 0;
    }
  }

  /**
   * With every priority update delivered, no refresh in flight and no downloads reply
   * landing while Apply awaits, Apply sends the updates, the files reload, one downloads
   * request and the resume; the resume's own reload is held back by the guard.
   * `ResumeAfterLandedReply` shows what happens when a reply does land in between.
   */
  lemma ApplyDelivered(s: ViewState, hash: string, boxes: seq<Checkbox>, files: FilesReply, resumeAnswered: bool)
    requires !s.isRefreshing
    ensures AfterApply(s, hash, boxes, true, true, files, resumeAnswered).outbox ==
      s.outbox + PriorityRequests(hash, Pick(boxes, true), Pick(boxes, false)) + [GetFiles(hash), GetDownloads, PostStart(hash)]
  {
    var selected, unselected := Pick(boxes, true), Pick(boxes, false);
    var s1 := if |selected| > 0 then Send(s, SetFilePriority(hash, selected, 1)) else s;
    var s2 := if |unselected| > 0 then Send(s1, SetFilePriority(hash, unselected, 0)) else s1;
    assert s2.outbox == s.outbox + PriorityRequests(hash, selected, unselected);
    assert !s2.isRefreshing;
    var s4 := AfterFilesReply(Send(s2, GetFiles(hash)), hash, files, true);
    assert s4.outbox == s2.outbox + [GetFiles(hash), GetDownloads] && s4.isRefreshing;
  }

  /**
   * If the downloads reply started by the files reload lands before `resumeTorrent`
   * reloads, the guard is already clear and a second downloads request goes out.
   */
  lemma ResumeAfterLandedReply(s: ViewState, hash: string, files: FilesReply, message: string)
    requires !s.isRefreshing
    ensures var t := AfterFilesReply(Send(s, GetFiles(hash)), hash, files, true);
      AfterResume(AfterDownloadsReply(t, DownloadsFailed(message)), hash, true).outbox ==
        s.outbox + [GetFiles(hash), GetDownloads, PostStart(hash), GetDownloads]
  {
    var t := AfterFilesReply(Send(s, GetFiles(hash)), hash, files, true);
    assert t.outbox == s.outbox + [GetFiles(hash), GetDownloads];
    assert !AfterDownloadsReply(t, DownloadsFailed(message)).isRefreshing;
  }

  lemma {:induction false} PickNonEmpty(boxes: seq<Checkbox>, want: bool)
    ensures |Pick(boxes, want)| > 0 <==> exists i :: 0 <= i < |boxes| && boxes[i].checked == want
  {
    if boxes != [] {
      var init := boxes[..|boxes| - 1];
      PickNonEmpty(init, want);
      if exists i :: 0 <= i < |init| && init[i].checked == want {
        var i :| 0 <= i < |init| && init[i].checked == want;
        assert boxes[i] == init[i];
      }
      if exists i :: 0 <= i < |boxes| && boxes[i].checked == want {
        var i :| 0 <= i < |boxes| && boxes[i].checked == want;
        if i < |init| {
          assert init[i] == boxes[i];
        }
      }
    }
  }

  /** The two lists partition the box ids: every id lands in exactly one of them. */
  lemma {:induction false} PickPartition(boxes: seq<Checkbox>)
    ensures multiset(Pick(boxes, true)) + multiset(Pick(boxes, false)) == multiset(Ids(boxes))
    ensures |Pick(boxes, true)| + |Pick(boxes, false)| == |boxes|
  {
    if boxes != [] {
      var init := boxes[..|boxes| - 1];
      PickPartition(init);
      assert Ids(boxes) == Ids(init) + [boxes[|boxes| - 1].fileId];
    }
  }

  /** The ids of the boxes, in order. */
  function Ids(boxes: seq<Checkbox>): (r: seq<int>)
    ensures |r| == |boxes|
  {
    if boxes == [] then [] else Ids(boxes[..|boxes| - 1]) + [boxes[|boxes| - 1].fileId]
  }

  /** Order: the ids picked from a concatenation are those picked from each part, in turn. */
  lemma {:induction false} PickAppend(a: seq<Checkbox>, b: seq<Checkbox>, want: bool)
    ensures Pick(a + b, want) == Pick(a, want) + Pick(b, want)
    decreases |b|
  {
    if b == [] {
      assert a + b == a;
    } else {
      assert (a + b)[..|a + b| - 1] == a + b[..|b| - 1];
      PickAppend(a, b[..|b| - 1], want);
    }
  }

  predicate DistinctIds(boxes: seq<Checkbox>) {
    forall i, j :: 0 <= i < j < |boxes| ==> boxes[i].fileId != boxes[j].fileId
  }

  /** With distinct ids, a file's id is in the list for its box's state and not in the other. */
  lemma {:induction false} PickMembership(boxes: seq<Checkbox>, want: bool, i: nat)
    requires DistinctIds(boxes) && i < |boxes|
    ensures boxes[i].fileId in Pick(boxes, want) <==> boxes[i].checked == want
  {
    var init, last := boxes[..|boxes| - 1], boxes[|boxes| - 1];
    if i < |init| {
      assert init[i] == boxes[i];
      PickMembership(init, want, i);
      assert last.fileId != boxes[i].fileId;
    } else {
      PickAbsent(init, want, last.fileId);
    }
  }

  lemma {:induction false} PickAbsent(boxes: seq<Checkbox>, want: bool, id: int)
    requires forall k :: 0 <= k < |boxes| ==> boxes[k].fileId != id
    ensures id !in Pick(boxes, want)
  {
    if boxes != [] {
      PickAbsent(boxes[..|boxes| - 1], want, id);
    }
  }

  /** The checkboxes `renderFilesTable` draws for a file list: ticked when the priority is positive. */
  function Checkboxes(files: seq<FileEntry>): (r: seq<Checkbox>)
    ensures |r| == |files|
    ensures forall i :: 0 <= i < |files| ==>
      r[i].fileId == files[i].index && (r[i].checked <==> Format.PriorityLabel(files[i].priority) == "Normal")
  {
    seq(|files|, i requires 0 <= i < |files| => Checkbox(files[i].index, Format.PrioritySelected(files[i].priority)))
  }

  /** The state Select All gives every box: unticked when all were ticked, ticked otherwise. */
  function SelectAllTarget(boxes: seq<Checkbox>): bool {
    !(forall i :: 0 <= i < |boxes| ==> boxes[i].checked)
  }

  // ====================================================================
  // the handlers as they run
  // ====================================================================

  /** The "Select All" click: test whether every box is ticked, then set every box to the opposite. */
  method SelectAll(boxes: array<Checkbox>)
    modifies boxes
    ensures forall i :: 0 <= i < boxes.Length ==> boxes[i] == old(boxes[i]).(checked := SelectAllTarget(old(boxes[..])))
  {
    var allChecked := true;
    var i := 0;
    while i < boxes.Length && allChecked
      invariant 0 <= i <= boxes.Length
      invariant allChecked <==> forall k :: 0 <= k < i ==> boxes[k].checked
    {
      allChecked := boxes[i].checked;
      i := i + 1;
    }
    assert allChecked == !SelectAllTarget(boxes[..]);
    for j := 0 to boxes.Length
      invariant forall k :: 0 <= k < j ==> boxes[k] == old(boxes[k]).(checked := !allChecked)
      invariant forall k :: j <= k < boxes.Length ==> boxes[k] == old(boxes[k])
    {
      boxes[j] := boxes[j].(checked := !allChecked);
    }
  }

  /** Apply's first loop: the ids of the ticked boxes and of the others, each in box order. */
  method SplitSelection(boxes: seq<Checkbox>) returns (selected: seq<int>, unselected: seq<int>)
    ensures selected == Pick(boxes, true) && unselected == Pick(boxes, false)
  {
    selected, unselected := [], [];
    for i := 0 to |boxes|
      invariant selected == Pick(boxes[..i], true) && unselected == Pick(boxes[..i], false)
    {
      assert boxes[..i + 1][..i] == boxes[..i];
      if boxes[i].checked {
        selected := selected + [boxes[i].fileId];
      } else {
        unselected := unselected + [boxes[i].fileId];
      }
    }
    assert boxes[..|boxes|] == boxes;
  }

  /** The script's globals, updated in place by its handlers. */
  class DownloadsView {
    var expandedHash: Option<string>
    var filesRefresh: Option<string>
    var filesCache: map<string, seq<FileEntry>>
    var isRefreshing: bool
    var autoRefreshEnabled: bool
    var table: Table
    var outbox: seq<Request>

    function State(): ViewState
      reads this
    {
      ViewState(expandedHash, filesRefresh, filesCache, isRefreshing, autoRefreshEnabled, table, outbox)
    }

    /** The globals as declared, then the script's first `loadDownloads()`. */
    constructor ()
      ensures State() == PageLoaded()
    {
      expandedHash, filesRefresh, filesCache := None, None, map[];
      isRefreshing, autoRefreshEnabled, table, outbox := false, true, NotLoaded, [];
      new;
      var _ := LoadDownloads();
    }

    method LoadDownloads() returns (started: bool)
      modifies this
      ensures started == !old(isRefreshing)
      ensures State() == AfterLoadDownloads(old(State()))
    {
      if isRefreshing {
        return false;
      }
      isRefreshing := true;
      outbox := outbox + [GetDownloads];
      started := true;
    }

    method StopFilesAutoRefresh()
      modifies this
      ensures State() == AfterStopRefresh(old(State()))
    {
      if filesRefresh.Some? {
        filesRefresh := None;
      }
    }

    /** `loadFilesForHash(hash, …)` up to its await. */
    method LoadFilesForHash(hash: string)
      modifies this
      ensures State() == Send(old(State()), GetFiles(hash))
    {
      outbox := outbox + [GetFiles(hash)];
    }

    method StartFilesAutoRefresh(hash: string)
      modifies this
      ensures State() == AfterStartRefresh(old(State()), hash)
    {
      StopFilesAutoRefresh();
      if hash == "" {
        return;
      }
      LoadFilesForHash(hash);
      filesRefresh := Some(hash);
    }

    /** The callback of the interval started for `hash`. */
    method FilesRefreshTick(hash: string)
      requires filesRefresh == Some(hash)
      modifies this
      ensures State() == AfterFilesTick(old(State()), hash)
    {
      if expandedHash == Some(hash) {
        LoadFilesForHash(hash);
      } else {
        StopFilesAutoRefresh();
      }
    }

    /** The rest of `loadFilesForHash(hash, force)` once its reply is in. */
    method FilesReplied(hash: string, reply: FilesReply, force: bool)
      modifies this
      ensures State() == AfterFilesReply(old(State()), hash, reply, force)
    {
      if reply.FilesListed? {
        filesCache := filesCache[hash := reply.files];
      }
      if force {
        var _ := LoadDownloads();
      }
    }

    /** The rest of `loadDownloads()` once its reply is in, `renderDownloads` included. */
    method DownloadsReplied(reply: DownloadsReply)
      modifies this
      ensures State() == AfterDownloadsReply(old(State()), reply)
    {
      match reply {
        case Torrents(hs) =>
          if hs == [] {
            table := NoDownloads;
          } else {
            for i := 0 to |hs|
              invariant outbox == old(outbox) + FilesLoads(hs[..i], expandedHash, filesCache)
              invariant State() == old(State()).(outbox := outbox)
            {
              assert hs[..i + 1][..i] == hs[..i];
              if expandedHash == Some(hs[i]) && hs[i] !in filesCache {
                LoadFilesForHash(hs[i]);
              }
            }
            assert hs[..|hs|] == hs;
            table := Listed(hs);
          }
        case DownloadsRefused(error) =>
          table := ListError(ErrorText(error));
        case DownloadsFailed(message) =>
          table := FetchError(message);
      }
      isRefreshing := false;
    }

    method ToggleExpand(hash: string)
      modifies this
      ensures State() == AfterToggleExpand(old(State()), hash)
    {
      if expandedHash == Some(hash) {
        expandedHash := None;
        StopFilesAutoRefresh();
      } else {
        expandedHash := Some(hash);
        StartFilesAutoRefresh(hash);
      }
      var _ := LoadDownloads();
    }

    method PauseTorrent(hash: string, answered: bool)
      modifies this
      ensures State() == AfterPause(old(State()), hash, answered)
    {
      outbox := outbox + [PostStop(hash)];
      if answered {
        var _ := LoadDownloads();
      }
    }

    method ResumeTorrent(hash: string, answered: bool)
      modifies this
      ensures State() == AfterResume(old(State()), hash, answered)
    {
      outbox := outbox + [PostStart(hash)];
      if answered {
        var _ := LoadDownloads();
      }
    }

    method DeleteTorrent(hash: string, confirmed: bool, delivered: bool)
      modifies this
      ensures State() == AfterDelete(old(State()), hash, confirmed, delivered)
    {
      if !confirmed {
        return;
      }
      outbox := outbox + [PostDelete(hash)];
      if !delivered {
        return;
      }
      if expandedHash == Some(hash) {
        expandedHash := None;
        StopFilesAutoRefresh();
      }
      var _ := LoadDownloads();
    }

    /** The "Apply" click for the files panel of `hash`. */
    method ApplyFilePriorities(hash: string, boxes: seq<Checkbox>, selectedPost: bool, unselectedPost: bool,
                               files: FilesReply, resumeAnswered: bool)
      modifies this
      ensures State() == AfterApply(old(State()), hash, boxes, selectedPost, unselectedPost, files, resumeAnswered)
    {
      var selected, unselected := SplitSelection(boxes);
      if |selected| > 0 {
        outbox := outbox + [SetFilePriority(hash, selected, 1)];
        if !selectedPost {
          return;
        }
      }
      if |unselected| > 0 {
        outbox := outbox + [SetFilePriority(hash, unselected, 0)];
        if !unselectedPost {
          return;
        }
      }
      LoadFilesForHash(hash);
      FilesReplied(hash, files, true);
      ResumeTorrent(hash, resumeAnswered);
    }

    method AddToQb(provider: string, id: string, reply: AddReply)
      modifies this
      ensures State() == AfterAdd(old(State()), provider, id, reply)
    {
      outbox := outbox + [GetAdd(provider, id)];
      if reply.ok && reply.hash == "" {
        var _ := LoadDownloads();
      }
    }

    /** The callback of the timer `addToQb` sets for a torrent it added. */
    method AddedTorrentCheck(hash: string, files: FilesReply, pauseAnswered: bool)
      modifies this
      ensures State() == AfterAddedCheck(old(State()), hash, files, pauseAnswered)
    {
      LoadFilesForHash(hash);
      if files.FilesListed? && |files.files| > 1 {
        PauseTorrent(hash, pauseAnswered);
        filesCache := filesCache[hash := files.files];
        expandedHash := Some(hash);
        StartFilesAutoRefresh(hash);
        var _ := LoadDownloads();
      } else {
        var _ := LoadDownloads();
      }
    }

    method AutoRefreshTick()
      modifies this
      ensures State() == AfterAutoRefreshTick(old(State()))
    {
      if autoRefreshEnabled {
        var _ := LoadDownloads();
      }
    }

    method ToggleAutoRefresh()
      modifies this
      ensures State() == AfterAutoRefreshToggle(old(State()))
    {
      autoRefreshEnabled := !autoRefreshEnabled;
      if autoRefreshEnabled {
        var _ := LoadDownloads();
      }
    }
  }
}
