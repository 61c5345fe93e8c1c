/** The results panel: a local copy of the store's state, the results it fetched or adopted,
    and the choice between the error, progress, welcome and results views. */
module ResultsPanel {
  import opened Text
  import opened Multipart
  import opened Store
  import opened ProcessRoute

  // ---------------------------------------------------------------------------
  // The panel's copy of the store's state

  /** The local `processingState`: null before mount and whenever a listener is told null,
      `{}` when the store was empty at mount, otherwise a copy of the store's record. */
  datatype Snapshot = NoSnapshot | EmptyRecord | StateOf(state: ProcessingState)

  /** `store.getState() || {}` at mount. */
  function Initial(s: Option<ProcessingState>): (r: Snapshot)
    ensures r != NoSnapshot
    ensures s.Some? <==> r.StateOf?
  {
    if s.Some? then StateOf(s.value) else EmptyRecord
  }

  /** What the subscribed listener stores when told `s`. */
  function Received(s: Option<ProcessingState>): (r: Snapshot)
    ensures r != EmptyRecord
    ensures s.Some? <==> r.StateOf?
  {
    if s.Some? then StateOf(s.value) else NoSnapshot
  }

  /** `processingState?.status`: undefined for null and for `{}`. */
  function StatusOf(snap: Snapshot): (r: Option<Status>)
    ensures r.Some? <==> snap.StateOf?
  {
    if snap.StateOf? then Some(snap.state.status) else None
  }

  /** Each optional field of the copy reads as undefined on null and on `{}`. */
  function ResultsOf(snap: Snapshot): Option<Results> {
    if snap.StateOf? then snap.state.results else None
  }

  function ErrorOf(snap: Snapshot): Option<string> {
    if snap.StateOf? then snap.state.error else None
  }

  function MessageOf(snap: Snapshot): Option<string> {
    if snap.StateOf? then snap.state.message else None
  }

  function ProgressOf(snap: Snapshot): Option<int> {
    if snap.StateOf? then snap.state.progress else None
  }

  // ---------------------------------------------------------------------------
  // Which view is rendered

  datatype View = ErrorView | ProgressView | WelcomeView | ResultsView

  /** A status for which the progress view is shown. */
  predicate InFlight(st: Option<Status>) {
    st == Some(Preparing) || st == Some(Uploading) || st == Some(Processing)
  }

  /** The render's cascade of early returns. */
  function SelectView(error: Option<string>, loading: bool, snap: Snapshot, results: Option<Results>): View {
    if Truthy(error) then ErrorView
    else if loading || InFlight(StatusOf(snap)) then ProgressView
    else if snap.NoSnapshot? || StatusOf(snap) == Some(Idle) || results.None? then WelcomeView
    else ResultsView
  }

  /** The results view needs fetched or adopted results and a state that is neither missing,
      idle nor in flight; an error hides every other view; while a request is out the
      progress view is shown. */
  lemma ViewConditions(error: Option<string>, loading: bool, snap: Snapshot, results: Option<Results>)
    ensures SelectView(error, loading, snap, results) == ErrorView <==> Truthy(error)
    ensures SelectView(error, loading, snap, results) == ResultsView <==>
      && !Truthy(error) && !loading && results.Some? && snap != NoSnapshot
      && StatusOf(snap) in {None, Some(Completed), Some(Error)}
    ensures !Truthy(error) && loading ==> SelectView(error, loading, snap, results) == ProgressView
  {
    var st := StatusOf(snap);
    if st.Some? {
      assert st.value == Idle || InFlight(st) || st.value == Completed || st.value == Error;
    }
  }

  const PREPARING_TITLE: string := "\U{51C6}\U{5907}\U{4E2D}"
  const UPLOADING_TITLE: string := "\U{4E0A}\U{4F20}\U{4E2D}"
  const PROCESSING_TITLE: string := "\U{5904}\U{7406}\U{4E2D}"

  /** The card title and description of the progress view. */
  function ProgressHeading(st: Option<Status>): (string, string) {
    if st == Some(Preparing) then (PREPARING_TITLE, "\U{6B63}\U{5728}\U{51C6}\U{5907}\U{4E0A}\U{4F20}\U{89C6}\U{9891}...")
    else if st == Some(Uploading) then (UPLOADING_TITLE, "\U{6B63}\U{5728}\U{4E0A}\U{4F20}\U{89C6}\U{9891}\U{5230}\U{670D}\U{52A1}\U{5668}...")
    else (PROCESSING_TITLE, "\U{7B49}\U{5F85}\U{5206}\U{6790}\U{5B8C}\U{6210}...")
  }

  /** Each in-flight phase has its own title, so the title tells the phase; a loading panel
      whose copy is not in flight shows the processing title. */
  lemma ProgressTitles(st1: Option<Status>, st2: Option<Status>)
    requires InFlight(st1) && InFlight(st2)
    ensures ProgressHeading(st1).0 == ProgressHeading(st2).0 <==> st1 == st2
    ensures ProgressHeading(None).0 == ProgressHeading(Some(Processing)).0
  {
    assert PREPARING_TITLE[0] != UPLOADING_TITLE[0];
    assert PREPARING_TITLE[0] != PROCESSING_TITLE[0];
    assert UPLOADING_TITLE[0] != PROCESSING_TITLE[0];
  }

  const DEFAULT_STATUS_MESSAGE: string := "\U{89C6}\U{9891}\U{5206}\U{6790}\U{6B63}\U{5728}\U{8FDB}\U{884C}\U{4E2D}..."

  /** The progress view's text: the state's message when it is non-empty, else the default. */
  function StatusMessage(snap: Snapshot): string {
    OrElse(MessageOf(snap), DEFAULT_STATUS_MESSAGE)
  }

  /** The value of the progress bar, or None when the bar is hidden: a progress of 0 is
      falsy and hides the bar like a missing one. */
  function ProgressBar(snap: Snapshot): Option<int> {
    var p := ProgressOf(snap);
    if p.Some? && p.value != 0 then p else None
  }

  /** The bar shows exactly the state's progress, and only when there is a non-zero one;
      the message is never empty. */
  lemma ProgressDisplay(snap: Snapshot)
    ensures ProgressBar(snap).Some? <==> snap.StateOf? && snap.state.progress.Some? && snap.state.progress.value != 0
    ensures ProgressBar(snap).Some? ==> ProgressBar(snap) == snap.state.progress
    ensures StatusMessage(snap) != ""
    ensures Truthy(MessageOf(snap)) ==> StatusMessage(snap) == snap.state.message.value
  {
    assert DEFAULT_STATUS_MESSAGE != "";
  }

  // ---------------------------------------------------------------------------
  // The results view's derived values

  /** The badge on the errors tab: shown when the job reports errors, holding
      `errors?.length || 0`. */
  function ErrorBadge(r: Results): (b: Option<nat>)
    ensures b.Some? <==> r.hasErrors
  {
    if !r.hasErrors then None
    else if r.errors.Some? then Some(|r.errors.value|)
    else Some(0)
  }

  /** The errors tab lists the per-video errors only when there are some. */
  predicate ListsErrors(r: Results) {
    r.hasErrors && r.errors.Some? && |r.errors.value| > 0
  }

  /** When the list is shown the badge counts its entries; a badge of 0 comes with the
      "no errors" text instead. */
  lemma BadgeMatchesList(r: Results)
    ensures ListsErrors(r) ==> ErrorBadge(r) == Some(|r.errors.value|) && ErrorBadge(r).value > 0
    ensures r.hasErrors && !ListsErrors(r) ==> ErrorBadge(r) == Some(0)
  {
  }

  /** `results.videos?.[0]?.split("/").pop()`: the last path segment of the first video. */
  function DisplayedVideoName(r: Results): (name: Option<string>)
    ensures name.None? <==> r.videos.None? || r.videos.value == []
    ensures name.Some? ==> r.videos.Some? && r.videos.value != [] && IsLastSegment(r.videos.value[0], '/', name.value)
  {
    if r.videos.Some? && r.videos.value != [] then
      var path := r.videos.value[0];
      var tail := LastSegment(path, '/');
      Some(tail)
    else None
  }

  /** A per-video error gets the MediaPipe troubleshooting hint when its text mentions MediaPipe. */
  predicate ShowsMediaPipeHint(e: ErrorInfo) {
    Includes(e.error, "MediaPipe")
  }

  /** The hint is shown exactly when "MediaPipe" occurs somewhere in the error text. */
  lemma MediaPipeHintOccurs(e: ErrorInfo)
    ensures ShowsMediaPipeHint(e) <==> exists i: nat :: OccursAt(e.error, "MediaPipe", i)
  {
    IncludesOccurs(e.error, "MediaPipe");
  }

  // ---------------------------------------------------------------------------
  // The panel's own state as a value, and what the effects do to it

  /** `results`, `error` and `selectedVideo`. */
  datatype Local = Local(results: Option<Results>, error: Option<string>, selectedVideo: string)

  /** The first video of a results record, when it lists any. */
  function FirstVideo(r: Results): Option<string> {
    if r.videos.Some? && |r.videos.value| > 0 then Some(r.videos.value[0]) else None
  }

  /** Takes the results of `r`, selecting its first video when it has one. */
  function TakeResults(l: Local, r: Results): Local {
    var v := FirstVideo(r);
    l.(results := Some(r), selectedVideo := if v.Some? then v.value else l.selectedVideo)
  }

  /** The effect that copies results and an error from the store into empty local slots. */
  function Adopt(snap: Snapshot, l: Local): Local {
    var withResults := if ResultsOf(snap).Some? && l.results.None? then TakeResults(l, ResultsOf(snap).value) else l;
    if Truthy(ErrorOf(snap)) && !Truthy(withResults.error) then withResults.(error := ErrorOf(snap)) else withResults
  }

  /** Adoption never overwrites what the panel already has, fills what it lacks, and running
      it again (as the effect does whenever results or error change) changes nothing. */
  lemma AdoptionRules(snap: Snapshot, l: Local)
    ensures l.results.Some? ==> Adopt(snap, l).results == l.results && Adopt(snap, l).selectedVideo == l.selectedVideo
    ensures l.results.None? ==> Adopt(snap, l).results == ResultsOf(snap)
    ensures Truthy(l.error) ==> Adopt(snap, l).error == l.error
    ensures !Truthy(l.error) && Truthy(ErrorOf(snap)) ==> Adopt(snap, l).error == ErrorOf(snap)
    ensures Adopt(snap, Adopt(snap, l)) == Adopt(snap, l)
  {
  }

  /** The reply to `/api/results?jobId=…`: a failed fetch (or an unreadable body), a
      non-OK status with its `error` field, or an OK body. */
  datatype ResultsReply =
    | FetchFailed
    | NotOk(error: Option<string>)
    | Answer(status: string, results: Option<Results>, error: Option<string>)

  const FETCH_FAILED_MESSAGE: string := "Failed to fetch results"
  const PROCESSING_FAILED_MESSAGE: string := "Processing failed"
  const CONNECT_FAILED_MESSAGE: string := "Failed to connect to the server"

  /** The store calls fetchResults makes for a reply. */
  function FetchedOps(reply: ResultsReply): seq<StoreOp> {
    if reply.Answer? && reply.status == "completed" && reply.results.Some? then [UpdateOp(Completing(reply.results))]
    else if reply.Answer? && reply.status == "error" then [UpdateOp(Failing(reply.error))]
    else []
  }

  /** The panel's state once fetchResults has handled a reply. `l` is the panel as the reply
      finds it: the request cleared the error, but the adoption effect may have copied the
      store's error back in the meantime, and only a failing reply writes the error again. */
  function Fetched(l: Local, reply: ResultsReply): Local {
    match reply
    case FetchFailed => l.(error := Some(CONNECT_FAILED_MESSAGE))
    case NotOk(e) => l.(error := Some(OrElse(e, FETCH_FAILED_MESSAGE)))
    case Answer(status, results, e) =>
      if status == "completed" && results.Some? then TakeResults(l, results.value)
      else if status == "error" then l.(error := Some(OrElse(e, PROCESSING_FAILED_MESSAGE)))
      else l
  }

  /** Every failing reply leaves a non-empty error, so the error view follows, and changes
      nothing else; a completed reply with results takes those results and keeps whatever
      error the panel held; any other OK reply leaves the panel and the store alone. */
  lemma FetchOutcomes(l: Local, reply: ResultsReply)
    ensures reply.FetchFailed? || reply.NotOk? || (reply.Answer? && reply.status == "error") ==>
      Truthy(Fetched(l, reply).error) && Fetched(l, reply) == l.(error := Fetched(l, reply).error)
    ensures reply.NotOk? && Truthy(reply.error) ==> Fetched(l, reply).error == reply.error
    ensures reply.Answer? && reply.status == "completed" && reply.results.Some? ==>
      Fetched(l, reply).error == l.error && Fetched(l, reply).results == reply.results
    ensures reply.Answer? && reply.status != "error" && !(reply.status == "completed" && reply.results.Some?) ==>
      Fetched(l, reply) == l && FetchedOps(reply) == []
  {
    assert CONNECT_FAILED_MESSAGE != "" && FETCH_FAILED_MESSAGE != "" && PROCESSING_FAILED_MESSAGE != "";
  }

  /** The request for a reply that completes the job with results: the store's record becomes
      completed with those results, and once the panel has received it (and the adoption effect
      has run) it holds those results. The results view is shown exactly when neither the
      panel nor the record holds an error; otherwise the error view shows the panel's error,
      or else the record's. */
  lemma CompletedFetchShowsResults(s: ProcessingState, l: Local, r: Results, e: Option<string>)
    ensures var reply := Answer("completed", Some(r), e);
      var st := ApplyOps(Some(s), FetchedOps(reply));
      var after := Adopt(Received(st), Fetched(l, reply));
      && st == Some(s.(status := Completed, results := Some(r)))
      && after.results == Some(r)
      && (SelectView(after.error, false, Received(st), after.results) == ResultsView
          <==> !Truthy(l.error) && !Truthy(s.error))
      && (Truthy(l.error) || Truthy(s.error) ==>
            SelectView(after.error, false, Received(st), after.results) == ErrorView
            && after.error == (if Truthy(l.error) then l.error else s.error))
  {
    var reply := Answer("completed", Some(r), e);
    assert FetchedOps(reply) == [UpdateOp(Completing(Some(r)))];
    assert ApplyOps(Some(s), FetchedOps(reply)) == ApplyOps(Some(Merge(s, Completing(Some(r)))), []);
  }

  /** A reply reporting an error marks the store's record failed with the reported error and
      puts the panel in the error view with that error, or "Processing failed" without one. */
  lemma ErrorFetchShowsError(s: ProcessingState, l: Local, e: Option<string>)
    ensures var reply := Answer("error", None, e);
      var st := ApplyOps(Some(s), FetchedOps(reply));
      var after := Adopt(Received(st), Fetched(l, reply));
      && st == Some(s.(status := Error, error := e))
      && after.error == Some(OrElse(e, PROCESSING_FAILED_MESSAGE))
      && SelectView(after.error, false, Received(st), after.results) == ErrorView
  {
    var reply := Answer("error", None, e);
    assert "error" != "completed";
    assert FetchedOps(reply) == [UpdateOp(Failing(e))];
    assert ApplyOps(Some(s), FetchedOps(reply)) == ApplyOps(Some(Merge(s, Failing(e))), []);
    FailingKeepsOthers(s, e);
    assert PROCESSING_FAILED_MESSAGE != "";
  }

  /** The panel asks for results when its copy has a job id and is processing or completed. */
  predicate ShouldFetch(snap: Snapshot) {
    snap.StateOf? && Truthy(snap.state.id) && snap.state.status in {Processing, Completed}
  }

  /** When the upload route answers 200 with a job id, a panel that received the record the
      route left in its store would ask for results and show the progress view meanwhile. The
      route's store and the panel's are separate instances in the app, so this composes the
      two as if they shared one register. */
  lemma StartedJobIsFetched(fd: FormData, backend: Backend, s0: Option<ProcessingState>, l: Local)
    requires PostSpec(Parsed(fd), backend).response.code == 200
    requires var body := PostSpec(Parsed(fd), backend).response.body; body.StartedBody? && Truthy(body.id)
    requires !Truthy(l.error)
    ensures var snap := Received(ApplyOps(s0, PostSpec(Parsed(fd), backend).ops));
      && ShouldFetch(snap)
      && SelectView(l.error, false, snap, l.results) == ProgressView
  {
    var o := PostSpec(Parsed(fd), backend);
    SuccessRecorded(fd, backend, s0);
    ProcessingRecordFetched(ApplyOps(s0, o.ops), l);
  }

  lemma ProcessingRecordFetched(st: Option<ProcessingState>, l: Local)
    requires st.Some? && st.value.status == Processing && Truthy(st.value.id)
    requires !Truthy(l.error)
    ensures ShouldFetch(Received(st)) && SelectView(l.error, false, Received(st), l.results) == ProgressView
  {
  }

  /** After "return" from the error view the store holds `{ status: "idle" }`, and the panel
      that received it shows the welcome view whatever results it kept. */
  lemma ReturnShowsWelcome(l: Local)
    ensures var snap := Received(Some(Bare(Idle, None)));
      var after := Adopt(snap, l.(error := None));
      && !ShouldFetch(snap)
      && SelectView(after.error, false, snap, after.results) == WelcomeView
  {
  }

  // ---------------------------------------------------------------------------
  // The component

  class Panel {
    const store: ProcessingStore
    /** The identity of the listener the panel registered. */
    const listener: ListenerId
    var snapshot: Snapshot
    var results: Option<Results>
    var loading: bool
    var error: Option<string>
    var selectedVideo: string

    function Current(): Local
      reads this
    {
      Local(results, error, selectedVideo)
    }

    function View(): View
      reads this
    {
      SelectView(error, loading, snapshot, results)
    }

    /** Mounting: the initial state, then the subscribe effect. */
    constructor (store: ProcessingStore, listener: ListenerId)
      modifies store`listeners
      ensures this.store == store && this.listener == listener
      ensures snapshot == Initial(old(store.processingState))
      ensures Current() == Local(None, None, "") && !loading
      ensures store.listeners == old(store.listeners) + [listener]
    {
      this.store := store;
      this.listener := listener;
      results := None;
      loading := false;
      error := None;
      selectedVideo := "";
      snapshot := Initial(store.processingState);
      new;
      store.Subscribe(listener);
    }

    /** The subscribed listener. */
    method OnStoreChange(s: Option<ProcessingState>)
      modifies this`snapshot
      ensures snapshot == Received(s)
    {
      snapshot := Received(s);
    }

    /** The cleanup of the subscribe effect. */
    method Unmount()
      modifies store`listeners
      ensures store.listeners == Without(old(store.listeners), listener)
    {
      store.Unsubscribe(listener);
    }

    /** The fetch effect: sends the request (loading on, error cleared) when the copy has a
      job id and is processing or completed. */
    method RequestResults() returns (sent: bool)
      modifies this`loading, this`error
      ensures sent == ShouldFetch(snapshot)
      ensures sent ==> loading && error == None
      ensures !sent ==> loading == old(loading) && error == old(error)
    {
      sent := snapshot.StateOf? && Truthy(snapshot.state.id) && snapshot.state.status in {Processing, Completed};
      if sent {
        loading := true;
        error := None;
      }
    }

    /** fetchResults once the reply has arrived: the panel's state and the store calls. */
    method ReceiveResults(reply: ResultsReply)
      modifies this`results, this`error, this`selectedVideo, this`loading, store
      ensures Current() == Fetched(old(Current()), reply) && !loading
      ensures store.listeners == old(store.listeners)
      ensures Performed(store, old(store.processingState), old(store.delivered), FetchedOps(reply))
    {
      ghost var s0, d0 := store.processingState, store.delivered;
      match reply {
        case FetchFailed =>
          error := Some(CONNECT_FAILED_MESSAGE);
        case NotOk(e) =>
          error := Some(OrElse(e, FETCH_FAILED_MESSAGE));
        case Answer(status, r, e) =>
          if status == "completed" && r.Some? {
            results := r;
            if r.value.videos.Some? && |r.value.videos.value| > 0 {
              selectedVideo := r.value.videos.value[0];
            }
            Perform(store, UpdateOp(Completing(r)), s0, d0, []);
            assert [] + [UpdateOp(Completing(r))] == FetchedOps(reply);
          } else if status == "error" {
            error := Some(OrElse(e, PROCESSING_FAILED_MESSAGE));
            Perform(store, UpdateOp(Failing(e)), s0, d0, []);
            assert [] + [UpdateOp(Failing(e))] == FetchedOps(reply);
          }
      }
      loading := false;
    }

    /** The effect that shows results and an error already in the store. */
    method AdoptStoreState()
      modifies this`results, this`error, this`selectedVideo
      ensures Current() == Adopt(snapshot, old(Current()))
    {
      var fromStore := ResultsOf(snapshot);
      if fromStore.Some? && results.None? {
        results := fromStore;
        if fromStore.value.videos.Some? && |fromStore.value.videos.value| > 0 {
          selectedVideo := fromStore.value.videos.value[0];
        }
      }
      var storeError := ErrorOf(snapshot);
      if Truthy(storeError) && !Truthy(error) {
        error := storeError;
      }
    }

    /** The error view's "return" button: clears the error and resets the store to idle. */
    method ReturnFromError()
      modifies this`error, store
      ensures error == None
      ensures store.processingState == Some(Bare(Idle, None)) && store.listeners == old(store.listeners)
      ensures store.delivered == old(store.delivered) + Broadcast(store.listeners, Some(Bare(Idle, None)))
    {
      error := None;
      store.SetProcessingState(Some(Bare(Idle, None)));
    }
  }
}
