/**
 * The per-URL script loader of `Pag/utils/loadScript.ts`.
 *
 * A module-level map from URL to a `ScriptState` record (two flags and two
 * callback queues) is updated by three events: a call of `loadScript`, and the
 * `onload` / `onerror` handlers of the one script element that a fresh request
 * appends to the document head. Callbacks are opaque identifiers; the order in
 * which they run is recorded in the trace `calls`.
 */
module ScriptLoader {
  import opened Options

  type Url = string

  /** An opaque identity for a callback function passed to `loadScript`. */
  type CallbackId = nat

  /** The state kept per URL: `loaded`, `loading` and the two callback queues. */
  datatype ScriptState = ScriptState(
    loaded: bool,
    loading: bool,
    callbacks: seq<CallbackId>,
    errorCallbacks: seq<CallbackId>)

  /** One run of a callback: a success callback, or an error callback given the error event. */
  datatype Call = Success(id: CallbackId) | Failure(id: CallbackId)

  /** What every reachable state satisfies. */
  predicate Consistent(s: ScriptState) {
    && !(s.loaded && s.loading)
    // `onload` empties the success queue, and later requests run at once
    && (s.loaded ==> s.callbacks == [])
    // `onerror` empties the error queue
    && (!s.loaded && !s.loading ==> s.errorCallbacks == [])
  }

  /** `state?.loaded`: false when the URL has never been requested. */
  predicate IsLoaded(m: map<Url, ScriptState>, url: Url) {
    url in m && m[url].loaded
  }

  /** `state?.loading`: false when the URL has never been requested. */
  predicate IsLoading(m: map<Url, ScriptState>, url: Url) {
    url in m && m[url].loading
  }

  /** The runs produced by `forEach` over a queue: each callback once, in queue order. */
  function Invoke(ids: seq<CallbackId>, succeeded: bool): (r: seq<Call>)
    ensures |r| == |ids|
    ensures forall k :: 0 <= k < |ids| ==>
      r[k] == (if succeeded then Success(ids[k]) else Failure(ids[k]))
  {
    if ids == [] then []
    else [if succeeded then Success(ids[0]) else Failure(ids[0])] + Invoke(ids[1..], succeeded)
  }

  /** Running a queue that was extended by one callback runs that callback last. */
  lemma InvokeSnoc(ids: seq<CallbackId>, id: CallbackId, succeeded: bool)
    ensures Invoke(ids + [id], succeeded)
         == Invoke(ids, succeeded) + [if succeeded then Success(id) else Failure(id)]
  {
  }

  /** The loader: the module-level `scriptStates` map and what the browser and the callbacks observe. */
  class ScriptLoader {
    /** `scriptStates` */
    var scriptStates: map<Url, ScriptState>
    /** Every callback run so far, in order. */
    var calls: seq<Call>
    /** The URLs of the script elements appended to `document.head`, in order. */
    var scripts: seq<Url>

    predicate Valid()
      reads this
    {
      && (forall u :: u in scriptStates ==> Consistent(scriptStates[u]))
      && (forall u :: u in scriptStates ==> u in scripts)
    }

    constructor ()
      ensures Valid()
      ensures scriptStates == map[] && calls == [] && scripts == []
    {
      scriptStates := map[];
      calls := [];
      scripts := [];
    }

    /**
     * `loadScript(url, callback, errorCallback?)`. A loaded URL runs the
     * callback at once; a loading URL queues the callbacks; otherwise (never
     * requested, or failed) a new state replaces the old one and one script
     * element is appended.
     */
    method LoadScript(url: Url, callback: CallbackId, errorCallback: Option<CallbackId>)
      requires Valid()
      modifies this
      ensures Valid()
      ensures url in scriptStates
      // every other URL keeps its entry, or keeps having none
      ensures forall u :: u != url ==>
        (u in scriptStates <==> u in old(scriptStates)) &&
        (u in scriptStates ==> scriptStates[u] == old(scriptStates)[u])
      ensures IsLoaded(old(scriptStates), url) ==>
        && scriptStates == old(scriptStates)
        && calls == old(calls) + [Success(callback)]
        && scripts == old(scripts)
      ensures !IsLoaded(old(scriptStates), url) && IsLoading(old(scriptStates), url) ==>
        && scriptStates[url] == old(scriptStates)[url].(
             callbacks := old(scriptStates)[url].callbacks + [callback],
             errorCallbacks := old(scriptStates)[url].errorCallbacks + AsSeq(errorCallback))
        && calls == old(calls)
        && scripts == old(scripts)
      ensures !IsLoaded(old(scriptStates), url) && !IsLoading(old(scriptStates), url) ==>
        && scriptStates[url] == ScriptState(false, true, [callback], AsSeq(errorCallback))
        && calls == old(calls)
        && scripts == old(scripts) + [url]
    {
      if url in scriptStates && scriptStates[url].loaded {
        calls := calls + [Success(callback)];
      } else if url in scriptStates && scriptStates[url].loading {
        var state := scriptStates[url];
        state := state.(callbacks := state.callbacks + [callback]);
        if errorCallback.Some? {
          state := state.(errorCallbacks := state.errorCallbacks + [errorCallback.value]);
        }
        scriptStates := scriptStates[url := state];
      } else {
        var state := ScriptState(false, true, [callback], AsSeq(errorCallback));
        scriptStates := scriptStates[url := state];
        scripts := scripts + [url];
      }
    }

    /**
     * The `onload` handler of the script element created for `url`. It fires
     * once, while that request is still loading; the state it captured is then
     * the map's entry, since an entry is replaced only when it is not loading.
     */
    method OnLoad(url: Url)
      requires Valid()
      requires IsLoading(scriptStates, url)
      modifies this
      ensures Valid()
      ensures scriptStates == old(scriptStates)[url := old(scriptStates)[url].(
                loaded := true, loading := false, callbacks := [])]
      ensures calls == old(calls) + Invoke(old(scriptStates)[url].callbacks, true)
      ensures scripts == old(scripts)
    {
      var state := scriptStates[url].(loaded := true, loading := false);
      scriptStates := scriptStates[url := state];
      var queue := state.callbacks;
      var i := 0;
      while i < |queue|
        invariant 0 <= i <= |queue|
        invariant calls == old(calls) + Invoke(queue[..i], true)
        invariant scriptStates == old(scriptStates)[url := state]
        invariant scripts == old(scripts)
      {
        InvokeSnoc(queue[..i], queue[i], true);
        assert queue[..i + 1] == queue[..i] + [queue[i]];
        calls := calls + [Success(queue[i])];
        i := i + 1;
      }
      assert queue[..i] == queue;
      scriptStates := scriptStates[url := state.(callbacks := [])];
    }

    /**
     * The `onerror` handler of the script element created for `url`: both
     * flags cleared, every queued error callback run once in order, the error
     * queue emptied. The success queue is left as it is.
     */
    method OnError(url: Url)
      requires Valid()
      requires IsLoading(scriptStates, url)
      modifies this
      ensures Valid()
      ensures scriptStates == old(scriptStates)[url := old(scriptStates)[url].(
                loaded := false, loading := false, errorCallbacks := [])]
      ensures calls == old(calls) + Invoke(old(scriptStates)[url].errorCallbacks, false)
      ensures scripts == old(scripts)
    {
      var state := scriptStates[url].(loaded := false, loading := false);
      scriptStates := scriptStates[url := state];
      var queue := state.errorCallbacks;
      var i := 0;
      while i < |queue|
        invariant 0 <= i <= |queue|
        invariant calls == old(calls) + Invoke(queue[..i], false)
        invariant scriptStates == old(scriptStates)[url := state]
        invariant scripts == old(scripts)
      {
        InvokeSnoc(queue[..i], queue[i], false);
        assert queue[..i + 1] == queue[..i] + [queue[i]];
        calls := calls + [Failure(queue[i])];
        i := i + 1;
      }
      assert queue[..i] == queue;
      scriptStates := scriptStates[url := state.(errorCallbacks := [])];
    }
  }

  /**
   * Two components sharing one URL: the second request only queues, one
   * script element serves both, and `onload` runs both callbacks in request
   * order; a third request afterwards runs at once.
   */
  method SharedLoadScenario(url: Url) returns (calls: seq<Call>, scripts: seq<Url>)
    ensures calls == [Success(1), Success(2), Success(3)]
    ensures scripts == [url]
  {
    var loader := new ScriptLoader();
    loader.LoadScript(url, 1, None);
    loader.LoadScript(url, 2, Some(20));
    loader.OnLoad(url);
    assert loader.calls == [Success(1), Success(2)];
    loader.LoadScript(url, 3, None);
    calls, scripts := loader.calls, loader.scripts;
  }

  /**
   * A failed load: the error callbacks run, the queued success callbacks never
   * do, and the next request starts over with a second script element.
   */
  method RetryAfterErrorScenario(url: Url) returns (calls: seq<Call>, scripts: seq<Url>, state: ScriptState)
    ensures calls == [Failure(10)]
    ensures scripts == [url, url]
    ensures state == ScriptState(false, true, [2], [])
  {
    var loader := new ScriptLoader();
    loader.LoadScript(url, 1, Some(10));
    loader.OnError(url);
    assert loader.calls == [Failure(10)];
    loader.LoadScript(url, 2, None);
    calls, scripts, state := loader.calls, loader.scripts, loader.scriptStates[url];
  }
}
