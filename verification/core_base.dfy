/**
 * `BaseProvider` of the older package (`packages/core/providers/base.ts`). Its configuration
 * merge is the one in `ProviderConfig`; what is its own is `handleProgress`, which keeps, per
 * component, the largest `loaded` value seen so far in the `progress` record.
 */
module CoreBase {
  import opened Types

  /** The performance part of `detectCapabilities`: the same for every model. */
  const DetectedPerformance: Performance := FullPerformance(true, false, AutoDtype)

  /**
   * What the library calls made by a provider's `loadModel` come back with: the capability
   * detection (which needs a network fetch of the model's config and is not modelled beyond its
   * outcome), the tokenizer load and the model load; when both loads fail,
   * `tokenizerFailsFirst` says which rejection `Promise.all` reports.
   */
  datatype LoadOutcomes = LoadOutcomes(
    detected: Result<Capabilities>, tokenizer: Result<()>, instance: Result<()>, tokenizerFailsFirst: bool)

  /** One entry of `this.progress`. */
  datatype Progress = Progress(loaded: real, total: real)

  /** The entry `handleProgress` starts a component with. */
  const Initial: Progress := Progress(0.0, 0.0)

  /** The entry of `component` after one call: created if missing, `loaded` raised when the event reports more. */
  function Track(progress: map<string, Progress>, component: string, info: ProgressEvent): Progress
  {
    var entry := if component in progress then progress[component] else Initial;
    if info.status == "progress" && info.loaded.Some? && info.loaded.value > entry.loaded
    then entry.(loaded := info.loaded.value)
    else entry
  }

  /** The whole record after one call. */
  function Tracked(progress: map<string, Progress>, component: string, info: ProgressEvent): map<string, Progress>
  {
    progress[component := Track(progress, component, info)]
  }

  /** The recorded `loaded` never goes down and `total` never changes once the entry exists. */
  lemma TrackMonotone(progress: map<string, Progress>, component: string, info: ProgressEvent)
    requires component in progress
    ensures Tracked(progress, component, info)[component].loaded >= progress[component].loaded
    ensures Tracked(progress, component, info)[component].total == progress[component].total
  {
  }

  /** The first call for a component creates its entry as `{loaded: 0, total: 0}`, raised by a progress event. */
  lemma TrackFirst(progress: map<string, Progress>, component: string, info: ProgressEvent)
    requires component !in progress
    ensures Tracked(progress, component, info)[component].total == 0.0
    ensures Tracked(progress, component, info)[component].loaded ==
      if info.status == "progress" && info.loaded.Some? && info.loaded.value > 0.0 then info.loaded.value else 0.0
  {
  }

  /** `loaded` moves only on a `progress` event reporting a strictly larger value, and then to that value. */
  lemma TrackOnlyProgress(progress: map<string, Progress>, component: string, info: ProgressEvent)
    requires component in progress
    ensures Tracked(progress, component, info)[component].loaded != progress[component].loaded <==>
      info.status == "progress" && info.loaded.Some? && info.loaded.value > progress[component].loaded
    ensures Tracked(progress, component, info)[component].loaded != progress[component].loaded ==>
      Tracked(progress, component, info)[component].loaded == info.loaded.value
  {
  }

  /** Entries of other components are untouched. */
  lemma TrackOthers(progress: map<string, Progress>, component: string, info: ProgressEvent, other: string)
    requires other != component
    ensures other in Tracked(progress, component, info) <==> other in progress
    ensures other in progress ==> Tracked(progress, component, info)[other] == progress[other]
  {
  }

  /** The progress bookkeeping of one provider instance. */
  class ProgressTracker {
    /** `this.progress` */
    var progress: map<string, Progress>

    constructor ()
      ensures progress == map[]
    {
      progress := map[];
    }

    /**
     * `handleProgress(component, info, callback)`. The result is the argument the callback is
     * called with: every event, whatever its status, when a callback was given.
     */
    method HandleProgress(component: string, info: ProgressEvent, hasCallback: bool) returns (call: Option<ProgressEvent>)
      modifies this
      ensures progress == Tracked(old(progress), component, info)
      ensures call == if hasCallback then Some(info) else None
    {
      if component !in progress {
        progress := progress[component := Initial];
      }
      if info.status == "progress" && info.loaded.Some? && info.loaded.value > progress[component].loaded {
        progress := progress[component := progress[component].(loaded := info.loaded.value)];
      }
      call := if hasCallback then Some(info) else None;
    }
  }

  /** Every entry of `before` is still in `after`, with `loaded` no smaller and `total` unchanged. */
  predicate NoLoss(before: map<string, Progress>, after: map<string, Progress>)
  {
    forall c :: c in before ==> c in after && after[c].loaded >= before[c].loaded && after[c].total == before[c].total
  }

  /** The record after a sequence of calls, each a component and its event. */
  function Replay(progress: map<string, Progress>, events: seq<(string, ProgressEvent)>): map<string, Progress>
    decreases |events|
  {
    if events == [] then progress
    else Replay(Tracked(progress, events[0].0, events[0].1), events[1..])
  }

  /** However many events arrive, no component loses its entry or any of its recorded progress. */
  lemma {:induction false} ReplayNoLoss(progress: map<string, Progress>, events: seq<(string, ProgressEvent)>)
    ensures NoLoss(progress, Replay(progress, events))
    decreases |events|
  {
    if events != [] {
      var next := Tracked(progress, events[0].0, events[0].1);
      forall c | c in progress ensures c in next && next[c].loaded >= progress[c].loaded && next[c].total == progress[c].total {
        if c != events[0].0 {
          TrackOthers(progress, events[0].0, events[0].1, c);
        } else {
          TrackMonotone(progress, c, events[0].1);
        }
      }
      ReplayNoLoss(next, events[1..]);
    }
  }
}
