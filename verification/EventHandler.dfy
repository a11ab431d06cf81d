/** Dispatch of watch callbacks into the state store, the published documents, and the diagnostic event list. */
module EventHandler {
  import opened Prelude
  import opened Kubernetes
  import opened StoreState
  import opened StateStore
  import opened Completions
  import opened Observations

  datatype PodEvent = PodEvent(kind: string, namespace: string, name: string, phase: string, node: string,
                               labels: map<string, string>, timestamp: Time)

  /** What a watch callback hands over: a pod, the tombstone of a missed deletion, or something else. */
  datatype Object = APod(pod: Pod) | Tombstone(inner: Option<Pod>) | Other

  /** Documents offered to the publisher, in order; a failed publication is only logged. */
  datatype Document = PodDocument(kind: string, pod: Pod, initial: bool) | CompletionDocument(completion: Completion)

  datatype Publisher = NoPublisher | PodsOnly | PodsAndApplications

  const MAX_EVENTS: nat := 1000

  function PodFromObject(obj: Object): Option<Pod> {
    match obj
    case APod(pod) => Some(pod)
    case Tombstone(inner) => inner
    case Other => None
  }

  /** The newest events of a history, newest first. */
  function Recent(history: seq<PodEvent>, limit: nat): (r: seq<PodEvent>)
    ensures |r| == Least(|history|, limit)
    ensures forall i :: 0 <= i < |r| ==> r[i] == history[|history| - 1 - i]
  {
    seq(Least(|history|, limit), i requires 0 <= i < |history| => history[|history| - 1 - i])
  }

  /** Prepending an event and cutting the list keeps it the newest ones. */
  lemma RecentGrows(history: seq<PodEvent>, event: PodEvent, limit: nat)
    ensures var longer := [event] + Recent(history, limit);
            Recent(history + [event], limit) == if |longer| > limit then longer[..limit] else longer
  {
  }

  /** A shorter request is a prefix of a longer one. */
  lemma RecentIsPrefix(history: seq<PodEvent>, limit: nat, more: nat)
    requires limit <= more && limit < Least(|history|, more)
    ensures Recent(history, more)[..limit] == Recent(history, limit)
  {
  }

  function EventOf(kind: string, pod: Pod, at: Time): PodEvent {
    PodEvent(kind, pod.namespace, pod.name, pod.phase, pod.node, pod.labels, at)
  }

  function PodDocuments(publisher: Publisher, kind: string, pod: Pod, initial: bool): seq<Document> {
    if publisher == NoPublisher then [] else [PodDocument(kind, pod, initial)]
  }

  function CompletionDocuments(publisher: Publisher, st: StoreState.State, pod: Pod): seq<Document> {
    if publisher == PodsAndApplications && Summary(st, pod).Some? then [CompletionDocument(Summary(st, pod).value)]
        else []
  }

  /** What is offered to a publisher: the pod document there is to offer, if there is a publisher; and after it, for the
      driver of an application that the store knows as finished, one summary with that finish, if the publisher takes
      summaries. */
  ghost predicate Offers(publisher: Publisher, st: StoreState.State, pod: Pod, podDocument: Option<Document>,
                         offered: seq<Document>) {
    var first := if publisher == NoPublisher || podDocument.None? then [] else [podDocument.value];
    if publisher == PodsAndApplications
      && (exists app :: Belongs(pod, "driver", app) && app in st.apps && st.apps[app].finishedAt.Some?) then
      && |offered| == |first| + 1 && first <= offered && offered[|first|].CompletionDocument?
      && forall app :: Belongs(pod, "driver", app) ==>
           var (c, rec) := (offered[|first|].completion, st.apps[app]);
           c.applicationID == rec.applicationID && c.namespace == rec.namespace && Some(c.finishedAt) == rec.finishedAt
    else offered == first
  }

  lemma SummaryIsFinished(st: StoreState.State, pod: Pod)
    ensures Summary(st, pod).Some? <==>
              exists app :: Belongs(pod, "driver", app) && app in st.apps && st.apps[app].finishedAt.Some?
    ensures Summary(st, pod).Some? ==> forall app :: Belongs(pod, "driver", app) ==>
              var (c, rec) := (Summary(st, pod).value, st.apps[app]);
              && c.applicationID == rec.applicationID && c.namespace == rec.namespace
              && Some(c.finishedAt) == rec.finishedAt
  {
    RecordedPodsBelong(pod);
    if Summary(st, pod).Some? { assert Belongs(pod, "driver", AppId(pod)); }
  }

  /** So it is when a pod is added or deleted, and, without a pod document, when it is updated. */
  lemma DocumentsAreOffered(publisher: Publisher, st: StoreState.State, pod: Pod, kind: string, initial: bool)
    ensures Offers(publisher, st, pod, Some(PodDocument(kind, pod, initial)),
                   PodDocuments(publisher, kind, pod, initial) + CompletionDocuments(publisher, st, pod))
    ensures Offers(publisher, st, pod, None, CompletionDocuments(publisher, st, pod))
  {
    SummaryIsFinished(st, pod);
  }

  /** An update is worth a diagnostic event when a driver moves to a terminal phase. */
  predicate Finishes(before: Pod, after: Pod) {
    SparkRole(after) == "driver" && before.phase != after.phase && Terminal(after)
  }

  class PodEventHandler {
    var events: seq<PodEvent>
    var published: seq<Document>
    ghost var history: seq<PodEvent>   // every event ever added, oldest first
    const stateStore: Store
    const publisher: Publisher

    ghost predicate Valid()
      reads this
    {
      events == Recent(history, MAX_EVENTS)
    }

    constructor (stateStore: Store, publisher: Publisher)
      ensures Valid() && this.stateStore == stateStore && this.publisher == publisher
      ensures events == [] && published == [] && history == []
    {
      events, published, history := [], [], [];
      this.stateStore, this.publisher := stateStore, publisher;
    }

    /** Records an event in front, dropping the oldest beyond the limit. */
    method AddEvent(event: PodEvent)
      requires Valid()
      modifies this`events, this`history
      ensures Valid() && history == old(history) + [event]
      ensures events == [event] + if |old(events)| < 1000 then old(events) else old(events)[..999]
    {
      RecentGrows(history, event, MAX_EVENTS);
      events := [event] + events;
      if |events| > MAX_EVENTS {
        events := events[..MAX_EVENTS];
      }
      history := history + [event];
    }

    /** The newest events; a positive limit cuts the list. */
    method GetEvents(limit: int) returns (newest: seq<PodEvent>)
      requires Valid()
      ensures newest == Recent(history, if 0 < limit < MAX_EVENTS then limit else MAX_EVENTS)
    {
      if limit > 0 && limit < |events| {
        RecentIsPrefix(history, limit, MAX_EVENTS);
        return events[..limit];
      }
      return events;
    }

    method Publish(kind: string, pod: Pod, initial: bool)
      modifies this`published
      ensures published == old(published) + PodDocuments(publisher, kind, pod, initial)
    {
      if publisher == NoPublisher {
        return;
      }
      published := published + [PodDocument(kind, pod, initial)];
    }

    /** The status published for a finished application. */
    method PublishedStatus(view: ApplicationView) returns (status: string)
      ensures status == Outcome(view)
    {
      status := view.app.status;
      if view.driverPhase == "Succeeded" {
        status := "succeeded";
      }
      if view.driverPhase == "Failed" {
        status := "failed";
      }
    }

    /** Offers the completion summary of a driver's application once it has a finish time. */
    method PublishApplication(pod: Pod)
      modifies this`published
      ensures published == old(published) + CompletionDocuments(publisher, stateStore.State(), pod)
    {
      if SparkRole(pod) != "driver" || publisher != PodsAndApplications {
        return;
      }
      var found := stateStore.GetApplication(AppId(pod));
      if found.None? || found.value.app.finishedAt.None? {
        return;
      }
      var view := found.value;
      var status := PublishedStatus(view);
      var queue := if "queue" in view.driverLabels then view.driverLabels["queue"] else "";
      published := published + [CompletionDocument(Completion(view.app.namespace, view.app.applicationID,
        view.app.driverPodName, queue, view.app.finishedAt.value, status))];
    }

    /** Publishes a pod event and its application, and records the event of a driver. */
    method Report(kind: string, eventKind: string, pod: Pod, initial: bool, at: Time)
      requires Valid()
      modifies this`published, this`events, this`history
      ensures Valid()
      ensures published == old(published) + PodDocuments(publisher, kind, pod, initial)
                           + CompletionDocuments(publisher, stateStore.State(), pod)
      ensures history == old(history) + (if SparkRole(pod) != "driver" then [] else [EventOf(eventKind, pod, at)])
    {
      Publish(kind, pod, initial);
      PublishApplication(pod);
      if SparkRole(pod) != "driver" {
        return;
      }
      AddEvent(EventOf(eventKind, pod, at));
    }

    /** Publishes the application of an updated pod, and records a driver's move to a terminal phase. */
    method ReportUpdate(before: Pod, pod: Pod, at: Time)
      requires Valid()
      modifies this`published, this`events, this`history
      ensures Valid()
      ensures published == old(published) + CompletionDocuments(publisher, stateStore.State(), pod)
      ensures history == old(history) + (if Finishes(before, pod) then [EventOf("MODIFIED", pod, at)] else [])
    {
      PublishApplication(pod);
      if SparkRole(pod) != "driver" || before.phase == pod.phase
          || (pod.phase != "Succeeded" && pod.phase != "Failed") {
        return;
      }
      AddEvent(EventOf("MODIFIED", pod, at));
    }

    /** An added pod: bootstrapped when it belongs to the initial list, a live change otherwise. */
    method OnAdd(obj: Object, initial: bool, now: Time, at: Time)
      returns (ghost goneApps: set<string>, ghost gonePods: set<string>)
      requires Valid()
      modifies this, stateStore
      ensures Valid()
      ensures var pod := match obj case APod(p) => Some(p) case Tombstone(inner) => inner case Other => None;
              if pod.None? || !Tracked(pod.value) then
                stateStore.State() == old(stateStore.State()) && published == old(published) && history == old(history)
              else
                && Upserts(stateStore.Cfg(), old(stateStore.State()), pod.value, false, initial, now, goneApps,
                    gonePods, stateStore.State())
                && published == old(published) + PodDocuments(publisher, "ADDED", pod.value, initial)
                                + CompletionDocuments(publisher, stateStore.State(), pod.value)
                && history == old(history)
                     + (if SparkRole(pod.value) != "driver" then []
                        else [PodEvent(if initial then "INITIAL" else "ADDED", pod.value.namespace, pod.value.name,
                                       pod.value.phase, pod.value.node, pod.value.labels, at)])
    {
      goneApps, gonePods := {}, {};
      var found := PodFromObject(obj);
      if found.None? {
        return;
      }
      var pod := found.value;
      var role := SparkRole(pod);
      if role == "" {
        return;
      }
      if initial {
        goneApps, gonePods := stateStore.BootstrapPod(pod, now);
      } else {
        goneApps, gonePods := stateStore.UpsertPod(pod, false, now);
      }
      Report("ADDED", if initial then "INITIAL" else "ADDED", pod, initial, at);
    }

    /** A changed pod is always a live change; tombstones do not occur here. */
    method OnUpdate(oldObj: Object, newObj: Object, now: Time, at: Time)
      returns (ghost goneApps: set<string>, ghost gonePods: set<string>)
      requires Valid()
      modifies this, stateStore
      ensures Valid()
      ensures if !oldObj.APod? || !newObj.APod? || !Tracked(newObj.pod) then
                stateStore.State() == old(stateStore.State()) && published == old(published) && history == old(history)
              else
                && Upserts(stateStore.Cfg(), old(stateStore.State()), newObj.pod, false, false, now, goneApps,
                    gonePods, stateStore.State())
                && published == old(published) + CompletionDocuments(publisher, stateStore.State(), newObj.pod)
                && var pod := newObj.pod;
                   history == old(history)
                     + (if SparkRole(pod) == "driver" && oldObj.pod.phase != pod.phase
                            && (pod.phase == "Succeeded" || pod.phase == "Failed")
                        then [PodEvent("MODIFIED", pod.namespace, pod.name, pod.phase, pod.node, pod.labels, at)]
                        else [])
    {
      goneApps, gonePods := {}, {};
      if !oldObj.APod? || !newObj.APod? {
        return;
      }
      var before, pod := oldObj.pod, newObj.pod;
      var role := SparkRole(pod);
      if role == "" {
        return;
      }
      goneApps, gonePods := stateStore.UpsertPod(pod, false, now);
      ReportUpdate(before, pod, at);
    }

    /** A deleted pod, known directly or from a tombstone. */
    method OnDelete(obj: Object, now: Time, at: Time) returns (ghost goneApps: set<string>, ghost gonePods: set<string>)
      requires Valid()
      modifies this, stateStore
      ensures Valid()
      ensures var pod := match obj case APod(p) => Some(p) case Tombstone(inner) => inner case Other => None;
              if pod.None? || !Tracked(pod.value) then
                stateStore.State() == old(stateStore.State()) && published == old(published) && history == old(history)
              else
                && Upserts(stateStore.Cfg(), old(stateStore.State()), pod.value, true, false, now, goneApps, gonePods,
                    stateStore.State())
                && published == old(published) + PodDocuments(publisher, "DELETED", pod.value, false)
                                + CompletionDocuments(publisher, stateStore.State(), pod.value)
                && history == old(history)
                     + (if SparkRole(pod.value) != "driver" then []
                        else [PodEvent("DELETED", pod.value.namespace, pod.value.name, pod.value.phase, pod.value.node,
                                       pod.value.labels, at)])
    {
      goneApps, gonePods := {}, {};
      var found := PodFromObject(obj);
      if found.None? {
        return;
      }
      var pod := found.value;
      var role := SparkRole(pod);
      if role == "" {
        return;
      }
      goneApps, gonePods := stateStore.UpsertPod(pod, true, now);
      Report("DELETED", "DELETED", pod, false, at);
    }
  }
}
