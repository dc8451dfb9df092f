/**
 The syncer controller as the program has it: an object whose event handlers and workers change
 its queue, cache and target hub in place. Every method is proved to take exactly the step of the
 machine in `SyncMachine` that the convergence theorems are about, so a controller driven by any
 schedule ends in the state those theorems describe.
 */
module SyncController {
  import opened Options
  import opened KubeObjects
  import opened SyncMachine
  import opened Handlers

  ghost function Extended(s: State, done: seq<Action>, a: Action): (r: seq<Action>)
    ensures Run(s, r) == Step(Run(s, done), a)
  {
    RunAppend(s, done, a);
    done + [a]
  }

  class Controller {
    const direction: Direction
    const syncerName: string

    // The informer: its cache, and events not yet passed to the handlers.
    var cache: map<Key, Object>
    var inbox: seq<Notification>

    // The rate-limited work queue.
    var queue: seq<Key>
    var dirty: set<Key>
    var processing: set<Key>
    var waiting: set<Key>

    // What each worker is doing.
    var jobs: map<nat, Job>

    // The hub written to.
    var target: map<Key, Stored>
    var namespaces: set<string>

    ghost var seen: set<Key>
    ghost var gone: set<Key>
    ghost var applied: set<Key>
    ghost var dropped: set<Key>
    ghost var log: seq<(Key, Op)>

    ghost function View(): State
      reads this
    {
      State(direction, syncerName, cache, inbox, queue, dirty, processing, waiting, jobs, target, namespaces,
            seen, gone, applied, dropped, log)
    }

    constructor (direction: Direction, syncerName: string)
      ensures View() == Init(direction, syncerName)
    {
      this.direction, this.syncerName := direction, syncerName;
      cache, inbox, queue, dirty, processing, waiting := map[], [], [], {}, {}, {};
      jobs, target, namespaces := map[], map[], {};
      seen, gone, applied, dropped, log := {}, {}, {}, {}, [];
    }

    // -------------------------------------------------------------- work queue

    method QueueAdd(k: Key)
      modifies this
      ensures View() == Enqueue(old(View()), k)
      ensures dirty == old(dirty) + {k} && queue == if k in old(dirty) || k in processing then old(queue) else old(queue) + [k]
    {
      if k in dirty {
        return;
      }
      dirty := dirty + {k};
      if k in processing {
        return;
      }
      queue := queue + [k];
    }

    method QueueGet(w: nat) returns (taken: Option<Key>)
      modifies this
      ensures View() == Step(old(View()), Get(w))
      ensures taken == if w in old(jobs) || old(queue) == [] then None else Some(old(queue)[0])
      ensures taken.Some? ==> queue == old(queue)[1..] && dirty == old(dirty) - {taken.value} && processing == old(processing) + {taken.value}
    {
      if w in jobs || queue == [] {
        return None;
      }
      var k := queue[0];
      queue := queue[1..];
      processing := processing + {k};
      dirty := dirty - {k};
      jobs := jobs[w := Job(k, Taken)];
      dropped, log := dropped - {k}, log + [(k, Got)];
      return Some(k);
    }

    method QueueDone(w: nat)
      modifies this
      ensures View() == Step(old(View()), Done(w))
    {
      if w in jobs && jobs[w].phase.Reported? {
        var k := jobs[w].key;
        processing := processing - {k};
        jobs := jobs - {w};
        log := log + [(k, Finished)];
        if k in dirty {
          queue := queue + [k];
        }
      }
    }

    // ---------------------------------------------------------- event handlers

    /** The direction-specific filter shared by the three handlers. */
    method ShouldEnqueue(resource: string, obj: Object) returns (shouldEnqueue: bool)
      ensures shouldEnqueue <==> Wanted(direction, resource, obj)
    {
      shouldEnqueue := true;
      if direction == Up {
        if resource == CRDS {
          if obj.meta.name != HUB_CRD {
            shouldEnqueue := false;
          }
        }
      } else {
        if |obj.meta.namespace| > 0 {
          var ok := ORIGIN in LabelsOf(obj);
          if !ok || LabelsOf(obj)[ORIGIN] != obj.meta.namespace {
            shouldEnqueue := false;
          }
        }
      }
    }

    method AddToQueue(resource: string, obj: Object)
      modifies this
      ensures View() == Enqueue(old(View()), KeyOf(resource, obj))
    {
      QueueAdd(Key(resource, obj.meta.namespace, obj.meta.name));
    }

    method HandleAdd(resource: string, obj: Object)
      modifies this
      ensures View() == if Enqueues(direction, Added(resource, obj)) then Enqueue(old(View()), KeyOf(resource, obj)) else old(View())
      ensures if Goes(direction, resource, obj) then Key(resource, obj.meta.namespace, obj.meta.name) in dirty else View() == old(View())
    {
      EventsLetThrough(direction, resource, obj, obj);
      var shouldEnqueue := ShouldEnqueue(resource, obj);
      if shouldEnqueue {
        AddToQueue(resource, obj);
      }
    }

    method HandleUpdate(resource: string, prior: Object, obj: Object)
      modifies this
      ensures View() == if Enqueues(direction, Updated(resource, prior, obj)) then Enqueue(old(View()), KeyOf(resource, obj)) else old(View())
      ensures if Goes(direction, resource, obj) && !SameFor(direction, prior, obj) then Key(resource, obj.meta.namespace, obj.meta.name) in dirty
              else View() == old(View())
    {
      hide SameFor, EssenceOf, Stripped;
      EventsLetThrough(direction, resource, prior, obj);
      var shouldEnqueue := ShouldEnqueue(resource, obj);
      if shouldEnqueue {
        var same;
        if direction == Down {
          same := DeepEqualApartFromStatus(prior, obj);
          StrippedKeepsEssence(prior, prior.meta.namespace);
          StrippedKeepsEssence(obj, obj.meta.namespace);
        } else {
          same := DeepEqualStatus(prior, obj);
          assert same ==> WithStatus(obj, StatusOf(prior)).content["status"] == WithStatus(obj, StatusOf(obj)).content["status"];
        }
        if !same {
          AddToQueue(resource, obj);
        }
      }
    }

    method HandleDelete(resource: string, obj: Object)
      modifies this
      ensures View() == if Enqueues(direction, Deleted(resource, obj)) then Enqueue(old(View()), KeyOf(resource, obj)) else old(View())
      ensures if Goes(direction, resource, obj) then Key(resource, obj.meta.namespace, obj.meta.name) in dirty else View() == old(View())
    {
      EventsLetThrough(direction, resource, obj, obj);
      var shouldEnqueue := ShouldEnqueue(resource, obj);
      if shouldEnqueue {
        AddToQueue(resource, obj);
      }
    }

    /** The informer passes one of its undelivered events to the handler of its kind. */
    method DeliverEvent(i: nat)
      modifies this
      ensures View() == Step(old(View()), Deliver(i))
    {
      if i < |inbox| {
        var n := inbox[i];
        inbox := inbox[..i] + inbox[i + 1..];
        match n
        case Added(resource, obj) => HandleAdd(resource, obj);
        case Updated(resource, prior, obj) => HandleUpdate(resource, prior, obj);
        case Deleted(resource, obj) => HandleDelete(resource, obj);
      }
    }

    method InformerUpsert(resource: string, obj: Object)
      modifies this
      ensures View() == Step(old(View()), Observe(resource, obj))
    {
      var k := KeyOf(resource, obj);
      inbox := inbox + [if k in cache then Updated(resource, cache[k], obj) else Added(resource, obj)];
      cache := cache[k := obj];
      seen, gone := seen + {k}, gone - {k};
    }

    method InformerDelete(k: Key)
      modifies this
      ensures View() == Step(old(View()), ObserveDelete(k))
    {
      if k in cache {
        inbox := inbox + [Deleted(k.resource, cache[k])];
        gone := if Eligible(cache[k]) then gone + {k} else gone;
        cache := cache - {k};
      }
    }

    // ------------------------------------------------------------- processing

    method Return(w: nat, ok: bool)
      requires w in jobs
      modifies this`jobs, this`log
      ensures View() == Finish(old(View()), w, ok)
    {
      log := log + [(jobs[w].key, Processed(ok))];
      jobs := jobs[w := Job(jobs[w].key, Written(ok))];
    }

    method ReadFromCache(w: nat, failed: bool)
      modifies this
      ensures View() == Step(old(View()), ReadCache(w, failed))
    {
      if w in jobs && jobs[w].phase.Taken? {
        var k := jobs[w].key;
        if failed {
          Return(w, false);
        } else if k in cache {
          jobs := jobs[w := Job(k, Read(Some(cache[k])))];
        } else if direction == Down {
          jobs := jobs[w := Job(k, Read(None))];
        } else {
          Return(w, false);
        }
      }
    }

    method FetchUpstream(w: nat, failed: bool)
      modifies this
      ensures View() == Step(old(View()), Fetch(w, failed))
    {
      if w in jobs && direction == Up && jobs[w].phase.Read? && jobs[w].phase.view.Some? && !HubOnly(jobs[w].key.resource) {
        var k, obj := jobs[w].key, jobs[w].phase.view.value;
        if failed {
          Return(w, false);
          return;
        }
        var existing := None;
        var tk := k.(namespace := syncerName);
        if |k.namespace| > 0 && tk in target {
          existing := Some(target[tk].version);
        }
        jobs := jobs[w := Job(k, Fetched(obj, existing))];
      }
    }

    /** A forced server-side apply that the target hub accepts. */
    method Patch(k: Key, obj: Object)
      modifies this`target, this`applied
      ensures View() == Put(old(View()), k, obj)
    {
      target := target[k := Stored(obj, if k in target then target[k].version + 1 else 0)];
      applied := applied + {k};
    }

    method ApplyToDownstream(w: nat, obj: Object, outcome: Outcome)
      requires w in jobs && direction == Down
      modifies this
      ensures View() == ApplyDown(old(View()), w, obj, outcome)
    {
      var k := jobs[w].key;
      if outcome == NamespaceRefused {
        Return(w, false);
        return;
      }
      namespaces := namespaces + {k.namespace};
      var downstreamObj := obj;
      downstreamObj := downstreamObj.(meta := downstreamObj.meta.(uid := ""));
      downstreamObj := downstreamObj.(meta := downstreamObj.meta.(resourceVersion := ""));
      downstreamObj := downstreamObj.(meta := downstreamObj.meta.(namespace := k.namespace));
      downstreamObj := downstreamObj.(meta := downstreamObj.meta.(fields := downstreamObj.meta.fields - CLEARED));
      if outcome == Refused {
        Return(w, false);
        return;
      }
      Patch(k, downstreamObj);
      Return(w, outcome == Accepted);
    }

    method DeleteFromDownstream(w: nat, outcome: Outcome)
      requires w in jobs && direction == Down
      modifies this
      ensures View() == DeleteDown(old(View()), w, outcome)
    {
      var k := jobs[w].key;
      if k !in target || outcome == Refused || outcome == NamespaceRefused {
        Return(w, false);
        return;
      }
      target := target - {k};
      Return(w, outcome == Accepted);
    }

    /** The caller of an upstream apply ignores its error. */
    method Ignore(w: nat)
      requires w in jobs
      modifies this
      ensures View() == Swallow(old(View()), w)
    {
      dropped := dropped + {jobs[w].key};
      Return(w, true);
    }

    /** The first patch of an upstream apply. */
    method ApplyToUpstream(w: nat, obj: Object, outcome: Outcome)
      requires w in jobs && direction == Up
      modifies this
      ensures View() == ApplyUp(old(View()), w, obj, outcome)
    {
      var k := jobs[w].key;
      var tk := if |k.namespace| > 0 then k.(namespace := syncerName) else k;
      if outcome == Refused || outcome == NamespaceRefused {
        Ignore(w);
        return;
      }
      var status := if tk in target then StatusOf(target[tk].obj) else Null;
      Patch(tk, WithStatus(Stripped(obj, tk.namespace), status));
      if outcome == Lost {
        Ignore(w);
        return;
      }
      jobs := jobs[w := Job(k, Patched(obj))];
    }

    /** The second patch, of the status subresource. */
    method ApplyStatusToUpstream(w: nat, obj: Object, outcome: Outcome)
      requires w in jobs && direction == Up
      modifies this
      ensures View() == ApplyStatusUp(old(View()), w, obj, outcome)
    {
      var k := jobs[w].key;
      var tk := if |k.namespace| > 0 then k.(namespace := syncerName) else k;
      if tk !in target || outcome == Refused || outcome == NamespaceRefused {
        Ignore(w);
        return;
      }
      target := target[tk := Stored(WithStatus(target[tk].obj, StatusOf(obj)), target[tk].version + 1)];
      Return(w, true);
    }

    method UpdateStatusInUpstream(w: nat, obj: Object, version: nat, outcome: Outcome)
      requires w in jobs && direction == Up
      modifies this
      ensures View() == UpdateUp(old(View()), w, obj, version, outcome)
    {
      var k := jobs[w].key;
      var tk := if |k.namespace| > 0 then k.(namespace := syncerName) else k;
      if tk !in target || target[tk].version != version || outcome == Refused || outcome == NamespaceRefused {
        Return(w, false);
        return;
      }
      target := target[tk := Stored(WithStatus(target[tk].obj, StatusOf(obj)), version + 1)];
      Return(w, outcome == Accepted);
    }

    method WriteTarget(w: nat, outcome: Outcome)
      modifies this
      ensures View() == Step(old(View()), Write(w, outcome))
    {
      if w in jobs {
        match jobs[w].phase
        case Read(Some(obj)) =>
          if direction == Down {
            ApplyToDownstream(w, obj, outcome);
          } else if HubOnly(jobs[w].key.resource) {
            Return(w, outcome == Accepted);
          }
        case Read(None) => if direction == Down { DeleteFromDownstream(w, outcome); }
        case Fetched(obj, None) => if direction == Up { ApplyToUpstream(w, obj, outcome); }
        case Fetched(obj, Some(version)) => if direction == Up { UpdateStatusInUpstream(w, obj, version, outcome); }
        case Patched(obj) => if direction == Up { ApplyStatusToUpstream(w, obj, outcome); }
        case _ =>
      }
    }

    /** Forget on success, rate-limited re-add on failure. */
    method ReportResult(w: nat)
      modifies this
      ensures View() == Step(old(View()), Report(w))
    {
      if w in jobs && jobs[w].phase.Written? {
        var k, ok := jobs[w].key, jobs[w].phase.ok;
        if !ok {
          waiting := waiting + {k};
          log := log + [(k, ReAdded)];
        } else {
          log := log + [(k, Forgot)];
        }
        jobs := jobs[w := Job(k, Reported(ok))];
      }
    }

    method RetryTimer(k: Key)
      modifies this
      ensures View() == Step(old(View()), TimerFires(k))
    {
      if k in waiting {
        waiting := waiting - {k};
        QueueAdd(k);
      }
    }

    /** Another client relabels an upstream copy. */
    method Relabel(k: Key, labels: map<string, string>)
      modifies this
      ensures View() == Step(old(View()), Touch(k, labels))
    {
      if direction == Up && k in target {
        target := target[k := Stored(WithLabels(target[k].obj, labels), target[k].version + 1)];
      }
    }

    /** One turn of a worker's loop without interference; `found` is false where the program would block. */
    method ProcessNextWorkItem(w: nat, readFails: bool, fetchFails: bool, outcome: Outcome, second: Outcome) returns (found: bool)
      modifies this
      ensures View() == Run(old(View()), [Get(w), ReadCache(w, readFails), Fetch(w, fetchFails), Write(w, outcome), Write(w, second), Report(w), Done(w)])
    {
      ghost var s := View();
      var taken := QueueGet(w);
      found := taken.Some?;
      assert Run(s, []) == s;
      ghost var done := Extended(s, [], Get(w));
      ReadFromCache(w, readFails);
      done := Extended(s, done, ReadCache(w, readFails));
      FetchUpstream(w, fetchFails);
      done := Extended(s, done, Fetch(w, fetchFails));
      WriteTarget(w, outcome);
      done := Extended(s, done, Write(w, outcome));
      WriteTarget(w, second);
      done := Extended(s, done, Write(w, second));
      ReportResult(w);
      done := Extended(s, done, Report(w));
      QueueDone(w);
      done := Extended(s, done, Done(w));
      assert done == [Get(w), ReadCache(w, readFails), Fetch(w, fetchFails), Write(w, outcome), Write(w, second), Report(w), Done(w)];
    }

    method Perform(a: Action)
      modifies this
      ensures View() == Step(old(View()), a)
    {
      match a
      case Observe(resource, obj) => InformerUpsert(resource, obj);
      case ObserveDelete(k) => InformerDelete(k);
      case Deliver(i) => DeliverEvent(i);
      case Get(w) => var _ := QueueGet(w);
      case ReadCache(w, failed) => ReadFromCache(w, failed);
      case Fetch(w, failed) => FetchUpstream(w, failed);
      case Write(w, outcome) => WriteTarget(w, outcome);
      case Report(w) => ReportResult(w);
      case Done(w) => QueueDone(w);
      case TimerFires(k) => RetryTimer(k);
      case Touch(k, labels) => Relabel(k, labels);
    }

    /** Drives the controller through a schedule of events and worker steps. */
    method Execute(schedule: seq<Action>)
      modifies this
      ensures View() == Run(old(View()), schedule)
    {
      var i := 0;
      while i < |schedule|
        invariant 0 <= i <= |schedule|
        invariant View() == Run(old(View()), schedule[..i])
      {
        assert schedule[..i + 1][..i] == schedule[..i];
        Perform(schedule[i]);
        i := i + 1;
      }
      assert schedule[..i] == schedule;
    }
  }
}
