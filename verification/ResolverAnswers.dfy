// Where the resolver's answers come from, told from the events of the run: the lookup that a worker
// made for that very job.
module ResolverAnswers {
  import opened Basics
  import opened ConnQueue
  import opened Resolver

  // In event number i a worker that has job j in hand leaves this station.
  ghost predicate LeavesStation(workers: nat, starters: set<nat>, events: seq<Event>, i: nat, j: nat, at: Station)
    requires i < |events|
  {
    events[i].Work? &&
    var s := ResRun(Begin(workers, starters), events[..i]);
    Busy(s, events[i].t) && s.m.at[events[i].t].item == j && s.jobs[j].at == at
  }

  // What one event does to the answer of job j.
  lemma AnswerStep(s: Res, e: Event, j: nat)
    requires j in s.jobs
    ensures var r := ResNext(s, e);
            j in r.jobs &&
            var works := e.Work? && Busy(s, e.t) && s.m.at[e.t].item == j;
            && r.jobs[j].addrs == (if works && s.jobs[j].at == Lookup then Some(e.addrs) else s.jobs[j].addrs)
            && r.jobs[j].ok == (if works && s.jobs[j].at == HasAddrs then Some(e.ok) else s.jobs[j].ok)
            && (r.jobs[j].at == Lookup ==> s.jobs[j].at == Lookup)
            && (r.jobs[j].at == HasAddrs ==> s.jobs[j].at in {Lookup, HasAddrs})
  {
    hide AllEnded, AnyConsumerAsleep, AnyProducerAsleep, PopSection, PushSection, CloseSection, NotifyConsumer, NotifyProducer;
  }

  lemma NewJobIsBlank(s: Res, e: Event, j: nat)
    requires j !in s.jobs && j in ResNext(s, e).jobs
    ensures ResNext(s, e).jobs[j] == NEW_JOB
  {
    hide AllEnded, AnyConsumerAsleep, AnyProducerAsleep, PopSection, PushSection, CloseSection, NotifyConsumer, NotifyProducer, Worked;
  }

  // Every stored list was handed in by the worker's lookup of that job, and every verdict likewise.
  lemma {:induction false} AnswersComeFromLookups(workers: nat, starters: set<nat>, events: seq<Event>, j: nat)
    requires j in ResRun(Begin(workers, starters), events).jobs
    ensures var job := ResRun(Begin(workers, starters), events).jobs[j];
            && (job.addrs.Some? ==> exists i :: 0 <= i < |events| && LeavesStation(workers, starters, events, i, j, Lookup)
                                               && events[i].addrs == job.addrs.value)
            && (job.ok.Some? ==> exists i :: 0 <= i < |events| && LeavesStation(workers, starters, events, i, j, HasAddrs)
                                            && events[i].ok == job.ok.value)
  {
    hide ResNext;
    if events != [] {
      var k := |events| - 1;
      var before := events[..k];
      var s := ResRun(Begin(workers, starters), before);
      var job := ResNext(s, events[k]).jobs[j];
      if j in s.jobs {
        AnswersComeFromLookups(workers, starters, before, j);
        AnswerStep(s, events[k], j);
        if job.addrs.Some? {
          if s.jobs[j].addrs == job.addrs {
            var i :| 0 <= i < k && LeavesStation(workers, starters, before, i, j, Lookup) && before[i].addrs == job.addrs.value;
            Earlier(workers, starters, events, i, j, Lookup);
          } else {
            assert LeavesStation(workers, starters, events, k, j, Lookup);
          }
        }
        if job.ok.Some? {
          if s.jobs[j].ok == job.ok {
            var i :| 0 <= i < k && LeavesStation(workers, starters, before, i, j, HasAddrs) && before[i].ok == job.ok.value;
            Earlier(workers, starters, events, i, j, HasAddrs);
          } else {
            assert LeavesStation(workers, starters, events, k, j, HasAddrs);
          }
        }
      } else {
        NewJobIsBlank(s, events[k], j);
      }
    }
  }

  lemma Earlier(workers: nat, starters: set<nat>, events: seq<Event>, i: nat, j: nat, at: Station)
    requires events != [] && i < |events| - 1
    ensures LeavesStation(workers, starters, events[..|events| - 1], i, j, at) == LeavesStation(workers, starters, events, i, j, at)
    ensures events[..|events| - 1][i] == events[i]
  {
    hide ResRun, Busy;
    assert events[..|events| - 1][..i] == events[..i];
  }

  // And nothing replaces it: what the lookup of a job brought is what the job keeps.
  lemma {:induction false} LookupsAreKept(workers: nat, starters: set<nat>, events: seq<Event>, i: nat, j: nat)
    requires i < |events|
    ensures var s := ResRun(Begin(workers, starters), events);
            && (LeavesStation(workers, starters, events, i, j, Lookup) ==>
                  j in s.jobs && s.jobs[j].at != Lookup && s.jobs[j].addrs == Some(events[i].addrs))
            && (LeavesStation(workers, starters, events, i, j, HasAddrs) ==>
                  j in s.jobs && s.jobs[j].at !in {Lookup, HasAddrs} && s.jobs[j].ok == Some(events[i].ok))
  {
    hide ResNext;
    var k := |events| - 1;
    var s := ResRun(Begin(workers, starters), events[..k]);
    if i < k {
      Earlier(workers, starters, events, i, j, Lookup);
      Earlier(workers, starters, events, i, j, HasAddrs);
      LookupsAreKept(workers, starters, events[..k], i, j);
      hide LeavesStation;
      if j in s.jobs { AnswerStep(s, events[k], j); }
    } else if j in s.jobs {
      AnswerStep(s, events[k], j);
      LeftStation(s, events[k], j);
    }
  }

  lemma LeftStation(s: Res, e: Event, j: nat)
    requires e.Work? && Busy(s, e.t) && s.m.at[e.t].item == j ==> j in s.jobs
    ensures e.Work? && Busy(s, e.t) && s.m.at[e.t].item == j ==>
              var at := ResNext(s, e).jobs[j].at;
              (s.jobs[j].at == Lookup ==> at != Lookup) && (s.jobs[j].at == HasAddrs ==> at !in {Lookup, HasAddrs})
  {
  }

  // A connection is told exactly what the lookup for its own job said.
  lemma AnsweredAsLookedUp(workers: nat, starters: set<nat>, events: seq<Event>, j: nat)
    requires var s := ResRun(Begin(workers, starters), events); j in s.jobs && s.jobs[j].client.Answered?
    ensures var a := ResRun(Begin(workers, starters), events).jobs[j].client;
            && (exists i :: 0 <= i < |events| && LeavesStation(workers, starters, events, i, j, HasAddrs) && events[i].ok == a.ok)
            && (a.ok ==> exists i :: 0 <= i < |events| && LeavesStation(workers, starters, events, i, j, Lookup) && events[i].addrs == a.addrs)
  {
    hide ResRun, LeavesStation;
    AnswersComeFromLookups(workers, starters, events, j);
    WokenSeesTheResult(workers, starters, events, j);
    hide Wakes;
  }
}
