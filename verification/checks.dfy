/**
 One check cycle: every entry of a snapshot of the list is probed, and the
 results are written back into the live list by position only. The live
 list may have changed while the probes were in flight; the lemmas at the
 end spell out what positional write-back then does.
 */
module Checks {
  import opened Servers
  import opened Registry

  /** The probed copy of one snapshot entry: only its status changes. */
  function Probe(server: Server, outcome: Outcome): (r: Server)
    ensures r.status == Classify(outcome)
    ensures r.(status := server.status) == server
  {
    server.(status := Classify(outcome))
  }

  /**
   The results of the concurrent probes, one per snapshot entry and in
   snapshot order (the order in which the probes were collected).
   */
  function ProbeAll(snapshot: seq<Server>, outcomes: seq<Outcome>): (r: seq<Server>)
    requires |outcomes| == |snapshot|
    ensures |r| == |snapshot|
    ensures forall i :: 0 <= i < |r| ==> r[i] == Probe(snapshot[i], outcomes[i])
  {
    if |snapshot| == 0 then []
    else
      var n := |snapshot| - 1;
      ProbeAll(snapshot[..n], outcomes[..n]) + [Probe(snapshot[n], outcomes[n])]
  }

  /**
   The write-back loop: results are visited in order, and result `i` sets
   the status of live entry `i` when such an entry exists.
   */
  function Reconcile(live: seq<Server>, results: seq<Server>): (r: seq<Server>)
    ensures |r| == |live|
    ensures forall i :: 0 <= i < |live| ==> r[i].(status := live[i].status) == live[i]
    ensures forall i :: 0 <= i < |live| && i < |results| ==> r[i].status == results[i].status
    ensures forall i :: |results| <= i < |live| ==> r[i] == live[i]
  {
    if |results| == 0 then live
    else
      var i := |results| - 1;
      var prior := Reconcile(live, results[..i]);
      if i < |prior| then prior[i := prior[i].(status := results[i].status)] else prior
  }

  /** The whole cycle: probe the snapshot, then write back into the live list. */
  function CheckCycle(live: seq<Server>, snapshot: seq<Server>, outcomes: seq<Outcome>): seq<Server>
    requires |outcomes| == |snapshot|
  {
    Reconcile(live, ProbeAll(snapshot, outcomes))
  }

  /** Write-back never breaks the URL rule, since it touches statuses only. */
  lemma ReconcileKeepsUrls(live: seq<Server>, results: seq<Server>)
    requires AllUrlsConsistent(live)
    ensures AllUrlsConsistent(Reconcile(live, results))
  {
    var r := Reconcile(live, results);
    forall i | 0 <= i < |r|
      ensures UrlConsistent(r[i])
    {
      assert r[i].(status := live[i].status) == live[i];
    }
  }

  /** Results beyond the end of the live list are dropped without effect. */
  lemma ReconcileDropsExtra(live: seq<Server>, results: seq<Server>)
    requires |live| <= |results|
    ensures Reconcile(live, results) == Reconcile(live, results[..|live|])
  {
    var a, b := Reconcile(live, results), Reconcile(live, results[..|live|]);
    forall i | 0 <= i < |live|
      ensures a[i] == b[i]
    {
      assert a[i].(status := live[i].status) == live[i];
      assert b[i].(status := live[i].status) == live[i];
    }
  }

  /** Writing back the same results twice is the same as writing them back once. */
  lemma ReconcileIdempotent(live: seq<Server>, results: seq<Server>)
    ensures Reconcile(Reconcile(live, results), results) == Reconcile(live, results)
  {
    var once := Reconcile(live, results);
    var twice := Reconcile(once, results);
    forall i | 0 <= i < |live|
      ensures twice[i] == once[i]
    {
      assert twice[i].(status := once[i].status) == once[i];
    }
  }

  /**
   Without concurrent changes (the live list still equals the snapshot),
   every entry ends up with the classification of its own probe and
   nothing else about it changes.
   */
  lemma CycleUndisturbed(snapshot: seq<Server>, outcomes: seq<Outcome>)
    requires |outcomes| == |snapshot|
    ensures CheckCycle(snapshot, snapshot, outcomes) == ProbeAll(snapshot, outcomes)
  {
    var r, p := CheckCycle(snapshot, snapshot, outcomes), ProbeAll(snapshot, outcomes);
    forall i | 0 <= i < |snapshot|
      ensures r[i] == p[i]
    {
      assert r[i].(status := snapshot[i].status) == snapshot[i];
    }
  }

  /** Servers whose probe answered with a success code. */
  function SuccessIndices(outcomes: seq<Outcome>): set<nat> {
    set i: nat | i < |outcomes| && outcomes[i].Response? && IsSuccess(outcomes[i].code)
  }

  /** After an undisturbed cycle the online count is the number of successful probes. */
  lemma CycleUndisturbedStats(snapshot: seq<Server>, outcomes: seq<Outcome>)
    requires |outcomes| == |snapshot|
    ensures GetStats(CheckCycle(snapshot, snapshot, outcomes)).online == |SuccessIndices(outcomes)|
    ensures GetStats(CheckCycle(snapshot, snapshot, outcomes)).total == |snapshot|
  {
    CycleUndisturbed(snapshot, outcomes);
    assert OnlineIndices(ProbeAll(snapshot, outcomes)) == SuccessIndices(outcomes);
  }

  /**
   The race when entry `k` is removed while a cycle is in
   flight: entries before `k` get their own results, every later entry
   gets the result probed for its predecessor in the snapshot (one position
   off), and the last result is dropped.
   */
  lemma CycleAfterRemoval(snapshot: seq<Server>, outcomes: seq<Outcome>, k: nat)
    requires |outcomes| == |snapshot| && k < |snapshot|
    ensures var r := CheckCycle(RemoveServer(snapshot, k), snapshot, outcomes);
      && |r| == |snapshot| - 1
      && (forall j :: 0 <= j < k ==> r[j] == Probe(snapshot[j], outcomes[j]))
      && (forall j :: k <= j < |r| ==> r[j] == Probe(snapshot[j + 1], outcomes[j]))
  {
    var live := RemoveServer(snapshot, k);
    var r := CheckCycle(live, snapshot, outcomes);
    forall j | 0 <= j < |r|
      ensures r[j] == Probe(live[j], outcomes[j])
    {
      assert r[j].(status := live[j].status) == live[j];
    }
  }

  /**
   The race when entries are appended while a cycle is in flight: the
   snapshot's entries get their results and the new entries keep the status
   they were added with.
   */
  lemma CycleAfterAppend(snapshot: seq<Server>, added: seq<Server>, outcomes: seq<Outcome>)
    requires |outcomes| == |snapshot|
    ensures var r := CheckCycle(snapshot + added, snapshot, outcomes);
      && r == ProbeAll(snapshot, outcomes) + added
  {
    var live := snapshot + added;
    var r := CheckCycle(live, snapshot, outcomes);
    var p := ProbeAll(snapshot, outcomes);
    forall j | 0 <= j < |r|
      ensures r[j] == (p + added)[j]
    {
      if j < |snapshot| {
        assert r[j].(status := live[j].status) == live[j];
      }
    }
  }
}
