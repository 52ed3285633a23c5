/** The master's node table (wings_control/distributed/monitor.py). */
module Monitor {

  const CHECK_INTERVAL := 30.0
  const MAX_MISSED := 60

  datatype Node = Node(lastHeartbeat: real, missed: nat, workload: real)

  type Table = map<string, Node>

  datatype Event =
    | Register(id: string, at: real)
    | Heartbeat(id: string, at: real, workload: real)
    | Check(read: real)                                // `read` is the clock reading taken before the lock

  predicate Late(node: Node, read: real) {
    read - node.lastHeartbeat > CHECK_INTERVAL * 1.5
  }

  function Checked(node: Node, read: real): Node {
    if Late(node, read) then node.(missed := node.missed + 1) else node
  }

  predicate Removed(node: Node, read: real) {
    Late(node, read) && node.missed + 1 >= MAX_MISSED
  }

  function CheckTable(t: Table, read: real): Table {
    map id | id in t && !Removed(t[id], read) :: Checked(t[id], read)
  }

  function Step(t: Table, e: Event): Table {
    match e
    case Register(id, at) => if id in t then t else t[id := Node(at, 0, 0.0)]
    case Heartbeat(id, at, w) => if id in t then t[id := Node(at, 0, w)] else t
    case Check(read) => CheckTable(t, read)
  }

  function Run(es: seq<Event>): Table {
    if es == [] then map[] else Step(Run(es[..|es| - 1]), es[|es| - 1])
  }

  /** The last clock reading a check used, if there was a check. */
  function LastRead(es: seq<Event>): seq<real> {
    if es == [] then []
    else if es[|es| - 1].Check? then [es[|es| - 1].read]
    else LastRead(es[..|es| - 1])
  }

  /** The check loop sleeps CHECK_INTERVAL between two checks. */
  ghost predicate Spaced(es: seq<Event>) {
    es == [] ||
    var n := |es| - 1;
    Spaced(es[..n]) && (es[n].Check? && LastRead(es[..n]) != [] ==> es[n].read >= LastRead(es[..n])[0] + CHECK_INTERVAL)
  }

  /** A positive count means a check has read the clock that long after the last heartbeat. */
  ghost predicate CountedSilence(t: Table, last: seq<real>) {
    forall id :: id in t && t[id].missed > 0 ==>
      last != [] && last[0] - t[id].lastHeartbeat > 45.0 + 30.0 * (t[id].missed - 1) as real
  }

  /** The counter of missed heartbeats measures silence: m missed heartbeats mean more than
      45 + 30 (m - 1) seconds without one, however heartbeats and checks interleave. */
  lemma {:induction false} MissedMeansSilence(es: seq<Event>)
    requires Spaced(es)
    ensures CountedSilence(Run(es), LastRead(es))
    ensures forall id :: id in Run(es) ==> Run(es)[id].missed < MAX_MISSED
  {
    if es != [] {
      MissedMeansSilence(es[..|es| - 1]);
    }
  }

  /** A check deletes a node only after more than 1815 seconds of silence. */
  lemma RemovalNeedsSilence(es: seq<Event>, read: real, id: string)
    requires Spaced(es + [Check(read)]) && id in Run(es) && id !in Run(es + [Check(read)])
    ensures read - Run(es)[id].lastHeartbeat > 1815.0
  {
    assert (es + [Check(read)])[..|es|] == es;
    MissedMeansSilence(es);
    assert Removed(Run(es)[id], read);
    assert Run(es)[id].missed == 59;
  }

  /** Heartbeats do not bring a removed node back: only a registration does. */
  lemma {:induction false} RemovalIsPermanent(es: seq<Event>, fs: seq<Event>, id: string)
    requires id !in Run(es)
    requires forall i :: 0 <= i < |fs| && fs[i].Register? ==> fs[i].id != id
    ensures id !in Run(es + fs)
  {
    if fs == [] {
      assert es + fs == es;
    } else {
      var n := |fs| - 1;
      RemovalIsPermanent(es, fs[..n], id);
      assert (es + fs)[..|es| + n] == es + fs[..n];
    }
  }

  // ---------------------------------------------------------------------------
  // What an entry says
  // ---------------------------------------------------------------------------

  /** One more registration or heartbeat: a known node's entry is kept by the first and renewed by the
      second, an unknown node is entered by the first and ignored by the second, and no other entry
      changes. */
  lemma OneMoreEvent(es: seq<Event>, id: string, at: real, w: real)
    ensures var t, r, h := Run(es), Run(es + [Register(id, at)]), Run(es + [Heartbeat(id, at, w)]);
            && (id in t ==> r == t && h.Keys == t.Keys && h[id] == Node(at, 0, w))
            && (id !in t ==> h == t && r.Keys == t.Keys + {id} && r[id] == Node(at, 0, 0.0))
            && (forall k :: k in t && k != id ==> r[k] == t[k] && h[k] == t[k])
  {
    assert (es + [Register(id, at)])[..|es|] == es;
    assert (es + [Heartbeat(id, at, w)])[..|es|] == es;
  }

  /** Event `i` is where the entry of a node comes from: its registration or its last heartbeat. */
  ghost predicate LastHeard(es: seq<Event>, id: string, i: nat, node: Node)
    requires i < |es|
  {
    && match es[i] {
         case Register(k, at) => k == id && node.lastHeartbeat == at && node.workload == 0.0
         case Heartbeat(k, at, w) => k == id && node.lastHeartbeat == at && node.workload == w
         case Check(_) => false
       }
    && forall j :: i < j < |es| && es[j].Heartbeat? ==> es[j].id != id
  }

  /** Over every run: each entry of the table tells when the node was last heard from, and what it said. */
  lemma {:induction false} EntriesAreHeard(es: seq<Event>, id: string) returns (i: nat)
    requires id in Run(es)
    ensures i < |es| && LastHeard(es, id, i, Run(es)[id])
  {
    var n := |es| - 1;
    var before := Run(es[..n]);
    if (es[n].Heartbeat? && es[n].id == id) || id !in before {
      i := n;
    } else {
      i := EntriesAreHeard(es[..n], id);
      assert es[i] == es[..n][i];
      forall j | i < j < |es| && es[j].Heartbeat? ensures es[j].id != id {
        if j < n { assert es[j] == es[..n][j]; }
      }
    }
  }

  // ---------------------------------------------------------------------------
  // A node nobody hears from
  // ---------------------------------------------------------------------------

  /** What a series of checks makes of one node; removal is for good. */
  function Checks(node: Node, clock: seq<real>): (r: seq<Node>)
    ensures |r| <= 1
  {
    if clock == [] then [node]
    else
      var r := Checks(node, clock[..|clock| - 1]);
      var read := clock[|clock| - 1];
      if r == [] || Removed(r[0], read) then [] else [Checked(r[0], read)]
  }

  lemma {:induction false} ChecksFirst(node: Node, read: real, clock: seq<real>)
    ensures Checks(node, [read] + clock) == if Removed(node, read) then [] else Checks(Checked(node, read), clock)
  {
    if clock == [] {
      assert [read] + clock == [read] && [read][..0] == [];
      assert Checks(node, [read][..0]) == [node];
    } else {
      var n := |clock| - 1;
      ChecksFirst(node, read, clock[..n]);
      assert ([read] + clock)[..n + 1] == [read] + clock[..n];
    }
  }

  function LateReads(node: Node, clock: seq<real>): nat {
    if clock == [] then 0
    else LateReads(node, clock[..|clock| - 1]) + if Late(node, clock[|clock| - 1]) then 1 else 0
  }

  lemma {:induction false} ChecksCountLateReads(node: Node, clock: seq<real>)
    requires node.missed < MAX_MISSED
    ensures var m := node.missed + LateReads(node, clock);
            Checks(node, clock) == if m >= MAX_MISSED then [] else [node.(missed := m)]
  {
    if clock != [] {
      ChecksCountLateReads(node, clock[..|clock| - 1]);
    }
  }

  /** Nothing is heard from node `id`. */
  ghost predicate Silent(es: seq<Event>, id: string) {
    forall i :: 0 <= i < |es| ==> es[i].Check? || es[i].id != id
  }

  /** The clock readings of the checks. */
  function Readings(es: seq<Event>): seq<real> {
    if es == [] then []
    else
      var n := |es| - 1;
      Readings(es[..n]) + if es[n].Check? then [es[n].read] else []
  }

  lemma OneMoreReading(node: Node, clock: seq<real>, read: real)
    ensures var r := Checks(node, clock);
            Checks(node, clock + [read]) == if r == [] || Removed(r[0], read) then [] else [Checked(r[0], read)]
  {
    assert (clock + [read])[..|clock|] == clock;
  }

  /** What the table holds about a silent node is what the checks make of its entry, whatever happens
      to other nodes. */
  lemma {:induction false} OwnChecks(es: seq<Event>, fs: seq<Event>, id: string)
    requires id in Run(es) && Silent(fs, id)
    ensures var r := Checks(Run(es)[id], Readings(fs));
            if r == [] then id !in Run(es + fs) else id in Run(es + fs) && Run(es + fs)[id] == r[0]
  {
    if fs == [] {
      assert es + fs == es;
    } else {
      var n := |fs| - 1;
      OwnChecks(es, fs[..n], id);
      assert Run(es + fs) == Step(Run(es + fs[..n]), fs[n]) by {
        assert (es + fs)[..|es| + n] == es + fs[..n] && (es + fs)[|es| + n] == fs[n];
      }
      if fs[n].Check? {
        OneMoreReading(Run(es)[id], Readings(fs[..n]), fs[n].read);
      } else {
        assert Readings(fs) == Readings(fs[..n]);
      }
    }
  }

  lemma {:induction false} FewerThan60(es: seq<Event>)
    ensures forall id :: id in Run(es) ==> Run(es)[id].missed < MAX_MISSED
  {
    if es != [] {
      FewerThan60(es[..|es| - 1]);
    }
  }

  /** A node nobody hears from leaves the table exactly when its count and the checks that have found
      it late since reach 60. */
  lemma SilentNode(es: seq<Event>, fs: seq<Event>, id: string)
    requires id in Run(es) && Silent(fs, id)
    ensures var m := Run(es)[id].missed + LateReads(Run(es)[id], Readings(fs));
            && (id !in Run(es + fs) <==> m >= MAX_MISSED)
            && (id in Run(es + fs) ==> Run(es + fs)[id] == Run(es)[id].(missed := m))
  {
    FewerThan60(es);
    OwnChecks(es, fs, id);
    ChecksCountLateReads(Run(es)[id], Readings(fs));
  }

  /** Checks at most `gap` apart, starting within `gap` of the last heartbeat. */
  ghost predicate Regular(clock: seq<real>, from: real, gap: real) {
    && (clock != [] ==> clock[0] <= from + gap)
    && (forall i :: 0 <= i < |clock| - 1 ==> clock[i] <= clock[i + 1] <= clock[i] + gap)
  }

  /** `n` check periods. */
  function Periods(gap: real, n: nat): (r: real)
    requires gap > 0.0
    ensures r >= 0.0
    ensures n >= 1 ==> r >= gap
  {
    if n == 0 then 0.0 else Periods(gap, n - 1) + gap
  }

  lemma {:induction false} PeriodsGrow(gap: real, m: nat, n: nat)
    requires gap > 0.0 && m <= n
    ensures Periods(gap, m) <= Periods(gap, n)
    decreases n
  {
    if m < n {
      PeriodsGrow(gap, m, n - 1);
    }
  }

  /** Late checks come at least as fast as the check period allows. */
  lemma {:induction false} LateReadsGrow(node: Node, clock: seq<real>, from: real, gap: real)
    requires Regular(clock, from, gap) && from <= node.lastHeartbeat + 45.0 && gap > 0.0 && clock != []
    ensures LateReads(node, clock) == 0 <==> !Late(node, clock[|clock| - 1])
    ensures clock[|clock| - 1] <= node.lastHeartbeat + 45.0 + Periods(gap, LateReads(node, clock))
  {
    var n := |clock| - 1;
    var cs := clock[..n];
    if n > 0 {
      LateReadsGrow(node, cs, from, gap);
      assert cs[n - 1] == clock[n - 1] <= clock[n] <= clock[n - 1] + gap;
    } else {
      assert cs == [];
    }
  }

  lemma LateLongEnough(node: Node, clock: seq<real>, from: real, gap: real)
    requires Regular(clock, from, gap) && from <= node.lastHeartbeat + 45.0 && gap > 0.0 && clock != []
    requires node.missed < MAX_MISSED && clock[|clock| - 1] > node.lastHeartbeat + 45.0 + Periods(gap, 59)
    ensures Checks(node, clock) == []
  {
    ChecksCountLateReads(node, clock);
    LateReadsGrow(node, clock, from, gap);
    if LateReads(node, clock) < MAX_MISSED {
      PeriodsGrow(gap, LateReads(node, clock), 59);
    }
  }

  /** A monitor that checks at least every `gap` seconds removes a silent node no later than at the
      first check more than 59 periods after it became late. */
  lemma SilenceRemoves(es: seq<Event>, fs: seq<Event>, id: string, gap: real)
    requires id in Run(es) && Silent(fs, id) && gap > 0.0 && Readings(fs) != []
    requires Regular(Readings(fs), Run(es)[id].lastHeartbeat, gap)
    requires Readings(fs)[|Readings(fs)| - 1] > Run(es)[id].lastHeartbeat + 45.0 + Periods(gap, 59)
    ensures id !in Run(es + fs)
  {
    FewerThan60(es);
    OwnChecks(es, fs, id);
    LateLongEnough(Run(es)[id], Readings(fs), Run(es)[id].lastHeartbeat, gap);
  }

  // ---------------------------------------------------------------------------
  // The service
  // ---------------------------------------------------------------------------

  class MonitorService {
    var nodes: Table

    constructor ()
      ensures nodes == map[]
    {
      nodes := map[];
    }

    method RegisterNode(id: string, now: real)
      modifies this
      ensures nodes == Step(old(nodes), Register(id, now))
    {
      if id !in nodes {
        nodes := nodes[id := Node(now, 0, 0.0)];
      }
    }

    method UpdateHeartbeat(id: string, now: real, workload: real)
      modifies this
      ensures nodes == Step(old(nodes), Heartbeat(id, now, workload))
    {
      if id in nodes {
        nodes := nodes[id := nodes[id].(lastHeartbeat := now, workload := workload, missed := 0)];
      }
    }

    /** One round of the check loop over a snapshot of the table. */
    method CheckNodes(currentTime: real)
      modifies this
      ensures nodes == Step(old(nodes), Check(currentTime))
    {
      ghost var t := nodes;
      var todo := nodes.Keys;
      while todo != {}
        invariant todo <= t.Keys && todo <= nodes.Keys
        invariant forall id :: id in todo ==> nodes[id] == t[id]
        invariant forall id :: id in t && id !in todo ==> (id in nodes <==> !Removed(t[id], currentTime))
        invariant forall id :: id in nodes && id !in todo ==> id in t && nodes[id] == Checked(t[id], currentTime)
        decreases |todo|
      {
        var id :| id in todo;
        todo := todo - {id};
        var node := nodes[id];
        if currentTime - node.lastHeartbeat > CHECK_INTERVAL * 1.5 {
          nodes := nodes[id := node.(missed := node.missed + 1)];
          if nodes[id].missed >= MAX_MISSED {
            nodes := nodes - {id};
          }
        }
      }
    }
  }
}
