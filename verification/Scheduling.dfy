/** The FIFO scheduler (src/tokenshare/core/scheduling.py): which ready unit goes to which client. */
module Scheduling {
  import opened Basics
  import opened Objects
  import opened Order
  import opened TaskGraphs

  /** ASCII lower-casing: no other character lower-cases to a letter of the one word it is compared with. */
  function Lower(text: string): string {
    seq(|text|, i requires 0 <= i < |text| =>
      if 'A' <= text[i] <= 'Z' then text[i] - 'A' + 'a' else text[i])
  }

  predicate IsAvailable(status: string) {
    status == "Available" || Lower(status) == "active"
  }

  /** A list requirement asks for containment, a scalar one for equality or membership. */
  predicate CapabilityMatches(required: Json, offered: Json) {
    if required.Arr? && offered.Arr? then Elements(required.items) <= Elements(offered.items)
    else if required.Arr? then Elements(required.items) == {offered}
    else if offered.Arr? then required in offered.items
    else required == offered
  }

  predicate Offers(client: ClientRecord, need: (string, Json)) {
    need.0 in client.capabilities && CapabilityMatches(need.1, client.capabilities[need.0])
  }

  ghost predicate Capable(client: ClientRecord, needs: seq<(string, Json)>) {
    IsAvailable(client.status) && forall i :: 0 <= i < |needs| ==> Offers(client, needs[i])
  }

  /** The names of all the requirements when the client meets every one, else None. */
  method MatchedCapabilities(needs: seq<(string, Json)>, client: ClientRecord) returns (matched: Option<seq<string>>)
    ensures matched.Some? <==> Capable(client, needs)
    ensures matched.Some? ==> |matched.value| == |needs|
    ensures matched.Some? ==> forall i :: 0 <= i < |needs| ==> matched.value[i] == needs[i].0
  {
    if !IsAvailable(client.status) { return None; }
    var names: seq<string> := [];
    for i := 0 to |needs|
      invariant |names| == i
      invariant forall j :: 0 <= j < i ==> Offers(client, needs[j]) && names[j] == needs[j].0
    {
      if needs[i].0 !in client.capabilities { return None; }
      if !CapabilityMatches(needs[i].1, client.capabilities[needs[i].0]) { return None; }
      names := names + [needs[i].0];
    }
    matched := Some(names);
  }

  // ---------------------------------------------------------------- the queue

  function CreationTime(units: map<string, TaskUnit>, id: string): string {
    if id in units then units[id].createdAt else ""
  }

  /** The queue order: by creation time, then by unit id. */
  function ByCreation(units: map<string, TaskUnit>): (string, string) -> bool {
    (a: string, b: string) =>
      if CreationTime(units, a) == CreationTime(units, b) then StringLe(a, b)
      else StringLe(CreationTime(units, a), CreationTime(units, b))
  }

  lemma {:induction false} ByCreationIsTotal(units: map<string, TaskUnit>)
    ensures TotalPreorder(ByCreation(units))
    ensures forall a, b :: ByCreation(units)(a, b) && ByCreation(units)(b, a) ==> a == b
  {
    var le := ByCreation(units);
    forall a, b ensures le(a, b) || le(b, a) {
      StringLeTotal(a, b);
      StringLeTotal(CreationTime(units, a), CreationTime(units, b));
    }
    forall a, b, c | le(a, b) && le(b, c) ensures le(a, c) {
      var x, y, z := CreationTime(units, a), CreationTime(units, b), CreationTime(units, c);
      if x == y && y == z {
        StringLeTransitive(a, b, c);
      } else if x != y && y != z {
        StringLeTransitive(x, y, z);
        if x == z { StringLeAntisymmetric(x, y); }
      }
    }
    forall a, b | le(a, b) && le(b, a) ensures a == b {
      if CreationTime(units, a) == CreationTime(units, b) {
        StringLeAntisymmetric(a, b);
      } else {
        StringLeAntisymmetric(CreationTime(units, a), CreationTime(units, b));
      }
    }
  }

  function Allowed(ids: seq<string>, allowed: Option<set<string>>): seq<string> {
    if ids == [] then []
    else
      var before := Allowed(ids[..|ids| - 1], allowed);
      var last := ids[|ids| - 1];
      if allowed.None? || last in allowed.value then before + [last] else before
  }

  lemma {:induction false} AllowedMembers(ids: seq<string>, allowed: Option<set<string>>)
    ensures forall u :: u in Allowed(ids, allowed) <==> u in ids && (allowed.None? || u in allowed.value)
  {
    if ids != [] {
      AllowedMembers(ids[..|ids| - 1], allowed);
      assert ids == ids[..|ids| - 1] + [ids[|ids| - 1]];
    }
  }

  ghost function Queue(g: TaskGraph, allowed: Option<set<string>>): seq<string>
    requires RelationsOk(g)
  {
    Sort(Allowed(Movable(g, TaskState.Ready, g.order), allowed), ByCreation(g.units))
  }

  // ---------------------------------------------------------------- selection

  predicate HasActiveLease(active: map<string, nat>, unitId: string) {
    unitId in active && active[unitId] > 0
  }

  ghost function FirstCapable(clients: seq<ClientRecord>, needs: seq<(string, Json)>): Option<ClientRecord> {
    if clients == [] then None
    else if Capable(clients[0], needs) then Some(clients[0])
    else FirstCapable(clients[1..], needs)
  }

  ghost function FirstFit(g: TaskGraph, queue: seq<string>, clients: seq<ClientRecord>, shadow: bool,
                          active: map<string, nat>): Option<(string, ClientRecord)>
    requires forall u :: u in queue ==> u in g.units
  {
    if queue == [] then None
    else
      var rest := FirstFit(g, queue[1..], clients, shadow, active);
      if !shadow && HasActiveLease(active, queue[0]) then rest
      else match FirstCapable(clients, g.units[queue[0]].requiredCapabilities)
        case Some(client) => Some((queue[0], client))
        case None => rest
  }

  ghost function Selected(g: TaskGraph, clients: seq<ClientRecord>, shadow: bool, active: map<string, nat>,
                          allowed: Option<set<string>>): Option<(string, ClientRecord)>
    requires RelationsOk(g) && g.IsDict()
  {
    QueueIsKnown(g, allowed);
    FirstFit(g, Queue(g, allowed), clients, shadow, active)
  }

  lemma {:induction false} QueueIsKnown(g: TaskGraph, allowed: Option<set<string>>)
    requires RelationsOk(g)
    ensures forall u :: u in Queue(g, allowed) <==>
      u in g.order && IsReady(g, u) && (allowed.None? || u in allowed.value)
  {
    var ready := Movable(g, TaskState.Ready, g.order);
    MovableMembers(g, TaskState.Ready, g.order);
    AllowedMembers(ready, allowed);
    SortMultiset(Allowed(ready, allowed), ByCreation(g.units));
  }

  method SelectNext(g: TaskGraph, clients: seq<ClientRecord>, shadow: bool, active: map<string, nat>,
                    allowed: Option<set<string>>) returns (choice: Option<(string, ClientRecord)>, queued: nat)
    requires RelationsOk(g) && g.IsDict()
    ensures choice == Selected(g, clients, shadow, active, allowed) && queued == |Queue(g, allowed)|
  {
    var ready := UnitsInState(g, TaskState.Ready);
    QueueIsKnown(g, allowed);
    var queue := Sort(Allowed(ready, allowed), ByCreation(g.units));
    for i := 0 to |queue|
      invariant FirstFit(g, queue, clients, shadow, active) == FirstFit(g, queue[i..], clients, shadow, active)
    {
      assert queue[i..][1..] == queue[i + 1..];
      if !shadow && HasActiveLease(active, queue[i]) { continue; }
      var needs := g.units[queue[i]].requiredCapabilities;
      for c := 0 to |clients|
        invariant FirstCapable(clients, needs) == FirstCapable(clients[c..], needs)
      {
        assert clients[c..][1..] == clients[c + 1..];
        var matched := MatchedCapabilities(needs, clients[c]);
        if matched.Some? {
          return Some((queue[i], clients[c])), |queue|;
        }
      }
    }
    choice, queued := None, |queue|;
  }

  /** A ready, allowed unit free of active leases (unless shadow execution is on) that `client` can serve. */
  ghost predicate EligiblePair(g: TaskGraph, clients: seq<ClientRecord>, shadow: bool, active: map<string, nat>,
                               allowed: Option<set<string>>, u: string, client: ClientRecord)
    requires RelationsOk(g)
  {
    && u in g.order && IsReady(g, u) && (allowed.None? || u in allowed.value)
    && (shadow || !HasActiveLease(active, u))
    && client in clients && Capable(client, g.units[u].requiredCapabilities)
  }

  ghost predicate FirstCapableAt(clients: seq<ClientRecord>, needs: seq<(string, Json)>, k: int, client: ClientRecord) {
    && 0 <= k < |clients| && clients[k] == client && Capable(client, needs)
    && forall j :: 0 <= j < k ==> !Capable(clients[j], needs)
  }

  lemma {:induction false} FirstCapableIsFirst(clients: seq<ClientRecord>, needs: seq<(string, Json)>)
    ensures var first := FirstCapable(clients, needs);
            if first.Some? then exists k :: FirstCapableAt(clients, needs, k, first.value)
            else forall c :: c in clients ==> !Capable(c, needs)
  {
    if clients != [] {
      FirstCapableIsFirst(clients[1..], needs);
      if Capable(clients[0], needs) {
        assert FirstCapableAt(clients, needs, 0, clients[0]);
      } else if FirstCapable(clients, needs).Some? {
        var c := FirstCapable(clients, needs).value;
        var k :| FirstCapableAt(clients[1..], needs, k, c);
        forall j | 0 <= j < k + 1 ensures !Capable(clients[j], needs) {
          if j > 0 { assert clients[1..][j - 1] == clients[j]; }
        }
        assert FirstCapableAt(clients, needs, k + 1, c);
      }
    }
  }

  /** The unit is leased already, or no client can serve it. */
  ghost predicate PassedOver(g: TaskGraph, clients: seq<ClientRecord>, shadow: bool, active: map<string, nat>,
                             u: string)
    requires u in g.units
  {
    (!shadow && HasActiveLease(active, u)) || FirstCapable(clients, g.units[u].requiredCapabilities).None?
  }

  ghost predicate FirstFitAt(g: TaskGraph, queue: seq<string>, clients: seq<ClientRecord>, shadow: bool,
                             active: map<string, nat>, k: int, choice: (string, ClientRecord))
    requires forall u :: u in queue ==> u in g.units
  {
    && 0 <= k < |queue| && queue[k] == choice.0 && !PassedOver(g, clients, shadow, active, choice.0)
    && FirstCapable(clients, g.units[choice.0].requiredCapabilities) == Some(choice.1)
    && forall j :: 0 <= j < k ==> PassedOver(g, clients, shadow, active, queue[j])
  }

  lemma {:induction false} FirstFitIsFirst(g: TaskGraph, queue: seq<string>, clients: seq<ClientRecord>, shadow: bool,
                                           active: map<string, nat>)
    requires forall u :: u in queue ==> u in g.units
    ensures var fit := FirstFit(g, queue, clients, shadow, active);
            if fit.Some? then exists k :: FirstFitAt(g, queue, clients, shadow, active, k, fit.value)
            else forall u :: u in queue ==> PassedOver(g, clients, shadow, active, u)
  {
    if queue != [] {
      FirstFitIsFirst(g, queue[1..], clients, shadow, active);
      var fit := FirstFit(g, queue, clients, shadow, active);
      if !PassedOver(g, clients, shadow, active, queue[0]) {
        assert FirstFitAt(g, queue, clients, shadow, active, 0, fit.value);
      } else if fit.Some? {
        var k :| FirstFitAt(g, queue[1..], clients, shadow, active, k, fit.value);
        forall j | 0 <= j < k + 1 ensures PassedOver(g, clients, shadow, active, queue[j]) {
          if j > 0 { assert queue[1..][j - 1] == queue[j]; }
        }
        assert FirstFitAt(g, queue, clients, shadow, active, k + 1, fit.value);
      }
    }
  }

  /** Eligible pairs are exactly the queued units that are not passed over. */
  lemma {:induction false} EligibleIsQueued(g: TaskGraph, clients: seq<ClientRecord>, shadow: bool,
                                            active: map<string, nat>,
                        allowed: Option<set<string>>, u: string, client: ClientRecord)
    requires RelationsOk(g) && g.IsDict() && u in g.units
    ensures EligiblePair(g, clients, shadow, active, allowed, u, client) ==>
      u in Queue(g, allowed) && !PassedOver(g, clients, shadow, active, u)
    ensures u in Queue(g, allowed) && !PassedOver(g, clients, shadow, active, u)
      && FirstCapable(clients, g.units[u].requiredCapabilities) == Some(client)
      ==> EligiblePair(g, clients, shadow, active, allowed, u, client)
  {
    QueueIsKnown(g, allowed);
    FirstCapableIsFirst(clients, g.units[u].requiredCapabilities);
  }

  /** No unit before the first fit in the queue is eligible, and the queue is in creation order. */
  lemma {:induction false} FirstFitIsLeast(g: TaskGraph, clients: seq<ClientRecord>, shadow: bool,
                                           active: map<string, nat>,
                        allowed: Option<set<string>>, k: nat, choice: (string, ClientRecord), v: string)
    requires RelationsOk(g) && g.IsDict() && forall u :: u in Queue(g, allowed) ==> u in g.units
    requires FirstFitAt(g, Queue(g, allowed), clients, shadow, active, k, choice)
    requires v in Queue(g, allowed) && !PassedOver(g, clients, shadow, active, v)
    ensures ByCreation(g.units)(choice.0, v)
  {
    var queue := Queue(g, allowed);
    ByCreationIsTotal(g.units);
    SortSorts(Allowed(Movable(g, TaskState.Ready, g.order), allowed), ByCreation(g.units));
    var j :| 0 <= j < |queue| && queue[j] == v;
    if j == k { assert ByCreation(g.units)(v, v); }
  }

  /**
   * The scheduler picks the least unit of the queue order that has an eligible client, gives it the
   * first such client in the caller's list, and returns nothing exactly when no eligible pair exists.
   */
  lemma {:induction false} SelectedIsLeast(g: TaskGraph, clients: seq<ClientRecord>, shadow: bool,
                                           active: map<string, nat>,
                        allowed: Option<set<string>>)
    requires RelationsOk(g) && g.IsDict()
    ensures Selected(g, clients, shadow, active, allowed).None? <==>
      forall v, c :: !EligiblePair(g, clients, shadow, active, allowed, v, c)
    ensures Selected(g, clients, shadow, active, allowed).Some? ==>
      var (u, client) := Selected(g, clients, shadow, active, allowed).value;
      && EligiblePair(g, clients, shadow, active, allowed, u, client)
      && (forall v, c :: EligiblePair(g, clients, shadow, active, allowed, v, c) ==> ByCreation(g.units)(u, v))
      && (exists k :: FirstCapableAt(clients, g.units[u].requiredCapabilities, k, client))
  {
    var choice := Selected(g, clients, shadow, active, allowed);
    QueueIsKnown(g, allowed);
    FirstFitIsFirst(g, Queue(g, allowed), clients, shadow, active);
    forall v, c | EligiblePair(g, clients, shadow, active, allowed, v, c)
      ensures v in Queue(g, allowed) && !PassedOver(g, clients, shadow, active, v)
    {
      EligibleIsQueued(g, clients, shadow, active, allowed, v, c);
    }
    if choice.Some? {
      var (u, client) := choice.value;
      FirstCapableIsFirst(clients, g.units[u].requiredCapabilities);
      var k :| FirstFitAt(g, Queue(g, allowed), clients, shadow, active, k, choice.value);
      EligibleIsQueued(g, clients, shadow, active, allowed, u, client);
      forall v, c | EligiblePair(g, clients, shadow, active, allowed, v, c) ensures ByCreation(g.units)(u, v) {
        FirstFitIsLeast(g, clients, shadow, active, allowed, k, choice.value, v);
      }
    }
  }

  /** Without shadow execution the unit picked has no active lease. */
  lemma {:induction false} SelectedIsFree(g: TaskGraph, clients: seq<ClientRecord>, active: map<string, nat>,
                                          allowed: Option<set<string>>)
    requires RelationsOk(g) && g.IsDict() && Selected(g, clients, false, active, allowed).Some?
    ensures !HasActiveLease(active, Selected(g, clients, false, active, allowed).value.0)
  {
    SelectedIsLeast(g, clients, false, active, allowed);
  }
}
