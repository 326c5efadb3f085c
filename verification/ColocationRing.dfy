/** The static side of a colocation ring: its members, their modes and the
    distance the selector sorts by (meshy/service/colocation.py:38-76). */
module ColocationRing {
  import opened Wrappers

  datatype Mode = OnDemand | Fallback

  datatype Node = Node(service: string, mode: Mode)

  /** The source of the very first grant. */
  const AUTHORITY := "authority"

  datatype Ring = Ring(nodes: seq<Node>) {
    /** What the source's constructor insists on. */
    predicate Valid() {
      && |nodes| >= 2
      && (forall i :: 0 <= i < |nodes| ==> nodes[i].service != "")
      && (forall i, j :: 0 <= i < j < |nodes| ==> nodes[i].service != nodes[j].service)
    }

    predicate Member(service: string) {
      exists i :: 0 <= i < |nodes| && nodes[i].service == service
    }

    function InitialOwner(): string
      requires Valid()
    {
      nodes[0].service
    }

    /** The position of a member; the source raises KeyError for a stranger. */
    function IndexFor(service: string): (index: Option<nat>)
      ensures index.Some? ==> index.value < |nodes| && nodes[index.value].service == service
      ensures index.Some? <==> Member(service)
    {
      IndexFrom(service, 0)
    }

    function IndexFrom(service: string, start: nat): (index: Option<nat>)
      requires start <= |nodes|
      ensures index.Some? ==> start <= index.value < |nodes| && nodes[index.value].service == service
      ensures index.None? ==> forall i :: start <= i < |nodes| ==> nodes[i].service != service
      decreases |nodes| - start
    {
      if start == |nodes| then None
      else if nodes[start].service == service then Some(start)
      else IndexFrom(service, start + 1)
    }

    function IndexOf(service: string): (index: nat)
      requires Member(service)
      ensures index < |nodes| && nodes[index].service == service
    {
      IndexFor(service).value
    }

    function ModeFor(service: string): Mode
      requires Member(service)
    {
      nodes[IndexOf(service)].mode
    }

    /** Hops from one position to another, always travelling forwards. */
    function Distance(from: nat, to: nat): (hops: nat)
      requires Valid()
      ensures hops < |nodes|
    {
      (to - from) % |nodes|
    }

    function NextMember(service: string): (next: string)
      requires Valid() && Member(service)
      ensures Member(next)
    {
      var i := (IndexOf(service) + 1) % |nodes|;
      nodes[i].service
    }
  }

  lemma IndexIsUnique(ring: Ring, service: string, i: nat)
    requires ring.Valid() && i < |ring.nodes| && ring.nodes[i].service == service
    ensures ring.Member(service) && ring.IndexOf(service) == i
  {
  }

  /** For positions on the ring the modulus is one conditional addition. */
  lemma DistanceForm(ring: Ring, from: nat, to: nat)
    requires ring.Valid() && from < |ring.nodes| && to < |ring.nodes|
    ensures ring.Distance(from, to) == if from <= to then to - from else to - from + |ring.nodes|
  {
    WrapOnce(to - from, |ring.nodes|);
  }

  lemma WrapOnce(x: int, n: int)
    requires -n < x < n
    ensures x % n == if x >= 0 then x else x + n
  {
  }

  /** A stop strictly on the way to a goal shortens the rest of the way by
      exactly the hops already travelled. */
  lemma DistanceSplits(ring: Ring, from: nat, stop: nat, goal: nat)
    requires ring.Valid()
    requires from < |ring.nodes| && stop < |ring.nodes| && goal < |ring.nodes|
    requires ring.Distance(from, stop) <= ring.Distance(from, goal)
    ensures ring.Distance(stop, goal) == ring.Distance(from, goal) - ring.Distance(from, stop)
  {
    DistanceForm(ring, from, stop);
    DistanceForm(ring, from, goal);
    DistanceForm(ring, stop, goal);
  }
}
