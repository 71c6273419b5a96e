/** The saved workspaces: at most eight bindings, one per origin. */
module Targets {
  import opened Common

  datatype Binding = Binding(origin: string, peerId: string, address: string)

  const MAX_TARGETS: nat := 8

  predicate TargetsValid(bs: seq<Binding>) {
    && |bs| <= MAX_TARGETS
    && forall i, j | 0 <= i < j < |bs| :: bs[i].origin != bs[j].origin
  }

  /** The binding saved for an origin. */
  function Lookup(bs: seq<Binding>, origin: string): (r: Option<Binding>)
    ensures r.Some? ==> r.value in bs && r.value.origin == origin
    ensures r.None? ==> forall i | 0 <= i < |bs| :: bs[i].origin != origin
  {
    if bs == [] then None else if bs[0].origin == origin then Some(bs[0]) else Lookup(bs[1..], origin)
  }

  lemma {:induction false} LookupIs(bs: seq<Binding>, origin: string, k: nat)
    requires k < |bs| && bs[k].origin == origin && forall i | 0 <= i < k :: bs[i].origin != origin
    ensures Lookup(bs, origin) == Some(bs[k])
  {
    if k > 0 {
      LookupIs(bs[1..], origin, k - 1);
    }
  }

  method FindTarget(bs: seq<Binding>, origin: string) returns (r: Option<Binding>)
    ensures r == Lookup(bs, origin)
  {
    for i := 0 to |bs|
      invariant forall j | 0 <= j < i :: bs[j].origin != origin
    {
      if bs[i].origin == origin {
        LookupIs(bs, origin, i);
        return Some(bs[i]);
      }
    }
    r := None;
  }

  /** Saving puts the binding in, or fails when eight other origins are saved; other origins keep theirs. */
  method SaveTarget(bs: seq<Binding>, b: Binding) returns (r: Option<seq<Binding>>)
    requires TargetsValid(bs)
    ensures r.None? <==> |bs| == MAX_TARGETS && Lookup(bs, b.origin).None?
    ensures r.Some? ==> TargetsValid(r.value) && Lookup(r.value, b.origin) == Some(b)
    ensures r.Some? ==> forall o | o != b.origin :: Lookup(r.value, o) == Lookup(bs, o)
  {
    for i := 0 to |bs|
      invariant forall j | 0 <= j < i :: bs[j].origin != b.origin
    {
      if bs[i].origin == b.origin {
        LookupIs(bs, b.origin, i);
        var bs' := bs[i := b];
        LookupIs(bs', b.origin, i);
        OthersReplaced(bs, b, i);
        return Some(bs');
      }
    }
    if |bs| == MAX_TARGETS {
      return None;
    }
    LookupIs(bs + [b], b.origin, |bs|);
    OthersAppended(bs, b);
    r := Some(bs + [b]);
  }

  lemma {:induction false} OthersReplaced(bs: seq<Binding>, b: Binding, k: nat)
    requires k < |bs| && bs[k].origin == b.origin
    ensures forall o | o != b.origin :: Lookup(bs[k := b], o) == Lookup(bs, o)
  {
    if k == 0 {
      assert bs[0 := b][1..] == bs[1..];
    } else {
      OthersReplaced(bs[1..], b, k - 1);
      assert bs[k := b][1..] == bs[1..][k - 1 := b];
    }
  }

  lemma {:induction false} OthersAppended(bs: seq<Binding>, b: Binding)
    ensures forall o | o != b.origin :: Lookup(bs + [b], o) == Lookup(bs, o)
  {
    if bs == [] {
      assert ([] + [b])[1..] == [];
    } else {
      OthersAppended(bs[1..], b);
      assert (bs + [b])[1..] == bs[1..] + [b];
    }
  }
}
