/**
 The check that a DNS response proves a name has no records of a type: its answers must form one
 complete CNAME chain from the question (section 3.6.2 of RFC 1034), and its authority section must
 hold the SOA of a zone enclosing the chain's last name (section 2.2 of RFC 2308).
 */
module DnsAbsence {
  import opened Common

  datatype RType = CNAME | SOA | OtherType(id: nat)

  datatype Body = CNameBody(target: string) | SoaBody | OtherBody

  datatype Resource = Resource(name: string, inet: bool, rtype: RType, body: Body)

  datatype Question = Question(name: string, inet: bool, typeId: nat)

  datatype Wire =
    | Malformed
    | Message(response: bool, truncated: bool, opCode: nat, rCode: nat,
              questions: seq<Question>, answers: seq<Resource>, authorities: seq<Resource>)

  // ---------------------------------------------------------------------------
  // Names.

  function LowerChar(c: char): char {
    if 'A' <= c <= 'Z' then (c as int + 32) as char else c
  }

  function Lower(s: string): (r: string)
    ensures |r| == |s|
  {
    if s == "" then "" else [LowerChar(s[0])] + Lower(s[1..])
  }

  predicate EqualFold(a: string, b: string) {
    Lower(a) == Lower(b)
  }

  function TrimDot(host: string): string {
    if |host| > 0 && host[|host| - 1] == '.' then host[..|host| - 1] else host
  }

  predicate HasSuffix(s: string, suffix: string) {
    |suffix| <= |s| && s[|s| - |suffix|..] == suffix
  }

  predicate Encloses(zone: string, name: string) {
    name == zone || HasSuffix(name, "." + zone) || zone == "."
  }

  // ---------------------------------------------------------------------------
  // What a complete chain is.

  predicate IsCName(r: Resource) {
    r.inet && r.rtype.CNAME?
  }

  predicate IsLink(r: Resource) {
    IsCName(r) && r.body.CNameBody?
  }

  function Owner(r: Resource): string {
    Lower(r.name)
  }

  function Target(r: Resource): string {
    if r.body.CNameBody? then Lower(r.body.target) else ""
  }

  /** The names a path passes through, from its first name. */
  function Names(name: string, path: seq<Resource>): seq<string>
    decreases |path|
  {
    if path == [] then [name] else [name] + Names(Target(path[0]), path[1..])
  }

  predicate Linked(name: string, path: seq<Resource>)
    decreases |path|
  {
    path == [] || (IsLink(path[0]) && Owner(path[0]) == name && Linked(Target(path[0]), path[1..]))
  }

  ghost predicate Distinct(names: seq<string>) {
    forall i, j | 0 <= i < j < |names| :: names[i] != names[j]
  }

  /** `path` is a CNAME path of pairwise distinct names that starts at `question` and uses every answer. */
  ghost predicate CompleteChain(question: string, answers: seq<Resource>, path: seq<Resource>) {
    && multiset(path) == multiset(answers)
    && Linked(question, path)
    && Distinct(Names(question, path))
  }

  function EndOf(name: string, path: seq<Resource>): string
    decreases |path|
  {
    if path == [] then name else EndOf(Target(path[0]), path[1..])
  }

  // ---------------------------------------------------------------------------
  // The answer loop.

  /** The first record at or after `from` owned by `name`, or the length. */
  function FirstOwned(records: seq<Resource>, name: string, from: nat): (k: nat)
    requires from <= |records|
    ensures from <= k <= |records|
    ensures k < |records| ==> Owner(records[k]) == name
    ensures forall j | from <= j < k :: Owner(records[j]) != name
    decreases |records| - from
  {
    if from == |records| || Owner(records[from]) == name then from else FirstOwned(records, name, from + 1)
  }

  predicate AllCNames(records: seq<Resource>) {
    forall j | 0 <= j < |records| :: IsCName(records[j])
  }

  predicate OneOwned(records: seq<Resource>, name: string) {
    var k := FirstOwned(records, name, 0);
    k < |records| && FirstOwned(records, name, k + 1) == |records|
  }

  function Without(records: seq<Resource>, k: nat): seq<Resource>
    requires k < |records|
  {
    records[..k] + records[k + 1..]
  }

  function Follow(name: string, remaining: seq<Resource>, seen: set<string>): Option<string>
    decreases |remaining|
  {
    if remaining == [] then Some(name)
    else if !AllCNames(remaining) || !OneOwned(remaining, name) then None
    else
      var k := FirstOwned(remaining, name, 0);
      if !remaining[k].body.CNameBody? then None
      else
        var next := Target(remaining[k]);
        if next in seen then None else Follow(next, Without(remaining, k), seen + {next})
  }

  /** The inner scan: the index of the one record owned by `name`, when all are CNAMEs. */
  method FindOwned(remaining: seq<Resource>, name: string) returns (found: Option<nat>)
    ensures found.Some? <==> AllCNames(remaining) && OneOwned(remaining, name)
    ensures found.Some? ==> found.value == FirstOwned(remaining, name, 0)
  {
    found := None;
    ghost var first := FirstOwned(remaining, name, 0);
    for i := 0 to |remaining|
      invariant forall j | 0 <= j < i :: IsCName(remaining[j])
      invariant found.None? ==> i <= first
      invariant found.Some? ==> found.value == first < i && forall j | first < j < i :: Owner(remaining[j]) != name
    {
      if !IsCName(remaining[i]) {
        return None;
      }
      if Owner(remaining[i]) == name {
        if found.Some? {
          return None;
        }
        found := Some(i);
      }
    }
  }

  method FollowChain(question: string, answers: seq<Resource>) returns (end: Option<string>)
    ensures end == Follow(question, answers, {question})
  {
    var name, remaining, seen := question, answers, {question};
    while remaining != []
      invariant Follow(name, remaining, seen) == Follow(question, answers, {question})
      decreases |remaining|
    {
      var found := FindOwned(remaining, name);
      if found.None? {
        return None;
      }
      var r := remaining[found.value];
      if !r.body.CNameBody? {
        return None;
      }
      name := Lower(r.body.target);
      if name in seen {
        return None;
      }
      seen := seen + {name};
      remaining := Without(remaining, found.value);
    }
    end := Some(name);
  }

  // ---------------------------------------------------------------------------
  // The loop accepts exactly the complete chains.

  /** A path that never comes back to a name in `seen`. */
  predicate Avoiding(name: string, path: seq<Resource>, seen: set<string>)
    decreases |path|
  {
    path == [] ||
    (&& IsLink(path[0]) && Owner(path[0]) == name
     && Target(path[0]) !in seen
     && Avoiding(Target(path[0]), path[1..], seen + {Target(path[0])}))
  }

  lemma {:induction false} AvoidingOwners(name: string, path: seq<Resource>, seen: set<string>, m: nat)
    requires Avoiding(name, path, seen) && 1 <= m < |path|
    ensures Owner(path[m]) !in seen
    decreases |path|
  {
    if m > 1 {
      AvoidingOwners(Target(path[0]), path[1..], seen + {Target(path[0])}, m - 1);
    }
  }

  lemma {:induction false} AvoidingLinks(name: string, path: seq<Resource>, seen: set<string>, m: nat)
    requires Avoiding(name, path, seen) && m < |path|
    ensures IsLink(path[m])
    decreases |path|
  {
    if m > 0 {
      AvoidingLinks(Target(path[0]), path[1..], seen + {Target(path[0])}, m - 1);
    }
  }

  lemma WithoutMultiset(records: seq<Resource>, k: nat)
    requires k < |records|
    ensures multiset(records) == multiset(Without(records, k)) + multiset{records[k]}
  {
    assert records == records[..k] + [records[k]] + records[k + 1..];
  }

  lemma TailMultiset(path: seq<Resource>)
    requires path != []
    ensures multiset(path) == multiset(path[1..]) + multiset{path[0]}
  {
    assert path == [path[0]] + path[1..];
  }

  /** Removing the path's first record from a rearrangement leaves a rearrangement of the rest. */
  lemma RestRearranged(records: seq<Resource>, path: seq<Resource>, p: nat)
    requires path != [] && multiset(path) == multiset(records)
    requires p < |records| && records[p] == path[0]
    ensures multiset(path[1..]) == multiset(Without(records, p))
  {
    WithoutMultiset(records, p);
    TailMultiset(path);
    assert multiset(path[1..]) == multiset(path) - multiset{path[0]};
    assert multiset(Without(records, p)) == multiset(records) - multiset{records[p]};
  }

  lemma InRest(records: seq<Resource>, p: nat, q: nat)
    requires p < |records| && q < |records| && q != p
    ensures records[q] in Without(records, p)
  {
    assert Without(records, p)[if q < p then q else q - 1] == records[q];
  }

  lemma Rearranged(a: seq<Resource>, b: seq<Resource>, r: Resource)
    requires multiset(a) == multiset(b) && r in a
    ensures r in b
  {
    assert r in multiset(a);
  }

  /** In a rearrangement of an avoiding path, only the first record is owned by its name. */
  lemma OthersNotOwned(name: string, records: seq<Resource>, path: seq<Resource>, seen: set<string>, p: nat, q: nat)
    requires Avoiding(name, path, seen) && name in seen && path != []
    requires multiset(path) == multiset(records)
    requires p < |records| && records[p] == path[0]
    requires q < |records| && q != p
    ensures Owner(records[q]) != name
  {
    RestRearranged(records, path, p);
    InRest(records, p, q);
    Rearranged(Without(records, p), path[1..], records[q]);
    var m :| 0 <= m < |path[1..]| && path[1..][m] == records[q];
    AvoidingOwners(name, path, seen, m + 1);
  }

  lemma RearrangedCNames(name: string, records: seq<Resource>, path: seq<Resource>, seen: set<string>)
    requires Avoiding(name, path, seen) && multiset(path) == multiset(records)
    ensures AllCNames(records)
  {
    forall j | 0 <= j < |records|
      ensures IsCName(records[j])
    {
      Rearranged(records, path, records[j]);
      var m :| 0 <= m < |path| && path[m] == records[j];
      AvoidingLinks(name, path, seen, m);
    }
  }

  lemma RearrangedFirst(name: string, records: seq<Resource>, path: seq<Resource>, seen: set<string>) returns (p: nat)
    requires Avoiding(name, path, seen) && name in seen && path != []
    requires multiset(path) == multiset(records)
    ensures p < |records| && records[p] == path[0]
    ensures FirstOwned(records, name, 0) == p && OneOwned(records, name)
  {
    Rearranged(path, records, path[0]);
    p :| 0 <= p < |records| && records[p] == path[0];
    forall q | 0 <= q < |records| && q != p
      ensures Owner(records[q]) != name
    {
      OthersNotOwned(name, records, path, seen, p, q);
    }
  }

  lemma SameLength(a: seq<Resource>, b: seq<Resource>)
    requires multiset(a) == multiset(b)
    ensures |a| == |b|
  {
    assert |multiset(a)| == |a|;
  }

  lemma {:induction false} FollowFindsPath(name: string, path: seq<Resource>, records: seq<Resource>, seen: set<string>)
    requires Avoiding(name, path, seen) && name in seen
    requires multiset(path) == multiset(records)
    ensures Follow(name, records, seen) == Some(EndOf(name, path))
    decreases |records|
  {
    SameLength(path, records);
    if path != [] {
      RearrangedCNames(name, records, path, seen);
      var p := RearrangedFirst(name, records, path, seen);
      RestRearranged(records, path, p);
      FollowFindsPath(Target(path[0]), path[1..], Without(records, p), seen + {Target(path[0])});
    }
  }

  lemma {:induction false} FollowedIsPath(name: string, records: seq<Resource>, seen: set<string>)
    returns (path: seq<Resource>)
    requires Follow(name, records, seen).Some?
    ensures Avoiding(name, path, seen) && multiset(path) == multiset(records)
    decreases |records|
  {
    if records == [] {
      path := [];
    } else {
      var k := FirstOwned(records, name, 0);
      var next := Target(records[k]);
      var rest := FollowedIsPath(next, Without(records, k), seen + {next});
      path := [records[k]] + rest;
      assert path[1..] == rest;
      WithoutMultiset(records, k);
      TailMultiset(path);
    }
  }

  // ---------------------------------------------------------------------------
  // Avoiding the names seen so far is having pairwise distinct names.

  ghost predicate NoneIn(names: seq<string>, seen: set<string>) {
    forall i | 0 <= i < |names| :: names[i] !in seen
  }

  lemma NoneInCons(next: string, rest: seq<string>, seen: set<string>)
    ensures NoneIn([next] + rest, seen) && next !in rest <==> next !in seen && NoneIn(rest, seen + {next})
  {
    var all := [next] + rest;
    if NoneIn(all, seen) && next !in rest {
      assert all[0] == next;
      forall i | 0 <= i < |rest|
        ensures rest[i] !in seen + {next}
      {
        assert all[i + 1] == rest[i];
      }
    }
  }

  lemma {:induction false} AvoidingIsDistinct(name: string, path: seq<Resource>, seen: set<string>)
    requires name in seen
    ensures Avoiding(name, path, seen) <==>
            Linked(name, path) && Distinct(Names(name, path)) && NoneIn(Names(name, path)[1..], seen)
    decreases |path|
  {
    if path != [] {
      var next := Target(path[0]);
      var rest := Names(next, path[1..]);
      assert Names(name, path)[1..] == rest;
      assert rest == [next] + rest[1..];
      AvoidingIsDistinct(next, path[1..], seen + {next});
      DistinctCons(name, rest);
      DistinctCons(next, rest[1..]);
      NoneInCons(next, rest[1..], seen);
    }
  }

  lemma DistinctCons(name: string, rest: seq<string>)
    ensures Distinct([name] + rest) <==> Distinct(rest) && name !in rest
  {
    var all := [name] + rest;
    if Distinct(all) {
      forall i, j | 0 <= i < j < |rest|
        ensures rest[i] != rest[j]
      {
        assert all[i + 1] == rest[i] && all[j + 1] == rest[j];
      }
      forall i | 0 <= i < |rest|
        ensures rest[i] != name
      {
        assert all[0] == name && all[i + 1] == rest[i];
      }
    }
  }

  lemma CompleteChainIsAvoiding(question: string, path: seq<Resource>)
    ensures Linked(question, path) && Distinct(Names(question, path)) <==> Avoiding(question, path, {question})
  {
    AvoidingIsDistinct(question, path, {question});
    var names := Names(question, path);
    assert names == [question] + names[1..];
    DistinctCons(question, names[1..]);
  }

  /** The answer loop succeeds exactly when the answers can be ordered into one complete chain, and then
      it ends at that chain's last name. */
  lemma LoopAcceptsChains(question: string, answers: seq<Resource>)
    ensures Follow(question, answers, {question}).Some? <==>
            exists path :: CompleteChain(question, answers, path)
    ensures forall path | CompleteChain(question, answers, path) ::
              Follow(question, answers, {question}) == Some(EndOf(question, path))
  {
    if Follow(question, answers, {question}).Some? {
      var path := FollowedIsPath(question, answers, {question});
      CompleteChainIsAvoiding(question, path);
      assert CompleteChain(question, answers, path);
    }
    forall path | CompleteChain(question, answers, path)
      ensures Follow(question, answers, {question}) == Some(EndOf(question, path))
    {
      CompleteChainIsAvoiding(question, path);
      FollowFindsPath(question, path, answers, {question});
    }
  }

  /** Neither acceptance nor the last name depends on the order of the records. */
  lemma OrderDoesNotMatter(question: string, answers: seq<Resource>, shuffled: seq<Resource>)
    requires multiset(answers) == multiset(shuffled)
    ensures Follow(question, answers, {question}) == Follow(question, shuffled, {question})
  {
    LoopAcceptsChains(question, answers);
    LoopAcceptsChains(question, shuffled);
    if Follow(question, answers, {question}).Some? {
      var path :| CompleteChain(question, answers, path);
      assert CompleteChain(question, shuffled, path);
    } else if Follow(question, shuffled, {question}).Some? {
      var path :| CompleteChain(question, shuffled, path);
      assert CompleteChain(question, answers, path);
    }
  }

  // ---------------------------------------------------------------------------
  // The whole check.

  predicate HeaderProves(host: string, typeId: nat, rcode: int, w: Wire) {
    && w.Message?
    && w.response && !w.truncated && w.opCode == 0
    && rcode == 0 && w.rCode == 0
    && |w.questions| == 1
    && w.questions[0].inet && w.questions[0].typeId == typeId
    && EqualFold(w.questions[0].name, TrimDot(host) + ".")
  }

  predicate SoaFor(name: string, a: Resource) {
    a.inet && a.rtype.SOA? && Encloses(Lower(a.name), name) && a.body.SoaBody?
  }

  /** What acceptance means, with no loop in it. */
  ghost predicate AbsenceProven(host: string, typeId: nat, rcode: int, w: Wire) {
    && HeaderProves(host, typeId, rcode, w)
    && var question := Lower(w.questions[0].name);
       exists path, i ::
         && CompleteChain(question, w.answers, path)
         && 0 <= i < |w.authorities|
         && SoaFor(EndOf(question, path), w.authorities[i])
  }

  ghost predicate HasSoa(name: string, authorities: seq<Resource>) {
    exists i :: 0 <= i < |authorities| && SoaFor(name, authorities[i])
  }

  lemma ProvenIsDecided(host: string, typeId: nat, rcode: int, w: Wire)
    requires HeaderProves(host, typeId, rcode, w)
    ensures var question := Lower(w.questions[0].name);
            var end := Follow(question, w.answers, {question});
            AbsenceProven(host, typeId, rcode, w) <==> end.Some? && HasSoa(end.value, w.authorities)
  {
    var question := Lower(w.questions[0].name);
    LoopAcceptsChains(question, w.answers);
    var end := Follow(question, w.answers, {question});
    if end.Some? && HasSoa(end.value, w.authorities) {
      var path :| CompleteChain(question, w.answers, path);
      var i :| 0 <= i < |w.authorities| && SoaFor(end.value, w.authorities[i]);
      assert SoaFor(EndOf(question, path), w.authorities[i]);
    }
  }

  method FindSoa(name: string, authorities: seq<Resource>) returns (ok: bool)
    ensures ok <==> HasSoa(name, authorities)
  {
    for i := 0 to |authorities|
      invariant forall j | 0 <= j < i :: !SoaFor(name, authorities[j])
    {
      var a := authorities[i];
      var zone := Lower(a.name);
      if a.inet && a.rtype.SOA? && (name == zone || HasSuffix(name, "." + zone) || zone == ".") {
        if a.body.SoaBody? {
          assert SoaFor(name, authorities[i]);
          return true;
        }
      }
    }
    ok := false;
  }

  /** The check accepts exactly the responses that prove absence. */
  method ValidateAbsence(host: string, typeId: nat, rcode: int, w: Wire) returns (ok: bool)
    ensures ok <==> AbsenceProven(host, typeId, rcode, w)
  {
    if !HeaderProves(host, typeId, rcode, w) {
      return false;
    }
    ProvenIsDecided(host, typeId, rcode, w);
    var question := Lower(w.questions[0].name);
    var end := FollowChain(question, w.answers);
    if end.None? {
      return false;
    }
    ok := FindSoa(end.value, w.authorities);
  }
}
