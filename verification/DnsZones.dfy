/** What the zone test of the absence check decides: a zone encloses a name when its labels are the name's last ones. */
module DnsZones {
  import opened DnsAbsence

  predicate IsLabel(text: string) {
    text != "" && '.' !in text
  }

  predicate Labels(labels: seq<string>) {
    forall i | 0 <= i < |labels| :: IsLabel(labels[i])
  }

  /** A fully qualified name: every label is followed by a dot. */
  function Written(labels: seq<string>): string {
    if labels == [] then "" else labels[0] + "." + Written(labels[1..])
  }

  lemma {:induction false} WrittenConcat(a: seq<string>, b: seq<string>)
    ensures Written(a + b) == Written(a) + Written(b)
    decreases |a|
  {
    if a == [] {
      assert a + b == b;
    } else {
      WrittenConcat(a[1..], b);
      assert (a + b)[1..] == a[1..] + b;
      assert a[0] + "." + (Written(a[1..]) + Written(b)) == (a[0] + "." + Written(a[1..])) + Written(b);
    }
  }

  /** Two ways to cut a text at a dot, the first one at its first dot. */
  lemma FirstCut(first: string, rest: string, x: string, tail: string)
    requires '.' !in first && first + "." + rest == x + "." + tail
    ensures |x| == |first| ==> rest == tail
    ensures |x| >= |first|
    ensures |x| > |first| ==> rest == x[|first| + 1..] + "." + tail
  {
    var whole := first + "." + rest;
    assert whole[|x|] == '.';
    assert forall i | 0 <= i < |first| :: whole[i] == first[i];
    assert |x| >= |first|;
    assert rest == whole[|first| + 1..];
    if |x| == |first| {
      assert tail == whole[|x| + 1..];
    } else {
      assert (x + "." + tail)[|first| + 1..] == x[|first| + 1..] + "." + tail;
    }
  }

  lemma {:induction false} WrittenOnce(a: seq<string>, b: seq<string>)
    requires Labels(a) && Labels(b) && Written(a) == Written(b)
    ensures a == b
    decreases |a|
  {
    if a != [] && b != [] {
      FirstCut(a[0], Written(a[1..]), b[0], Written(b[1..]));
      FirstCut(b[0], Written(b[1..]), a[0], Written(a[1..]));
      assert a[0] == Written(a)[..|a[0]|] && b[0] == Written(b)[..|b[0]|];
      WrittenOnce(a[1..], b[1..]);
    }
  }

  lemma {:induction false} TailIsLabels(a: seq<string>, x: string, z: seq<string>)
    requires Labels(a) && Labels(z) && Written(a) == x + "." + Written(z)
    ensures exists k :: 0 <= k <= |a| && a[k..] == z
    decreases |a|
  {
    FirstCut(a[0], Written(a[1..]), x, Written(z));
    if |x| == |a[0]| {
      WrittenOnce(a[1..], z);
      assert a[1..] == z;
    } else {
      TailIsLabels(a[1..], x[|a[0]| + 1..], z);
      var k :| 0 <= k <= |a[1..]| && a[1..][k..] == z;
      assert a[k + 1..] == z;
    }
  }

  lemma TailEncloses(a: seq<string>, k: nat)
    requires k <= |a| && Labels(a)
    ensures Encloses(Written(a[k..]), Written(a))
  {
    if k == 0 {
      assert a[0..] == a;
    } else {
      var x := LastDot(a[..k]);
      WrittenSplit(a, k);
      HasOwnSuffix(x, Written(a[k..]));
    }
  }

  lemma WrittenSplit(a: seq<string>, k: nat)
    requires k <= |a|
    ensures Written(a) == Written(a[..k]) + Written(a[k..])
  {
    assert a == a[..k] + a[k..];
    WrittenConcat(a[..k], a[k..]);
  }

  lemma HasOwnSuffix(x: string, z: string)
    ensures HasSuffix((x + ".") + z, "." + z)
  {
    var name, suffix := (x + ".") + z, "." + z;
    assert name == x + suffix;
    assert name[|name| - |suffix|..] == suffix;
  }

  /** A written name ends in a dot. */
  lemma {:induction false} LastDot(a: seq<string>) returns (x: string)
    requires a != []
    ensures Written(a) == x + "."
    decreases |a|
  {
    if |a| == 1 {
      x := a[0];
      assert Written(a[1..]) == "";
    } else {
      var y := LastDot(a[1..]);
      x := a[0] + "." + y;
    }
  }

  lemma EnclosedIsTail(zone: seq<string>, name: seq<string>)
    requires Labels(zone) && Labels(name) && zone != [] && Encloses(Written(zone), Written(name))
    ensures exists k :: 0 <= k <= |name| && name[k..] == zone
  {
    var z, n := Written(zone), Written(name);
    assert |z| > 1 by {
      assert |zone[0]| > 0;
    }
    if n == z {
      WrittenOnce(name, zone);
      assert name[0..] == zone;
    } else {
      var x := n[..|n| - |"." + z|];
      SplitAtSuffix(n, x, z);
      TailIsLabels(name, x, zone);
    }
  }

  lemma SplitAtSuffix(name: string, x: string, z: string)
    requires HasSuffix(name, "." + z) && x == name[..|name| - |"." + z|]
    ensures name == x + "." + z
  {
    assert name == x + name[|x|..];
  }

  /** The test decides enclosure label by label, and the root zone encloses every name. */
  lemma EnclosesLabels(zone: seq<string>, name: seq<string>)
    requires Labels(zone) && Labels(name) && zone != []
    ensures Encloses(Written(zone), Written(name)) <==> exists k :: 0 <= k <= |name| && name[k..] == zone
    ensures Encloses(".", Written(name))
  {
    if Encloses(Written(zone), Written(name)) {
      EnclosedIsTail(zone, name);
    }
    if k :| 0 <= k <= |name| && name[k..] == zone {
      TailEncloses(name, k);
    }
  }
}
