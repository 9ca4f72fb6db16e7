/**
  The "every requested name is supported" check that the instance (for
  extensions and for layers) and the logical device (for device extensions)
  each spell out as the same pair of nested loops: the outer loop walks the
  requested names and returns `false` at the first one the inner `strcmp`
  scan of the supported list did not find.
*/
module Names {
  import opened Vk

  /** The inner loop: whether some supported entry equals `name` exactly. */
  function Contains(available: seq<CName>, name: CName): (found: bool)
    ensures found <==> name in available
  {
    if |available| == 0 then false
    else available[0] == name || Contains(available[1..], name)
  }

  /** The outer loop, with its early `return false`. */
  function ContainsAll(requested: seq<CName>, available: seq<CName>): (ok: bool)
    ensures ok <==> forall i :: 0 <= i < |requested| ==> requested[i] in available
  {
    if |requested| == 0 then true
    else if !Contains(available, requested[0]) then false
    else ContainsAll(requested[1..], available)
  }

  /** With nothing supported, any non-empty request fails. */
  lemma EmptySupportRejects(requested: seq<CName>)
    requires |requested| > 0
    ensures !ContainsAll(requested, [])
  {
  }

  function Elements(s: seq<CName>): set<CName>
  {
    set x | x in s
  }

  /** The check is set inclusion: neither the order nor repetitions of either
      list matter. */
  lemma ContainsAllIsInclusion(requested: seq<CName>, available: seq<CName>)
    ensures ContainsAll(requested, available) <==> Elements(requested) <= Elements(available)
  {
    if !ContainsAll(requested, available) {
      var i :| 0 <= i < |requested| && requested[i] !in available;
      assert requested[i] in Elements(requested);
    }
  }

  /** Two requests with the same names, in any order and with any repetition,
      against two supported lists with the same names, get the same answer. */
  lemma ContainsAllIgnoresOrderAndDuplicates(r1: seq<CName>, r2: seq<CName>, a1: seq<CName>, a2: seq<CName>)
    requires Elements(r1) == Elements(r2)
    requires Elements(a1) == Elements(a2)
    ensures ContainsAll(r1, a1) == ContainsAll(r2, a2)
  {
    ContainsAllIsInclusion(r1, a1);
    ContainsAllIsInclusion(r2, a2);
  }

  /** Requesting the concatenation of two lists succeeds exactly when both
      requests succeed on their own. */
  lemma {:induction false} ContainsAllAppend(r1: seq<CName>, r2: seq<CName>, available: seq<CName>)
    ensures ContainsAll(r1 + r2, available) <==> ContainsAll(r1, available) && ContainsAll(r2, available)
  {
    if |r1| == 0 {
      assert r1 + r2 == r2;
    } else {
      assert (r1 + r2)[0] == r1[0];
      assert (r1 + r2)[1..] == r1[1..] + r2;
      ContainsAllAppend(r1[1..], r2, available);
    }
  }
}
