/** Inclusive port ranges as both scanners walk them: from the start port up
    to the end port, one step at a time. */
module PortRange {

  /** Number of ports in `[start, end]`; zero when the range is inverted. */
  function Count(start: int, end: int): nat {
    if start <= end then end - start + 1 else 0
  }

  /** The ports of `[start, end]` in the order the scanning loops visit them. */
  function Range(start: int, end: int): (ports: seq<int>)
    ensures |ports| == Count(start, end)
    ensures forall i :: 0 <= i < |ports| ==> ports[i] == start + i
    decreases end - start
  {
    if start > end then [] else [start] + Range(start + 1, end)
  }

  /** Extending a range by one port at the top appends that port. */
  lemma RangeExtend(start: int, end: int)
    requires start <= end + 1
    ensures Range(start, end + 1) == Range(start, end) + [end + 1]
  {
  }

  predicate StrictlyAscending(ports: seq<int>) {
    forall i, j :: 0 <= i < j < |ports| ==> ports[i] < ports[j]
  }

  /** The tail of an ascending sequence is ascending and lies above its head. */
  lemma AscendingTail(ports: seq<int>)
    requires ports != [] && StrictlyAscending(ports)
    ensures StrictlyAscending(ports[1..])
    ensures forall p :: p in ports[1..] ==> ports[0] < p
  {
    var tail := ports[1..];
    forall i, j | 0 <= i < j < |tail| ensures tail[i] < tail[j] {
      assert tail[i] == ports[i + 1] && tail[j] == ports[j + 1];
    }
    forall p | p in tail ensures ports[0] < p {
      var k :| 0 <= k < |tail| && tail[k] == p;
      assert tail[k] == ports[k + 1];
    }
  }

  /** The first element of a non-empty sequence is one of its elements; a
      lemma of its own so that the impossible branches below need nothing
      checked after their contradiction. */
  lemma HeadIsElement(s: seq<int>)
    requires s != []
    ensures s[0] in s
  {
  }

  /** Two strictly ascending sequences holding the same ports are equal: the
      set of ports determines the sequence. */
  lemma {:induction false} AscendingDeterminedByElements(a: seq<int>, b: seq<int>)
    requires StrictlyAscending(a) && StrictlyAscending(b)
    requires forall p :: p in a <==> p in b
    ensures a == b
    decreases |a|
  {
    if a != [] && b != [] {
      assert a[0] in b && b[0] in a;
      assert a[0] == b[0];
      forall p ensures p in a[1..] <==> p in b[1..] {
        if p in a[1..] {
          assert p in b && p != b[0];
        }
        if p in b[1..] {
          assert p in a && p != a[0];
        }
      }
      AscendingDeterminedByElements(a[1..], b[1..]);
      assert a == [a[0]] + a[1..];
      assert b == [b[0]] + b[1..];
    } else if a != [] {
      HeadIsElement(a);
      assert false;
    } else if b != [] {
      HeadIsElement(b);
      assert false;
    }
  }
}
