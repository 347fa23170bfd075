/** The IntersectionObserver callback of script.js (lines 104-111): every
    entry that is intersecting gets the `is-visible` class on its target;
    nothing ever removes it. Elements are identified by number, and the set
    of elements carrying the class is the visibility set. The 30% threshold
    geometry belongs to the browser and is abstracted to `isIntersecting`. */
module Reveal {

  /** One IntersectionObserverEntry: its target element and whether it is
      intersecting at the observer's threshold. */
  datatype Entry = Entry(target: nat, isIntersecting: bool)

  /** Some entry of the batch reports `t` as intersecting. */
  ghost predicate Reported(entries: seq<Entry>, t: nat) {
    exists k :: 0 <= k < |entries| && entries[k].isIntersecting && entries[k].target == t
  }

  /** One callback with a batch of entries, processed in order by `forEach`. */
  function Observe(visible: set<nat>, entries: seq<Entry>): (r: set<nat>)
    ensures visible <= r
    ensures forall t :: t in r <==> t in visible || Reported(entries, t)
    decreases |entries|
  {
    if |entries| == 0 then visible
    else
      var e := entries[0];
      var next := if e.isIntersecting then visible + {e.target} else visible;
      assert forall t :: Reported(entries[1..], t) ==> Reported(entries, t) by {
        forall t | Reported(entries[1..], t)
          ensures Reported(entries, t)
        {
          var k :| 0 <= k < |entries[1..]| && entries[1..][k].isIntersecting && entries[1..][k].target == t;
          assert entries[k + 1] == entries[1..][k];
        }
      }
      assert forall t :: Reported(entries, t) && t != e.target ==> Reported(entries[1..], t) by {
        forall t | Reported(entries, t) && t != e.target
          ensures Reported(entries[1..], t)
        {
          var k :| 0 <= k < |entries| && entries[k].isIntersecting && entries[k].target == t;
          assert entries[1..][k - 1] == entries[k];
        }
      }
      Observe(next, entries[1..])
  }

  /** Delivering the same batch twice adds nothing the first delivery did
      not: re-adding the class to a revealed element changes nothing. */
  lemma ObserveIdempotent(visible: set<nat>, entries: seq<Entry>)
    ensures Observe(Observe(visible, entries), entries) == Observe(visible, entries)
  {
  }

  /** Two callbacks in a row reveal the same elements as one callback with
      both batches; in particular no callback hides anything. */
  lemma ObserveBatches(visible: set<nat>, a: seq<Entry>, b: seq<Entry>)
    ensures Observe(Observe(visible, a), b) == Observe(visible, a + b)
  {
    forall t | Reported(a + b, t)
      ensures Reported(a, t) || Reported(b, t)
    {
      var k :| 0 <= k < |a + b| && (a + b)[k].isIntersecting && (a + b)[k].target == t;
      if k >= |a| {
        assert b[k - |a|] == (a + b)[k];
      }
    }
    forall t | Reported(a, t) || Reported(b, t)
      ensures Reported(a + b, t)
    {
      if Reported(a, t) {
        var k :| 0 <= k < |a| && a[k].isIntersecting && a[k].target == t;
        assert (a + b)[k] == a[k];
      } else {
        var k :| 0 <= k < |b| && b[k].isIntersecting && b[k].target == t;
        assert (a + b)[|a| + k] == b[k];
      }
    }
  }
}
