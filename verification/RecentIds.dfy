/**
 A bounded memory of identifiers: insertion-ordered, oldest entry evicted past the capacity. The
 broker remembers filled proposals this way and the risk agent remembers applied results.
 */
module RecentIds {
  import opened Basics

  /** Both memories keep 1,000 entries. */
  const CAPACITY: nat := 1000

  function Push(seen: seq<Id>, id: Id): seq<Id> {
    if id in seen then seen
    else if |seen| + 1 > CAPACITY then (seen + [id])[1..]
    else seen + [id]
  }

  /** The last CAPACITY elements. */
  function Newest(ids: seq<Id>): seq<Id> {
    if |ids| <= CAPACITY then ids else ids[|ids| - CAPACITY..]
  }

  predicate Distinct(ids: seq<Id>) {
    forall i, j :: 0 <= i < j < |ids| ==> ids[i] != ids[j]
  }

  lemma PushKeepsBounds(seen: seq<Id>, id: Id)
    requires |seen| <= CAPACITY && Distinct(seen)
    ensures |Push(seen, id)| <= CAPACITY && Distinct(Push(seen, id))
    ensures id in Push(seen, id)
    ensures forall x :: x in Push(seen, id) ==> x == id || x in seen
  {
    var s := Push(seen, id);
    if id !in seen {
      assert s[|s| - 1] == id;
      forall x | x in s ensures x == id || x in seen {
        var k :| 0 <= k < |s| && s[k] == x;
      }
    }
  }

  /** Pushing a new identifier keeps the memory equal to the newest part of the whole history. */
  lemma PushIsNewest(history: seq<Id>, id: Id)
    requires id !in Newest(history)
    ensures Push(Newest(history), id) == Newest(history + [id])
  {
    var seen := Newest(history);
    if |history| <= CAPACITY {
      assert seen == history;
    } else {
      assert (seen + [id])[1..] == (history + [id])[|history| + 1 - CAPACITY..];
    }
  }

  /** `id` is remembered with exactly `age` newer entries behind it. */
  predicate HasAge(seen: seq<Id>, id: Id, age: nat) {
    age < |seen| && seen[|seen| - 1 - age] == id
  }

  /** Each new entry ages the others by one; the one that would reach CAPACITY is forgotten. */
  lemma PushAges(seen: seq<Id>, id: Id, added: Id, age: nat)
    requires |seen| <= CAPACITY && Distinct(seen)
    requires HasAge(seen, id, age) && added !in seen
    ensures age + 1 < CAPACITY ==> HasAge(Push(seen, added), id, age + 1)
    ensures age + 1 == CAPACITY ==> id !in Push(seen, added)
  {
    var s := seen + [added];
    assert s[|s| - 2 - age] == id;
    assert Distinct(s);
  }

  /** An entry is among the newest exactly while fewer than CAPACITY entries were added after it. */
  lemma AmongNewest(ids: seq<Id>, k: nat)
    requires Distinct(ids) && k < |ids|
    ensures ids[k] in Newest(ids) <==> |ids| - 1 - k < CAPACITY
  {
    var first := |ids| - |Newest(ids)|;
    assert forall i :: 0 <= i < |Newest(ids)| ==> Newest(ids)[i] == ids[first + i];
    if first <= k {
      assert Newest(ids)[k - first] == ids[k];
    }
  }
}
