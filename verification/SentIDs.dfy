/** The echo filter of internal/channel/whatsapp/adapter.go: a ring of recently sent message ids
 *  with a set beside it, refining "the last `limit` insertions".
 */
module SentIDs {
  import opened Sorting

  /** The ids still remembered after the insertions `log`. */
  function LastOf(limit: nat, log: seq<string>): seq<string> {
    if |log| <= limit then log else log[|log| - limit..]
  }

  /** The insertions made by a sequence of adds: an empty or still remembered id is not inserted. */
  function Insertions(limit: nat, adds: seq<string>): seq<string> {
    if adds == [] then []
    else
      var before := Insertions(limit, adds[..|adds| - 1]);
      var id := adds[|adds| - 1];
      if id == "" || id in LastOf(limit, before) then before else before + [id]
  }

  /** One more insertion moves every id one place back. */
  lemma LastMovesOn(n: nat, log: seq<string>, x: string, id: string)
    requires id in LastOf(n, log)
    ensures id in LastOf(n + 1, log + [x]) && id in LastOf(n + 1, log)
  {
    var i :| 0 <= i < |LastOf(n, log)| && LastOf(n, log)[i] == id;
    var at := |log| - |LastOf(n, log)| + i;
    assert log[at] == id;
    assert (log + [x])[at] == id;
    assert LastOf(n + 1, log + [x])[at - (|log| + 1 - |LastOf(n + 1, log + [x])|)] == id;
    assert LastOf(n + 1, log)[at - (|log| - |LastOf(n + 1, log)|)] == id;
  }

  lemma OneMoreAdd(limit: nat, adds: seq<string>, x: string)
    ensures var before := Insertions(limit, adds);
      Insertions(limit, adds + [x]) == if x == "" || x in LastOf(limit, before) then before else before + [x]
  {
    assert (adds + [x])[..|adds + [x]| - 1] == adds;
  }

  lemma {:induction false} AddedIsLate(limit: nat, adds: seq<string>, id: string, more: seq<string>)
    requires id != "" && id !in LastOf(limit, Insertions(limit, adds))
    ensures id in LastOf(|more| + 1, Insertions(limit, adds + [id] + more))
    decreases |more|
  {
    hide Insertions;
    if more == [] {
      OneMoreAdd(limit, adds, id);
      assert adds + [id] + more == adds + [id];
      var log := Insertions(limit, adds);
      assert LastOf(1, log + [id])[|LastOf(1, log + [id])| - 1] == id;
    } else {
      hide LastOf;
      var init, last := more[..|more| - 1], more[|more| - 1];
      AddedIsLate(limit, adds, id, init);
      assert adds + [id] + more == (adds + [id] + init) + [last];
      OneMoreAdd(limit, adds + [id] + init, last);
      LastMovesOn(|more|, Insertions(limit, adds + [id] + init), last, id);
    }
  }

  lemma LastGrows(n: nat, m: nat, log: seq<string>, id: string)
    requires n <= m && id in LastOf(n, log)
    ensures id in LastOf(m, log)
  {
    var i :| 0 <= i < |LastOf(n, log)| && LastOf(n, log)[i] == id;
    assert LastOf(m, log)[i + |LastOf(m, log)| - |LastOf(n, log)|] == id;
  }

  /** An id not remembered when it was added is remembered while fewer than `limit` further adds are made. */
  lemma AddedIsRemembered(limit: nat, adds: seq<string>, id: string, more: seq<string>)
    requires id != "" && id !in LastOf(limit, Insertions(limit, adds)) && |more| < limit
    ensures id in LastOf(limit, Insertions(limit, adds + [id] + more))
  {
    AddedIsLate(limit, adds, id, more);
    LastGrows(|more| + 1, limit, Insertions(limit, adds + [id] + more), id);
  }

  /** Adding a remembered id again does not renew it: one further add can push it out. */
  lemma AddingAgainRenewsNothing()
    ensures "a" in LastOf(2, Insertions(2, ["a", "b", "a"]))
    ensures "a" !in LastOf(2, Insertions(2, ["a", "b", "a", "c"]))
  {
    assert ["a"][..0] == [] && ["a", "b"][..1] == ["a"] && ["a", "b", "a"][..2] == ["a", "b"];
    assert Insertions(2, ["a"]) == ["a"];
    assert Insertions(2, ["a", "b"]) == ["a", "b"];
    assert Insertions(2, ["a", "b", "a"]) == ["a", "b"];
    assert ["a", "b", "a", "c"][..3] == ["a", "b", "a"];
    assert Insertions(2, ["a", "b", "a", "c"]) == ["a", "b", "c"];
  }

  /** Within any window of `limit` insertions no id repeats and none is empty. */
  lemma {:induction false} WindowIsDistinct(limit: nat, adds: seq<string>)
    ensures NoDuplicates(LastOf(limit, Insertions(limit, adds)))
    ensures "" !in Insertions(limit, adds)
  {
    if adds != [] {
      WindowIsDistinct(limit, adds[..|adds| - 1]);
      var before, id := Insertions(limit, adds[..|adds| - 1]), adds[|adds| - 1];
      if id !in LastOf(limit, before) {
        LastAppends(limit, before, id);
      }
    }
  }

  lemma LastAppends(limit: nat, log: seq<string>, id: string)
    requires NoDuplicates(LastOf(limit, log)) && id !in LastOf(limit, log)
    ensures NoDuplicates(LastOf(limit, log + [id]))
  {
    var last := LastOf(limit, log);
    if |log| < limit {
      assert LastOf(limit, log + [id]) == last + [id];
    } else if limit > 0 {
      assert LastOf(limit, log + [id]) == last[1..] + [id];
    }
  }

  /** The window filled up to `limit` with empty slots, oldest first. */
  function Window(limit: nat, log: seq<string>): (w: seq<string>)
    ensures |w| == limit
  {
    seq(limit - |LastOf(limit, log)|, _ => "") + LastOf(limit, log)
  }

  /** One insertion shifts the window by one slot. */
  lemma WindowShifts(limit: nat, log: seq<string>, id: string)
    requires limit > 0
    ensures Window(limit, log + [id]) == Window(limit, log)[1..] + [id]
    ensures Window(limit, log)[0] == if |log| < limit then "" else LastOf(limit, log)[0]
  {
  }

  /** Reading a ring from slot `at` round to the slot before it. */
  function Rotated(ring: seq<string>, at: nat): (r: seq<string>)
    requires at <= |ring|
    ensures |r| == |ring|
  {
    ring[at..] + ring[..at]
  }

  /** Overwriting the slot at the reading position and moving on drops the oldest and appends. */
  lemma RotationShifts(ring: seq<string>, at: nat, id: string)
    requires at < |ring|
    ensures var next := if at + 1 == |ring| then 0 else at + 1;
      Rotated(ring[at := id], next) == Rotated(ring, at)[1..] + [id]
    ensures Rotated(ring, at)[0] == ring[at]
  {
  }

  /** The slot after slot i, wrapping round. */
  function NextSlot(i: nat, limit: nat): (next: nat)
    requires i < limit
    ensures next == if i + 1 == limit then 0 else i + 1
  {
    (i + 1) % limit
  }

  class SentIDs {
    const ring: array<string>
    var idx: nat
    var ids: set<string>
    const limit: nat
    ghost var adds: seq<string>

    ghost function Log(): seq<string>
      reads this
    {
      Insertions(limit, adds)
    }

    /** The ring, read from `idx`, is the window; the set is the ids in it. */
    ghost predicate Valid()
      reads this, ring
    {
      && idx < limit == ring.Length
      && Rotated(ring[..], idx) == Window(limit, Log())
      && (forall id :: id in ids <==> id in LastOf(limit, Log()))
    }

    constructor (limit: nat)
      requires limit > 0
      ensures Valid() && fresh(ring) && this.limit == limit && adds == []
    {
      this.ring := new string[limit](_ => "");
      this.limit := limit;
      idx, ids, adds := 0, {}, [];
    }

    method Add(id: string)
      requires Valid()
      modifies this, ring
      ensures Valid() && adds == old(adds) + [id]
    {
      hide Window, Rotated;
      ghost var log, slots := Log(), ring[..];
      WindowIsDistinct(limit, adds);
      adds := adds + [id];
      assert adds[..|adds| - 1] == old(adds);
      if id == "" {
        return;
      }
      if id in ids {
        return;
      }
      assert Log() == log + [id];
      WindowShifts(limit, log, id);
      RotationShifts(slots, idx, id);
      LastShifts(limit, log, id);
      var evicted := ring[idx];
      if evicted != "" {
        ids := ids - {evicted};
      }
      ring[idx] := id;
      assert ring[..] == slots[idx := id];
      ids := ids + {id};
      idx := NextSlot(idx, limit);
    }

    method Has(id: string) returns (r: bool)
      requires Valid()
      ensures r <==> id in LastOf(limit, Insertions(limit, adds))
    {
      if id == "" {
        WindowIsDistinct(limit, adds);
        return false;
      }
      return id in ids;
    }
  }

  /** Which ids are remembered after one more insertion. */
  lemma LastShifts(limit: nat, log: seq<string>, id: string)
    requires limit > 0 && NoDuplicates(LastOf(limit, log))
    ensures forall x :: x in LastOf(limit, log + [id]) <==>
      x == id || (x in LastOf(limit, log) && !(|log| >= limit && x == LastOf(limit, log)[0]))
  {
    var last := LastOf(limit, log);
    if |log| < limit {
      assert LastOf(limit, log + [id]) == last + [id];
    } else {
      assert LastOf(limit, log + [id]) == last[1..] + [id];
      assert last == [last[0]] + last[1..];
    }
  }

  ghost predicate OnlyEmptyRepeats(s: seq<string>) {
    forall i, j :: 0 <= i < j < |s| && s[i] == s[j] ==> s[i] == ""
  }

  /** Rotation keeps the elements and their repetitions. */
  lemma SameElements(ring: seq<string>, at: nat)
    requires at <= |ring| && OnlyEmptyRepeats(Rotated(ring, at))
    ensures forall id :: id in ring <==> id in Rotated(ring, at)
    ensures OnlyEmptyRepeats(ring)
  {
    var r := Rotated(ring, at);
    assert ring == r[|ring| - at..] + r[..|ring| - at];
    forall i, j | 0 <= i < j < |ring| && ring[i] == ring[j] ensures ring[i] == "" {
      var x := if i < at then i + |ring| - at else i - at;
      var y := if j < at then j + |ring| - at else j - at;
      assert r[x] == ring[i] && r[y] == ring[j];
    }
  }

  lemma WindowElements(limit: nat, log: seq<string>)
    requires NoDuplicates(LastOf(limit, log)) && "" !in log
    ensures forall id :: id in LastOf(limit, log) <==> id != "" && id in Window(limit, log)
    ensures OnlyEmptyRepeats(Window(limit, log))
  {
    var last := LastOf(limit, log);
    assert forall k :: limit - |last| <= k < limit ==> Window(limit, log)[k] == last[k - (limit - |last|)];
  }

  /** The set of a valid filter is the non-empty slots of its ring, each filled once. */
  lemma SetIsRing(f: SentIDs)
    requires f.Valid()
    ensures forall id :: id in f.ids <==> id != "" && id in f.ring[..]
    ensures OnlyEmptyRepeats(f.ring[..])
  {
    WindowIsDistinct(f.limit, f.adds);
    WindowElements(f.limit, f.Log());
    SameElements(f.ring[..], f.idx);
  }
}
