/**
  * `pulsemerge` (steppergroup.py): the pulse streams of several motors
  * merged into one stream in order of time. A stream is the finite list of
  * pulses its generator yields. To state that nothing is lost, duplicated or
  * reordered within a motor, the specification tags every merged pulse with
  * the index of the stream it came from.
  */
module PulseMerge {
  import opened Pulses

  /** A merged pulse with the index of the stream it came from. */
  type Tagged = (nat, Pulse)

  function Untag(ts: seq<Tagged>): (ps: seq<Pulse>)
    ensures |ps| == |ts|
  {
    if |ts| == 0 then [] else Untag(ts[..|ts| - 1]) + [ts[|ts| - 1].1]
  }

  lemma {:induction false} UntagAppend(a: seq<Tagged>, b: seq<Tagged>)
    ensures Untag(a + b) == Untag(a) + Untag(b)
    decreases |b|
  {
    if |b| > 0 {
      UntagAppend(a, b[..|b| - 1]);
      assert (a + b)[..|a + b| - 1] == a + b[..|b| - 1];
      assert (a + b)[|a + b| - 1] == b[|b| - 1];
    } else {
      assert a + b == a;
    }
  }

  lemma {:induction false} UntagIndex(ts: seq<Tagged>)
    ensures forall i :: 0 <= i < |ts| ==> Untag(ts)[i] == ts[i].1
  {
    if |ts| > 0 {
      UntagIndex(ts[..|ts| - 1]);
    }
  }

  /** The pulses of `ts` that came from stream `k`, in merged order. */
  function FromSource(ts: seq<Tagged>, k: nat): seq<Pulse>
  {
    if |ts| == 0 then [] else FromSource(ts[..|ts| - 1], k) + if ts[|ts| - 1].0 == k then [ts[|ts| - 1].1] else []
  }

  lemma {:induction false} FromSourceAppend(a: seq<Tagged>, b: seq<Tagged>, k: nat)
    ensures FromSource(a + b, k) == FromSource(a, k) + FromSource(b, k)
    decreases |b|
  {
    if |b| > 0 {
      var n := |b| - 1;
      FromSourceAppend(a, b[..n], k);
      assert (a + b)[..|a + b| - 1] == a + b[..n];
      assert (a + b)[|a + b| - 1] == b[n];
    } else {
      assert a + b == a;
    }
  }

  lemma {:induction false} FromSourceOne(t: Tagged, k: nat)
    ensures FromSource([t], k) == if t.0 == k then [t.1] else []
  {
    assert [t][..0] == [];
  }

  // ---------------------------------------------------------------------
  // Three or more streams: each round yields every head at the earliest
  // time, in stream order.

  /** `cur[k]` pulses of stream `k` have been taken; its head is the next one. */
  predicate Cursors(srcs: seq<seq<Pulse>>, cur: seq<nat>)
  {
    |cur| == |srcs| && forall k :: 0 <= k < |srcs| ==> cur[k] <= |srcs[k]|
  }

  /** `mpulses` as times: the time of each stream's head, `None` once a stream is exhausted. */
  function Heads(srcs: seq<seq<Pulse>>, cur: seq<nat>): (h: seq<Option<int>>)
    requires Cursors(srcs, cur)
    ensures |h| == |srcs|
    ensures forall k :: 0 <= k < |srcs| ==> (h[k].Some? <==> cur[k] < |srcs[k]|)
    ensures forall k :: 0 <= k < |srcs| && cur[k] < |srcs[k]| ==> h[k] == Some(srcs[k][cur[k]].time)
  {
    seq(|srcs|, k requires 0 <= k < |srcs| => if cur[k] < |srcs[k]| then Some(srcs[k][cur[k]].time) else None)
  }

  /** What the scan of the heads finds: no head at all, or the earliest time and the streams whose heads are at it. */
  datatype Pick = NoHead | Earliest(time: int, ties: seq<nat>)

  /** The scan over the first `n` heads (`nextix`/`nextt`). */
  function PickFrom(heads: seq<Option<int>>, n: nat): Pick
    requires n <= |heads|
  {
    if n == 0 then NoHead
    else
      var p := PickFrom(heads, n - 1);
      match heads[n - 1]
      case None => p
      case Some(t) =>
        if p.NoHead? || t < p.time then Earliest(t, [n - 1])
        else if t == p.time then Earliest(p.time, p.ties + [n - 1])
        else p
  }

  /**
    * The scan finds no head exactly when every stream is exhausted;
    * otherwise its time is the earliest head time, and its ties are, in
    * increasing order, exactly the streams whose head is at that time.
    */
  lemma {:induction false} PickMeaning(heads: seq<Option<int>>, n: nat)
    requires n <= |heads|
    ensures var p := PickFrom(heads, n);
      (p.NoHead? <==> forall i :: 0 <= i < n ==> heads[i].None?)
      && (p.Earliest? ==>
            |p.ties| > 0
            && (forall i :: 0 <= i < n && heads[i].Some? ==> p.time <= heads[i].value)
            && (forall i: nat :: i in p.ties <==> i < n && heads[i] == Some(p.time))
            && (forall a, b :: 0 <= a < b < |p.ties| ==> p.ties[a] < p.ties[b]))
  {
    if n > 0 {
      PickMeaning(heads, n - 1);
      var p := PickFrom(heads, n - 1);
      if p.Earliest? {
        assert forall a :: 0 <= a < |p.ties| ==> p.ties[a] in p.ties;
      }
    }
  }

  /** Every tie's head is advanced by one (`mpulses[nx] = next(...)`). */
  function Advance(cur: seq<nat>, ties: seq<nat>): (r: seq<nat>)
    ensures |r| == |cur|
    ensures forall k :: 0 <= k < |cur| ==> r[k] == if k in ties then cur[k] + 1 else cur[k]
  {
    seq(|cur|, k requires 0 <= k < |cur| => if k in ties then cur[k] + 1 else cur[k])
  }

  /** The streams in `ties` all have a head. */
  predicate TiesLive(srcs: seq<seq<Pulse>>, cur: seq<nat>, ties: seq<nat>)
    requires Cursors(srcs, cur)
  {
    forall j :: 0 <= j < |ties| ==> ties[j] < |srcs| && cur[ties[j]] < |srcs[ties[j]]|
  }

  /** One round's output: the heads of the ties, in order, tagged with their stream's id. */
  function RoundOut(srcs: seq<seq<Pulse>>, ids: seq<nat>, cur: seq<nat>, ties: seq<nat>): (r: seq<Tagged>)
    requires Cursors(srcs, cur) && |ids| == |srcs| && TiesLive(srcs, cur, ties)
    ensures |r| == |ties|
  {
    seq(|ties|, j requires 0 <= j < |ties| => (ids[ties[j]], srcs[ties[j]][cur[ties[j]]]))
  }

  /** The pulses not yet taken from the first `n` streams. */
  function Remaining(srcs: seq<seq<Pulse>>, cur: seq<nat>, n: nat): nat
    requires Cursors(srcs, cur) && n <= |srcs|
  {
    if n == 0 then 0 else Remaining(srcs, cur, n - 1) + (|srcs[n - 1]| - cur[n - 1])
  }

  lemma {:induction false} RemainingShrinks(srcs: seq<seq<Pulse>>, cur: seq<nat>, cur2: seq<nat>, n: nat, w: nat)
    requires Cursors(srcs, cur) && Cursors(srcs, cur2) && w < n <= |srcs|
    requires forall k :: 0 <= k < n ==> cur[k] <= cur2[k]
    requires cur[w] < cur2[w]
    ensures Remaining(srcs, cur2, n) < Remaining(srcs, cur, n)
  {
    if w < n - 1 {
      RemainingShrinks(srcs, cur, cur2, n - 1, w);
    } else {
      RemainingNoGrowth(srcs, cur, cur2, n - 1);
    }
  }

  lemma {:induction false} RemainingNoGrowth(srcs: seq<seq<Pulse>>, cur: seq<nat>, cur2: seq<nat>, n: nat)
    requires Cursors(srcs, cur) && Cursors(srcs, cur2) && n <= |srcs|
    requires forall k :: 0 <= k < n ==> cur[k] <= cur2[k]
    ensures Remaining(srcs, cur2, n) <= Remaining(srcs, cur, n)
  {
    if n > 0 {
      RemainingNoGrowth(srcs, cur, cur2, n - 1);
    }
  }

  /** A round advances only live ties, so the cursors stay valid and fewer pulses remain. */
  lemma {:induction false} RoundProgress(srcs: seq<seq<Pulse>>, cur: seq<nat>)
    requires Cursors(srcs, cur) && PickFrom(Heads(srcs, cur), |srcs|).Earliest?
    ensures var p := PickFrom(Heads(srcs, cur), |srcs|);
      TiesLive(srcs, cur, p.ties) && Cursors(srcs, Advance(cur, p.ties))
      && Remaining(srcs, Advance(cur, p.ties), |srcs|) < Remaining(srcs, cur, |srcs|)
  {
    var h := Heads(srcs, cur);
    PickMeaning(h, |srcs|);
    var p := PickFrom(h, |srcs|);
    forall j | 0 <= j < |p.ties| ensures p.ties[j] < |srcs| && cur[p.ties[j]] < |srcs[p.ties[j]]| {
      assert p.ties[j] in p.ties;
    }
    RemainingShrinks(srcs, cur, Advance(cur, p.ties), |srcs|, p.ties[0]);
  }

  /** The merged output, tagged with `ids`, from cursors `cur` onwards. */
  function MergeFrom(srcs: seq<seq<Pulse>>, ids: seq<nat>, cur: seq<nat>): seq<Tagged>
    requires Cursors(srcs, cur) && |ids| == |srcs|
    decreases Remaining(srcs, cur, |srcs|)
  {
    var p := PickFrom(Heads(srcs, cur), |srcs|);
    if p.NoHead? then []
    else
      RoundProgress(srcs, cur);
      RoundOut(srcs, ids, cur, p.ties) + MergeFrom(srcs, ids, Advance(cur, p.ties))
  }

  /** Every stream of `srcs` is in time order. */
  predicate AllOrdered(srcs: seq<seq<Pulse>>)
  {
    forall k :: 0 <= k < |srcs| ==> TimeOrdered(srcs[k])
  }

  /** Every pulse of a round is at the round's time, which no head precedes. */
  lemma {:induction false} RoundTimes(srcs: seq<seq<Pulse>>, ids: seq<nat>, cur: seq<nat>)
    requires Cursors(srcs, cur) && |ids| == |srcs| && PickFrom(Heads(srcs, cur), |srcs|).Earliest?
    ensures var p := PickFrom(Heads(srcs, cur), |srcs|);
      TiesLive(srcs, cur, p.ties)
      && (forall k :: 0 <= k < |srcs| && cur[k] < |srcs[k]| ==> p.time <= srcs[k][cur[k]].time)
      && var u := Untag(RoundOut(srcs, ids, cur, p.ties));
      forall i :: 0 <= i < |u| ==> u[i].time == p.time
  {
    var h := Heads(srcs, cur);
    var p := PickFrom(h, |srcs|);
    PickMeaning(h, |srcs|);
    RoundProgress(srcs, cur);
    var round := RoundOut(srcs, ids, cur, p.ties);
    UntagIndex(round);
    forall j | 0 <= j < |round|
      ensures round[j].1.time == p.time
    {
      assert p.ties[j] in p.ties;
    }
    forall k | 0 <= k < |srcs| && cur[k] < |srcs[k]|
      ensures p.time <= srcs[k][cur[k]].time
    {
      assert h[k].Some?;
    }
  }

  /** After a round no head is earlier than the round's time. */
  lemma {:induction false} RoundNextHeads(srcs: seq<seq<Pulse>>, cur: seq<nat>)
    requires Cursors(srcs, cur) && AllOrdered(srcs) && PickFrom(Heads(srcs, cur), |srcs|).Earliest?
    ensures var p := PickFrom(Heads(srcs, cur), |srcs|);
      var cur2 := Advance(cur, p.ties);
      Cursors(srcs, cur2)
      && forall k :: 0 <= k < |srcs| && cur2[k] < |srcs[k]| ==> p.time <= srcs[k][cur2[k]].time
  {
    var h := Heads(srcs, cur);
    var p := PickFrom(h, |srcs|);
    PickMeaning(h, |srcs|);
    RoundProgress(srcs, cur);
    var cur2 := Advance(cur, p.ties);
    forall k | 0 <= k < |srcs| && cur2[k] < |srcs[k]|
      ensures p.time <= srcs[k][cur2[k]].time
    {
      if k in p.ties {
        assert srcs[k][cur[k]].time == p.time;
        assert TimeOrdered(srcs[k]);
      } else {
        assert h[k].Some?;
      }
    }
  }

  /** Pulses all at time `t`, followed by an ordered list no earlier than `t`, are in order. */
  lemma {:induction false} OrderedAfterRound(xs: seq<Pulse>, ys: seq<Pulse>, t: int, lo: int)
    requires lo <= t && forall i :: 0 <= i < |xs| ==> xs[i].time == t
    requires TimeOrdered(ys) && forall i :: 0 <= i < |ys| ==> t <= ys[i].time
    ensures TimeOrdered(xs + ys) && forall i :: 0 <= i < |xs + ys| ==> lo <= (xs + ys)[i].time
  {
  }

  /**
    * With every stream in time order, the merge is in time order, and no
    * pulse is earlier than a bound below every head.
    */
  lemma {:induction false} MergeFromOrdered(srcs: seq<seq<Pulse>>, ids: seq<nat>, cur: seq<nat>, lo: int)
    requires Cursors(srcs, cur) && |ids| == |srcs| && AllOrdered(srcs)
    requires forall k :: 0 <= k < |srcs| && cur[k] < |srcs[k]| ==> lo <= srcs[k][cur[k]].time
    ensures var out := Untag(MergeFrom(srcs, ids, cur));
      TimeOrdered(out) && forall i :: 0 <= i < |out| ==> lo <= out[i].time
    decreases Remaining(srcs, cur, |srcs|)
  {
    var p := PickFrom(Heads(srcs, cur), |srcs|);
    if p.Earliest? {
      RoundTimes(srcs, ids, cur);
      RoundNextHeads(srcs, cur);
      RoundProgress(srcs, cur);
      var cur2 := Advance(cur, p.ties);
      MergeFromOrdered(srcs, ids, cur2, p.time);
      var round := RoundOut(srcs, ids, cur, p.ties);
      var rest := MergeFrom(srcs, ids, cur2);
      assert MergeFrom(srcs, ids, cur) == round + rest;
      UntagAppend(round, rest);
      PickMeaning(Heads(srcs, cur), |srcs|);
      assert p.ties[0] in p.ties;
      assert Heads(srcs, cur)[p.ties[0]] == Some(p.time);
      OrderedAfterRound(Untag(round), Untag(rest), p.time, lo);
    }
  }

  /** The values of `s` are pairwise distinct. */
  predicate Distinct(s: seq<nat>)
  {
    forall a, b :: 0 <= a < b < |s| ==> s[a] != s[b]
  }

  /** A round's output holds stream `k`'s head once if `k` is a tie, and nothing of stream `k` otherwise. */
  lemma {:induction false} FromSourceRound(srcs: seq<seq<Pulse>>, ids: seq<nat>, cur: seq<nat>, ties: seq<nat>, m: nat, k: nat)
    requires Cursors(srcs, cur) && |ids| == |srcs| && TiesLive(srcs, cur, ties) && Distinct(ids) && Distinct(ties)
    requires m <= |ties| && k < |srcs|
    ensures FromSource(RoundOut(srcs, ids, cur, ties)[..m], ids[k]) == if k in ties[..m] then [srcs[k][cur[k]]] else []
  {
    var r := RoundOut(srcs, ids, cur, ties);
    if m > 0 {
      FromSourceRound(srcs, ids, cur, ties, m - 1, k);
      assert r[..m][..m - 1] == r[..m - 1];
      assert ties[..m] == ties[..m - 1] + [ties[m - 1]];
      if ties[m - 1] == k {
        assert k !in ties[..m - 1];
      }
    }
  }

  /** The tag `x` of no stream. */
  lemma {:induction false} FromSourceRoundOther(srcs: seq<seq<Pulse>>, ids: seq<nat>, cur: seq<nat>, ties: seq<nat>, m: nat, x: nat)
    requires Cursors(srcs, cur) && |ids| == |srcs| && TiesLive(srcs, cur, ties) && m <= |ties| && x !in ids
    ensures FromSource(RoundOut(srcs, ids, cur, ties)[..m], x) == []
  {
    var r := RoundOut(srcs, ids, cur, ties);
    if m > 0 {
      FromSourceRoundOther(srcs, ids, cur, ties, m - 1, x);
      assert r[..m][..m - 1] == r[..m - 1];
    }
  }

  /** Stream `k`'s pulses in the merge are exactly its untaken pulses, in order. */
  lemma {:induction false} MergeFromSource(srcs: seq<seq<Pulse>>, ids: seq<nat>, cur: seq<nat>, k: nat)
    requires Cursors(srcs, cur) && |ids| == |srcs| && Distinct(ids) && k < |srcs|
    ensures FromSource(MergeFrom(srcs, ids, cur), ids[k]) == srcs[k][cur[k]..]
    decreases Remaining(srcs, cur, |srcs|)
  {
    var h := Heads(srcs, cur);
    var p := PickFrom(h, |srcs|);
    PickMeaning(h, |srcs|);
    if p.NoHead? {
      assert h[k].None?;
    } else {
      RoundProgress(srcs, cur);
      var cur2 := Advance(cur, p.ties);
      MergeFromSource(srcs, ids, cur2, k);
      var round := RoundOut(srcs, ids, cur, p.ties);
      var rest := MergeFrom(srcs, ids, cur2);
      assert MergeFrom(srcs, ids, cur) == round + rest;
      assert Distinct(p.ties);
      FromSourceAppend(round, rest, ids[k]);
      RoundSource(srcs, ids, cur, p.ties, k);
    }
  }

  /** A round takes stream `k`'s head exactly when `k` is a tie, and the rest of the stream follows. */
  lemma {:induction false} RoundSource(srcs: seq<seq<Pulse>>, ids: seq<nat>, cur: seq<nat>, ties: seq<nat>, k: nat)
    requires Cursors(srcs, cur) && |ids| == |srcs| && Distinct(ids) && TiesLive(srcs, cur, ties) && Distinct(ties)
    requires Cursors(srcs, Advance(cur, ties)) && k < |srcs|
    ensures FromSource(RoundOut(srcs, ids, cur, ties), ids[k]) + srcs[k][Advance(cur, ties)[k]..] == srcs[k][cur[k]..]
  {
    var r := RoundOut(srcs, ids, cur, ties);
    assert r[..|ties|] == r && ties[..|ties|] == ties;
    FromSourceRound(srcs, ids, cur, ties, |ties|, k);
    if k in ties {
      assert srcs[k][cur[k]..] == [srcs[k][cur[k]]] + srcs[k][cur[k] + 1..];
    }
  }

  /** No pulse of the merge carries a tag that names no stream. */
  lemma {:induction false} MergeFromOther(srcs: seq<seq<Pulse>>, ids: seq<nat>, cur: seq<nat>, x: nat)
    requires Cursors(srcs, cur) && |ids| == |srcs| && x !in ids
    ensures FromSource(MergeFrom(srcs, ids, cur), x) == []
    decreases Remaining(srcs, cur, |srcs|)
  {
    var h := Heads(srcs, cur);
    var p := PickFrom(h, |srcs|);
    PickMeaning(h, |srcs|);
    if p.Earliest? {
      RoundProgress(srcs, cur);
      var cur2 := Advance(cur, p.ties);
      MergeFromOther(srcs, ids, cur2, x);
      var round := RoundOut(srcs, ids, cur, p.ties);
      var rest := MergeFrom(srcs, ids, cur2);
      assert MergeFrom(srcs, ids, cur) == round + rest;
      assert round[..|p.ties|] == round;
      FromSourceAppend(round, rest, x);
      FromSourceRoundOther(srcs, ids, cur, p.ties, |p.ties|, x);
    }
  }

  /**
    * The merge keeps each stream whole and in its own order: the pulses
    * tagged with a stream's id are exactly that stream's untaken pulses,
    * and no pulse carries any other tag.
    */
  lemma {:induction false} MergeFromSources(srcs: seq<seq<Pulse>>, ids: seq<nat>, cur: seq<nat>)
    requires Cursors(srcs, cur) && |ids| == |srcs| && Distinct(ids)
    ensures forall k :: 0 <= k < |srcs| ==> FromSource(MergeFrom(srcs, ids, cur), ids[k]) == srcs[k][cur[k]..]
    ensures forall x: nat :: x !in ids ==> FromSource(MergeFrom(srcs, ids, cur), x) == []
  {
    forall k | 0 <= k < |srcs|
      ensures FromSource(MergeFrom(srcs, ids, cur), ids[k]) == srcs[k][cur[k]..]
    {
      MergeFromSource(srcs, ids, cur, k);
    }
    forall x: nat | x !in ids
      ensures FromSource(MergeFrom(srcs, ids, cur), x) == []
    {
      MergeFromOther(srcs, ids, cur, x);
    }
  }

  function Zeros(n: nat): (z: seq<nat>)
    ensures |z| == n && forall k :: 0 <= k < n ==> z[k] == 0
  {
    seq(n, k => 0)
  }

  /**
    * The merge loop for three or more streams. Each round scans the heads
    * for the earliest time, then yields every head at that time in stream
    * order, refilling each from its own stream; it ends when every stream
    * is exhausted.
    */
  method MergeMany(srcs: seq<seq<Pulse>>, ids: seq<nat>) returns (out: seq<Pulse>)
    requires |ids| == |srcs|
    ensures out == Untag(MergeFrom(srcs, ids, Zeros(|srcs|)))
  {
    var cur := Zeros(|srcs|);
    out := [];
    while true
      invariant Cursors(srcs, cur)
      invariant Untag(MergeFrom(srcs, ids, Zeros(|srcs|))) == out + Untag(MergeFrom(srcs, ids, cur))
      decreases Remaining(srcs, cur, |srcs|)
    {
      var found, nextt, nextix := ScanHeads(srcs, cur);
      if !found {
        return;
      }
      MergeManyShift(srcs, ids, cur, out);
      var yielded, cur2 := YieldRound(srcs, ids, cur, nextix);
      out, cur := out + yielded, cur2;
    }
  }

  /** One round of the merge moves its pulses from the pending merge onto the output. */
  lemma {:induction false} MergeManyShift(srcs: seq<seq<Pulse>>, ids: seq<nat>, cur: seq<nat>, out: seq<Pulse>)
    requires Cursors(srcs, cur) && |ids| == |srcs| && PickFrom(Heads(srcs, cur), |srcs|).Earliest?
    ensures var p := PickFrom(Heads(srcs, cur), |srcs|);
      TiesLive(srcs, cur, p.ties) && Cursors(srcs, Advance(cur, p.ties))
      && Remaining(srcs, Advance(cur, p.ties), |srcs|) < Remaining(srcs, cur, |srcs|)
      && (forall a, b :: 0 <= a < b < |p.ties| ==> p.ties[a] < p.ties[b])
      && out + Untag(MergeFrom(srcs, ids, cur))
         == (out + Untag(RoundOut(srcs, ids, cur, p.ties))) + Untag(MergeFrom(srcs, ids, Advance(cur, p.ties)))
  {
    var p := PickFrom(Heads(srcs, cur), |srcs|);
    RoundProgress(srcs, cur);
    PickMeaning(Heads(srcs, cur), |srcs|);
    var cur2 := Advance(cur, p.ties);
    var yielded := Untag(RoundOut(srcs, ids, cur, p.ties));
    var rest := Untag(MergeFrom(srcs, ids, cur2));
    assert MergeFrom(srcs, ids, cur) == RoundOut(srcs, ids, cur, p.ties) + MergeFrom(srcs, ids, cur2);
    UntagAppend(RoundOut(srcs, ids, cur, p.ties), MergeFrom(srcs, ids, cur2));
    assert out + (yielded + rest) == (out + yielded) + rest;
  }

  /**
    * The second half of a round: each tied head is yielded in stream order
    * and replaced by the next pulse of its own stream.
    */
  method YieldRound(srcs: seq<seq<Pulse>>, ids: seq<nat>, cur: seq<nat>, ties: seq<nat>) returns (out: seq<Pulse>, cur2: seq<nat>)
    requires Cursors(srcs, cur) && |ids| == |srcs| && TiesLive(srcs, cur, ties)
    requires forall a, b :: 0 <= a < b < |ties| ==> ties[a] < ties[b]
    ensures out == Untag(RoundOut(srcs, ids, cur, ties)) && cur2 == Advance(cur, ties)
  {
    out, cur2 := [], cur;
    ghost var round := RoundOut(srcs, ids, cur, ties);
    for j := 0 to |ties|
      invariant |cur2| == |cur|
      invariant forall k :: 0 <= k < |cur| ==> cur2[k] == if k in ties[..j] then cur[k] + 1 else cur[k]
      invariant out == Untag(round[..j])
    {
      var nx := ties[j];
      assert nx !in ties[..j] by {
        assert forall a :: 0 <= a < j ==> ties[a] < ties[j];
      }
      TakeOneMore(round, j);
      assert round[j] == (ids[nx], srcs[nx][cur[nx]]);
      UntagAppend(round[..j], [round[j]]);
      out := out + [srcs[nx][cur2[nx]]];
      assert ties[..j + 1] == ties[..j] + [nx];
      cur2 := cur2[nx := cur2[nx] + 1];
    }
    assert round[..|ties|] == round;
    assert ties[..|ties|] == ties;
  }

  lemma {:induction false} TakeOneMore(s: seq<Tagged>, j: nat)
    requires j < |s|
    ensures s[..j + 1] == s[..j] + [s[j]]
  {
  }

  /** The scan of `mpulses` for the earliest head time and the streams tied at it. */
  method ScanHeads(srcs: seq<seq<Pulse>>, cur: seq<nat>) returns (found: bool, nextt: int, nextix: seq<nat>)
    requires Cursors(srcs, cur)
    ensures var p := PickFrom(Heads(srcs, cur), |srcs|);
      (found <==> p.Earliest?) && (found ==> nextt == p.time && nextix == p.ties)
  {
    ghost var h := Heads(srcs, cur);
    found, nextt, nextix := false, 0, [];
    for ix := 0 to |srcs|
      invariant var p := PickFrom(h, ix); (found <==> p.Earliest?) && (found ==> nextt == p.time && nextix == p.ties)
    {
      if cur[ix] < |srcs[ix]| {
        var t := srcs[ix][cur[ix]].time;
        if !found {
          found, nextt, nextix := true, t, [ix];
        } else if t < nextt {
          nextt, nextix := t, [ix];
        } else if t == nextt {
          nextix := nextix + [ix];
        }
      }
    }
  }

  // ---------------------------------------------------------------------
  // Two streams.

  /**
    * The two-stream merge with the refill the code evidently intends: A's
    * head goes first when B is exhausted or A is strictly earlier, ties go
    * to B, and each yielded head is refilled from its own stream.
    */
  function TwoFrom(a: seq<Pulse>, b: seq<Pulse>, ida: nat, idb: nat, i: nat, j: nat): seq<Tagged>
    requires i <= |a| && j <= |b|
    decreases |a| - i + |b| - j
  {
    if i == |a| && j == |b| then []
    else if i < |a| && (j == |b| || a[i].time < b[j].time) then [(ida, a[i])] + TwoFrom(a, b, ida, idb, i + 1, j)
    else [(idb, b[j])] + TwoFrom(a, b, ida, idb, i, j + 1)
  }

  /**
    * The two-stream merge as written: once A is exhausted, yielding B's
    * head refills it from A's exhausted generator, which ends the merge.
    */
  function TwoFromAsWritten(a: seq<Pulse>, b: seq<Pulse>, i: nat, j: nat): seq<Pulse>
    requires i <= |a| && j <= |b|
    decreases |a| - i + |b| - j
  {
    if i == |a| then (if j == |b| then [] else [b[j]])
    else if j == |b| || a[i].time < b[j].time then [a[i]] + TwoFromAsWritten(a, b, i + 1, j)
    else [b[j]] + TwoFromAsWritten(a, b, i, j + 1)
  }

  /** The two-stream merge keeps each stream whole and in order, under its own id. */
  lemma {:induction false} TwoFromSources(a: seq<Pulse>, b: seq<Pulse>, ida: nat, idb: nat, i: nat, j: nat)
    requires i <= |a| && j <= |b| && ida != idb
    ensures FromSource(TwoFrom(a, b, ida, idb, i, j), ida) == a[i..]
    ensures FromSource(TwoFrom(a, b, ida, idb, i, j), idb) == b[j..]
    ensures forall x: nat :: x != ida && x != idb ==> FromSource(TwoFrom(a, b, ida, idb, i, j), x) == []
  {
    forall x: nat ensures FromSource(TwoFrom(a, b, ida, idb, i, j), x) == TwoSourceOf(a, b, ida, idb, i, j, x) {
      TwoFromSource(a, b, ida, idb, i, j, x);
    }
  }

  /** What stream `x` contributes to the two-stream merge from heads `i` and `j`. */
  function TwoSourceOf(a: seq<Pulse>, b: seq<Pulse>, ida: nat, idb: nat, i: nat, j: nat, x: nat): seq<Pulse>
    requires i <= |a| && j <= |b|
  {
    if x == ida then a[i..] else if x == idb then b[j..] else []
  }

  lemma {:induction false} TwoFromSource(a: seq<Pulse>, b: seq<Pulse>, ida: nat, idb: nat, i: nat, j: nat, x: nat)
    requires i <= |a| && j <= |b| && ida != idb
    ensures FromSource(TwoFrom(a, b, ida, idb, i, j), x) == TwoSourceOf(a, b, ida, idb, i, j, x)
    decreases |a| - i + |b| - j
  {
    if i == |a| && j == |b| {
      assert TwoFrom(a, b, ida, idb, i, j) == [];
    } else if i < |a| && (j == |b| || a[i].time < b[j].time) {
      TwoFromSource(a, b, ida, idb, i + 1, j, x);
      var rest := TwoFrom(a, b, ida, idb, i + 1, j);
      assert TwoFrom(a, b, ida, idb, i, j) == [(ida, a[i])] + rest;
      FromSourceCons((ida, a[i]), rest, x);
      TwoSourceStepA(a, b, ida, idb, i, j, x);
    } else {
      TwoFromSource(a, b, ida, idb, i, j + 1, x);
      var rest := TwoFrom(a, b, ida, idb, i, j + 1);
      assert TwoFrom(a, b, ida, idb, i, j) == [(idb, b[j])] + rest;
      FromSourceCons((idb, b[j]), rest, x);
      TwoSourceStepB(a, b, ida, idb, i, j, x);
    }
  }

  lemma {:induction false} TwoSourceStepA(a: seq<Pulse>, b: seq<Pulse>, ida: nat, idb: nat, i: nat, j: nat, x: nat)
    requires i < |a| && j <= |b| && ida != idb
    ensures TwoSourceOf(a, b, ida, idb, i, j, x) == (if ida == x then [a[i]] else []) + TwoSourceOf(a, b, ida, idb, i + 1, j, x)
  {
    assert a[i..] == [a[i]] + a[i + 1..];
  }

  lemma {:induction false} TwoSourceStepB(a: seq<Pulse>, b: seq<Pulse>, ida: nat, idb: nat, i: nat, j: nat, x: nat)
    requires i <= |a| && j < |b| && ida != idb
    ensures TwoSourceOf(a, b, ida, idb, i, j, x) == (if idb == x then [b[j]] else []) + TwoSourceOf(a, b, ida, idb, i, j + 1, x)
  {
    assert b[j..] == [b[j]] + b[j + 1..];
  }

  lemma {:induction false} FromSourceCons(t: Tagged, rest: seq<Tagged>, x: nat)
    ensures FromSource([t] + rest, x) == (if t.0 == x then [t.1] else []) + FromSource(rest, x)
  {
    FromSourceAppend([t], rest, x);
    FromSourceOne(t, x);
  }

  /** With both streams in time order the two-stream merge is in time order and starts no earlier than either head. */
  lemma {:induction false} TwoFromOrdered(a: seq<Pulse>, b: seq<Pulse>, ida: nat, idb: nat, i: nat, j: nat, lo: int)
    requires i <= |a| && j <= |b| && TimeOrdered(a) && TimeOrdered(b)
    requires (i < |a| ==> lo <= a[i].time) && (j < |b| ==> lo <= b[j].time)
    ensures var out := Untag(TwoFrom(a, b, ida, idb, i, j));
      TimeOrdered(out) && forall k :: 0 <= k < |out| ==> lo <= out[k].time
    decreases |a| - i + |b| - j
  {
    if i == |a| && j == |b| {
    } else if i < |a| && (j == |b| || a[i].time < b[j].time) {
      TwoFromOrdered(a, b, ida, idb, i + 1, j, a[i].time);
      TwoStep(a, b, ida, idb, i, j);
      ConsOrdered(a[i], Untag(TwoFrom(a, b, ida, idb, i + 1, j)), lo);
    } else {
      TwoFromOrdered(a, b, ida, idb, i, j + 1, b[j].time);
      TwoStep(a, b, ida, idb, i, j);
      ConsOrdered(b[j], Untag(TwoFrom(a, b, ida, idb, i, j + 1)), lo);
    }
  }

  /** A pulse put before a time-ordered run that starts no earlier than it keeps the run in order. */
  lemma {:induction false} ConsOrdered(p: Pulse, rest: seq<Pulse>, lo: int)
    requires lo <= p.time && TimeOrdered(rest) && forall k :: 0 <= k < |rest| ==> p.time <= rest[k].time
    ensures TimeOrdered([p] + rest) && forall k :: 0 <= k < |[p] + rest| ==> lo <= ([p] + rest)[k].time
  {
  }

  /**
    * The two-stream merge as written drops B's tail: with A a single pulse
    * at time 0 and B two pulses at times 5 and 6, it yields two pulses, and
    * the intended merge yields all three.
    */
  lemma {:induction false} TwoAsWrittenDropsTail(p: Pulse, q: Pulse, r: Pulse)
    requires p.time == 0 && q.time == 5 && r.time == 6
    ensures TwoFromAsWritten([p], [q, r], 0, 0) == [p, q]
    ensures Untag(TwoFrom([p], [q, r], 0, 1, 0, 0)) == [p, q, r]
  {
    assert TwoFromAsWritten([p], [q, r], 1, 0) == [q];
    assert TwoFrom([p], [q, r], 0, 1, 1, 2) == [];
    TwoStep([p], [q, r], 0, 1, 1, 1);
    TwoStep([p], [q, r], 0, 1, 1, 0);
    TwoStep([p], [q, r], 0, 1, 0, 0);
  }

  /**
    * The two-stream loop as written: `pulseA`/`pulseB` are the heads, and
    * when A is exhausted the refill after yielding B reads `genA`.
    */
  method MergeTwoAsWritten(a: seq<Pulse>, b: seq<Pulse>) returns (out: seq<Pulse>)
    ensures out == TwoFromAsWritten(a, b, 0, 0)
  {
    var i, j := 0, 0;
    var stop := false;
    out := [];
    while !stop
      invariant i <= |a| && j <= |b|
      invariant !stop ==> TwoFromAsWritten(a, b, 0, 0) == out + TwoFromAsWritten(a, b, i, j)
      invariant stop ==> out == TwoFromAsWritten(a, b, 0, 0)
      decreases |a| - i + |b| - j, if stop then 0 else 1
    {
      if i == |a| {
        if j < |b| {
          // the refill reads the exhausted `genA`, so pulseB becomes None
          assert TwoFromAsWritten(a, b, i, j) == [b[j]];
          out := out + [b[j]];
        } else {
          assert TwoFromAsWritten(a, b, i, j) == [];
          assert out + [] == out;
        }
        stop := true;
      } else if j == |b| || a[i].time < b[j].time {
        AsWrittenShift(a, b, i, j, out);
        out := out + [a[i]];
        i := i + 1;
      } else {
        AsWrittenShift(a, b, i, j, out);
        out := out + [b[j]];
        j := j + 1;
      }
    }
  }

  /** Moving the earlier head from the pending as-written merge onto the output keeps the whole. */
  lemma {:induction false} AsWrittenShift(a: seq<Pulse>, b: seq<Pulse>, i: nat, j: nat, out: seq<Pulse>)
    requires i < |a| && j <= |b|
    ensures (j == |b| || a[i].time < b[j].time) ==>
      out + TwoFromAsWritten(a, b, i, j) == (out + [a[i]]) + TwoFromAsWritten(a, b, i + 1, j)
    ensures !(j == |b| || a[i].time < b[j].time) ==>
      out + TwoFromAsWritten(a, b, i, j) == (out + [b[j]]) + TwoFromAsWritten(a, b, i, j + 1)
  {
    if j == |b| || a[i].time < b[j].time {
      var rest := TwoFromAsWritten(a, b, i + 1, j);
      assert out + ([a[i]] + rest) == (out + [a[i]]) + rest;
    } else {
      var rest := TwoFromAsWritten(a, b, i, j + 1);
      assert out + ([b[j]] + rest) == (out + [b[j]]) + rest;
    }
  }

  /** The two-stream loop with B refilled from `genB`. */
  method MergeTwo(a: seq<Pulse>, b: seq<Pulse>, ida: nat, idb: nat) returns (out: seq<Pulse>)
    ensures out == Untag(TwoFrom(a, b, ida, idb, 0, 0))
  {
    var i, j := 0, 0;
    out := [];
    ghost var whole := Untag(TwoFrom(a, b, ida, idb, 0, 0));
    while i < |a| || j < |b|
      invariant i <= |a| && j <= |b|
      invariant whole == out + Untag(TwoFrom(a, b, ida, idb, i, j))
      decreases |a| - i + |b| - j
    {
      if i < |a| && (j == |b| || a[i].time < b[j].time) {
        TwoShiftA(a, b, ida, idb, i, j, out);
        out := out + [a[i]];
        i := i + 1;
      } else {
        TwoShiftB(a, b, ida, idb, i, j, out);
        out := out + [b[j]];
        j := j + 1;
      }
    }
    assert TwoFrom(a, b, ida, idb, i, j) == [];
  }

  /** Moving A's head from the pending merge onto the output keeps the whole. */
  lemma {:induction false} TwoShiftA(a: seq<Pulse>, b: seq<Pulse>, ida: nat, idb: nat, i: nat, j: nat, out: seq<Pulse>)
    requires i < |a| && j <= |b| && (j == |b| || a[i].time < b[j].time)
    ensures out + Untag(TwoFrom(a, b, ida, idb, i, j)) == (out + [a[i]]) + Untag(TwoFrom(a, b, ida, idb, i + 1, j))
  {
    TwoStep(a, b, ida, idb, i, j);
  }

  /** Moving B's head from the pending merge onto the output keeps the whole. */
  lemma {:induction false} TwoShiftB(a: seq<Pulse>, b: seq<Pulse>, ida: nat, idb: nat, i: nat, j: nat, out: seq<Pulse>)
    requires i <= |a| && j < |b| && !(i < |a| && a[i].time < b[j].time)
    ensures out + Untag(TwoFrom(a, b, ida, idb, i, j)) == (out + [b[j]]) + Untag(TwoFrom(a, b, ida, idb, i, j + 1))
  {
    TwoStep(a, b, ida, idb, i, j);
  }

  /** One step of the two-stream merge, untagged. */
  lemma {:induction false} TwoStep(a: seq<Pulse>, b: seq<Pulse>, ida: nat, idb: nat, i: nat, j: nat)
    requires i <= |a| && j <= |b| && (i < |a| || j < |b|)
    ensures i < |a| && (j == |b| || a[i].time < b[j].time) ==>
      Untag(TwoFrom(a, b, ida, idb, i, j)) == [a[i]] + Untag(TwoFrom(a, b, ida, idb, i + 1, j))
    ensures !(i < |a| && (j == |b| || a[i].time < b[j].time)) ==>
      Untag(TwoFrom(a, b, ida, idb, i, j)) == [b[j]] + Untag(TwoFrom(a, b, ida, idb, i, j + 1))
  {
    if i < |a| && (j == |b| || a[i].time < b[j].time) {
      UntagAppend([(ida, a[i])], TwoFrom(a, b, ida, idb, i + 1, j));
    } else {
      UntagAppend([(idb, b[j])], TwoFrom(a, b, ida, idb, i, j + 1));
    }
  }

  // ---------------------------------------------------------------------
  // The whole merge.

  /** The indices of the streams that yield at least one pulse, in order (`newgens`). */
  function LiveIds(srcs: seq<seq<Pulse>>, n: nat): (ids: seq<nat>)
    requires n <= |srcs|
    ensures forall i :: 0 <= i < |ids| ==> ids[i] < n
  {
    if n == 0 then [] else LiveIds(srcs, n - 1) + if |srcs[n - 1]| > 0 then [n - 1] else []
  }

  /** The live streams are exactly the non-empty ones, in increasing order. */
  lemma {:induction false} LiveIdsMeaning(srcs: seq<seq<Pulse>>, n: nat)
    requires n <= |srcs|
    ensures var ids := LiveIds(srcs, n);
      (forall i :: 0 <= i < |ids| ==> |srcs[ids[i]]| > 0)
      && (forall k: nat :: k < n && |srcs[k]| > 0 ==> k in ids)
      && (forall a, b :: 0 <= a < b < |ids| ==> ids[a] < ids[b])
  {
    LiveIdsLive(srcs, n);
    LiveIdsComplete(srcs, n);
    LiveIdsSorted(srcs, n);
  }

  lemma {:induction false} LiveIdsLive(srcs: seq<seq<Pulse>>, n: nat)
    requires n <= |srcs|
    ensures forall i :: 0 <= i < |LiveIds(srcs, n)| ==> |srcs[LiveIds(srcs, n)[i]]| > 0
  {
    if n > 0 {
      LiveIdsLive(srcs, n - 1);
    }
  }

  lemma {:induction false} LiveIdsComplete(srcs: seq<seq<Pulse>>, n: nat)
    requires n <= |srcs|
    ensures forall k: nat :: k < n && |srcs[k]| > 0 ==> k in LiveIds(srcs, n)
  {
    if n > 0 {
      LiveIdsComplete(srcs, n - 1);
      var prev := LiveIds(srcs, n - 1);
      assert forall k: nat :: k in prev ==> k in LiveIds(srcs, n);
    }
  }

  lemma {:induction false} LiveIdsSorted(srcs: seq<seq<Pulse>>, n: nat)
    requires n <= |srcs|
    ensures forall a, b :: 0 <= a < b < |LiveIds(srcs, n)| ==> LiveIds(srcs, n)[a] < LiveIds(srcs, n)[b]
  {
    if n > 0 {
      LiveIdsSorted(srcs, n - 1);
      var prev := LiveIds(srcs, n - 1);
      var ids := LiveIds(srcs, n);
      assert ids == prev + if |srcs[n - 1]| > 0 then [n - 1] else [];
      forall a, b | 0 <= a < b < |ids|
        ensures ids[a] < ids[b]
      {
        if b < |prev| {
          assert ids[a] == prev[a] && ids[b] == prev[b];
          assert prev[a] < prev[b];
        } else {
          assert ids[a] == prev[a] < n - 1 && ids[b] == n - 1;
        }
      }
    }
  }

  function Pick2(srcs: seq<seq<Pulse>>, ids: seq<nat>): (r: seq<seq<Pulse>>)
    requires forall i :: 0 <= i < |ids| ==> ids[i] < |srcs|
    ensures |r| == |ids| && forall i :: 0 <= i < |ids| ==> r[i] == srcs[ids[i]]
  {
    seq(|ids|, i requires 0 <= i < |ids| => srcs[ids[i]])
  }

  /**
    * `pulsemerge`, tagged: no stream yields nothing; one live stream yields
    * itself; two use the two-stream merge (with the intended refill); three
    * or more use the round-by-round merge.
    */
  function Merged(srcs: seq<seq<Pulse>>): seq<Tagged>
  {
    var ids := LiveIds(srcs, |srcs|);
    Combine(Pick2(srcs, ids), ids)
  }

  /** The live streams `live`, with indices `ids`, merged by the case for their number. */
  function Combine(live: seq<seq<Pulse>>, ids: seq<nat>): seq<Tagged>
    requires |live| == |ids|
  {
    if |ids| == 0 then []
    else if |ids| == 1 then Tag(ids[0], live[0])
    else if |ids| == 2 then TwoFrom(live[0], live[1], ids[0], ids[1], 0, 0)
    else MergeFrom(live, ids, Zeros(|live|))
  }

  /** Every pulse of one stream, tagged with its id. */
  function Tag(id: nat, s: seq<Pulse>): (ts: seq<Tagged>)
    ensures |ts| == |s|
  {
    if |s| == 0 then [] else Tag(id, s[..|s| - 1]) + [(id, s[|s| - 1])]
  }

  lemma {:induction false} TagMeaning(id: nat, s: seq<Pulse>)
    ensures Untag(Tag(id, s)) == s
    ensures forall x: nat :: FromSource(Tag(id, s), x) == if x == id then s else []
  {
    if |s| > 0 {
      var n := |s| - 1;
      TagMeaning(id, s[..n]);
      UntagAppend(Tag(id, s[..n]), [(id, s[n])]);
      assert Tag(id, s)[..n] == Tag(id, s[..n]);
      assert s == s[..n] + [s[n]];
    }
  }

  /**
    * Nothing is lost, duplicated or reordered within a stream: the pulses
    * of the merge that came from stream `k` are exactly stream `k`, in order.
    */
  lemma {:induction false} MergedKeepsStreams(srcs: seq<seq<Pulse>>)
    ensures forall k :: 0 <= k < |srcs| ==> FromSource(Merged(srcs), k) == srcs[k]
  {
    forall k | 0 <= k < |srcs|
      ensures FromSource(Merged(srcs), k) == srcs[k]
    {
      MergedKeepsStream(srcs, k);
    }
  }

  lemma {:induction false} MergedKeepsStream(srcs: seq<seq<Pulse>>, k: nat)
    requires k < |srcs|
    ensures FromSource(Merged(srcs), k) == srcs[k]
  {
    var ids := LiveIds(srcs, |srcs|);
    var live := Pick2(srcs, ids);
    LiveIdsMeaning(srcs, |srcs|);
    if k in ids {
      var m :| 0 <= m < |ids| && ids[m] == k;
      CombineSource(live, ids, m);
    } else {
      CombineOther(live, ids, k);
    }
  }

  /** The merge of distinct live streams holds stream `ids[m]` whole, in order. */
  lemma {:induction false} CombineSource(live: seq<seq<Pulse>>, ids: seq<nat>, m: nat)
    requires |live| == |ids| && Distinct(ids) && m < |ids|
    ensures FromSource(Combine(live, ids), ids[m]) == live[m]
  {
    if |ids| == 1 {
      TagMeaning(ids[0], live[0]);
    } else if |ids| == 2 {
      TwoFromSources(live[0], live[1], ids[0], ids[1], 0, 0);
      assert live[0][0..] == live[0] && live[1][0..] == live[1];
    } else {
      MergeFromSource(live, ids, Zeros(|live|), m);
      assert live[m][0..] == live[m];
    }
  }

  /** The merge of distinct live streams holds nothing under an index that is not theirs. */
  lemma {:induction false} CombineOther(live: seq<seq<Pulse>>, ids: seq<nat>, x: nat)
    requires |live| == |ids| && Distinct(ids) && x !in ids
    ensures FromSource(Combine(live, ids), x) == []
  {
    if |ids| == 1 {
      TagMeaning(ids[0], live[0]);
    } else if |ids| == 2 {
      TwoFromSources(live[0], live[1], ids[0], ids[1], 0, 0);
    } else if |ids| > 2 {
      MergeFromOther(live, ids, Zeros(|live|), x);
    }
  }

  /** With every stream in time order, the merged stream is in time order. */
  lemma {:induction false} MergedOrdered(srcs: seq<seq<Pulse>>)
    requires AllOrdered(srcs)
    ensures TimeOrdered(Untag(Merged(srcs)))
  {
    var ids := LiveIds(srcs, |srcs|);
    var live := Pick2(srcs, ids);
    LiveIdsMeaning(srcs, |srcs|);
    if |ids| == 1 {
      TagMeaning(ids[0], live[0]);
    } else if |ids| == 2 {
      TwoFromOrdered(live[0], live[1], ids[0], ids[1], 0, 0, if live[0][0].time < live[1][0].time then live[0][0].time else live[1][0].time);
    } else if |ids| > 2 {
      var lo := MinHeadTime(live, |live|);
      MergeFromOrdered(live, ids, Zeros(|live|), lo);
    }
  }

  /** A time no later than the first pulse of any of the first `n` streams. */
  function MinHeadTime(srcs: seq<seq<Pulse>>, n: nat): (m: int)
    requires n <= |srcs|
    ensures forall k :: 0 <= k < n && |srcs[k]| > 0 ==> m <= srcs[k][0].time
  {
    if n == 0 then 0
    else
      var m := MinHeadTime(srcs, n - 1);
      if |srcs[n - 1]| > 0 && srcs[n - 1][0].time < m then srcs[n - 1][0].time else m
  }

  /**
    * `pulsemerge`: collects the streams that yield a first pulse, then
    * merges them by the case for their number.
    */
  method PulseMergeStreams(srcs: seq<seq<Pulse>>) returns (out: seq<Pulse>)
    ensures out == Untag(Merged(srcs))
  {
    var newids, newgens := LiveStreams(srcs);
    LiveIdsMeaning(srcs, |srcs|);
    if |newgens| == 0 {
      out := [];
    } else if |newgens| == 1 {
      out := PassThrough(newgens[0]);
      TagMeaning(newids[0], newgens[0]);
    } else if |newgens| == 2 {
      out := MergeTwo(newgens[0], newgens[1], newids[0], newids[1]);
    } else {
      out := MergeMany(newgens, newids);
    }
  }

  /** The priming `next()` of every generator: the streams that yield a first pulse, with their indices. */
  method LiveStreams(srcs: seq<seq<Pulse>>) returns (newids: seq<nat>, newgens: seq<seq<Pulse>>)
    ensures newids == LiveIds(srcs, |srcs|) && newgens == Pick2(srcs, newids)
  {
    newids, newgens := [], [];
    for k := 0 to |srcs|
      invariant newids == LiveIds(srcs, k) && newgens == Pick2(srcs, newids)
    {
      assert LiveIds(srcs, k + 1) == newids + if |srcs[k]| > 0 then [k] else [];
      if |srcs[k]| > 0 {
        assert Pick2(srcs, newids + [k]) == newgens + [srcs[k]];
        newids := newids + [k];
        newgens := newgens + [srcs[k]];
      }
    }
  }

  /** One live stream: its primed head, then everything its generator yields. */
  method PassThrough(gen: seq<Pulse>) returns (out: seq<Pulse>)
    requires |gen| > 0
    ensures out == gen
  {
    out := [gen[0]];
    for i := 1 to |gen|
      invariant out == gen[..i]
    {
      out := out + [gen[i]];
    }
  }
}
