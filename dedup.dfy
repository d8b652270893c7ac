/** The notify-once-per-storm-time rule of the two apps, replayed over a run of forecast
    evaluations. An evaluation is summarised by the storm time it found (None for a result without
    a storm); the state is the last notified storm time. */
module Dedup {
  import opened Common

  /** An evaluation notifies when it found a storm whose time is not the last one notified. */
  predicate Notifies(last: Option<string>, storm: Option<string>)
    ensures last == storm ==> !Notifies(last, storm)
    ensures storm.None? ==> !Notifies(last, storm)
  {
    storm.Some? && last != storm
  }

  /** The single-file app clears its state on a result without a storm; the current app never
      resets it, since it consults the alert service only when a storm was found. */
  datatype Variant = Current | SingleFile

  /** The state after one evaluation. */
  function Next(v: Variant, last: Option<string>, storm: Option<string>): (next: Option<string>)
    ensures storm.Some? ==> next == storm
    ensures storm.None? ==> next == if v == Current then last else None
  {
    match v
    case Current => if Notifies(last, storm) then storm else last
    case SingleFile => if storm.None? then None else if Notifies(last, storm) then storm else last
  }

  /** The state after a run of evaluations. */
  function Replay(v: Variant, last: Option<string>, storms: seq<Option<string>>): (r: Option<string>)
    ensures r == last || r in storms
    ensures |storms| > 0 && storms[|storms| - 1].Some? ==> r == storms[|storms| - 1]
    decreases |storms|
  {
    if |storms| == 0 then last else Replay(v, Next(v, last, storms[0]), storms[1..])
  }

  /** The notification decision of every evaluation of a run. */
  function Decisions(v: Variant, last: Option<string>, storms: seq<Option<string>>): (d: seq<bool>)
    ensures |d| == |storms|
    decreases |storms|
  {
    if |storms| == 0 then [] else [Notifies(last, storms[0])] + Decisions(v, Next(v, last, storms[0]), storms[1..])
  }

  /** The most recent storm time of a run, or `last` when the run found none. */
  function LatestStorm(last: Option<string>, storms: seq<Option<string>>): (r: Option<string>)
    ensures r == last || (r.Some? && r in storms)
    ensures (forall i | 0 <= i < |storms| :: storms[i].None?) ==> r == last
    decreases |storms|
  {
    if |storms| == 0 then last
    else if storms[|storms| - 1].Some? then storms[|storms| - 1]
    else LatestStorm(last, storms[..|storms| - 1])
  }

  /** The j-th decision is the rule applied to the state reached by the first j evaluations. */
  lemma {:induction false} DecisionAt(v: Variant, last: Option<string>, storms: seq<Option<string>>, j: nat)
    requires j < |storms|
    ensures Decisions(v, last, storms)[j] == Notifies(Replay(v, last, storms[..j]), storms[j])
    decreases j
  {
    if j > 0 {
      var rest := storms[1..];
      DecisionAt(v, Next(v, last, storms[0]), rest, j - 1);
      assert storms[..j][0] == storms[0];
      assert storms[..j][1..] == rest[..j - 1];
    }
  }

  /** Replaying one more evaluation is one more step. */
  lemma {:induction false} ReplaySnoc(v: Variant, last: Option<string>, storms: seq<Option<string>>, x: Option<string>)
    ensures Replay(v, last, storms + [x]) == Next(v, Replay(v, last, storms), x)
    decreases |storms|
  {
    if |storms| > 0 {
      assert (storms + [x])[1..] == storms[1..] + [x];
      ReplaySnoc(v, Next(v, last, storms[0]), storms[1..], x);
    }
  }

  /** The current app's state is the most recent storm time seen, however many storm-free
      evaluations came after it. */
  lemma {:induction false} CurrentReplayIsLatestStorm(last: Option<string>, storms: seq<Option<string>>)
    ensures Replay(Current, last, storms) == LatestStorm(last, storms)
    decreases |storms|
  {
    if |storms| > 0 {
      var init := storms[..|storms| - 1];
      assert storms == init + [storms[|storms| - 1]];
      ReplaySnoc(Current, last, init, storms[|storms| - 1]);
      CurrentReplayIsLatestStorm(last, init);
    }
  }

  /** The single-file app's state is whatever the previous evaluation found. */
  lemma {:induction false} SingleFileReplayIsPrevious(last: Option<string>, storms: seq<Option<string>>)
    requires |storms| > 0
    ensures Replay(SingleFile, last, storms) == storms[|storms| - 1]
  {
    var init := storms[..|storms| - 1];
    assert storms == init + [storms[|storms| - 1]];
    ReplaySnoc(SingleFile, last, init, storms[|storms| - 1]);
  }

  /** Current app: an evaluation notifies exactly when its storm time differs from the most
      recent storm time before it. */
  lemma CurrentDecisionAt(last: Option<string>, storms: seq<Option<string>>, j: nat)
    requires j < |storms|
    ensures Decisions(Current, last, storms)[j] <==> storms[j].Some? && LatestStorm(last, storms[..j]) != storms[j]
  {
    DecisionAt(Current, last, storms, j);
    CurrentReplayIsLatestStorm(last, storms[..j]);
  }

  /** Single-file app: after the first evaluation, one notifies exactly when it found a storm
      whose time differs from what the previous evaluation found, in particular after a
      storm-free result. */
  lemma SingleFileDecisionAt(last: Option<string>, storms: seq<Option<string>>, j: nat)
    requires 0 < j < |storms|
    ensures Decisions(SingleFile, last, storms)[j] <==> storms[j].Some? && storms[j - 1] != storms[j]
  {
    DecisionAt(SingleFile, last, storms, j);
    SingleFileReplayIsPrevious(last, storms[..j]);
  }

  /** Storm-free evaluations after a storm do not move the most recent storm time. */
  lemma {:induction false} LatestSkipsGreens(last: Option<string>, storms: seq<Option<string>>, i: nat)
    requires i < |storms| && storms[i].Some?
    requires forall k :: i < k < |storms| ==> storms[k].None?
    ensures LatestStorm(last, storms) == storms[i]
    decreases |storms|
  {
    if i < |storms| - 1 {
      var init := storms[..|storms| - 1];
      assert forall k :: i < k < |init| ==> init[k] == storms[k];
      LatestSkipsGreens(last, init, i);
    }
  }

  /** Current app: a storm time notified once is not notified again, even with storm-free
      evaluations in between. */
  lemma CurrentNeverRenotifiesAcrossGreens(last: Option<string>, storms: seq<Option<string>>, i: nat, j: nat)
    requires i < j < |storms| && storms[i].Some? && storms[j] == storms[i]
    requires forall k :: i < k < j ==> storms[k].None?
    ensures !Decisions(Current, last, storms)[j]
  {
    CurrentDecisionAt(last, storms, j);
    LatestSkipsGreens(last, storms[..j], i);
  }

  /** Single-file app: the same storm time is notified again after one storm-free evaluation. */
  lemma SingleFileRenotifiesAfterGreen(last: Option<string>, t: string)
    ensures Decisions(SingleFile, last, [Some(t), None, Some(t)]) == [last != Some(t), false, true]
  {
    var run := [Some(t), None, Some(t)];
    assert run[1..] == [None, Some(t)] && run[1..][1..] == [Some(t)];
    assert Decisions(SingleFile, None, [Some(t)]) == [true];
    assert Decisions(SingleFile, Some(t), [None, Some(t)]) == [false, true];
  }
}
