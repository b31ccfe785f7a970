/** Each producer's calls of `push`, recorded over a whole run, against what the buffer
    holds and hands out. */
module RingCalls {
  import opened RingProtocol
  import opened RingTheorems

  /** `Open` until the call has taken a ticket or has been refused. */
  datatype Answer = Open | Took | Refused

  datatype Call<T> = Call(item: T, answer: Answer)

  /** The moves of a run and the states they lead through. */
  ghost predicate Trace<T>(cap: nat, ids: set<nat>, blank: T, t: seq<State<T>>, moves: seq<Move<T>>) {
    && |t| == |moves| + 1 && t[0] == Init(cap, ids, blank)
    && (forall i, k {:trigger moves[i], t[k]} :: 0 <= i < |moves| && k == i + 1 ==> Moved(cap, t[i], moves[i], t[k]))
  }

  ghost predicate Moved<T>(cap: nat, s: State<T>, m: Move<T>, s': State<T>) {
    Sized(cap, s) && Enabled(s, m) && s' == Apply(cap, s, m)
  }

  function Answered<T>(calls: seq<Call<T>>, answer: Answer): seq<Call<T>> {
    if calls == [] then [] else calls[|calls| - 1 := calls[|calls| - 1].(answer := answer)]
  }

  /** What one move adds to the record of producer `p`: a call begins, takes a ticket when
      its CAS wins, or is refused when it finds the buffer full. */
  function Note<T>(calls: seq<Call<T>>, p: nat, m: Move<T>, s': State<T>): seq<Call<T>> {
    if m.Begin? && m.p == p then calls + [Call(m.item, Open)]
    else if m.Cas? && m.p == p && p in s'.producers && s'.producers[p].AtWrite? then Answered(calls, Took)
    else if m.LoadSeq? && m.p == p && p in s'.producers && s'.producers[p].Resting? then Answered(calls, Refused)
    else calls
  }

  /** The calls of producer `p` in the order in which it made them. */
  function CallsOf<T>(t: seq<State<T>>, moves: seq<Move<T>>, p: nat): seq<Call<T>>
    requires |t| > |moves|
  {
    if moves == [] then []
    else
      var n := |moves| - 1;
      Note(CallsOf(t, moves[..n], p), p, moves[n], t[n + 1])
  }

  /** The items of the calls that took a ticket. */
  function Pushed<T>(calls: seq<Call<T>>): seq<T> {
    if calls == [] then []
    else
      var last := calls[|calls| - 1];
      Pushed(calls[..|calls| - 1]) + if last.answer.Took? then [last.item] else []
  }

  /** The record agrees with the log, and with where the producer stands. */
  ghost predicate Recorded<T>(s: State<T>, p: nat, calls: seq<Call<T>>) {
    && PushedBy(s.log, p) == Pushed(calls)
    && (forall k :: 0 <= k < |calls| - 1 ==> !calls[k].answer.Open?)
    && (p in s.producers && !s.producers[p].Resting? ==>
          && calls != [] && calls[|calls| - 1].item == s.producers[p].item
          && calls[|calls| - 1].answer == if s.producers[p].AtWrite? || s.producers[p].AtPublish? then Took else Open)
    && (p !in s.producers || s.producers[p].Resting? ==> forall k :: 0 <= k < |calls| ==> !calls[k].answer.Open?)
  }

  lemma PushedAppend<T>(calls: seq<Call<T>>, c: Call<T>)
    ensures Pushed(calls + [c]) == Pushed(calls) + if c.answer.Took? then [c.item] else []
  {
    assert (calls + [c])[..|calls|] == calls;
  }

  lemma PushedAnswered<T>(calls: seq<Call<T>>, answer: Answer)
    requires calls != [] && calls[|calls| - 1].answer.Open?
    ensures Pushed(Answered(calls, answer)) == Pushed(calls) + if answer.Took? then [calls[|calls| - 1].item] else []
  {
    hide Pushed;
    var n := |calls| - 1;
    var last := calls[n];
    assert calls == calls[..n] + [last];
    assert Answered(calls, answer) == calls[..n] + [last.(answer := answer)];
    PushedAppend(calls[..n], last);
    PushedAppend(calls[..n], last.(answer := answer));
  }

  lemma NoteKeepsRecord<T(!new)>(cap: nat, s: State<T>, m: Move<T>, s': State<T>, p: nat, calls: seq<Call<T>>)
    requires Moved(cap, s, m, s') && Recorded(s, p, calls)
    ensures Recorded(s', p, Note(calls, p, m, s'))
  {
    hide PushedBy, Pushed;
    TicketsFollowCalls(cap, s, m, p);
    if m.Begin? && m.p == p {
      PushedAppend(calls, Call(m.item, Open));
    } else if (m.Cas? || m.LoadSeq?) && m.p == p {
      PushedAnswered(calls, Took);
      PushedAnswered(calls, Refused);
    }
  }

  lemma {:induction false} RecordKept<T(!new)>(cap: nat, ids: set<nat>, blank: T, t: seq<State<T>>,
      moves: seq<Move<T>>, p: nat)
    requires Trace(cap, ids, blank, t, moves)
    ensures Recorded(t[|moves|], p, CallsOf(t, moves, p))
    decreases |moves|
  {
    hide Moved, Recorded, Note;
    if moves == [] {
      RecordStarts(cap, ids, blank, p);
    } else {
      var n := |moves| - 1;
      var t' := t[..n + 1];
      assert Trace(cap, ids, blank, t', moves[..n]);
      RecordKept(cap, ids, blank, t', moves[..n], p);
      SameCalls(t, t', moves[..n], p);
      assert Moved(cap, t[n], moves[n], t[n + 1]);
      NoteKeepsRecord(cap, t[n], moves[n], t[n + 1], p, CallsOf(t, moves[..n], p));
    }
  }

  lemma RecordStarts<T>(cap: nat, ids: set<nat>, blank: T, p: nat)
    ensures Recorded(Init(cap, ids, blank), p, [])
  {
  }

  lemma {:induction false} SameCalls<T>(t: seq<State<T>>, t': seq<State<T>>, moves: seq<Move<T>>, p: nat)
    requires |t'| > |moves| && t' <= t
    ensures CallsOf(t, moves, p) == CallsOf(t', moves, p)
    decreases |moves|
  {
    if moves != [] {
      SameCalls(t, t', moves[..|moves| - 1], p);
    }
  }

  lemma {:induction false} TraceIsRun<T(!new)>(cap: nat, ids: set<nat>, blank: T, t: seq<State<T>>, moves: seq<Move<T>>)
    requires Trace(cap, ids, blank, t, moves) && cap > 0
    ensures Reachable(cap, t[|moves|])
  {
    hide Moved;
    forall i, k | 0 <= i && k == i + 1 && k < |t| ensures Next(cap, t[i], t[k]) {
      assert Moved(cap, t[i], moves[i], t[k]);
      MovedIsNext(cap, t[i], moves[i], t[k]);
    }
    assert IsRun(cap, ids, blank, t);
  }

  lemma MovedIsNext<T(!new)>(cap: nat, s: State<T>, m: Move<T>, s': State<T>)
    requires Moved(cap, s, m, s')
    ensures Next(cap, s, s')
  {
  }

  /** Over every run: what producer `p` has in the log is the items of its calls that took a
      ticket, in the order of the calls; a call that has returned was either refused or is
      among them; and what has been popped of `p` is the beginning of that sequence. */
  lemma CallOrder<T(!new)>(cap: nat, ids: set<nat>, blank: T, t: seq<State<T>>, moves: seq<Move<T>>, p: nat)
    requires Trace(cap, ids, blank, t, moves) && cap >= 2
    ensures var s, calls := t[|moves|], CallsOf(t, moves, p);
      && PushedBy(s.log, p) == Pushed(calls)
      && s.readPos <= |s.log| && s.popped == Values(s.log[..s.readPos])
      && PushedBy(s.log[..s.readPos], p) <= Pushed(calls)
      && (forall k :: 0 <= k < |calls| - 1 ==> !calls[k].answer.Open?)
      && (p in s.producers && s.producers[p].Resting? ==> forall k :: 0 <= k < |calls| ==> !calls[k].answer.Open?)
  {
    RecordKept(cap, ids, blank, t, moves, p);
    TraceIsRun(cap, ids, blank, t, moves);
    hide Trace, Reachable;
    PerProducerOrder(cap, t[|moves|], p);
  }
}
