/** The confirmation handshake between streaming loops and confirming POST requests on one session.
    A POST's work on the shared fields is one atomic step; each of a stream's accesses is a step of its own. */
module Handshake {
  import opened Prelude

  /** A pending record. A POST that finds none still writes one, without an id. `approved` is its action once set. */
  datatype Record = Record(cid: Option<nat>, approved: Option<bool>)

  /** Where a streaming loop stands in a pause. The pause, its command and its event share one fresh id. */
  datatype Stream =
    | Running
    | EventStored(cid: nat)
    | Waiting(cid: nat)
    | Woken(cid: nat, confirmed: bool)
    | EventPopped(cid: nat, confirmed: bool)
    | Holding(cid: nat, confirmed: bool, record: Option<Record>)

  datatype Side = ByStream | ByPost

  datatype Run = Run(cid: nat, side: Side)

  datatype State = State(
    event: Option<nat>,
    slot: Option<Record>,
    flags: set<nat>,
    streams: seq<Stream>,
    next: nat,
    executed: seq<Run>,
    approvals: nat,
    timedOut: set<nat>)

  datatype Action =
    | Pause(t: nat)                        // a command needs approval: store a fresh event
    | StoreRecord(t: nat)
    | Wake(t: nat, confirmed: bool)        // the wait returns: the event was set, or the time is up
    | PopEvent(t: nat)
    | PopRecord(t: nat)
    | Decide(t: nat)                       // run the command, or not, and go on
    | Crash(t: nat)                        // the connection breaks; a later stream starts afresh
    | Post(id: nat, approve: bool)
    | OtherPause                           // a non-streaming loop on the same session pauses

  function Init(n: nat): State {
    State(None, None, {}, seq(n, i => Running), 0, [], 0, {})
  }

  function SetStream(s: State, t: nat, x: Stream): State
    requires t < |s.streams|
  {
    s.(streams := s.streams[t := x])
  }

  function StreamStep(s: State, a: Action, t: nat): State
    requires t < |s.streams|
  {
    match (a, s.streams[t])
    case (Pause(_), Running) => SetStream(s, t, EventStored(s.next)).(event := Some(s.next), next := s.next + 1)
    case (StoreRecord(_), EventStored(c)) => SetStream(s, t, Waiting(c)).(slot := Some(Record(Some(c), None)))
    case (Wake(_, confirmed), Waiting(c)) =>
      if confirmed && c !in s.flags then s
      else SetStream(s, t, Woken(c, confirmed)).(timedOut := if confirmed then s.timedOut else s.timedOut + {c})
    case (PopEvent(_), Woken(c, confirmed)) => SetStream(s, t, EventPopped(c, confirmed)).(event := None)
    case (PopRecord(_), EventPopped(c, confirmed)) => SetStream(s, t, Holding(c, confirmed, s.slot)).(slot := None)
    case (Decide(_), Holding(c, confirmed, r)) =>
      SetStream(s, t, Running).(executed := s.executed + if Goes(confirmed, r) then [Run(c, ByStream)] else [])
    case (Crash(_), _) => SetStream(s, t, Running)
    case _ => s
  }

  predicate Goes(confirmed: bool, r: Option<Record>) {
    confirmed && r.Some? && r.value.approved == Some(true)
  }

  /** A confirming request: it answers a waiting stream if an event is stored,
      and otherwise resumes the pause itself. */
  function PostStep(s: State, id: nat, approve: bool): State {
    var s1 := s.(approvals := s.approvals + if approve then 1 else 0);
    if s.event.Some? then
      s1.(event := None,
          slot := Some(Record(if s.slot.Some? then s.slot.value.cid else None, Some(approve))),
          flags := s.flags + {s.event.value})
    else
      var runs := approve && s.slot.Some? && s.slot.value.cid == Some(id);
      s1.(slot := None, executed := s.executed + if runs then [Run(id, ByPost)] else [])
  }

  /** An action that is not possible changes nothing. */
  function Step(s: State, a: Action): State {
    match a
    case Post(id, approve) => PostStep(s, id, approve)
    case OtherPause => s.(slot := Some(Record(Some(s.next), None)), next := s.next + 1)
    case _ => if a.t < |s.streams| then StreamStep(s, a, a.t) else s
  }

  function After(n: nat, actions: seq<Action>): State {
    if actions == [] then Init(n) else Step(After(n, actions[..|actions| - 1]), actions[|actions| - 1])
  }

  predicate RunOf(executed: seq<Run>, c: nat) {
    exists i :: 0 <= i < |executed| && executed[i].cid == c
  }

  predicate AtMostOnce(executed: seq<Run>) {
    forall i, j :: 0 <= i < j < |executed| ==> executed[i].cid != executed[j].cid
  }

  // ---- every approval is used at most once, whatever the number of streams ----

  function Marked(r: Option<Record>): nat { if r.Some? && r.value.approved == Some(true) then 1 else 0 }

  function HeldBy(x: Stream): nat { if x.Holding? then Marked(x.record) else 0 }

  function Held(streams: seq<Stream>): nat {
    if streams == [] then 0 else HeldBy(streams[0]) + Held(streams[1..])
  }

  lemma {:induction false} HeldUpdate(streams: seq<Stream>, t: nat, x: Stream)
    requires t < |streams|
    ensures Held(streams[t := x]) == Held(streams) - HeldBy(streams[t]) + HeldBy(x)
  {
    if t == 0 {
      assert streams[0 := x][1..] == streams[1..];
    } else {
      HeldUpdate(streams[1..], t - 1, x);
      assert streams[t := x][1..] == streams[1..][t - 1 := x];
    }
  }

  lemma {:induction false} NoneHeld(n: nat)
    ensures Held(Init(n).streams) == 0
  {
    if n > 0 {
      NoneHeld(n - 1);
      assert Init(n).streams[1..] == Init(n - 1).streams;
    }
  }

  /** Commands run, plus approvals not yet used, never exceed the approving requests. */
  lemma {:induction false} ApprovalsConserved(n: nat, actions: seq<Action>)
    ensures var s := After(n, actions);
      |s.executed| + Marked(s.slot) + Held(s.streams) <= s.approvals
  {
    if actions == [] {
      NoneHeld(n);
    } else {
      var k := |actions| - 1;
      ApprovalsConserved(n, actions[..k]);
      var s, a := After(n, actions[..k]), actions[k];
      if !a.Post? && !a.OtherPause? && a.t < |s.streams| && Step(s, a) != s {
        HeldUpdate(s.streams, a.t, Step(s, a).streams[a.t]);
      }
    }
  }

  // ---- one stream ----

  /** The pause's record can no longer bring its command to run. */
  predicate Spent(s: State, x: Stream) {
    && s.event.None? && Marked(s.slot) == 0
    && (x.Holding? ==> Marked(x.record) == 0)
  }

  predicate SlotInv(s: State) {
    s.slot.Some? && s.slot.value.cid.Some? ==>
      s.slot.value.cid.value < s.next && !RunOf(s.executed, s.slot.value.cid.value)
  }

  predicate StreamInv(s: State, x: Stream) {
    !x.Running? ==>
      && x.cid < s.next
      && (x.EventStored? || x.Holding? ==> s.slot.Some? ==> s.slot.value.cid != Some(x.cid))
      && (RunOf(s.executed, x.cid) ==> !x.EventStored? && Spent(s, x))
  }

  predicate Inv(s: State) {
    && |s.streams| <= 1
    && AtMostOnce(s.executed)
    && (forall i :: 0 <= i < |s.executed| ==> s.executed[i].cid < s.next)
    && SlotInv(s)
    && (|s.streams| == 1 ==> StreamInv(s, s.streams[0]))
  }

  lemma RunOfSnoc(executed: seq<Run>, r: Run)
    ensures forall c :: RunOf(executed + [r], c) <==> RunOf(executed, c) || c == r.cid
  {
    var e := executed + [r];
    assert e[|executed|] == r;
    forall c | RunOf(executed, c)
      ensures RunOf(e, c)
    {
      var i :| 0 <= i < |executed| && executed[i].cid == c;
      assert e[i].cid == c;
    }
  }

  lemma PostKeeps(s: State, id: nat, approve: bool)
    requires Inv(s)
    ensures Inv(PostStep(s, id, approve))
  {
    RunOfSnoc(s.executed, Run(id, ByPost));
    assert s.executed + [] == s.executed;
  }

  lemma DecideKeeps(s: State)
    requires Inv(s) && |s.streams| == 1
    ensures Inv(StreamStep(s, Decide(0), 0))
  {
    var x := s.streams[0];
    if x.Holding? {
      RunOfSnoc(s.executed, Run(x.cid, ByStream));
      assert s.executed + [] == s.executed;
    }
  }

  lemma StepKeeps(s: State, a: Action)
    requires Inv(s)
    ensures Inv(Step(s, a))
  {
    match a
    case Post(id, approve) => PostKeeps(s, id, approve);
    case Decide(t) =>
      if t < |s.streams| {
        DecideKeeps(s);
      }
    case _ =>
  }

  lemma {:induction false} OneStreamInv(n: nat, actions: seq<Action>)
    requires n <= 1
    ensures Inv(After(n, actions))
  {
    if actions != [] {
      OneStreamInv(n, actions[..|actions| - 1]);
      StepKeeps(After(n, actions[..|actions| - 1]), actions[|actions| - 1]);
    } else {
      assert n == 1 ==> Init(n).streams[0] == Running;
    }
  }

  lemma OneMore(n: nat, actions: seq<Action>, a: Action) returns (longer: seq<Action>, s: State)
    ensures longer == actions + [a] && s == After(n, longer) == Step(After(n, actions), a)
  {
    longer := actions + [a];
    assert longer[..|actions|] == actions;
    s := After(n, longer);
  }

  /** The first stream waits; one POST sets its event, the next resumes its pause. */
  lemma PostResumesWaiting(n: nat) returns (h: seq<Action>, s: State)
    requires n >= 2
    ensures s == After(n, h) && s.executed == [Run(0, ByPost)] && s.flags == {0} && s.next == 1
    ensures |s.streams| == n && s.streams[0] == Waiting(0) && s.streams[1] == Running
  {
    h, s := OneMore(n, [], Pause(0));
    h, s := OneMore(n, h, StoreRecord(0));
    h, s := OneMore(n, h, Post(0, true));
    h, s := OneMore(n, h, Post(0, true));
  }

  /** Then a second stream pauses, and the approval of its pause ends up in the first stream's hands. */
  lemma TwoStreamsRunTwice(n: nat) returns (h: seq<Action>)
    requires n >= 2
    ensures !AtMostOnce(After(n, h).executed)
  {
    var s;
    h, s := PostResumesWaiting(n);
    h, s := OneMore(n, h, Pause(1));
    h, s := OneMore(n, h, StoreRecord(1));
    h, s := OneMore(n, h, Post(1, true));
    h := FirstTakesSecond(n, h, s);
  }

  lemma FirstTakesSecond(n: nat, before: seq<Action>, s: State) returns (h: seq<Action>)
    requires s == After(n, before) && |s.streams| > 0 && s.streams[0] == Waiting(0) && 0 in s.flags
    requires s.executed == [Run(0, ByPost)] && Marked(s.slot) == 1
    ensures !AtMostOnce(After(n, h).executed)
  {
    var d;
    h, d := OneMore(n, before, Wake(0, true));
    h, d := OneMore(n, h, PopEvent(0));
    h, d := OneMore(n, h, PopRecord(0));
    h, d := OneMore(n, h, Decide(0));
    assert d.executed == [Run(0, ByPost), Run(0, ByStream)];
    assert d.executed[0].cid == d.executed[1].cid;
  }

  /** Main result. However streams and confirming requests interleave, no paused command runs twice,
      exactly when at most one stream serves the session at a time. */
  lemma RunsAtMostOnceIff(n: nat)
    ensures (forall actions :: AtMostOnce(After(n, actions).executed)) <==> n <= 1
  {
    if n <= 1 {
      forall actions
        ensures AtMostOnce(After(n, actions).executed)
      {
        OneStreamInv(n, actions);
      }
    } else {
      var actions := TwoStreamsRunTwice(n);
    }
  }

  // ---- an answer in time ----

  /** The first stream waits, and its event is set by an answer. */
  lemma AnsweredWait(n: nat, id: nat, approve: bool) returns (h: seq<Action>, s: State)
    requires n >= 1
    ensures h == [Pause(0), StoreRecord(0), Post(id, approve)] && s == After(n, h)
    ensures |s.streams| == n && s.streams[0] == Waiting(0) && s.flags == {0} && s.event == None && s.executed == []
    ensures s.slot == Some(Record(Some(0), Some(approve)))
  {
    h, s := OneMore(n, [], Pause(0));
    h, s := OneMore(n, h, StoreRecord(0));
    h, s := OneMore(n, h, Post(id, approve));
  }

  /** A pause that is answered while its stream waits: approved, its command runs once, in the stream; denied, it does
      not run. The confirmation's own id plays no part. */
  lemma AnsweredInTime(n: nat, id: nat, approve: bool) returns (h: seq<Action>, s: State)
    requires n >= 1
    ensures s == After(n, h) && [Pause(0), StoreRecord(0), Post(id, approve)] <= h
    ensures forall i :: 3 <= i < |h| ==> !h[i].Post?
    ensures s.executed == (if approve then [Run(0, ByStream)] else []) && s.event == None && s.slot == None
    ensures |s.streams| == n && s.streams[0] == Running
  {
    h, s := AnsweredWait(n, id, approve);
    h, s := OneMore(n, h, Wake(0, true));
    assert s.streams[0] == Woken(0, true);
    h, s := OneMore(n, h, PopEvent(0));
    assert s.streams[0] == EventPopped(0, true);
    h, s := HeldDecides(n, h, true, Some(Record(Some(0), Some(approve))));
  }

  lemma HeldDecides(n: nat, before: seq<Action>, confirmed: bool, r: Option<Record>)
    returns (h: seq<Action>, s: State)
    requires var m := After(n, before);
      && |m.streams| == n > 0 && m.streams[0] == EventPopped(0, confirmed)
      && m.slot == r && m.executed == [] && m.event == None
    ensures h == before + [PopRecord(0), Decide(0)] && s == After(n, h)
    ensures s.executed == (if Goes(confirmed, r) then [Run(0, ByStream)] else []) && s.event == None && s.slot == None
    ensures |s.streams| == n && s.streams[0] == Running && s.timedOut == After(n, before).timedOut
  {
    h, s := OneMore(n, before, PopRecord(0));
    assert s.streams[0] == Holding(0, confirmed, r) && s.executed == [];
    h, s := OneMore(n, h, Decide(0));
  }

  lemma UnansweredWait(n: nat) returns (h: seq<Action>, s: State)
    requires n >= 1
    ensures h == [Pause(0), StoreRecord(0), Wake(0, false)] && s == After(n, h)
    ensures |s.streams| == n && s.streams[0] == Woken(0, false) && s.event == Some(0) && s.executed == []
    ensures s.slot == Some(Record(Some(0), None)) && s.timedOut == {0}
  {
    h, s := OneMore(n, [], Pause(0));
    h, s := OneMore(n, h, StoreRecord(0));
    h, s := OneMore(n, h, Wake(0, false));
  }

  /** A wait that runs out unanswered leaves nothing behind: no event, no record, and nothing run. */
  lemma UnansweredEnds(n: nat) returns (h: seq<Action>, s: State)
    requires n >= 1
    ensures s == After(n, h) && forall i :: 0 <= i < |h| ==> !h[i].Post?
    ensures s.executed == [] && s.event == None && s.slot == None && s.timedOut == {0}
    ensures |s.streams| == n && s.streams[0] == Running
  {
    h, s := UnansweredWait(n);
    h, s := OneMore(n, h, PopEvent(0));
    assert s.streams[0] == EventPopped(0, false) && s.event == None;
    h, s := HeldDecides(n, h, false, Some(Record(Some(0), None)));
  }

  // ---- a wait that timed out ----

  predicate RunByStream(executed: seq<Run>, c: nat) {
    exists i :: 0 <= i < |executed| && executed[i] == Run(c, ByStream)
  }

  /** A paused stream has run nothing for its pause, and unless its wait has run out the pause has not timed out. */
  predicate Undecided(s: State, x: Stream) {
    !x.Running? ==>
      && x.cid < s.next && !RunByStream(s.executed, x.cid)
      && (x.EventStored? || x.Waiting? || x.confirmed ==> x.cid !in s.timedOut)
  }

  /** No two streams are in the same pause. */
  predicate OwnPauses(streams: seq<Stream>) {
    forall t, u :: 0 <= t < u < |streams| && !streams[t].Running? && !streams[u].Running? ==>
      streams[t].cid != streams[u].cid
  }

  predicate TimeoutInv(s: State) {
    && (forall c :: c in s.timedOut ==> c < s.next && !RunByStream(s.executed, c))
    && (forall i :: 0 <= i < |s.executed| && s.executed[i].side.ByStream? ==> s.executed[i].cid < s.next)
    && OwnPauses(s.streams)
    && (forall t :: 0 <= t < |s.streams| ==> Undecided(s, s.streams[t]))
  }

  lemma ByStreamSnoc(executed: seq<Run>, r: Run)
    ensures forall c :: RunByStream(executed + [r], c) <==> RunByStream(executed, c) || Run(c, ByStream) == r
  {
    var e := executed + [r];
    assert e[|executed|] == r;
    forall c | RunByStream(executed, c)
      ensures RunByStream(e, c)
    {
      var i :| 0 <= i < |executed| && executed[i] == Run(c, ByStream);
      assert e[i] == Run(c, ByStream);
    }
  }

  lemma PostTimeout(s: State, id: nat, approve: bool)
    requires TimeoutInv(s)
    ensures TimeoutInv(PostStep(s, id, approve))
  {
    ByStreamSnoc(s.executed, Run(id, ByPost));
    assert s.executed + [] == s.executed;
  }

  lemma DecideTimeout(s: State, t: nat)
    requires TimeoutInv(s) && t < |s.streams|
    ensures TimeoutInv(StreamStep(s, Decide(t), t))
  {
    var x := s.streams[t];
    if x.Holding? {
      ByStreamSnoc(s.executed, Run(x.cid, ByStream));
      assert s.executed + [] == s.executed;
    }
  }

  lemma TimeoutKeeps(s: State, a: Action)
    requires TimeoutInv(s)
    ensures TimeoutInv(Step(s, a))
  {
    match a
    case Post(id, approve) => PostTimeout(s, id, approve);
    case Decide(t) =>
      if t < |s.streams| {
        DecideTimeout(s, t);
      }
    case _ =>
  }

  /** However many streams there are, none runs a command whose wait timed out. */
  lemma {:induction false} NeverAfterTimeout(n: nat, actions: seq<Action>)
    ensures TimeoutInv(After(n, actions))
    ensures forall c :: c in After(n, actions).timedOut ==> !RunByStream(After(n, actions).executed, c)
  {
    if actions != [] {
      NeverAfterTimeout(n, actions[..|actions| - 1]);
      TimeoutKeeps(After(n, actions[..|actions| - 1]), actions[|actions| - 1]);
    }
  }
}
