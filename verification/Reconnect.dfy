/**
  Catch-up of a client after a connection was lost: replay, registration, sync
  marker and live broadcasts over first-in first-out channels that can be cut at
  any time. A commit and its broadcast are separate steps, so that broadcasts can
  overtake each other.
 */
module Reconnect {
  import opened Prelude
  import opened InboundIndex

  type Content = string

  datatype Frame = Ordered(seqNo: nat, content: Content) | SyncReady(through: nat)

  datatype Phase = Replaying | Registered | Ready | Closed

  datatype Connection = Connection(replayed: nat, phase: Phase, channel: seq<Frame>)

  /** One client: `peer` is the connection the host sends broadcasts to, `current` the one the client reads. */
  datatype State = State(
    log: seq<Content>, unsent: set<nat>, connections: map<nat, Connection>, peer: Option<nat>,
    inbox: map<nat, Content>, current: Option<nat>, synced: nat)

  function Start(): State { State([], {}, map[], None, map[], None, 0) }

  datatype Event =
    | Commits(content: Content)
    | Broadcasts(seqNo: nat)
    | Connects(id: nat, last: nat)
    | Replays(id: nat)
    | Registers(id: nat)
    | SendsReady(id: nat)
    | Cuts(id: nat)
    | Delivers

  function Send(c: Connection, f: Frame): Connection {
    if c.phase.Closed? then c else c.(channel := c.channel + [f])
  }

  function Update(s: State, id: nat, c: Connection): State { s.(connections := s.connections[id := c]) }

  /** Ordering a commit; its broadcast follows outside the lock. */
  function Commit(s: State, x: Content): State {
    s.(log := s.log + [x], unsent := s.unsent + {|s.log| + 1})
  }

  /** Sending one ordered entry to the registered connection, if there is one. */
  function Broadcast(s: State, n: nat): State {
    if n !in s.unsent || !(1 <= n <= |s.log|) then s else
    var s1 := s.(unsent := s.unsent - {n});
    if s.peer.None? || s.peer.value !in s.connections then s1
    else Update(s1, s.peer.value, Send(s.connections[s.peer.value], Ordered(n, s.log[n - 1])))
  }

  /** A new connection; the client names the end of what it has without a gap. */
  function Connect(s: State, id: nat, last: nat): State {
    if id in s.connections || last > |s.log| || exists k :: 1 <= k <= last && k !in s.inbox then s
    else s.(connections := s.connections[id := Connection(last, Replaying, [])], peer := None, current := Some(id))
  }

  /** Replaying the next entry of the log. */
  function Replay(s: State, id: nat): State {
    if id !in s.connections || !s.connections[id].phase.Replaying? || s.connections[id].replayed >= |s.log| then s else
    var c := s.connections[id];
    Update(s, id, Send(c, Ordered(c.replayed + 1, s.log[c.replayed])).(replayed := c.replayed + 1))
  }

  /** The replay has caught up while no commit could come in between. */
  function Register(s: State, id: nat): State {
    if id !in s.connections || !s.connections[id].phase.Replaying? || s.connections[id].replayed != |s.log| then s
    else Update(s, id, s.connections[id].(phase := Registered)).(peer := Some(id))
  }

  function SendReady(s: State, id: nat): State {
    if id !in s.connections || !s.connections[id].phase.Registered? then s else
    var c := s.connections[id];
    Update(s, id, Send(c, SyncReady(c.replayed)).(phase := Ready))
  }

  /** The connection breaks: what is still in the channel is lost. */
  function Cut(s: State, id: nat): State {
    if id !in s.connections then s
    else Update(s, id, s.connections[id].(phase := Closed, channel := []))
  }

  /** What writing an entry to the inbox does: a different one under the same sequence is refused. */
  function Write(inbox: map<nat, Content>, n: nat, x: Content): Result<map<nat, Content>, nat> {
    if n in inbox && inbox[n] != x then Err(n) else Ok(inbox[n := x])
  }

  /** The client takes the next frame of its connection; a conflict ends the connection. */
  function Deliver(s: State): State {
    if s.current.None? || s.current.value !in s.connections || s.connections[s.current.value].channel == [] then s else
    var id := s.current.value;
    var c := s.connections[id];
    var s1 := Update(s, id, c.(channel := c.channel[1..]));
    match c.channel[0]
    case SyncReady(t) => s1.(synced := t)
    case Ordered(n, x) =>
      match Write(s.inbox, n, x)
      case Err(_) => Cut(s, id)
      case Ok(inbox) => s1.(inbox := inbox)
  }

  function Step(s: State, e: Event): State {
    match e
    case Commits(x) => Commit(s, x)
    case Broadcasts(n) => Broadcast(s, n)
    case Connects(id, last) => Connect(s, id, last)
    case Replays(id) => Replay(s, id)
    case Registers(id) => Register(s, id)
    case SendsReady(id) => SendReady(s, id)
    case Cuts(id) => Cut(s, id)
    case Delivers => Deliver(s)
  }

  // ---------------------------------------------------------------- the invariant

  /** The frame carries what the log has at its sequence. */
  predicate FrameOk(log: seq<Content>, f: Frame) {
    f.Ordered? ==> 1 <= f.seqNo <= |log| && f.content == log[f.seqNo - 1]
  }

  /** Entry n is in the inbox or among the first j frames. */
  ghost predicate Reaches(inbox: map<nat, Content>, channel: seq<Frame>, j: nat, n: nat)
    requires j <= |channel|
  {
    n in inbox || exists i :: 0 <= i < j && channel[i].Ordered? && channel[i].seqNo == n
  }

  /** Everything up to t is in the inbox or ahead of position j. */
  ghost predicate AllReach(inbox: map<nat, Content>, channel: seq<Frame>, j: nat, t: nat)
    requires j <= |channel|
  {
    forall n {:trigger Reaches(inbox, channel, j, n)} :: 1 <= n <= t ==> Reaches(inbox, channel, j, n)
  }

  ghost predicate ConnectionOk(log: seq<Content>, c: Connection) {
    c.replayed <= |log| && forall i {:trigger FrameOk(log, c.channel[i])} :: 0 <= i < |c.channel| ==> FrameOk(log, c.channel[i])
  }

  /** The client's own connection: replayed entries are under way, and ahead of every sync marker. */
  ghost predicate CurrentOk(inbox: map<nat, Content>, c: Connection) {
    && (!c.phase.Closed? ==> AllReach(inbox, c.channel, |c.channel|, c.replayed))
    && (forall j {:trigger c.channel[j]} :: 0 <= j < |c.channel| && c.channel[j].SyncReady? ==>
          AllReach(inbox, c.channel, j, c.channel[j].through))
  }

  /** While the host broadcasts to the client's connection, nothing that was ordered is lost. */
  ghost predicate NothingLost(s: State, c: Connection) {
    forall n {:trigger Reaches(s.inbox, c.channel, |c.channel|, n)} ::
      1 <= n <= |s.log| && n !in s.unsent ==> Reaches(s.inbox, c.channel, |c.channel|, n)
  }

  ghost predicate InboxOk(s: State) {
    forall n :: n in s.inbox ==> 1 <= n <= |s.log| && s.inbox[n] == s.log[n - 1]
  }

  ghost predicate Inv(s: State) {
    && InboxOk(s)
    && (forall n :: n in s.unsent ==> 1 <= n <= |s.log|)
    && (forall id {:trigger s.connections[id]} :: id in s.connections ==> ConnectionOk(s.log, s.connections[id]))
    && (s.current.Some? ==> s.current.value in s.connections && CurrentOk(s.inbox, s.connections[s.current.value]))
    && (s.peer.Some? ==> s.peer.value in s.connections && !s.connections[s.peer.value].phase.Replaying?)
    && (s.current.Some? && s.peer == s.current && !s.connections[s.current.value].phase.Closed? ==>
          NothingLost(s, s.connections[s.current.value]))
    && (forall n :: 1 <= n <= s.synced ==> n in s.inbox)
  }

  // ---------------------------------------------------------------- frames and channels

  lemma ReachGrows(inbox: map<nat, Content>, channel: seq<Frame>, f: Frame, j: nat, n: nat)
    requires j <= |channel| && Reaches(inbox, channel, j, n)
    ensures Reaches(inbox, channel + [f], j, n) && Reaches(inbox, channel + [f], |channel| + 1, n)
  {
    if n !in inbox {
      var i :| 0 <= i < j && channel[i].Ordered? && channel[i].seqNo == n;
      assert (channel + [f])[i] == channel[i];
    }
  }

  lemma AllReachGrows(inbox: map<nat, Content>, channel: seq<Frame>, f: Frame, j: nat, t: nat)
    requires j <= |channel| && AllReach(inbox, channel, j, t)
    ensures AllReach(inbox, channel + [f], j, t) && AllReach(inbox, channel + [f], |channel| + 1, t)
  {
    var more, end := channel + [f], |channel| + 1;
    forall n: nat | 1 <= n <= t ensures Reaches(inbox, more, j, n) {
      assert Reaches(inbox, channel, j, n);
      ReachGrows(inbox, channel, f, j, n);
    }
    forall n: nat | 1 <= n <= t ensures Reaches(inbox, more, end, n) {
      assert Reaches(inbox, channel, j, n);
      ReachGrows(inbox, channel, f, j, n);
    }
  }

  /** Taking the first frame moves what it carries from the channel to the inbox. */
  lemma ReachAdvances(inbox: map<nat, Content>, after: map<nat, Content>, channel: seq<Frame>, j: nat, n: nat)
    requires 1 <= j <= |channel| && Reaches(inbox, channel, j, n)
    requires forall k :: k in inbox ==> k in after
    requires channel[0].Ordered? ==> channel[0].seqNo in after
    ensures Reaches(after, channel[1..], j - 1, n)
  {
    if n !in after {
      var i :| 0 <= i < j && channel[i].Ordered? && channel[i].seqNo == n;
      assert channel[1..][i - 1] == channel[i];
    }
  }

  lemma AllReachAdvances(inbox: map<nat, Content>, after: map<nat, Content>, channel: seq<Frame>, j: nat, t: nat)
    requires 1 <= j <= |channel| && AllReach(inbox, channel, j, t)
    requires forall k :: k in inbox ==> k in after
    requires channel[0].Ordered? ==> channel[0].seqNo in after
    ensures AllReach(after, channel[1..], j - 1, t)
  {
    var rest, k := channel[1..], j - 1;
    forall n: nat | 1 <= n <= t ensures Reaches(after, rest, k, n) {
      assert Reaches(inbox, channel, j, n);
      ReachAdvances(inbox, after, channel, j, n);
    }
  }

  /** A frame at the end of the client's own channel. */
  lemma SendKeepsCurrent(log: seq<Content>, inbox: map<nat, Content>, c: Connection, f: Frame)
    requires ConnectionOk(log, c) && CurrentOk(inbox, c) && FrameOk(log, f)
    requires f.SyncReady? && !c.phase.Closed? ==> f.through == c.replayed
    ensures ConnectionOk(log, Send(c, f)) && CurrentOk(inbox, Send(c, f))
  {
    var d := Send(c, f);
    if !c.phase.Closed? {
      AllReachGrows(inbox, c.channel, f, |c.channel|, c.replayed);
      forall i | 0 <= i < |d.channel| ensures FrameOk(log, d.channel[i]) {
        if i < |c.channel| { assert FrameOk(log, c.channel[i]); }
      }
      forall j | 0 <= j < |d.channel| && d.channel[j].SyncReady? ensures AllReach(inbox, d.channel, j, d.channel[j].through) {
        if j < |c.channel| {
          AllReachGrows(inbox, c.channel, f, j, c.channel[j].through);
        } else {
          AllReachGrows(inbox, c.channel, f, j, c.replayed);
        }
      }
    }
  }

  lemma SendKeepsConnection(log: seq<Content>, c: Connection, f: Frame)
    requires ConnectionOk(log, c) && FrameOk(log, f)
    ensures ConnectionOk(log, Send(c, f))
  {
    forall i | 0 <= i < |Send(c, f).channel| ensures FrameOk(log, Send(c, f).channel[i]) {
      if i < |c.channel| { assert FrameOk(log, c.channel[i]); }
    }
  }

  // ---------------------------------------------------------------- steps

  lemma StartInv()
    ensures Inv(Start())
  {
  }

  lemma LogGrowthKeepsConnection(log: seq<Content>, x: Content, c: Connection)
    requires ConnectionOk(log, c)
    ensures ConnectionOk(log + [x], c)
  {
    forall i | 0 <= i < |c.channel| ensures FrameOk(log + [x], c.channel[i]) { assert FrameOk(log, c.channel[i]); }
  }

  lemma CommitKeepsInv(s: State, x: Content)
    requires Inv(s)
    ensures Inv(Commit(s, x))
  {
    var k := Commit(s, x);
    forall id | id in k.connections ensures ConnectionOk(k.log, k.connections[id]) {
      LogGrowthKeepsConnection(s.log, x, s.connections[id]);
    }
    if s.current.Some? && s.peer == s.current && !s.connections[s.current.value].phase.Closed? {
      var c := s.connections[s.current.value];
      forall n: nat | 1 <= n <= |k.log| && n !in k.unsent ensures Reaches(k.inbox, c.channel, |c.channel|, n) {
        assert n != |k.log| && NothingLost(s, c);
      }
    }
  }

  lemma BroadcastKeepsInv(s: State, n: nat)
    requires Inv(s)
    ensures Inv(Broadcast(s, n))
  {
    if n in s.unsent && s.peer.Some? && s.peer.value in s.connections {
      var id, f := s.peer.value, Ordered(n, s.log[n - 1]);
      var c, k := s.connections[s.peer.value], Broadcast(s, n);
      assert ConnectionOk(s.log, c);
      SendKeepsConnection(s.log, c, f);
      if s.current == Some(id) {
        SendKeepsCurrent(s.log, s.inbox, c, f);
        if !c.phase.Closed? { BroadcastLosesNothing(s, k, c, n); }
      }
    }
  }

  lemma BroadcastLosesNothing(s: State, k: State, c: Connection, n: nat)
    requires 1 <= n <= |s.log| && !c.phase.Closed? && NothingLost(s, c)
    requires k.log == s.log && k.inbox == s.inbox && k.unsent == s.unsent - {n}
    ensures NothingLost(k, Send(c, Ordered(n, s.log[n - 1])))
  {
    var d := Send(c, Ordered(n, s.log[n - 1]));
    forall m: nat | 1 <= m <= |k.log| && m !in k.unsent ensures Reaches(k.inbox, d.channel, |d.channel|, m) {
      if m == n {
        assert d.channel[|c.channel|] == Ordered(n, s.log[n - 1]);
      } else {
        assert Reaches(s.inbox, c.channel, |c.channel|, m);
        ReachGrows(s.inbox, c.channel, Ordered(n, s.log[n - 1]), |c.channel|, m);
      }
    }
  }

  lemma ConnectKeepsInv(s: State, id: nat, last: nat)
    requires Inv(s)
    ensures Inv(Connect(s, id, last))
  {
    if !(id in s.connections || last > |s.log| || exists k :: 1 <= k <= last && k !in s.inbox) {
      var c := Connection(last, Replaying, []);
      assert AllReach(s.inbox, c.channel, 0, last) by {
        forall n: nat | 1 <= n <= last ensures Reaches(s.inbox, c.channel, 0, n) {}
      }
    }
  }

  lemma ReplayKeepsInv(s: State, id: nat)
    requires Inv(s)
    ensures Inv(Replay(s, id))
  {
    if id in s.connections && s.connections[id].phase.Replaying? && s.connections[id].replayed < |s.log| {
      var c := s.connections[id];
      var f, k := Ordered(c.replayed + 1, s.log[c.replayed]), Replay(s, id);
      assert ConnectionOk(s.log, c);
      SendKeepsConnection(s.log, c, f);
      var d := Send(c, f);
      assert forall i :: 0 <= i < |d.channel| ==> FrameOk(s.log, d.channel[i]);
      assert ConnectionOk(k.log, k.connections[id]);
      if s.current == Some(id) {
        SendKeepsCurrent(s.log, s.inbox, c, f);
        forall n: nat | 1 <= n <= c.replayed + 1 ensures Reaches(s.inbox, d.channel, |d.channel|, n) {
          if n == c.replayed + 1 { assert d.channel[|c.channel|] == f; }
          else { assert Reaches(s.inbox, d.channel, |d.channel|, n); }
        }
      }
    }
  }

  lemma RegisterKeepsInv(s: State, id: nat)
    requires Inv(s)
    ensures Inv(Register(s, id))
  {
    if id in s.connections && s.connections[id].phase.Replaying? && s.connections[id].replayed == |s.log| {
      var c := s.connections[id];
      assert ConnectionOk(s.log, c);
      if s.current == Some(id) {
        forall n: nat | 1 <= n <= |s.log| ensures Reaches(s.inbox, c.channel, |c.channel|, n) {
          assert AllReach(s.inbox, c.channel, |c.channel|, c.replayed);
        }
      }
    }
  }

  lemma ReadyKeepsInv(s: State, id: nat)
    requires Inv(s)
    ensures Inv(SendReady(s, id))
  {
    if id in s.connections && s.connections[id].phase.Registered? {
      var c := s.connections[id];
      var f, k := SyncReady(c.replayed), SendReady(s, id);
      assert ConnectionOk(s.log, c);
      SendKeepsConnection(s.log, c, f);
      if s.current == Some(id) {
        SendKeepsCurrent(s.log, s.inbox, c, f);
        if s.peer == s.current {
          forall n: nat | 1 <= n <= |s.log| && n !in s.unsent
            ensures Reaches(s.inbox, Send(c, f).channel, |c.channel| + 1, n)
          {
            assert Reaches(s.inbox, c.channel, |c.channel|, n);
            ReachGrows(s.inbox, c.channel, f, |c.channel|, n);
          }
        }
      }
    }
  }

  lemma CutKeepsInv(s: State, id: nat)
    requires Inv(s)
    ensures Inv(Cut(s, id))
  {
    if id in s.connections { assert ConnectionOk(s.log, s.connections[id]); }
  }

  /** The inbox never holds anything else under the sequence of a frame. */
  lemma NoConflict(s: State)
    requires Inv(s) && s.current.Some? && s.connections[s.current.value].channel != []
    requires s.connections[s.current.value].channel[0].Ordered?
    ensures var f := s.connections[s.current.value].channel[0];
      Write(s.inbox, f.seqNo, f.content) == Ok(s.inbox[f.seqNo := f.content])
  {
    var c := s.connections[s.current.value];
    assert ConnectionOk(s.log, c) && FrameOk(s.log, c.channel[0]);
  }

  lemma TailIsCurrent(log: seq<Content>, inbox: map<nat, Content>, after: map<nat, Content>, c: Connection)
    requires ConnectionOk(log, c) && CurrentOk(inbox, c) && c.channel != []
    requires forall k :: k in inbox ==> k in after
    requires c.channel[0].Ordered? ==> c.channel[0].seqNo in after
    ensures ConnectionOk(log, c.(channel := c.channel[1..])) && CurrentOk(after, c.(channel := c.channel[1..]))
  {
    var rest := c.channel[1..];
    forall i | 0 <= i < |rest| ensures FrameOk(log, rest[i]) { assert FrameOk(log, c.channel[i + 1]); }
    if !c.phase.Closed? { AllReachAdvances(inbox, after, c.channel, |c.channel|, c.replayed); }
    forall j | 0 <= j < |rest| && rest[j].SyncReady? ensures AllReach(after, rest, j, rest[j].through) {
      assert c.channel[j + 1] == rest[j];
      AllReachAdvances(inbox, after, c.channel, j + 1, rest[j].through);
    }
  }

  lemma TailLosesNothing(s: State, k: State, c: Connection)
    requires NothingLost(s, c) && c.channel != [] && k.log == s.log && k.unsent == s.unsent
    requires forall n :: n in s.inbox ==> n in k.inbox
    requires c.channel[0].Ordered? ==> c.channel[0].seqNo in k.inbox
    ensures NothingLost(k, c.(channel := c.channel[1..]))
  {
    forall n: nat | 1 <= n <= |k.log| && n !in k.unsent
      ensures Reaches(k.inbox, c.channel[1..], |c.channel| - 1, n)
    {
      assert Reaches(s.inbox, c.channel, |c.channel|, n);
      ReachAdvances(s.inbox, k.inbox, c.channel, |c.channel|, n);
    }
  }

  /** When the client takes a sync marker, it has everything up to it. */
  lemma MarkerIsCovered(s: State)
    requires Inv(s) && s.current.Some? && s.connections[s.current.value].channel != []
    requires s.connections[s.current.value].channel[0].SyncReady?
    ensures Complete(s.inbox.Keys, s.connections[s.current.value].channel[0].through)
  {
    var c := s.connections[s.current.value];
    assert AllReach(s.inbox, c.channel, 0, c.channel[0].through);
    forall n: nat | 1 <= n <= c.channel[0].through ensures n in s.inbox {
      assert Reaches(s.inbox, c.channel, 0, n);
    }
  }

  lemma DeliverKeepsInv(s: State)
    requires Inv(s)
    ensures Inv(Deliver(s))
  {
    if s.current.Some? && s.connections[s.current.value].channel != [] {
      var id := s.current.value;
      var c, k := s.connections[id], Deliver(s);
      assert ConnectionOk(s.log, c) && FrameOk(s.log, c.channel[0]);
      if c.channel[0].Ordered? { NoConflict(s); } else { MarkerIsCovered(s); }
      TailIsCurrent(s.log, s.inbox, k.inbox, c);
      if s.peer == s.current && !c.phase.Closed? { TailLosesNothing(s, k, c); }
    }
  }

  lemma StepKeepsInv(s: State, e: Event)
    requires Inv(s)
    ensures Inv(Step(s, e))
  {
    match e
    case Commits(x) => CommitKeepsInv(s, x);
    case Broadcasts(n) => BroadcastKeepsInv(s, n);
    case Connects(id, last) => ConnectKeepsInv(s, id, last);
    case Replays(id) => ReplayKeepsInv(s, id);
    case Registers(id) => RegisterKeepsInv(s, id);
    case SendsReady(id) => ReadyKeepsInv(s, id);
    case Cuts(id) => CutKeepsInv(s, id);
    case Delivers => DeliverKeepsInv(s);
  }

  function Run(events: seq<Event>): State {
    if events == [] then Start() else Step(Run(events[..|events| - 1]), events[|events| - 1])
  }

  lemma {:induction false} RunKeepsInv(events: seq<Event>)
    ensures Inv(Run(events))
  {
    if events == [] {
      StartInv();
    } else {
      RunKeepsInv(events[..|events| - 1]);
      StepKeepsInv(Run(events[..|events| - 1]), events[|events| - 1]);
    }
  }

  // ---------------------------------------------------------------- what the client can rely on

  /** Whatever is in the inbox is what the host ordered there. */
  lemma InboxHoldsTheLog(events: seq<Event>, n: nat)
    requires n in Run(events).inbox
    ensures 1 <= n <= |Run(events).log| && Run(events).inbox[n] == Run(events).log[n - 1]
  {
    RunKeepsInv(events);
  }

  /** After a sync marker the inbox has no gap up to it, and keeps none. */
  lemma SyncedWithoutGap(events: seq<Event>)
    ensures Complete(Run(events).inbox.Keys, Run(events).synced)
  {
    RunKeepsInv(events);
  }

  /** A quiet registered connection has delivered everything that was broadcast. */
  lemma QuietConnectionIsCaughtUp(events: seq<Event>)
    requires var s := Run(events);
      s.current.Some? && s.peer == s.current && s.current.value in s.connections && s.unsent == {}
      && !s.connections[s.current.value].phase.Closed? && s.connections[s.current.value].channel == []
    ensures Complete(Run(events).inbox.Keys, |Run(events).log|)
  {
    RunKeepsInv(events);
    var s := Run(events);
    var c := s.connections[s.current.value];
    forall n | 1 <= n <= |s.log| ensures n in s.inbox { assert Reaches(s.inbox, c.channel, |c.channel|, n); }
  }

  // ---------------------------------------------------------------- when the inbox is a prefix

  /** The inbox has no gap at all. */
  ghost predicate IsPrefix(inbox: map<nat, Content>) { forall m, n :: 1 <= m < n && n in inbox ==> m in inbox }

  /** All entries before the frame at j are in the inbox or ahead of it. */
  ghost predicate FollowsOn(inbox: map<nat, Content>, channel: seq<Frame>, j: nat)
    requires j < |channel|
  {
    channel[j].Ordered? ==> channel[j].seqNo >= 1 && AllReach(inbox, channel, j, channel[j].seqNo - 1)
  }

  ghost predicate InSequence(s: State) {
    && IsPrefix(s.inbox)
    && (s.current.Some? && s.current.value in s.connections ==>
          var channel := s.connections[s.current.value].channel;
          forall j: nat {:trigger FollowsOn(s.inbox, channel, j)} :: j < |channel| ==> FollowsOn(s.inbox, channel, j))
  }

  /**
    A broadcast to the client's live connection is in turn if whatever was ordered before it and is
    still unsent has reached the client some other way, by replay or over an earlier connection.
   */
  ghost predicate InTurn(s: State, e: Event) {
    e.Broadcasts? && e.seqNo in s.unsent && Live(s) ==>
      forall m {:trigger m in s.unsent} :: 1 <= m < e.seqNo && m in s.unsent ==>
        Reaches(s.inbox, Channel(s), |Channel(s)|, m)
  }

  /** The host broadcasts to the connection that the client reads, and it is up. */
  predicate Live(s: State) {
    s.current.Some? && s.peer == s.current && s.current.value in s.connections && !s.connections[s.current.value].phase.Closed?
  }

  function Channel(s: State): seq<Frame> {
    if s.current.Some? && s.current.value in s.connections then s.connections[s.current.value].channel else []
  }

  lemma SendKeepsSequence(inbox: map<nat, Content>, channel: seq<Frame>, f: Frame)
    requires forall j: nat {:trigger FollowsOn(inbox, channel, j)} :: j < |channel| ==> FollowsOn(inbox, channel, j)
    requires f.Ordered? ==> f.seqNo >= 1 && AllReach(inbox, channel, |channel|, f.seqNo - 1)
    ensures var more := channel + [f];
      forall j: nat {:trigger FollowsOn(inbox, more, j)} :: j < |more| ==> FollowsOn(inbox, more, j)
  {
    var more := channel + [f];
    forall j: nat | j < |more| ensures FollowsOn(inbox, more, j) {
      if j < |channel| {
        assert FollowsOn(inbox, channel, j) && more[j] == channel[j];
        if more[j].Ordered? { AllReachGrows(inbox, channel, f, j, more[j].seqNo - 1); }
      } else if f.Ordered? {
        AllReachGrows(inbox, channel, f, j, f.seqNo - 1);
      }
    }
  }

  lemma TailKeepsSequence(inbox: map<nat, Content>, after: map<nat, Content>, channel: seq<Frame>)
    requires channel != [] && forall k :: k in inbox ==> k in after
    requires channel[0].Ordered? ==> channel[0].seqNo in after
    requires forall j: nat {:trigger FollowsOn(inbox, channel, j)} :: j < |channel| ==> FollowsOn(inbox, channel, j)
    ensures var rest := channel[1..];
      forall j: nat {:trigger FollowsOn(after, rest, j)} :: j < |rest| ==> FollowsOn(after, rest, j)
  {
    var rest := channel[1..];
    forall j: nat | j < |rest| ensures FollowsOn(after, rest, j) {
      assert FollowsOn(inbox, channel, j + 1) && rest[j] == channel[j + 1];
      if rest[j].Ordered? { AllReachAdvances(inbox, after, channel, j + 1, rest[j].seqNo - 1); }
    }
  }

  lemma DeliverKeepsSequence(s: State)
    requires Inv(s) && InSequence(s)
    ensures InSequence(Deliver(s))
  {
    if s.current.Some? && s.connections[s.current.value].channel != [] {
      var c, k := s.connections[s.current.value], Deliver(s);
      assert FollowsOn(s.inbox, c.channel, 0);
      if c.channel[0].Ordered? {
        NoConflict(s);
        forall m, n | 1 <= m < n && n in k.inbox ensures m in k.inbox {
          if n == c.channel[0].seqNo { assert Reaches(s.inbox, c.channel, 0, m); }
        }
      }
      TailKeepsSequence(s.inbox, k.inbox, c.channel);
    }
  }

  /** A broadcast keeps the client in sequence exactly if it is in turn. */
  lemma BroadcastInTurn(s: State, n: nat)
    requires Inv(s) && InSequence(s)
    ensures InSequence(Broadcast(s, n)) <==> InTurn(s, Broadcasts(n))
  {
    if n in s.unsent && Live(s) {
      var channel, f, k := Channel(s), Ordered(n, s.log[n - 1]), Broadcast(s, n);
      assert Channel(k) == channel + [f];
      if InTurn(s, Broadcasts(n)) {
        forall m: nat | 1 <= m <= n - 1 ensures Reaches(s.inbox, channel, |channel|, m) {
          if m !in s.unsent { assert NothingLost(s, s.connections[s.current.value]); }
        }
        SendKeepsSequence(s.inbox, channel, f);
      }
      if InSequence(k) {
        assert FollowsOn(k.inbox, channel + [f], |channel|);
        forall m: nat | 1 <= m < n && m in s.unsent ensures Reaches(s.inbox, channel, |channel|, m) {
          assert Reaches(k.inbox, channel + [f], |channel|, m);
          ReachesShorter(s.inbox, channel, f, m);
        }
      }
    }
  }

  lemma ReachesShorter(inbox: map<nat, Content>, channel: seq<Frame>, f: Frame, m: nat)
    requires Reaches(inbox, channel + [f], |channel|, m)
    ensures Reaches(inbox, channel, |channel|, m)
  {
    if m !in inbox {
      var i :| 0 <= i < |channel| && (channel + [f])[i].Ordered? && (channel + [f])[i].seqNo == m;
      assert channel[i] == (channel + [f])[i];
    }
  }

  lemma ReplayKeepsSequence(s: State, id: nat)
    requires Inv(s) && InSequence(s)
    ensures InSequence(Replay(s, id))
  {
    if s.current == Some(id) && s.connections[id].phase.Replaying? && s.connections[id].replayed < |s.log| {
      var c := s.connections[id];
      assert AllReach(s.inbox, c.channel, |c.channel|, c.replayed);
      SendKeepsSequence(s.inbox, c.channel, Ordered(c.replayed + 1, s.log[c.replayed]));
    }
  }

  /** Only a broadcast out of turn can take the client out of sequence, and every such broadcast does. */
  lemma StepInTurn(s: State, e: Event)
    requires Inv(s) && InSequence(s)
    ensures InSequence(Step(s, e)) <==> InTurn(s, e)
  {
    match e
    case Broadcasts(n) => BroadcastInTurn(s, n);
    case Replays(id) => ReplayKeepsSequence(s, id);
    case SendsReady(id) =>
      if s.current == Some(id) {
        SendKeepsSequence(s.inbox, s.connections[id].channel, SyncReady(s.connections[id].replayed));
      }
    case Delivers => DeliverKeepsSequence(s);
    case _ =>
  }

  ghost predicate AlwaysInSequence(events: seq<Event>) { forall i :: 0 <= i <= |events| ==> InSequence(Run(events[..i])) }

  ghost predicate AlwaysInTurn(events: seq<Event>) { forall i :: 0 <= i < |events| ==> InTurn(Run(events[..i]), events[i]) }

  /** The client is in sequence throughout a run if and only if every broadcast of the run is in turn. */
  lemma {:induction false} RunsKeepPrefixExactlyIfInTurn(events: seq<Event>)
    ensures AlwaysInSequence(events) <==> AlwaysInTurn(events)
  {
    if events == [] {
      assert InSequence(Run(events));
    } else {
      var n := |events| - 1;
      var before := events[..n];
      RunsKeepPrefixExactlyIfInTurn(before);
      RunKeepsInv(before);
      if AlwaysInSequence(before) {
        assert before[..n] == before && InSequence(Run(before));
        StepInTurn(Run(before), events[n]);
      }
      LongerSequence(before, events);
      LongerTurns(before, events);
    }
  }

  /** What holds throughout a run holds throughout its beginning, and at its last event. */
  lemma LongerSequence(before: seq<Event>, events: seq<Event>)
    requires events != [] && before == events[..|events| - 1]
    ensures AlwaysInSequence(events) <==> AlwaysInSequence(before) && InSequence(Run(events))
  {
    Throughout((es: seq<Event>) => InSequence(Run(es)), before, events);
  }

  lemma Throughout(p: seq<Event> -> bool, before: seq<Event>, events: seq<Event>)
    requires events != [] && before == events[..|events| - 1]
    ensures (forall i :: 0 <= i <= |events| ==> p(events[..i])) <==>
            (forall i :: 0 <= i <= |before| ==> p(before[..i])) && p(events)
  {
    forall i | 0 <= i <= |before| ensures before[..i] == events[..i] {}
    assert events[..|events|] == events;
  }

  lemma LongerTurns(before: seq<Event>, events: seq<Event>)
    requires events != [] && before == events[..|events| - 1]
    ensures AlwaysInTurn(events) <==> AlwaysInTurn(before) && InTurn(Run(before), events[|events| - 1])
  {
    EveryStep((es: seq<Event>, e: Event) => InTurn(Run(es), e), before, events);
  }

  lemma EveryStep(p: (seq<Event>, Event) -> bool, before: seq<Event>, events: seq<Event>)
    requires events != [] && before == events[..|events| - 1]
    ensures (forall i :: 0 <= i < |events| ==> p(events[..i], events[i])) <==>
            (forall i :: 0 <= i < |before| ==> p(before[..i], before[i])) && p(before, events[|events| - 1])
  {
    forall i | 0 <= i < |before| ensures before[..i] == events[..i] && before[i] == events[i] {}
  }

  // ---------------------------------------------------------------- what being in sequence means

  /** The next j frames are delivered, and nothing else happens. */
  function Drain(s: State, j: nat): State
    decreases j
  {
    if j == 0 then s else Drain(Deliver(s), j - 1)
  }

  /** After j deliveries the inbox holds exactly what it held and what these frames carry. */
  lemma {:induction false} DrainedInbox(s: State, j: nat, n: nat)
    requires Inv(s) && j <= |Channel(s)|
    ensures n in Drain(s, j).inbox <==> Reaches(s.inbox, Channel(s), j, n)
    decreases j
  {
    if j > 0 {
      var channel, k := Channel(s), Deliver(s);
      if channel[0].Ordered? { NoConflict(s); }
      DeliverKeepsInv(s);
      assert Channel(k) == channel[1..];
      DrainedInbox(k, j - 1, n);
      if Reaches(s.inbox, channel, j, n) { ReachAdvances(s.inbox, k.inbox, channel, j, n); }
      if Reaches(k.inbox, channel[1..], j - 1, n) && n !in k.inbox {
        var i :| 0 <= i < j - 1 && channel[1..][i].Ordered? && channel[1..][i].seqNo == n;
        assert channel[i + 1] == channel[1..][i];
      }
    }
  }

  ghost predicate PrefixThroughout(s: State) { forall j: nat :: j <= |Channel(s)| ==> IsPrefix(Drain(s, j).inbox) }

  /** In sequence means that the inbox is a prefix of the log now and while the channel is read to its end. */
  lemma InSequenceIsPrefixThroughout(s: State)
    requires Inv(s)
    ensures InSequence(s) <==> PrefixThroughout(s)
  {
    var channel := Channel(s);
    if InSequence(s) {
      forall j: nat | j <= |channel| ensures IsPrefix(Drain(s, j).inbox) { DrainKeepsPrefix(s, j); }
    }
    if PrefixThroughout(s) {
      assert Drain(s, 0) == s && IsPrefix(Drain(s, 0).inbox);
      forall j: nat | j < |channel| ensures FollowsOn(s.inbox, channel, j) {
        assert IsPrefix(Drain(s, j + 1).inbox);
        NoGapAt(s, j);
      }
      assert InSequence(s);
    }
  }

  lemma {:induction false} DrainKeepsPrefix(s: State, j: nat)
    requires Inv(s) && InSequence(s)
    ensures IsPrefix(Drain(s, j).inbox)
    decreases j
  {
    if j > 0 {
      DeliverKeepsInv(s);
      DeliverKeepsSequence(s);
      DrainKeepsPrefix(Deliver(s), j - 1);
    }
  }

  lemma NoGapAt(s: State, j: nat)
    requires Inv(s) && j < |Channel(s)| && IsPrefix(Drain(s, j + 1).inbox)
    ensures FollowsOn(s.inbox, Channel(s), j)
  {
    var channel, after := Channel(s), Drain(s, j + 1).inbox;
    assert ConnectionOk(s.log, s.connections[s.current.value]) && FrameOk(s.log, channel[j]);
    if channel[j].Ordered? {
      var n := channel[j].seqNo;
      DrainedInbox(s, j + 1, n);
      assert Reaches(s.inbox, channel, j + 1, n);
      forall m: nat | 1 <= m <= n - 1 ensures Reaches(s.inbox, channel, j, m) {
        assert m in after;
        DrainedInbox(s, j + 1, m);
        assert Reaches(s.inbox, channel, j + 1, m);
      }
    }
  }

  /** The shortest run to a gap: the second of two commits is broadcast first. */
  lemma OvertakingLeavesAGap(a: Content, b: Content)
    ensures var s := Run([Connects(0, 0), Registers(0), Commits(a), Commits(b), Broadcasts(2), Delivers]);
      1 !in s.inbox && 2 in s.inbox && |s.log| == 2
  {
    var c := Connection(0, Registered, []);
    RunExtends([], Connects(0, 0));
    assert [] + [Connects(0, 0)] == [Connects(0, 0)];
    RunExtends([Connects(0, 0)], Registers(0));
    assert [Connects(0, 0)] + [Registers(0)] == [Connects(0, 0), Registers(0)];
    assert Run([Connects(0, 0), Registers(0)]) == State([], {}, map[0 := c], Some(0), map[], Some(0), 0);
    RunExtends([Connects(0, 0), Registers(0)], Commits(a));
    assert [Connects(0, 0), Registers(0)] + [Commits(a)] == [Connects(0, 0), Registers(0), Commits(a)];
    RunExtends([Connects(0, 0), Registers(0), Commits(a)], Commits(b));
    var before := [Connects(0, 0), Registers(0), Commits(a), Commits(b)];
    assert [Connects(0, 0), Registers(0), Commits(a)] + [Commits(b)] == before;
    var s := Run(before);
    assert s.log == [a, b] && 2 in s.unsent && s.peer == s.current == Some(0) && s.connections[0] == c && s.inbox == map[];
    RunExtends(before, Broadcasts(2));
    assert Run(before + [Broadcasts(2)]).connections[0].channel == [Ordered(2, b)];
    RunExtends(before + [Broadcasts(2)], Delivers);
    assert before + [Broadcasts(2)] + [Delivers] == [Connects(0, 0), Registers(0), Commits(a), Commits(b), Broadcasts(2), Delivers];
  }

  lemma RunExtends(events: seq<Event>, e: Event)
    ensures Run(events + [e]) == Step(Run(events), e)
  {
    assert (events + [e])[..|events|] == events;
  }
}
