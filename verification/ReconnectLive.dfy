/** What a new connection achieves: from every state it brings the client up to the whole log, gaps included. */
module ReconnectLive {
  import opened Prelude
  import opened InboundIndex
  import opened Reconnect

  function Follow(s: State, events: seq<Event>): State {
    if events == [] then s else Step(Follow(s, events[..|events| - 1]), events[|events| - 1])
  }

  lemma {:induction false} FollowIsRun(first: seq<Event>, events: seq<Event>)
    ensures Follow(Run(first), events) == Run(first + events)
  {
    if events == [] {
      assert first + events == first;
    } else {
      FollowIsRun(first, events[..|events| - 1]);
      assert (first + events)[..|first + events| - 1] == first + events[..|events| - 1];
    }
  }

  lemma FollowGrows(s: State, events: seq<Event>, e: Event)
    ensures Follow(s, events + [e]) == Step(Follow(s, events), e)
  {
    assert (events + [e])[..|events|] == events;
  }

  function Repeat(e: Event, n: nat): seq<Event> { if n == 0 then [] else Repeat(e, n - 1) + [e] }

  lemma RepeatGrows(s: State, events: seq<Event>, e: Event, n: nat)
    requires n > 0
    ensures Follow(s, events + Repeat(e, n)) == Step(Follow(s, events + Repeat(e, n - 1)), e)
  {
    FollowGrows(s, events + Repeat(e, n - 1), e);
    assert events + Repeat(e, n) == events + Repeat(e, n - 1) + [e];
  }

  // ---------------------------------------------------------------- replay

  /** The entries after `last`, up to n, in order. */
  function Entries(log: seq<Content>, last: nat, n: nat): (r: seq<Frame>)
    requires last <= n <= |log|
    ensures |r| == n - last && forall i :: 0 <= i < |r| ==> r[i] == Ordered(last + i + 1, log[last + i])
  {
    seq(n - last, i requires 0 <= i < n - last => Ordered(last + i + 1, log[last + i]))
  }

  /** The state when the new connection has replayed up to n. */
  function ReplayedTo(s: State, id: nat, last: nat, n: nat): State
    requires last <= n <= |s.log|
  {
    s.(connections := s.connections[id := Connection(n, Replaying, Entries(s.log, last, n))], peer := None, current := Some(id))
  }

  lemma Connected(s: State, id: nat, last: nat)
    requires id !in s.connections && last <= |s.log| && Complete(s.inbox.Keys, last)
    ensures Follow(s, [Connects(id, last)]) == ReplayedTo(s, id, last, last)
  {
    FollowGrows(s, [], Connects(id, last));
    assert [] + [Connects(id, last)] == [Connects(id, last)];
    assert Entries(s.log, last, last) == [];
  }

  lemma ReplaysOne(s: State, id: nat, last: nat, n: nat)
    requires last <= n < |s.log|
    ensures Step(ReplayedTo(s, id, last, n), Replays(id)) == ReplayedTo(s, id, last, n + 1)
  {
    assert Entries(s.log, last, n + 1) == Entries(s.log, last, n) + [Ordered(n + 1, s.log[n])];
  }

  lemma {:induction false} ReplaysFollow(s: State, id: nat, last: nat, k: nat)
    requires id !in s.connections && last + k <= |s.log| && Complete(s.inbox.Keys, last)
    ensures Follow(s, [Connects(id, last)] + Repeat(Replays(id), k)) == ReplayedTo(s, id, last, last + k)
  {
    if k == 0 {
      Connected(s, id, last);
      assert [Connects(id, last)] + Repeat(Replays(id), 0) == [Connects(id, last)];
    } else {
      ReplaysFollow(s, id, last, k - 1);
      RepeatGrows(s, [Connects(id, last)], Replays(id), k);
      ReplaysOne(s, id, last, last + k - 1);
    }
  }

  // ---------------------------------------------------------------- registration

  /** Everything after `last`, and the marker behind it. */
  function Frames(log: seq<Content>, last: nat): seq<Frame>
    requires last <= |log|
  {
    Entries(log, last, |log|) + [SyncReady(|log|)]
  }

  /** The new connection is registered and ready, with the whole replay under way. */
  function ReadyOn(s: State, id: nat, last: nat): State
    requires last <= |s.log|
  {
    s.(connections := s.connections[id := Connection(|s.log|, Ready, Frames(s.log, last))], peer := Some(id), current := Some(id))
  }

  function Joining(id: nat, last: nat, k: nat): seq<Event> {
    [Connects(id, last)] + Repeat(Replays(id), k) + [Registers(id)] + [SendsReady(id)]
  }

  lemma Joins(s: State, id: nat, last: nat)
    requires id !in s.connections && last <= |s.log| && Complete(s.inbox.Keys, last)
    ensures Follow(s, Joining(id, last, |s.log| - last)) == ReadyOn(s, id, last)
  {
    ReplaysFollow(s, id, last, |s.log| - last);
    RegistrationFollows(s, id, last, [Connects(id, last)] + Repeat(Replays(id), |s.log| - last));
  }

  lemma RegistrationFollows(s: State, id: nat, last: nat, replays: seq<Event>)
    requires last <= |s.log| && Follow(s, replays) == ReplayedTo(s, id, last, |s.log|)
    ensures Follow(s, replays + [Registers(id)] + [SendsReady(id)]) == ReadyOn(s, id, last)
  {
    FollowGrows(s, replays, Registers(id));
    FollowGrows(s, replays + [Registers(id)], SendsReady(id));
    RegistersOne(s, id, last);
  }

  lemma RegistersOne(s: State, id: nat, last: nat)
    requires last <= |s.log|
    ensures Step(Step(ReplayedTo(s, id, last, |s.log|), Registers(id)), SendsReady(id)) == ReadyOn(s, id, last)
  {
  }

  // ---------------------------------------------------------------- delivery

  /** The client has taken the first j frames of the new connection. */
  ghost predicate Received(s: State, k: State, id: nat, last: nat, j: nat)
    requires last <= |s.log|
  {
    && k.log == s.log && k.current == Some(id) && id in k.connections && j <= |Frames(s.log, last)|
    && k.connections[id].channel == Frames(s.log, last)[j..]
    && InboxOk(k) && Complete(k.inbox.Keys, if last + j <= |s.log| then last + j else |s.log|)
    && (j == |Frames(s.log, last)| ==> k.synced == |s.log|)
  }

  lemma TakesOne(s: State, k: State, id: nat, last: nat, j: nat)
    requires last <= |s.log| && Received(s, k, id, last, j) && j < |Frames(s.log, last)|
    ensures Received(s, Deliver(k), id, last, j + 1)
  {
    var frames := Frames(s.log, last);
    assert frames[j..][0] == frames[j] && frames[j..][1..] == frames[j + 1..];
    if j < |s.log| - last {
      assert frames[j] == Ordered(last + j + 1, s.log[last + j]);
      assert Write(k.inbox, last + j + 1, s.log[last + j]) == Ok(k.inbox[last + j + 1 := s.log[last + j]]);
    }
  }

  lemma {:induction false} DeliversFollow(s: State, id: nat, last: nat, j: nat)
    requires Inv(s) && id !in s.connections && last <= |s.log| && Complete(s.inbox.Keys, last) && j <= |Frames(s.log, last)|
    ensures Received(s, Follow(s, Joining(id, last, |s.log| - last) + Repeat(Delivers, j)), id, last, j)
  {
    var joining := Joining(id, last, |s.log| - last);
    if j == 0 {
      Joins(s, id, last);
      assert joining + Repeat(Delivers, 0) == joining;
    } else {
      DeliversFollow(s, id, last, j - 1);
      RepeatGrows(s, joining, Delivers, j);
      TakesOne(s, Follow(s, joining + Repeat(Delivers, j - 1)), id, last, j - 1);
    }
  }

  /** Connect at the end of what is there without a gap, replay, register, send the marker, deliver everything. */
  function CatchUp(id: nat, last: nat, missing: nat): seq<Event> {
    Joining(id, last, missing) + Repeat(Delivers, missing + 1)
  }

  lemma StateCatchesUp(s: State, id: nat, last: nat)
    requires Inv(s) && id !in s.connections && last <= |s.log| && Complete(s.inbox.Keys, last)
    ensures var k := Follow(s, CatchUp(id, last, |s.log| - last));
      && k.log == s.log && k.synced == |s.log| && Complete(k.inbox.Keys, |s.log|)
      && forall n :: 1 <= n <= |s.log| ==> n in k.inbox && k.inbox[n] == s.log[n - 1]
  {
    var k := Follow(s, CatchUp(id, last, |s.log| - last));
    DeliversFollow(s, id, last, |s.log| - last + 1);
    assert Received(s, k, id, last, |Frames(s.log, last)|);
  }

  /** After any run, however it cut and overtook, a new connection brings the client everything that was ordered, and says so. */
  lemma EveryClientCatchesUp(events: seq<Event>, s: State, id: nat, last: nat, k: State)
    requires s == Run(events) && id !in s.connections && last <= |s.log| && Complete(s.inbox.Keys, last)
    requires k == Run(events + CatchUp(id, last, |s.log| - last))
    ensures k.log == s.log && k.synced == |s.log| && Complete(k.inbox.Keys, |s.log|)
    ensures forall n :: 1 <= n <= |s.log| ==> n in k.inbox && k.inbox[n] == s.log[n - 1]
  {
    RunKeepsInv(events);
    FollowIsRun(events, CatchUp(id, last, |s.log| - last));
    StateCatchesUp(s, id, last);
  }

  // ---------------------------------------------------------------- cuts and conflicts

  /** After a cut nothing more is delivered over the connection, and nothing that was delivered is lost. */
  lemma CutDeliversNothing(s: State, id: nat)
    requires id in s.connections
    ensures var k := Cut(s, id); k.inbox == s.inbox && k.synced == s.synced && (s.current == Some(id) ==> Deliver(k) == k)
    ensures Replay(Cut(s, id), id) == Cut(s, id) && Register(Cut(s, id), id) == Cut(s, id)
  {
  }

  /** Writing is refused if and only if another content is there already. */
  lemma RefusedExactlyOnConflict(inbox: map<nat, Content>, n: nat, x: Content)
    ensures Write(inbox, n, x).Err? <==> n in inbox && inbox[n] != x
    ensures Write(inbox, n, x).Ok? ==> Write(inbox, n, x).value == inbox[n := x]
  {
  }
}
