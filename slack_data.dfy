/**
 * The member-count poller of lib/slack.js: a `SlackData` object that fetches
 * the workspace's member list, keeps the last `total` / `active` counts,
 * raises `ready` once, emits `change` events for counts that moved, and
 * decides when to poll next.  It is also the event emitter the server
 * listens on, so the listeners the server registers (`once('ready')` for
 * parked requests, `on('change')` for connected sockets) are kept here with a
 * log of what they were handed.
 *
 * Network replies are parameters; the next poll delay is returned instead of
 * being passed to a timer.
 */
module SlackSync {
  import opened Wrappers
  import opened Seqs

  /** One entry of the `members` array of a `users.list` reply. */
  datatype Member = Member(id: string, isBot: bool, deleted: bool, presence: string)

  /** What `fetch` passes on: a thrown error (network or JSON parsing), or the parsed body. */
  datatype UsersReply = Failed(cause: string) | Body(members: Option<seq<Member>>)

  datatype Metric = Total | Active

  /** The events `SlackData` emits, in the order it emits them. */
  datatype Event =
    | Change(metric: Metric, value: nat)
    | Ready
    | Error(cause: string)
    | Retry
    | Data
    | Fetched

  /** `this.users`: starts as `{}`, so both counts start out absent. */
  datatype Counts = Counts(total: Option<nat>, active: Option<nat>)

  /** The part of the state a poll reads and writes. */
  datatype Snapshot = Snapshot(users: Counts, ready: bool)

  /** The outcome of handling one reply: new snapshot, events emitted, next poll delay. */
  datatype Step = Step(next: Snapshot, emitted: seq<Event>, delay: int)

  /** What a listener registered on the emitter was handed. */
  datatype Delivery =
    | Next(request: nat)                             // a parked request resumes
    | SocketData(socket: nat, users: Counts)         // `socket.emit('data', users)`
    | SocketPush(socket: nat, metric: Metric, value: nat)  // `socket.emit(key, val)`

  datatype Channel = Channel(id: string, name: string)
  datatype Icon = Icon(imageDefault: bool, image132: Option<string>)
  datatype Team = Team(name: string, icon: Option<Icon>)
  datatype ChannelsReply = ChannelsFailed(cause: string) | ChannelsBody(channels: Option<seq<Channel>>)
  datatype TeamReply = TeamFailed(cause: string) | TeamBody(team: Option<Team>)

  /** Why `init` throws: a failed request, no `team` record, or a team without `icon`. */
  datatype InitError = RequestFailed(cause: string) | BadSlackResponse | NoTeamIcon

  datatype OrgInfo = OrgInfo(name: Option<string>, logo: Option<string>)

  const SlackbotId: string := "USLACKBOT"

  /**
   * `onres` is only ever handed `{ body: data }`, which has no `status`, so
   * the invalid-response error always ends in "Unknown error".
   */
  const InvalidResponse: string := "Invalid Slack response: Unknown error"

  // ---------------------------------------------------------------------
  // Counting

  /** The members that are counted: not the Slackbot, not a bot, not deleted. */
  predicate Counted(m: Member) {
    m.id != SlackbotId && !m.isBot && !m.deleted
  }

  /** `users.filter(...)`: the counted members, in order. */
  function Humans(ms: seq<Member>): (r: seq<Member>)
    ensures |r| <= |ms|
  {
    if ms == [] then []
    else (if Counted(ms[0]) then [ms[0]] else []) + Humans(ms[1..])
  }

  /** The filter keeps exactly the counted members, each as often as it occurs, and only those. */
  lemma {:induction false} HumansKeepsCounted(ms: seq<Member>)
    ensures forall m :: multiset(Humans(ms))[m] == if Counted(m) then multiset(ms)[m] else 0
    ensures forall k :: 0 <= k < |Humans(ms)| ==> Counted(Humans(ms)[k])
  {
    if ms != [] {
      HumansKeepsCounted(ms[1..]);
      assert ms == [ms[0]] + ms[1..];
      var head: seq<Member> := if Counted(ms[0]) then [ms[0]] else [];
      assert Humans(ms) == head + Humans(ms[1..]);
      assert multiset(Humans(ms)) == multiset(head) + multiset(Humans(ms[1..]));
      assert multiset(ms) == multiset([ms[0]]) + multiset(ms[1..]);
    }
  }

  /** How many of `ms` have presence `'active'`. */
  function ActiveCount(ms: seq<Member>): (r: nat)
    ensures r <= |ms|
  {
    if ms == [] then 0
    else (if ms[0].presence == "active" then 1 else 0) + ActiveCount(ms[1..])
  }

  // ---------------------------------------------------------------------
  // One poll, as a function of the snapshot and the reply

  /** The reply counts as data: a body with a non-empty `members` array. */
  predicate Succeeds(reply: UsersReply) {
    reply.Body? && reply.members.Some? && |reply.members.value| > 0
  }

  /** `change` events for each metric that differs from the stored one, `total` first. */
  function ChangeEvents(prev: Counts, total: nat, active: nat): seq<Event> {
    ChangeOf(Total, prev.total, total) + ChangeOf(Active, prev.active, active)
  }

  /** `change(m, v)` when the stored count is not `v`. */
  function ChangeOf(m: Metric, stored: Option<nat>, v: nat): seq<Event> {
    if stored != Some(v) then [Change(m, v)] else []
  }

  /** `onres(err, res)` followed by `retry()` on the failure paths. */
  function OnRes(s: Snapshot, interval: int, reply: UsersReply): Step {
    match reply
    case Failed(cause) => Step(s, [Error(cause), Retry], interval * 2)
    case Body(members) =>
      if members.None? || |members.value| == 0 then
        Step(s, [Error(InvalidResponse), Retry], interval * 2)
      else
        var hs := Humans(members.value);
        var total, active := |hs|, ActiveCount(hs);
        Step(Snapshot(Counts(Some(total), Some(active)), true),
             ChangeEvents(s.users, total, active) + (if s.ready then [] else [Ready]) + [Data],
             interval)
  }

  /** One `fetch` cycle: handle the reply, then emit `fetch`. */
  function Poll(s: Snapshot, interval: int, reply: UsersReply): Step {
    var st := OnRes(s, interval, reply);
    st.(emitted := st.emitted + [Fetched])
  }

  /** Invariant of the snapshot: counts are present exactly once ready, and `active <= total`. */
  ghost predicate SnapshotValid(s: Snapshot) {
    && (s.ready <==> s.users.total.Some?)
    && (s.users.total.Some? <==> s.users.active.Some?)
    && (s.users.total.Some? ==> s.users.active.value <= s.users.total.value)
  }

  /** The initial snapshot: `users = {}`, `ready = false`. */
  const Initial: Snapshot := Snapshot(Counts(None, None), false)

  /** A poll keeps the snapshot invariant. */
  lemma PollKeepsValid(s: Snapshot, interval: int, reply: UsersReply)
    requires SnapshotValid(s)
    ensures SnapshotValid(Poll(s, interval, reply).next)
  {
  }

  /**
   * A failed request, a missing `members` or an empty `members` leaves the
   * counts and `ready` alone, emits `error` then `retry`, and asks for the
   * next poll after twice the configured interval.
   */
  lemma FailureKeepsSnapshot(s: Snapshot, interval: int, reply: UsersReply)
    requires !Succeeds(reply)
    ensures Poll(s, interval, reply).next == s
    ensures Poll(s, interval, reply).delay == 2 * interval
    ensures Poll(s, interval, reply).emitted
      == [Error(if reply.Failed? then reply.cause else InvalidResponse), Retry, Fetched]
  {
  }

  /** The counts a successful poll stores are the filtered total and its active part. */
  lemma SuccessCounts(s: Snapshot, interval: int, reply: UsersReply)
    requires Succeeds(reply)
    ensures var hs := Humans(reply.members.value);
      && Poll(s, interval, reply).next == Snapshot(Counts(Some(|hs|), Some(ActiveCount(hs))), true)
      && Poll(s, interval, reply).delay == interval
      && ActiveCount(hs) <= |hs|
      && forall e :: e in Poll(s, interval, reply).emitted ==> !e.Error? && !e.Retry?
  {
    PollEmitted(s, interval, reply);
  }

  /**
   * A non-empty list that filters down to nothing is a success: counts 0/0,
   * `ready` set, no `error` or `retry`, next poll after the interval.
   */
  lemma EmptyAfterFilteringIsSuccess(s: Snapshot, interval: int, ms: seq<Member>)
    requires |ms| > 0 && forall k :: 0 <= k < |ms| ==> !Counted(ms[k])
    ensures Poll(s, interval, Body(Some(ms))).next == Snapshot(Counts(Some(0), Some(0)), true)
    ensures Poll(s, interval, Body(Some(ms))).delay == interval
    ensures forall e :: e in Poll(s, interval, Body(Some(ms))).emitted ==> !e.Error? && !e.Retry?
  {
    HumansKeepsCounted(ms);
  }

  /**
   * `change` for `total` is emitted exactly when the poll succeeds and its
   * total differs from the stored one (an absent stored count always
   * differs); likewise for `active`.
   */
  lemma {:induction false} ChangeIffDiffers(s: Snapshot, interval: int, reply: UsersReply, v: nat)
    ensures Change(Total, v) in Poll(s, interval, reply).emitted
      <==> Succeeds(reply) && v == |Humans(reply.members.value)| && s.users.total != Some(v)
    ensures Change(Active, v) in Poll(s, interval, reply).emitted
      <==> Succeeds(reply) && v == ActiveCount(Humans(reply.members.value)) && s.users.active != Some(v)
  {
    var e := Poll(s, interval, reply).emitted;
    if Succeeds(reply) {
      var hs := Humans(reply.members.value);
      var changes := ChangeEvents(s.users, |hs|, ActiveCount(hs));
      var tail := (if s.ready then [] else [Ready]) + [Data, Fetched];
      assert e == changes + tail;
      assert Change(Total, v) !in tail && Change(Active, v) !in tail;
    } else {
      assert e == [Error(if reply.Failed? then reply.cause else InvalidResponse), Retry, Fetched];
    }
  }

  /** Before any data, the first successful poll reports both counts as changes. */
  lemma FirstSuccessReportsBoth(interval: int, reply: UsersReply)
    requires Succeeds(reply)
    ensures var hs := Humans(reply.members.value);
      Poll(Initial, interval, reply).emitted
        == [Change(Total, |hs|), Change(Active, ActiveCount(hs)), Ready, Data, Fetched]
  {
  }

  /** The same successful reply twice in a row: the second poll emits no `change`. */
  lemma RepeatIsQuiet(s: Snapshot, interval: int, reply: UsersReply)
    requires Succeeds(reply)
    ensures var again := Poll(Poll(s, interval, reply).next, interval, reply);
      forall e :: e in again.emitted ==> !e.Change?
    ensures Poll(Poll(s, interval, reply).next, interval, reply).emitted == [Data, Fetched]
  {
  }

  /** Position of an event kind in the order a poll emits them. */
  function Rank(e: Event): nat {
    match e
    case Change(m, _) => if m == Total then 0 else 1
    case Ready => 2
    case Data => 3
    case Error(_) => 4
    case Retry => 5
    case Fetched => 6
  }

  /** Each event outranks the one before it. */
  predicate Ranked(e: seq<Event>) {
    forall i | 1 <= i < |e| :: Rank(e[i - 1]) < Rank(e[i])
  }

  /** Ranks increasing step by step increase overall: a fixed order, no kind repeated. */
  lemma {:induction false} RankedIncreasing(e: seq<Event>)
    requires Ranked(e)
    ensures forall i, j :: 0 <= i < j < |e| ==> Rank(e[i]) < Rank(e[j])
  {
    if |e| > 1 {
      var t := e[1..];
      assert Ranked(t) by {
        forall i | 1 <= i < |t| ensures Rank(t[i - 1]) < Rank(t[i]) {
          assert t[i - 1] == e[i] && t[i] == e[i + 1];
        }
      }
      RankedIncreasing(t);
      forall i, j | 0 <= i < j < |e| ensures Rank(e[i]) < Rank(e[j]) {
        if i == 0 {
          if j > 1 {
            assert e[1] == t[0] && e[j] == t[j - 1];
          }
        } else {
          assert e[i] == t[i - 1] && e[j] == t[j - 1];
        }
      }
    }
  }

  /** The events of one poll, grouped from the right: changes, then `ready` if new, `data` and `fetch`. */
  lemma PollEmitted(s: Snapshot, interval: int, reply: UsersReply)
    ensures Succeeds(reply) ==>
      var hs := Humans(reply.members.value);
      Poll(s, interval, reply).emitted
        == ChangeEvents(s.users, |hs|, ActiveCount(hs)) + ((if s.ready then [] else [Ready]) + [Data, Fetched])
    ensures !Succeeds(reply) ==>
      Poll(s, interval, reply).emitted == [Error(if reply.Failed? then reply.cause else InvalidResponse), Retry, Fetched]
  {
  }

  /** The success shape, whatever the stored counts and readiness: ranks increase. */
  lemma SuccessRanked(c1: seq<Event>, c2: seq<Event>, r: seq<Event>, t: nat, a: nat)
    requires c1 == [] || c1 == [Change(Total, t)]
    requires c2 == [] || c2 == [Change(Active, a)]
    requires r == [] || r == [Ready]
    ensures Ranked(c1 + c2 + (r + [Data, Fetched]))
  {
    var e := c1 + c2 + (r + [Data, Fetched]);
    forall i | 1 <= i < |e| ensures Rank(e[i - 1]) < Rank(e[i]) {
      var n1, n2, n3 := |c1|, |c1| + |c2|, |c1| + |c2| + |r|;
      assert forall k :: 0 <= k < n1 ==> e[k] == c1[k];
      assert forall k :: n1 <= k < n2 ==> e[k] == c2[k - n1];
      assert forall k :: n2 <= k < n3 ==> e[k] == r[k - n2];
      assert e[n3] == Data && e[n3 + 1] == Fetched;
    }
  }

  /**
   * The events of one poll come in a fixed order with no kind repeated:
   * `change total`, `change active`, `ready`, `data`, then `fetch`
   * (or `error`, `retry`, `fetch` on failure).
   */
  lemma PollEventOrder(s: Snapshot, interval: int, reply: UsersReply)
    ensures var e := Poll(s, interval, reply).emitted;
      forall i, j :: 0 <= i < j < |e| ==> Rank(e[i]) < Rank(e[j])
  {
    PollEmitted(s, interval, reply);
    var e := Poll(s, interval, reply).emitted;
    if Succeeds(reply) {
      var hs := Humans(reply.members.value);
      SuccessRanked(ChangeOf(Total, s.users.total, |hs|), ChangeOf(Active, s.users.active, ActiveCount(hs)),
                    if s.ready then [] else [Ready], |hs|, ActiveCount(hs));
    } else {
      assert Ranked(e);
    }
    RankedIncreasing(e);
  }

  // ---------------------------------------------------------------------
  // A run of polls

  function CountReady(evs: seq<Event>): nat {
    if evs == [] then 0 else (if evs[0] == Ready then 1 else 0) + CountReady(evs[1..])
  }

  lemma CountReadyAppend(a: seq<Event>, b: seq<Event>)
    ensures CountReady(a + b) == CountReady(a) + CountReady(b)
  {
    if a != [] {
      assert (a + b)[0] == a[0];
      assert (a + b)[1..] == a[1..] + b;
      CountReadyAppend(a[1..], b);
    } else {
      assert a + b == b;
    }
  }

  datatype Trace = Trace(final: Snapshot, emitted: seq<Event>, delays: seq<int>)

  /** Successive polls, each starting from the snapshot the previous one left. */
  function Run(s: Snapshot, interval: int, replies: seq<UsersReply>): Trace
    decreases |replies|
  {
    if replies == [] then Trace(s, [], [])
    else
      var st := Poll(s, interval, replies[0]);
      var rest := Run(st.next, interval, replies[1..]);
      Trace(rest.final, st.emitted + rest.emitted, [st.delay] + rest.delays)
  }

  predicate AnySucceeds(replies: seq<UsersReply>) {
    exists k :: 0 <= k < |replies| && Succeeds(replies[k])
  }

  /** One poll emits `ready` exactly when it succeeds before readiness. */
  lemma PollReadyCount(s: Snapshot, interval: int, reply: UsersReply)
    ensures CountReady(Poll(s, interval, reply).emitted)
      == if Succeeds(reply) && !s.ready then 1 else 0
    ensures Poll(s, interval, reply).next.ready == (s.ready || Succeeds(reply))
  {
    PollEmitted(s, interval, reply);
    if Succeeds(reply) {
      var hs := Humans(reply.members.value);
      SuccessReadyCount(ChangeOf(Total, s.users.total, |hs|), ChangeOf(Active, s.users.active, ActiveCount(hs)),
                        if s.ready then [] else [Ready], |hs|, ActiveCount(hs));
    } else {
      var e := Poll(s, interval, reply).emitted;
      assert [Fetched][1..] == [];
      assert CountReady([Fetched]) == 0;
      assert [Retry, Fetched][1..] == [Fetched];
      assert CountReady([Retry, Fetched]) == 0;
      assert e[1..] == [Retry, Fetched];
    }
  }

  /** The success shape holds one `ready` exactly when readiness is new. */
  lemma SuccessReadyCount(c1: seq<Event>, c2: seq<Event>, r: seq<Event>, t: nat, a: nat)
    requires c1 == [] || c1 == [Change(Total, t)]
    requires c2 == [] || c2 == [Change(Active, a)]
    requires r == [] || r == [Ready]
    ensures CountReady(c1 + c2 + (r + [Data, Fetched])) == |r|
  {
    CountReadyAppend(c1 + c2, r + [Data, Fetched]);
    CountReadyAppend(c1, c2);
    CountReadyAppend(r, [Data, Fetched]);
    assert CountReady([Data, Fetched]) == 0 by {
      assert [Data, Fetched][1..] == [Fetched];
      assert [Fetched][1..] == [];
    }
    assert CountReady(c1) == 0 && CountReady(c2) == 0 by {
      assert [Change(Total, t)][1..] == [] && [Change(Active, a)][1..] == [];
    }
    assert CountReady(r) == |r| by {
      assert [Ready][1..] == [];
    }
  }

  /**
   * Over any run of polls `ready` never reverts, becomes true exactly when
   * some poll succeeds, and the `ready` event is emitted at most once: once
   * if the run made the object ready, never otherwise.
   */
  lemma {:induction false} ReadyAtMostOnce(s: Snapshot, interval: int, replies: seq<UsersReply>)
    ensures Run(s, interval, replies).final.ready == (s.ready || AnySucceeds(replies))
    ensures CountReady(Run(s, interval, replies).emitted)
      == if !s.ready && AnySucceeds(replies) then 1 else 0
    decreases |replies|
  {
    if replies != [] {
      var st := Poll(s, interval, replies[0]);
      var rest := replies[1..];
      ReadyAtMostOnce(st.next, interval, rest);
      PollReadyCount(s, interval, replies[0]);
      CountReadyAppend(st.emitted, Run(st.next, interval, rest).emitted);
      if AnySucceeds(rest) {
        var k :| 0 <= k < |rest| && Succeeds(rest[k]);
        assert Succeeds(replies[k + 1]);
      }
      if AnySucceeds(replies) && !Succeeds(replies[0]) {
        var k :| 0 <= k < |replies| && Succeeds(replies[k]);
        assert k > 0 && Succeeds(rest[k - 1]);
      }
    }
  }

  /**
   * The back-off does not compound: each poll's delay depends on that
   * poll's reply alone, the interval after success and twice the interval
   * after failure.
   */
  lemma {:induction false} RunDelays(s: Snapshot, interval: int, replies: seq<UsersReply>)
    ensures |Run(s, interval, replies).delays| == |replies|
    ensures forall k :: 0 <= k < |replies| ==>
      Run(s, interval, replies).delays[k] == if Succeeds(replies[k]) then interval else 2 * interval
    decreases |replies|
  {
    if replies != [] {
      var st := Poll(s, interval, replies[0]);
      RunDelays(st.next, interval, replies[1..]);
    }
  }

  /** A run keeps the snapshot invariant. */
  lemma {:induction false} RunKeepsValid(s: Snapshot, interval: int, replies: seq<UsersReply>)
    requires SnapshotValid(s)
    ensures SnapshotValid(Run(s, interval, replies).final)
    decreases |replies|
  {
    if replies != [] {
      PollKeepsValid(s, interval, replies[0]);
      RunKeepsValid(Poll(s, interval, replies[0]).next, interval, replies[1..]);
    }
  }

  // ---------------------------------------------------------------------
  // Listeners

  /** `ready` resumes every parked request, in arrival order. */
  function Resume(waiters: seq<nat>): seq<Delivery> {
    if waiters == [] then [] else [Next(waiters[0])] + Resume(waiters[1..])
  }

  /** `change(m, v)` is pushed to every subscribed socket, in registration order. */
  function Push(subscribers: seq<nat>, m: Metric, v: nat): seq<Delivery> {
    if subscribers == [] then [] else [SocketPush(subscribers[0], m, v)] + Push(subscribers[1..], m, v)
  }

  /** What one emitted event hands to the registered listeners. */
  function Dispatch(e: Event, waiters: seq<nat>, subscribers: seq<nat>): seq<Delivery> {
    match e
    case Change(m, v) => Push(subscribers, m, v)
    case Ready => Resume(waiters)
    case _ => []
  }

  /** `once('ready')` listeners are dropped after the first `ready`. */
  function WaitersAfter(evs: seq<Event>, waiters: seq<nat>): seq<nat> {
    if Ready in evs then [] else waiters
  }

  /** Deliveries of a sequence of events, the `ready` waiters consumed by the first `ready`. */
  function DispatchAll(evs: seq<Event>, waiters: seq<nat>, subscribers: seq<nat>): seq<Delivery>
    decreases |evs|
  {
    if evs == [] then []
    else
      var init := evs[..|evs| - 1];
      DispatchAll(init, waiters, subscribers)
        + Dispatch(evs[|evs| - 1], WaitersAfter(init, waiters), subscribers)
  }

  lemma DispatchAllSnoc(evs: seq<Event>, e: Event, waiters: seq<nat>, subscribers: seq<nat>)
    ensures DispatchAll(evs + [e], waiters, subscribers)
      == DispatchAll(evs, waiters, subscribers) + Dispatch(e, WaitersAfter(evs, waiters), subscribers)
    ensures WaitersAfter(evs + [e], waiters) == if e == Ready then [] else WaitersAfter(evs, waiters)
  {
    assert (evs + [e])[..|evs|] == evs;
  }

  /** The delivery log once `evs` have been emitted on top of `log`. */
  function Deliver(log: seq<Delivery>, evs: seq<Event>, waiters: seq<nat>, subscribers: seq<nat>): seq<Delivery>
    decreases |evs|
  {
    if evs == [] then log
    else
      var init := evs[..|evs| - 1];
      Deliver(log, init, waiters, subscribers) + Dispatch(evs[|evs| - 1], WaitersAfter(init, waiters), subscribers)
  }

  /** Emitting `evs` appends their deliveries to the log: the class's log follows `DispatchAll`. */
  lemma {:induction false} DeliverAppends(log: seq<Delivery>, evs: seq<Event>, waiters: seq<nat>, subscribers: seq<nat>)
    ensures Deliver(log, evs, waiters, subscribers) == log + DispatchAll(evs, waiters, subscribers)
    decreases |evs|
  {
    if evs != [] {
      var init := evs[..|evs| - 1];
      DeliverAppends(log, init, waiters, subscribers);
      var d := Dispatch(evs[|evs| - 1], WaitersAfter(init, waiters), subscribers);
      assert (log + DispatchAll(init, waiters, subscribers)) + d == log + (DispatchAll(init, waiters, subscribers) + d);
    }
  }


  /** Emitting `a` and then `b` delivers what emitting `a + b` does, and leaves the same waiters. */
  lemma {:induction false} DeliverCompose(d: seq<Delivery>, w: seq<nat>, a: seq<Event>, b: seq<Event>, subscribers: seq<nat>)
    ensures Deliver(Deliver(d, a, w, subscribers), b, WaitersAfter(a, w), subscribers) == Deliver(d, a + b, w, subscribers)
    ensures WaitersAfter(b, WaitersAfter(a, w)) == WaitersAfter(a + b, w)
    decreases |b|
  {
    if b == [] {
      assert a + b == a;
    } else {
      var b' := b[..|b| - 1];
      DeliverCompose(d, w, a, b', subscribers);
      assert (a + b)[..|a + b| - 1] == a + b';
      assert (a + b)[|a + b| - 1] == b[|b| - 1];
    }
    assert Ready in a + b <==> Ready in a || Ready in b;
  }

  /** The requests resumed, in order. */
  function Resumed(ds: seq<Delivery>): seq<nat> {
    if ds == [] then [] else (if ds[0].Next? then [ds[0].request] else []) + Resumed(ds[1..])
  }

  /** The `(metric, value)` pairs pushed to `socket`, in order. */
  function PushedTo(ds: seq<Delivery>, socket: nat): seq<(Metric, nat)> {
    if ds == [] then []
    else
      var here := if ds[0].SocketPush? && ds[0].socket == socket then [(ds[0].metric, ds[0].value)] else [];
      here + PushedTo(ds[1..], socket)
  }

  /** The `change` events among `evs`, as `(metric, value)` pairs in order. */
  function ChangesOf(evs: seq<Event>): seq<(Metric, nat)> {
    if evs == [] then []
    else
      var e := evs[|evs| - 1];
      ChangesOf(evs[..|evs| - 1]) + if e.Change? then [(e.metric, e.value)] else []
  }

  lemma ResumedAppend(a: seq<Delivery>, b: seq<Delivery>)
    ensures Resumed(a + b) == Resumed(a) + Resumed(b)
  {
    if a == [] {
      assert a + b == b;
    } else {
      assert (a + b)[0] == a[0] && (a + b)[1..] == a[1..] + b;
      ResumedAppend(a[1..], b);
    }
  }

  lemma PushedToAppend(a: seq<Delivery>, b: seq<Delivery>, socket: nat)
    ensures PushedTo(a + b, socket) == PushedTo(a, socket) + PushedTo(b, socket)
  {
    if a == [] {
      assert a + b == b;
    } else {
      assert (a + b)[0] == a[0] && (a + b)[1..] == a[1..] + b;
      PushedToAppend(a[1..], b, socket);
    }
  }

  lemma {:induction false} DispatchResumed(e: Event, waiters: seq<nat>, subscribers: seq<nat>)
    ensures Resumed(Dispatch(e, waiters, subscribers)) == if e == Ready then waiters else []
  {
    if e == Ready {
      ResumeResumes(waiters);
    } else if e.Change? {
      PushResumesNothing(subscribers, e.metric, e.value);
    }
  }

  lemma {:induction false} ResumeResumes(waiters: seq<nat>)
    ensures Resumed(Resume(waiters)) == waiters
  {
    if waiters != [] {
      ResumeResumes(waiters[1..]);
    }
  }

  lemma {:induction false} PushResumesNothing(subscribers: seq<nat>, m: Metric, v: nat)
    ensures Resumed(Push(subscribers, m, v)) == []
  {
    if subscribers != [] {
      PushResumesNothing(subscribers[1..], m, v);
    }
  }

  /** A socket gets one copy of a pushed change per listener it has. */
  lemma {:induction false} PushReaches(subscribers: seq<nat>, m: Metric, v: nat, socket: nat)
    ensures socket !in subscribers ==> PushedTo(Push(subscribers, m, v), socket) == []
    ensures multiset(subscribers)[socket] == 1 ==> PushedTo(Push(subscribers, m, v), socket) == [(m, v)]
  {
    if subscribers != [] {
      assert subscribers == [subscribers[0]] + subscribers[1..];
      assert multiset(subscribers) == multiset{subscribers[0]} + multiset(subscribers[1..]);
      PushReaches(subscribers[1..], m, v, socket);
    }
  }

  lemma {:induction false} ResumeReachesNoSocket(waiters: seq<nat>, socket: nat)
    ensures PushedTo(Resume(waiters), socket) == []
  {
    if waiters != [] {
      ResumeReachesNoSocket(waiters[1..], socket);
    }
  }

  /**
   * Readiness gate: over any stretch of emitted events, the parked requests
   * are resumed exactly once each, in arrival order, when the first `ready`
   * is emitted, and not at all if none is.
   */
  lemma {:induction false} ReadyResumesWaiters(evs: seq<Event>, waiters: seq<nat>, subscribers: seq<nat>)
    ensures Resumed(DispatchAll(evs, waiters, subscribers)) == if Ready in evs then waiters else []
    decreases |evs|
  {
    if evs != [] {
      var init, e := evs[..|evs| - 1], evs[|evs| - 1];
      assert evs == init + [e];
      ReadyResumesWaiters(init, waiters, subscribers);
      ResumedAppend(DispatchAll(init, waiters, subscribers), Dispatch(e, WaitersAfter(init, waiters), subscribers));
      DispatchResumed(e, WaitersAfter(init, waiters), subscribers);
    }
  }

  /**
   * Fan-out: a socket with one `change` listener is pushed every `change`
   * event, in emission order; a socket with none is pushed nothing.
   */
  lemma {:induction false} ChangesReachSubscribers(evs: seq<Event>, waiters: seq<nat>, subscribers: seq<nat>, socket: nat)
    ensures socket !in subscribers ==> PushedTo(DispatchAll(evs, waiters, subscribers), socket) == []
    ensures multiset(subscribers)[socket] == 1 ==> PushedTo(DispatchAll(evs, waiters, subscribers), socket) == ChangesOf(evs)
    decreases |evs|
  {
    if evs != [] {
      var init, e := evs[..|evs| - 1], evs[|evs| - 1];
      var w := WaitersAfter(init, waiters);
      ChangesReachSubscribers(init, waiters, subscribers, socket);
      PushedToAppend(DispatchAll(init, waiters, subscribers), Dispatch(e, w, subscribers), socket);
      match e {
        case Change(m, v) => PushReaches(subscribers, m, v, socket);
        case Ready => ResumeReachesNoSocket(w, socket);
        case _ =>
      }
    }
  }

  // ---------------------------------------------------------------------
  // Channel directory

  /** `channelsByName[c.name] = c` for each channel in order. */
  function IndexChannels(m: map<string, Channel>, cs: seq<Channel>): map<string, Channel>
    decreases |cs|
  {
    if cs == [] then m
    else
      var c := cs[|cs| - 1];
      IndexChannels(m, cs[..|cs| - 1])[c.name := c]
  }

  /** `getChannelId(name)`: the stored channel's id, or none. */
  function ChannelId(dir: map<string, Channel>, name: string): (r: Option<string>)
    ensures r.Some? <==> name in dir
    ensures r.Some? ==> r.value == dir[name].id
  {
    if name in dir then Some(dir[name].id) else None
  }

  /** A name no listed channel carries resolves as it did before indexing. */
  lemma {:induction false} ChannelIdUnlisted(m: map<string, Channel>, cs: seq<Channel>, name: string)
    requires forall k :: 0 <= k < |cs| ==> cs[k].name != name
    ensures ChannelId(IndexChannels(m, cs), name) == ChannelId(m, name)
    decreases |cs|
  {
    if cs != [] {
      var init := cs[..|cs| - 1];
      assert forall k :: 0 <= k < |init| ==> init[k] == cs[k];
      ChannelIdUnlisted(m, init, name);
    }
  }

  /**
   * A name resolves to the id of the LAST listed channel carrying it: a
   * later channel with the same name overwrites an earlier one.
   */
  lemma {:induction false} ChannelIdLastWins(m: map<string, Channel>, cs: seq<Channel>, k: nat)
    requires k < |cs|
    requires forall j :: k < j < |cs| ==> cs[j].name != cs[k].name
    ensures ChannelId(IndexChannels(m, cs), cs[k].name) == Some(cs[k].id)
    decreases |cs|
  {
    var init := cs[..|cs| - 1];
    if k < |cs| - 1 {
      assert forall j :: 0 <= j < |init| ==> init[j] == cs[j];
      ChannelIdLastWins(m, init, k);
    }
  }

  /** The listener list with a socket's listener taken out, the others kept in order. */
  function Without(subscribers: seq<nat>, socket: nat): (r: seq<nat>)
    ensures socket !in r
    ensures forall x :: x != socket ==> multiset(r)[x] == multiset(subscribers)[x]
  {
    if subscribers == [] then []
    else
      assert subscribers == [subscribers[0]] + subscribers[1..];
      (if subscribers[0] == socket then [] else [subscribers[0]]) + Without(subscribers[1..], socket)
  }

  // ---------------------------------------------------------------------
  // The object

  class SlackData {
    const host: string
    const token: string
    const interval: int
    var ready: bool
    var org: OrgInfo
    var users: Counts
    var channelsByName: map<string, Channel>
    /** Every event emitted, in order. */
    var events: seq<Event>
    /** Requests parked by `once('ready', next)`, in arrival order. */
    var waiters: seq<nat>
    /** Sockets with a `change` listener, in registration order. */
    var subscribers: seq<nat>
    /** What the listeners were handed, in order. */
    var deliveries: seq<Delivery>

    ghost predicate Valid()
      reads this
    {
      SnapshotValid(Snapshot(users, ready)) && (ready ==> waiters == [])
    }

    function Current(): Snapshot
      reads this
    {
      Snapshot(users, ready)
    }

    constructor (host: string, token: string, interval: int)
      ensures Valid()
      ensures this.host == host && this.token == token && this.interval == interval
      ensures Current() == Initial
      ensures org == OrgInfo(None, None) && channelsByName == map[]
      ensures events == [] && waiters == [] && subscribers == [] && deliveries == []
    {
      this.host := host;
      this.token := token;
      this.interval := interval;
      ready := false;
      org := OrgInfo(None, None);
      users := Counts(None, None);
      channelsByName := map[];
      events := [];
      waiters := [];
      subscribers := [];
      deliveries := [];
    }

    function GetChannelId(name: string): (r: Option<string>)
      reads this
      ensures r.Some? <==> name in channelsByName
      ensures r.Some? ==> r.value == channelsByName[name].id
    {
      ChannelId(channelsByName, name)
    }

    /** `once('ready', next)`: park a request until the next `ready`. */
    method OnceReady(request: nat)
      modifies this`waiters
      ensures waiters == old(waiters) + [request]
    {
      waiters := waiters + [request];
    }

    /** `on('change', listener)` for a connected socket. */
    method OnChange(socket: nat)
      modifies this`subscribers
      ensures subscribers == old(subscribers) + [socket]
    {
      subscribers := subscribers + [socket];
    }

    /** `removeListener('change', listener)` for a socket that went away. */
    method RemoveChangeListener(socket: nat)
      modifies this`subscribers
      ensures subscribers == Without(old(subscribers), socket)
    {
      subscribers := Without(subscribers, socket);
    }

    /** `emit(e)`: log the event and run its listeners; `once` listeners go after `ready`. */
    method Emit(e: Event)
      modifies this`events, this`deliveries, this`waiters
      ensures events == old(events) + [e]
      ensures deliveries == Deliver(old(deliveries), [e], old(waiters), subscribers)
      ensures deliveries == old(deliveries) + Dispatch(e, old(waiters), subscribers)
      ensures waiters == WaitersAfter([e], old(waiters))
    {
      assert [e][..0] == [];
      events := events + [e];
      deliveries := deliveries + Dispatch(e, waiters, subscribers);
      if e == Ready {
        waiters := [];
      }
    }

    /** `retry()`: the next poll after twice the configured interval, then `retry`. */
    method DoRetry() returns (delay: int)
      modifies this`events, this`deliveries, this`waiters
      ensures delay == 2 * interval
      ensures events == old(events) + [Retry]
      ensures deliveries == Deliver(old(deliveries), [Retry], old(waiters), subscribers)
      ensures deliveries == old(deliveries) && waiters == old(waiters)
    {
      delay := interval * 2;
      Emit(Retry);
    }

    /** The failure paths of `onres`: `error`, then `retry()`. */
    method Fail(cause: string) returns (delay: int)
      modifies this`events, this`deliveries, this`waiters
      ensures delay == 2 * interval
      ensures events == old(events) + [Error(cause), Retry]
      ensures deliveries == Deliver(old(deliveries), [Error(cause), Retry], old(waiters), subscribers)
      ensures waiters == WaitersAfter([Error(cause), Retry], old(waiters))
    {
      ghost var e0, d0, w0 := events, deliveries, waiters;
      Emit(Error(cause));
      delay := DoRetry();
      DeliverCompose(d0, w0, [Error(cause)], [Retry], subscribers);
      assert [Error(cause)] + [Retry] == [Error(cause), Retry];
      AppendAssoc(e0, [Error(cause)], [Retry]);
    }

    /** One comparison of `onres`: `change` for metric `m` when the stored count is not `v`. */
    method EmitIfChanged(m: Metric, stored: Option<nat>, v: nat)
      modifies this`events, this`deliveries, this`waiters
      ensures events == old(events) + ChangeOf(m, stored, v)
      ensures deliveries == Deliver(old(deliveries), ChangeOf(m, stored, v), old(waiters), subscribers)
      ensures waiters == WaitersAfter(ChangeOf(m, stored, v), old(waiters))
    {
      if stored != Some(v) {
        Emit(Change(m, v));
      } else {
        assert events == events + [];
      }
    }

    /** The comparisons of `onres`: `change` for each count that differs from the stored one. */
    method EmitChanges(total: nat, active: nat)
      modifies this`events, this`deliveries, this`waiters
      ensures var changes := ChangeEvents(users, total, active);
        && events == old(events) + changes
        && deliveries == Deliver(old(deliveries), changes, old(waiters), subscribers)
        && waiters == WaitersAfter(changes, old(waiters))
    {
      ghost var e0, d0, w0 := events, deliveries, waiters;
      ghost var a, b := ChangeOf(Total, users.total, total), ChangeOf(Active, users.active, active);
      EmitIfChanged(Total, users.total, total);
      EmitIfChanged(Active, users.active, active);
      DeliverCompose(d0, w0, a, b, subscribers);
      AppendAssoc(e0, a, b);
    }

    /** `ready` the first time the counts are stored. */
    method MarkReady()
      modifies this`ready, this`events, this`deliveries, this`waiters
      ensures ready
      ensures var announced := if old(ready) then [] else [Ready];
        && events == old(events) + announced
        && deliveries == Deliver(old(deliveries), announced, old(waiters), subscribers)
        && waiters == WaitersAfter(announced, old(waiters))
    {
      if !ready {
        ready := true;
        Emit(Ready);
      } else {
        assert events == events + [];
      }
    }

    /**
     * Storing fresh counts: `change` for each count that moved, the counts
     * stored, then `ready` the first time.
     */
    method Store(total: nat, active: nat)
      requires Valid() && active <= total
      modifies this`users, this`ready, this`events, this`deliveries, this`waiters
      ensures Valid()
      ensures Current() == Snapshot(Counts(Some(total), Some(active)), true)
      ensures var sent := ChangeEvents(old(users), total, active) + (if old(ready) then [] else [Ready]);
        && events == old(events) + sent
        && deliveries == Deliver(old(deliveries), sent, old(waiters), subscribers)
        && waiters == WaitersAfter(sent, old(waiters))
    {
      ghost var e0, d0, w0 := events, deliveries, waiters;
      ghost var changes := ChangeEvents(users, total, active);
      ghost var announced: seq<Event> := if ready then [] else [Ready];
      EmitChanges(total, active);
      users := Counts(Some(total), Some(active));
      MarkReady();
      DeliverCompose(d0, w0, changes, announced, subscribers);
      AppendAssoc(e0, changes, announced);
    }

    /** The success path of `onres` once the counts are known: store them, then `data`. */
    method Commit(total: nat, active: nat) returns (delay: int)
      requires Valid() && active <= total
      modifies this`users, this`ready, this`events, this`deliveries, this`waiters
      ensures Valid()
      ensures Current() == Snapshot(Counts(Some(total), Some(active)), true)
      ensures delay == interval
      ensures var sent := ChangeEvents(old(users), total, active) + (if old(ready) then [] else [Ready]) + [Data];
        && events == old(events) + sent
        && deliveries == Deliver(old(deliveries), sent, old(waiters), subscribers)
        && waiters == WaitersAfter(sent, old(waiters))
    {
      ghost var e0, d0, w0 := events, deliveries, waiters;
      ghost var stored := ChangeEvents(users, total, active) + (if ready then [] else [Ready]);
      Store(total, active);
      delay := interval;
      Emit(Data);
      DeliverCompose(d0, w0, stored, [Data], subscribers);
      AppendAssoc(e0, stored, [Data]);
    }

    /** `onres(err, res)`: the poll state machine; returns the next poll delay. */
    method OnResponse(reply: UsersReply) returns (delay: int)
      requires Valid()
      modifies this`users, this`ready, this`events, this`deliveries, this`waiters
      ensures Valid()
      ensures var st := OnRes(old(Current()), interval, reply);
        && Current() == st.next
        && delay == st.delay
        && events == old(events) + st.emitted
        && deliveries == Deliver(old(deliveries), st.emitted, old(waiters), subscribers)
        && waiters == WaitersAfter(st.emitted, old(waiters))
    {
      match reply
      case Failed(cause) =>
        delay := Fail(cause);
      case Body(members) =>
        if members.None? || |members.value| == 0 {
          delay := Fail(InvalidResponse);
        } else {
          var hs := Humans(members.value);
          delay := Commit(|hs|, ActiveCount(hs));
        }
    }

    /**
     * `fetch()` once the request has settled: `onres`, then `fetch`. The
     * listeners receive `DispatchAll` of the poll's events
     * (`DeliverAppends`).
     */
    method Fetch(reply: UsersReply) returns (delay: int)
      requires Valid()
      modifies this`users, this`ready, this`events, this`deliveries, this`waiters
      ensures Valid()
      ensures var st := Poll(old(Current()), interval, reply);
        && Current() == st.next
        && delay == st.delay
        && events == old(events) + st.emitted
        && deliveries == Deliver(old(deliveries), st.emitted, old(waiters), subscribers)
        && waiters == WaitersAfter(st.emitted, old(waiters))
    {
      ghost var st := OnRes(Current(), interval, reply);
      ghost var e0, d0, w0 := events, deliveries, waiters;
      delay := OnResponse(reply);
      Emit(Fetched);
      DeliverCompose(d0, w0, st.emitted, [Fetched], subscribers);
      AppendAssoc(e0, st.emitted, [Fetched]);
    }

    /**
     * `init()` once both requests have settled: index the channel list by
     * name, then record the team's name and, when it has no default image,
     * its 132px logo.
     */
    method Init(channelsReply: ChannelsReply, teamReply: TeamReply) returns (err: Option<InitError>)
      modifies this`channelsByName, this`org
      ensures channelsByName
        == if channelsReply.ChannelsBody? && channelsReply.channels.Some?
           then IndexChannels(old(channelsByName), channelsReply.channels.value)
           else old(channelsByName)
      ensures channelsReply.ChannelsFailed? ==> err == Some(RequestFailed(channelsReply.cause)) && org == old(org)
      ensures channelsReply.ChannelsBody? && teamReply.TeamFailed?
        ==> err == Some(RequestFailed(teamReply.cause)) && org == old(org)
      ensures channelsReply.ChannelsBody? && teamReply == TeamBody(None)
        ==> err == Some(BadSlackResponse) && org == old(org)
      ensures channelsReply.ChannelsBody? && teamReply.TeamBody? && teamReply.team.Some?
        ==> var t := teamReply.team.value;
          && org.name == Some(t.name)
          && org.logo == (if t.icon.Some? && !t.icon.value.imageDefault then t.icon.value.image132 else old(org).logo)
          && err == (if t.icon.None? then Some(NoTeamIcon) else None)
    {
      if channelsReply.ChannelsFailed? {
        return Some(RequestFailed(channelsReply.cause));
      }
      if channelsReply.channels.Some? {
        var cs := channelsReply.channels.value;
        var i := 0;
        while i < |cs|
          invariant 0 <= i <= |cs|
          invariant channelsByName == IndexChannels(old(channelsByName), cs[..i])
          invariant org == old(org)
        {
          assert cs[..i + 1][..i] == cs[..i];
          channelsByName := channelsByName[cs[i].name := cs[i]];
          i := i + 1;
        }
        assert cs[..|cs|] == cs;
      }
      match teamReply
      case TeamFailed(cause) =>
        return Some(RequestFailed(cause));
      case TeamBody(team) =>
        if team.None? {
          return Some(BadSlackResponse);
        }
        var t := team.value;
        org := org.(name := Some(t.name));
        if t.icon.None? {
          return Some(NoTeamIcon);
        }
        if !t.icon.value.imageDefault {
          org := org.(logo := t.icon.value.image132);
        }
        return None;
    }
  }
}
