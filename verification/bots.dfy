/**
 The supervisor script `bots.py`: it starts the Discord, Telegram and Reddit bot
 processes and the stats updater, polls them every ten seconds and restarts any
 that has exited, and on an interrupt asks the Discord bot to stop and joins all
 four in turn.

 Processes are handles with an identity, the entry point and arguments they were
 created with, and a status. The operating system's part (a process ending with
 some exit code, the exit code a joined process reports) is an input.
 */
module Bots {
  import opened Wrappers

  datatype Role = Discord | Telegram | Reddit | Stats

  /** The entry point a process runs: `discordbot.process`, `telegrambot.process`, ... */
  datatype Target = DiscordBot | TelegramBot | RedditBot | StatsUpdater

  /** The two ends of the pipe shared by the Discord and Telegram bots. */
  datatype PipeEnd = End0 | End1

  /** A message written on one end of a pipe is read on the other. */
  function Peer(e: PipeEnd): (p: PipeEnd)
    ensures p != e
  {
    if e == End0 then End1 else End0
  }

  /** What a process is created with: its entry point and its arguments. */
  datatype Spec = Spec(target: Target, args: seq<PipeEnd>)

  /** The process every role is created, and re-created, with. */
  function SpecOf(r: Role): (s: Spec)
    ensures |s.args| <= 1
    ensures |s.args| == 1 <==> r == Discord || r == Telegram
  {
    match r
    case Discord => Spec(DiscordBot, [End0])
    case Telegram => Spec(TelegramBot, [End1])
    case Reddit => Spec(RedditBot, [])
    case Stats => Spec(StatsUpdater, [])
  }

  /** A process object: created, started, or ended with an exit code (its `exitcode` is then not `None`). */
  datatype Status = Created | Running | Exited(code: int)

  datatype Handle = Handle(id: nat, spec: Spec, status: Status)

  datatype Event =
    | Started(role: Role, id: nat)
    | StatsDisabled
    | ExitNoticed(role: Role, id: nat, code: int)
    | Slept(seconds: nat)
    | Sent(end: PipeEnd, message: string)
    | Joined(role: Role, id: nat, code: int)
    | JoinRefused(role: Role, id: nat)

  const Stop: string := "stop"
  const PollInterval: nat := 10

  /** The order in which the roles are polled and, on shutdown, joined. */
  const PollOrder: seq<Role> := [Discord, Telegram, Reddit, Stats]

  /** The roles the poll loop looks after: the stats updater only outside debug mode. */
  predicate Supervised(r: Role, debug: bool) {
    r != Stats || !debug
  }

  /** The supervisor's whole state: the current process of every role, the next fresh id, and the log. */
  datatype Table = Table(handles: map<Role, Handle>, nextId: nat, log: seq<Event>)

  /** Every role has a process. */
  predicate Complete(m: map<Role, Handle>) {
    forall r: Role :: r in m
  }

  lemma AllRoles(m: map<Role, Handle>)
    requires Discord in m && Telegram in m && Reddit in m && Stats in m
    ensures Complete(m)
  {
    forall r: Role
      ensures r in m
    {
      match r
      case Discord =>
      case Telegram =>
      case Reddit =>
      case Stats =>
    }
  }

  /**
   A process that fits role `r`: made from that role's spec, with an id below
   the next fresh one, and never started only if it is the stats updater in
   debug mode.
   */
  predicate Fits(h: Handle, r: Role, nextId: nat, debug: bool) {
    h.spec == SpecOf(r) && h.id < nextId && (h.status.Created? <==> r == Stats && debug)
  }

  predicate Distinct(a: nat, b: nat, c: nat, d: nat) {
    a != b && a != c && a != d && b != c && b != d && c != d
  }

  /** Every role has a process that fits it, and no two processes share an id. */
  predicate Wf(t: Table, debug: bool) {
    var h := t.handles;
    Complete(h)
    && Fits(h[Discord], Discord, t.nextId, debug) && Fits(h[Telegram], Telegram, t.nextId, debug)
    && Fits(h[Reddit], Reddit, t.nextId, debug) && Fits(h[Stats], Stats, t.nextId, debug)
    && Distinct(h[Discord].id, h[Telegram].id, h[Reddit].id, h[Stats].id)
  }

  lemma WfFits(t: Table, debug: bool, r: Role)
    requires Wf(t, debug)
    ensures Fits(t.handles[r], r, t.nextId, debug)
  {
    match r
    case Discord =>
    case Telegram =>
    case Reddit =>
    case Stats =>
  }

  /** Replacing the process of one role keeps the table well formed when the new process fits that role. */
  lemma Install(t: Table, r: Role, h: Handle, n: nat, l: seq<Event>, debug: bool)
    requires Wf(t, debug) && t.nextId <= n && Fits(h, r, n, debug)
    requires forall s :: s != r ==> t.handles[s].id != h.id
    ensures Wf(Table(t.handles[r := h], n, l), debug)
  {
    var m := t.handles[r := h];
    assert Complete(m);
    match r
    case Discord =>
      assert t.handles[Telegram].id != h.id && t.handles[Reddit].id != h.id && t.handles[Stats].id != h.id;
    case Telegram =>
      assert t.handles[Discord].id != h.id && t.handles[Reddit].id != h.id && t.handles[Stats].id != h.id;
    case Reddit =>
      assert t.handles[Discord].id != h.id && t.handles[Telegram].id != h.id && t.handles[Stats].id != h.id;
    case Stats =>
      assert t.handles[Discord].id != h.id && t.handles[Telegram].id != h.id && t.handles[Reddit].id != h.id;
  }

  // ---------------------------------------------------------------------------
  // Startup
  // ---------------------------------------------------------------------------

  /** The four processes as created at import time, none of them started. */
  function Initial(): (t: Table)
    ensures Complete(t.handles) && t.nextId == 4 && t.log == []
    ensures forall r :: t.handles[r] == Handle(RoleIndex(r), SpecOf(r), Created)
  {
    var t := Table(map[Discord := Handle(0, SpecOf(Discord), Created),
                       Telegram := Handle(1, SpecOf(Telegram), Created),
                       Reddit := Handle(2, SpecOf(Reddit), Created),
                       Stats := Handle(3, SpecOf(Stats), Created)],
                   4, []);
    AllRoles(t.handles);
    t
  }

  /** `process.start()` on a created process. */
  function Start(t: Table, r: Role): (u: Table)
    requires r in t.handles
    ensures u.handles.Keys == t.handles.Keys && u.nextId == t.nextId
    ensures u.handles[r] == t.handles[r].(status := Running)
    ensures u.log == t.log + [Started(r, t.handles[r].id)]
  {
    var h := t.handles[r];
    Table(t.handles[r := h.(status := Running)], t.nextId, t.log + [Started(r, h.id)])
  }

  /** The state once the main block has started the bots, and the stats updater unless in debug mode. */
  function AfterStartup(debug: bool): (t: Table)
    ensures Complete(t.handles) && t.nextId == 4 && |t.log| == 4
  {
    var t := Start(Start(Start(Initial(), Discord), Telegram), Reddit);
    var u := if debug then t.(log := t.log + [StatsDisabled]) else Start(t, Stats);
    AllRoles(u.handles);
    u
  }

  /**
   After startup every process is running except the stats updater in debug
   mode, which is never started; each process has its role's spec and the id of
   its place in the order of creation; the bots are started in that order, and
   the log says when the stats updater is disabled.
   */
  lemma StartupState(debug: bool)
    ensures var t := AfterStartup(debug);
      Wf(t, debug)
      && (forall r :: t.handles[r].status == (if r == Stats && debug then Created else Running))
      && (forall r :: t.handles[r].id == RoleIndex(r) && t.handles[r].spec == SpecOf(r))
      && t.log == [Started(Discord, 0), Started(Telegram, 1), Started(Reddit, 2)]
                  + (if debug then [StatsDisabled] else [Started(Stats, 3)])
  {
    var t := AfterStartup(debug);
    AllRoles(t.handles);
    forall r: Role
      ensures t.handles[r] == Handle(RoleIndex(r), SpecOf(r), if r == Stats && debug then Created else Running)
    {
      match r
      case Discord =>
      case Telegram =>
      case Reddit =>
      case Stats =>
    }
  }

  /** The id of each role's first process: the order of creation. */
  function RoleIndex(r: Role): (i: nat)
    ensures i < 4
  {
    match r
    case Discord => 0
    case Telegram => 1
    case Reddit => 2
    case Stats => 3
  }

  // ---------------------------------------------------------------------------
  // Polling
  // ---------------------------------------------------------------------------

  /**
   One check of the poll loop: a process whose exit code is set is logged and
   dropped, and a fresh process of the same role is created and started.
   */
  function Restarted(t: Table, r: Role): (u: Table)
    requires r in t.handles
    ensures Complete(t.handles) ==> Complete(u.handles)
  {
    var h := t.handles[r];
    if h.status.Exited? then
      Table(t.handles[r := Handle(t.nextId, SpecOf(r), Running)], t.nextId + 1,
            t.log + [ExitNoticed(r, h.id, h.status.code), Started(r, t.nextId)])
    else t
  }

  /** The checks of a poll pass, in order: the stats updater is skipped in debug mode. */
  function Checked(debug: bool): (roles: seq<Role>)
    ensures forall r :: r in roles <==> Supervised(r, debug)
    ensures forall a, b :: 0 <= a < b < |roles| ==> roles[a] != roles[b]
    ensures forall a, b :: 0 <= a < b < |roles| ==> RoleIndex(roles[a]) < RoleIndex(roles[b])
  {
    if debug then [Discord, Telegram, Reddit] else PollOrder
  }

  /** The given checks, one after the other. */
  function CheckAll(t: Table, roles: seq<Role>): (u: Table)
    requires Complete(t.handles)
    ensures Complete(u.handles)
    decreases |roles|
  {
    if roles == [] then t else CheckAll(Restarted(t, roles[0]), roles[1..])
  }

  /** One pass of the poll loop: the checks, then the sleep. */
  function AfterPoll(t: Table, debug: bool): (u: Table)
    requires Complete(t.handles)
    ensures Complete(u.handles) && |u.log| > 0 && u.log[|u.log| - 1] == Slept(PollInterval)
  {
    var v := CheckAll(t, Checked(debug));
    v.(log := v.log + [Slept(PollInterval)])
  }

  /** What one check does to the state: it keeps the table well formed and touches only its own role. */
  lemma RestartEffect(t: Table, r: Role, debug: bool)
    requires Wf(t, debug) && Supervised(r, debug)
    ensures var u := Restarted(t, r);
      Wf(u, debug)
      && (forall s :: s != r ==> u.handles[s] == t.handles[s])
      && t.nextId <= u.nextId
      && (t.handles[r].status.Exited? ==>
            u.handles[r] == Handle(t.nextId, SpecOf(r), Running)
            && u.log == t.log + [ExitNoticed(r, t.handles[r].id, t.handles[r].status.code), Started(r, t.nextId)])
      && (!t.handles[r].status.Exited? ==> u == t)
  {
    if t.handles[r].status.Exited? {
      var u := Restarted(t, r);
      Install(t, r, Handle(t.nextId, SpecOf(r), Running), t.nextId + 1, u.log, debug);
      assert forall s :: s != r ==> u.handles[s] == t.handles[s];
    }
  }

  /** Checks of supervised roles keep the table well formed and never reuse an id. */
  lemma {:induction false} CheckAllWf(t: Table, roles: seq<Role>, debug: bool)
    requires Wf(t, debug) && forall r :: r in roles ==> Supervised(r, debug)
    ensures Wf(CheckAll(t, roles), debug) && t.nextId <= CheckAll(t, roles).nextId
    decreases |roles|
  {
    if roles != [] {
      RestartEffect(t, roles[0], debug);
      assert forall r :: r in roles[1..] ==> r in roles;
      CheckAllWf(Restarted(t, roles[0]), roles[1..], debug);
    }
  }

  /**
   Distinct checks of supervised roles restart exactly the checked processes
   that have exited, each with a fresh id, its role's spec and running, and
   leave every other process alone.
   */
  lemma {:induction false} CheckAllRestarts(t: Table, roles: seq<Role>, debug: bool, r: Role)
    requires Wf(t, debug) && forall s :: s in roles ==> Supervised(s, debug)
    requires forall a, b :: 0 <= a < b < |roles| ==> roles[a] != roles[b]
    ensures var u := CheckAll(t, roles);
      (r in roles && t.handles[r].status.Exited? ==>
         u.handles[r].id >= t.nextId && u.handles[r].spec == SpecOf(r) && u.handles[r].status == Running)
      && (!(r in roles && t.handles[r].status.Exited?) ==> u.handles[r] == t.handles[r])
      && (r in roles ==> u.handles[r].status.Running? || u.handles[r] == t.handles[r])
    decreases |roles|
  {
    if roles != [] {
      var t1 := Restarted(t, roles[0]);
      var rest := roles[1..];
      RestartEffect(t, roles[0], debug);
      assert forall s :: s in rest ==> s in roles;
      assert forall a, b :: 0 <= a < b < |rest| ==> rest[a] != rest[b] by {
        forall a, b | 0 <= a < b < |rest|
          ensures rest[a] != rest[b]
        {
          assert rest[a] == roles[a + 1] && rest[b] == roles[b + 1];
        }
      }
      CheckAllRestarts(t1, rest, debug, r);
      if roles[0] == r {
        assert r !in rest by {
          forall b | 0 <= b < |rest|
            ensures rest[b] != r
          {
            assert rest[b] == roles[b + 1];
          }
        }
      } else {
        assert t1.handles[r] == t.handles[r];
        assert r in roles <==> r in rest;
        CheckAllWf(t1, rest, debug);
      }
    }
  }

  /** In a well-formed table a supervised process has been started: it is running or has exited, never merely created. */
  lemma SupervisedStarted(t: Table, r: Role, debug: bool)
    requires Wf(t, debug) && Supervised(r, debug)
    ensures t.handles[r].status.Exited? || t.handles[r].status == Running
  {
    WfFits(t, debug, r);
  }

  /** A poll pass keeps the table well formed. */
  lemma PollWf(t: Table, debug: bool)
    requires Wf(t, debug)
    ensures Wf(AfterPoll(t, debug), debug)
  {
    CheckAllWf(t, Checked(debug), debug);
  }

  /**
   A poll pass restarts exactly the supervised processes that have exited,
   whatever their exit code (a clean exit with code 0 included), each with a
   fresh id and its role's own entry point and arguments, and leaves every
   other process alone: so afterwards every supervised process is running.
   */
  lemma PollRestarts(t: Table, debug: bool, r: Role)
    requires Wf(t, debug)
    ensures var u := AfterPoll(t, debug);
      (Supervised(r, debug) && t.handles[r].status.Exited? ==>
         u.handles[r].id >= t.nextId && u.handles[r].spec == SpecOf(r) && u.handles[r].status == Running)
      && (!(Supervised(r, debug) && t.handles[r].status.Exited?) ==> u.handles[r] == t.handles[r])
      && (Supervised(r, debug) ==> u.handles[r].status == Running)
  {
    CheckAllRestarts(t, Checked(debug), debug, r);
    if Supervised(r, debug) {
      SupervisedStarted(t, r, debug);
    }
  }

  /** What one check logs: the exit and the restart, or nothing. */
  function RestartEvents(t: Table, r: Role): (es: seq<Event>)
    requires r in t.handles
    ensures forall e :: e in es ==> e.ExitNoticed? || e.Started?
  {
    var h := t.handles[r];
    if h.status.Exited? then [ExitNoticed(r, h.id, h.status.code), Started(r, t.nextId)] else []
  }

  /** What the given checks log, in order. */
  function CheckEvents(t: Table, roles: seq<Role>): (es: seq<Event>)
    requires Complete(t.handles)
    ensures forall e :: e in es ==> e.ExitNoticed? || e.Started?
    decreases |roles|
  {
    if roles == [] then [] else RestartEvents(t, roles[0]) + CheckEvents(Restarted(t, roles[0]), roles[1..])
  }

  lemma {:induction false} CheckAllLog(t: Table, roles: seq<Role>)
    requires Complete(t.handles)
    ensures CheckAll(t, roles).log == t.log + CheckEvents(t, roles)
    decreases |roles|
  {
    if roles != [] {
      var t1 := Restarted(t, roles[0]);
      CheckAllLog(t1, roles[1..]);
      assert t1.log == t.log + RestartEvents(t, roles[0]);
    } else {
      assert t.log + [] == t.log;
    }
  }

  /**
   A poll pass keeps the log it found, logs nothing but exits and restarts,
   and ends with exactly one sleep.
   */
  lemma PollLog(t: Table, debug: bool)
    requires Complete(t.handles)
    ensures var u := AfterPoll(t, debug);
      |t.log| < |u.log| && u.log[..|t.log|] == t.log && u.log[|u.log| - 1] == Slept(PollInterval)
      && forall e :: e in u.log[|t.log|..|u.log| - 1] ==> e.ExitNoticed? || e.Started?
  {
    var es := CheckEvents(t, Checked(debug));
    CheckAllLog(t, Checked(debug));
    var u := AfterPoll(t, debug);
    assert u.log == t.log + es + [Slept(PollInterval)];
    assert u.log[..|t.log|] == t.log;
    assert u.log[|t.log|..|u.log| - 1] == es;
  }

  /** The exit notices of a log, in order. */
  function Exits(log: seq<Event>): seq<Event> {
    if log == [] then [] else (if log[0].ExitNoticed? then [log[0]] else []) + Exits(log[1..])
  }

  lemma {:induction false} ExitsAppend(a: seq<Event>, b: seq<Event>)
    ensures Exits(a + b) == Exits(a) + Exits(b)
  {
    if a != [] {
      assert (a + b)[1..] == a[1..] + b;
      ExitsAppend(a[1..], b);
    } else {
      assert a + b == b;
    }
  }

  /**
   The exits checks of `roles` must notice, in check order: one notice per role
   whose process in `h` has an exit code, with that process's id and code.
   */
  function ExitLog(h: map<Role, Handle>, roles: seq<Role>): seq<Event>
    requires Complete(h)
    decreases |roles|
  {
    if roles == [] then []
    else
      var p := h[roles[0]];
      (if p.status.Exited? then [ExitNoticed(roles[0], p.id, p.status.code)] else []) + ExitLog(h, roles[1..])
  }

  /** `ExitLog` looks only at the processes of the roles it is given. */
  lemma {:induction false} ExitLogFrame(h: map<Role, Handle>, g: map<Role, Handle>, roles: seq<Role>, r: Role)
    requires Complete(h) && Complete(g) && r !in roles
    requires forall s :: s != r ==> h[s] == g[s]
    ensures ExitLog(h, roles) == ExitLog(g, roles)
    decreases |roles|
  {
    if roles != [] {
      assert roles[0] in roles;
      assert forall s :: s in roles[1..] ==> s in roles;
      ExitLogFrame(h, g, roles[1..], r);
    }
  }

  /** Distinct checks of supervised roles notice exactly the exits of the processes they check, in check order. */
  lemma {:induction false} CheckExits(t: Table, roles: seq<Role>, debug: bool)
    requires Wf(t, debug) && forall s :: s in roles ==> Supervised(s, debug)
    requires forall a, b :: 0 <= a < b < |roles| ==> roles[a] != roles[b]
    ensures Exits(CheckEvents(t, roles)) == ExitLog(t.handles, roles)
    decreases |roles|
  {
    if roles != [] {
      var r := roles[0];
      var rest := roles[1..];
      var t1 := Restarted(t, r);
      RestartEffect(t, r, debug);
      assert forall s :: s in rest ==> s in roles;
      assert forall a, b :: 0 <= a < b < |rest| ==> rest[a] != rest[b] by {
        forall a, b | 0 <= a < b < |rest|
          ensures rest[a] != rest[b]
        {
          assert rest[a] == roles[a + 1] && rest[b] == roles[b + 1];
        }
      }
      assert r !in rest by {
        forall b | 0 <= b < |rest|
          ensures rest[b] != r
        {
          assert rest[b] == roles[b + 1];
        }
      }
      CheckExits(t1, rest, debug);
      ExitLogFrame(t1.handles, t.handles, rest, r);
      ExitsAppend(RestartEvents(t, r), CheckEvents(t1, rest));
      var h := t.handles[r];
      if h.status.Exited? {
        var es := [ExitNoticed(r, h.id, h.status.code), Started(r, t.nextId)];
        assert es[1..][1..] == [];
        assert Exits(es) == [ExitNoticed(r, h.id, h.status.code)];
      }
    }
  }

  /**
   A poll pass notices the exit of every supervised process that has one, with
   its id and exit code, and of no other process, in the order Discord,
   Telegram, Reddit, stats updater.
   */
  lemma PollExits(t: Table, debug: bool)
    requires Wf(t, debug)
    ensures var u := AfterPoll(t, debug);
      |t.log| <= |u.log| && Exits(u.log[|t.log|..]) == ExitLog(t.handles, Checked(debug))
  {
    var es := CheckEvents(t, Checked(debug));
    CheckAllLog(t, Checked(debug));
    CheckExits(t, Checked(debug), debug);
    var u := AfterPoll(t, debug);
    assert u.log[|t.log|..] == es + [Slept(PollInterval)];
    ExitsAppend(es, [Slept(PollInterval)]);
    assert [Slept(PollInterval)][1..] == [];
  }

  // ---------------------------------------------------------------------------
  // Shutdown
  // ---------------------------------------------------------------------------

  /**
   `process.join()` on a started process: it waits for the process to end, so
   the process is then ended, with the code it already had or the code `exits`
   says it ends with.
   */
  function Join(t: Table, r: Role, exits: Role -> int): (u: Table)
    requires r in t.handles && !t.handles[r].status.Created?
    ensures u.handles.Keys == t.handles.Keys
  {
    var h := t.handles[r];
    var code := EndCode(h, r, exits);
    Table(t.handles[r := h.(status := Exited(code))], t.nextId, t.log + [Joined(r, h.id, code)])
  }

  /** The exit code a joined process reports: the one it already had, or the one it ends with. */
  function EndCode(h: Handle, r: Role, exits: Role -> int): int {
    if h.status.Exited? then h.status.code else exits(r)
  }

  /**
   The joins from the `k`-th role of the poll order on. Joining a process that
   was never started raises, which ends the script there: the remaining joins
   do not happen.
   */
  function JoinFrom(t: Table, k: nat, exits: Role -> int): (u: Table)
    requires Complete(t.handles) && k <= |PollOrder|
    ensures Complete(u.handles) && u.nextId == t.nextId
    ensures |t.log| <= |u.log| && u.log[..|t.log|] == t.log
    decreases |PollOrder| - k
  {
    if k == |PollOrder| then t
    else
      var r := PollOrder[k];
      var h := t.handles[r];
      if h.status.Created? then t.(log := t.log + [JoinRefused(r, h.id)])
      else JoinFrom(Join(t, r, exits), k + 1, exits)
  }

  /** The interrupt handler: the stop message on the Telegram end of the pipe, then the four joins. */
  function AfterShutdown(t: Table, exits: Role -> int): (u: Table)
    requires Complete(t.handles)
    ensures Complete(u.handles) && u.nextId == t.nextId
    ensures |t.log| < |u.log| && u.log[..|t.log|] == t.log && u.log[|t.log|] == Sent(End1, Stop)
  {
    JoinFrom(t.(log := t.log + [Sent(End1, Stop)]), 0, exits)
  }

  /** The stop message is written on end 1, whose peer, end 0, only the Discord bot is created with. */
  lemma StopReachesDiscord()
    ensures forall r :: Peer(End1) in SpecOf(r).args <==> r == Discord
  {
  }

  /** Joining one process leaves the others alone. */
  lemma JoinOthers(t: Table, r: Role, exits: Role -> int)
    requires Complete(t.handles) && !t.handles[r].status.Created?
    ensures Complete(Join(t, r, exits).handles)
    ensures forall s :: s != r ==> Join(t, r, exits).handles[s] == t.handles[s]
  {
  }

  /** What joining does to one process: it ends, keeping an exit code it already had. */
  lemma JoinEffect(t: Table, r: Role, exits: Role -> int, debug: bool)
    requires Wf(t, debug) && !t.handles[r].status.Created?
    ensures var u := Join(t, r, exits);
      Wf(u, debug)
      && (forall s :: s != r ==> u.handles[s] == t.handles[s])
      && u.handles[r].id == t.handles[r].id && u.handles[r].status.Exited?
      && (t.handles[r].status.Exited? ==> u.handles[r].status == t.handles[r].status)
      && u.log == t.log + [Joined(r, t.handles[r].id, u.handles[r].status.code)]
  {
    var u := Join(t, r, exits);
    var h := u.handles[r];
    Install(t, r, h, t.nextId, u.log, debug);
    assert forall s :: s != r ==> u.handles[s] == t.handles[s];
  }

  /** Shutdown keeps the table well formed. */
  lemma {:induction false} ShutdownWf(t: Table, exits: Role -> int, debug: bool)
    requires Wf(t, debug)
    ensures Wf(AfterShutdown(t, exits), debug)
  {
    var t0 := t.(log := t.log + [Sent(End1, Stop)]);
    var t1 := Join(t0, Discord, exits);
    var t2 := Join(t1, Telegram, exits);
    var t3 := Join(t2, Reddit, exits);
    var t4 := if debug then t3.(log := t3.log + [JoinRefused(Stats, t3.handles[Stats].id)])
              else Join(t3, Stats, exits);
    assert AfterShutdown(t, exits) == t4 by {
      JoinOthers(t0, Discord, exits);
      JoinOthers(t1, Telegram, exits);
      JoinOthers(t2, Reddit, exits);
    }
    assert Wf(t1, debug) by { JoinEffect(t0, Discord, exits, debug); }
    assert Wf(t2, debug) by { JoinEffect(t1, Telegram, exits, debug); }
    assert Wf(t3, debug) by { JoinEffect(t2, Reddit, exits, debug); }
    assert Wf(t4, debug) by {
      if !debug {
        JoinEffect(t3, Stats, exits, debug);
      }
    }
  }

  /**
   On shutdown the stop message is sent before any join. Outside debug mode all
   four processes are then joined, in poll order. In debug mode the three bots
   are joined and the join of the never-started stats updater raises, as the
   last event.
   */
  lemma {:induction false} ShutdownLog(t: Table, exits: Role -> int, debug: bool)
    requires Wf(t, debug)
    ensures var h := t.handles;
      AfterShutdown(t, exits).log
        == t.log + [Sent(End1, Stop),
                    Joined(Discord, h[Discord].id, EndCode(h[Discord], Discord, exits)),
                    Joined(Telegram, h[Telegram].id, EndCode(h[Telegram], Telegram, exits)),
                    Joined(Reddit, h[Reddit].id, EndCode(h[Reddit], Reddit, exits)),
                    if debug then JoinRefused(Stats, h[Stats].id)
                    else Joined(Stats, h[Stats].id, EndCode(h[Stats], Stats, exits))]
  {
    var t0 := t.(log := t.log + [Sent(End1, Stop)]);
    var t1 := Join(t0, Discord, exits);
    JoinOthers(t0, Discord, exits);
    var t2 := Join(t1, Telegram, exits);
    JoinOthers(t1, Telegram, exits);
    var t3 := Join(t2, Reddit, exits);
    JoinOthers(t2, Reddit, exits);
    var h := t.handles;
    assert t3.log == t.log + [Sent(End1, Stop),
                              Joined(Discord, h[Discord].id, EndCode(h[Discord], Discord, exits)),
                              Joined(Telegram, h[Telegram].id, EndCode(h[Telegram], Telegram, exits)),
                              Joined(Reddit, h[Reddit].id, EndCode(h[Reddit], Reddit, exits))];
    assert t3.handles[Stats] == h[Stats];
    assert AfterShutdown(t, exits) == JoinFrom(t3, 3, exits);
  }

  /**
   After shutdown every process has ended, with the exit code it already had or
   the one it ended with, except the stats updater in debug mode, which was
   never started; no process is replaced.
   */
  lemma {:induction false} ShutdownHandles(t: Table, exits: Role -> int, debug: bool, r: Role)
    requires Wf(t, debug)
    ensures AfterShutdown(t, exits).handles[r]
              == if r == Stats && debug then t.handles[r]
                 else t.handles[r].(status := Exited(EndCode(t.handles[r], r, exits)))
  {
    var t0 := t.(log := t.log + [Sent(End1, Stop)]);
    var t1 := Join(t0, Discord, exits);
    JoinOthers(t0, Discord, exits);
    var t2 := Join(t1, Telegram, exits);
    JoinOthers(t1, Telegram, exits);
    var t3 := Join(t2, Reddit, exits);
    JoinOthers(t2, Reddit, exits);
    var u := AfterShutdown(t, exits);
    var t4 := if debug then t3.(log := t3.log + [JoinRefused(Stats, t3.handles[Stats].id)])
              else Join(t3, Stats, exits);
    assert u == t4;
    if !debug {
      JoinOthers(t3, Stats, exits);
    }
    match r
    case Discord =>
      assert u.handles[r] == t1.handles[r];
    case Telegram =>
      assert u.handles[r] == t2.handles[r] && t1.handles[r] == t.handles[r];
    case Reddit =>
      assert u.handles[r] == t3.handles[r] && t2.handles[r] == t.handles[r];
    case Stats =>
      assert t3.handles[r] == t.handles[r];
  }

  // ---------------------------------------------------------------------------
  // The supervisor
  // ---------------------------------------------------------------------------

  /**
   The main block of `bots.py`, with the four process objects it holds as
   globals and the log of what it has done.
   */
  class Supervisor {
    /** Python's `__debug__`: true unless the interpreter runs with `-O`. */
    const debug: bool
    var handles: map<Role, Handle>
    var nextId: nat
    var log: seq<Event>

    function Snapshot(): Table
      reads this
    {
      Table(handles, nextId, log)
    }

    predicate Valid()
      reads this
    {
      Wf(Snapshot(), debug)
    }

    /** Creates the pipe and the four processes, then starts them (the stats updater only outside debug mode). */
    constructor(debug: bool)
      ensures this.debug == debug && Valid()
      ensures Snapshot() == AfterStartup(debug)
    {
      this.debug := debug;
      var t := Initial();
      handles, nextId, log := t.handles, t.nextId, t.log;
      new;
      StartupState(debug);
      StartProcess(Discord);
      StartProcess(Telegram);
      StartProcess(Reddit);
      if !debug {
        StartProcess(Stats);
      } else {
        log := log + [StatsDisabled];
      }
    }

    /** `process.start()`. */
    method StartProcess(r: Role)
      requires r in handles
      modifies this
      ensures Snapshot() == Start(old(Snapshot()), r)
    {
      var h := handles[r];
      handles := handles[r := h.(status := Running)];
      log := log + [Started(r, h.id)];
    }

    /** The operating system's step: a running process ends with some exit code. */
    method ProcessExit(r: Role, code: int)
      requires Valid() && handles[r].status.Running?
      modifies this
      ensures Valid()
      ensures handles == old(handles)[r := old(handles)[r].(status := Exited(code))]
      ensures nextId == old(nextId) && log == old(log)
    {
      handles := handles[r := handles[r].(status := Exited(code))];
      assert forall s: Role :: s != r ==> handles[s] == old(handles)[s];
    }

    /** One `if process.exitcode is not None:` block of the poll loop. */
    method Revive(r: Role)
      requires Valid() && (r != Stats || !debug)
      modifies this
      ensures Snapshot() == Restarted(old(Snapshot()), r)
      ensures Valid()
    {
      ghost var t := Snapshot();
      RestartEffect(t, r, debug);
      var h := handles[r];
      if h.status.Exited? {
        log := log + [ExitNoticed(r, h.id, h.status.code)];
        handles := handles[r := Handle(nextId, SpecOf(r), Created)];
        nextId := nextId + 1;
        StartProcess(r);
        assert handles == t.handles[r := Handle(t.nextId, SpecOf(r), Running)];
      }
    }

    /** One pass of the `while True:` loop. */
    method Poll()
      requires Valid()
      modifies this
      ensures Valid()
      ensures Snapshot() == AfterPoll(old(Snapshot()), debug)
    {
      ghost var checked := CheckAll(Snapshot(), Checked(debug));
      ghost var todo := Checked(debug);
      Revive(Discord);
      todo := todo[1..];
      assert checked == CheckAll(Snapshot(), todo);
      Revive(Telegram);
      todo := todo[1..];
      assert checked == CheckAll(Snapshot(), todo);
      Revive(Reddit);
      todo := todo[1..];
      assert checked == CheckAll(Snapshot(), todo);
      if !debug {
        Revive(Stats);
        todo := todo[1..];
        assert checked == CheckAll(Snapshot(), todo);
      }
      assert todo == [];
      log := log + [Slept(PollInterval)];
    }

    /** One `process.join()`: `false` when the process was never started and the join raises. */
    method JoinProcess(r: Role, exits: Role -> int) returns (joined: bool)
      requires Valid()
      modifies this
      ensures Valid()
      ensures joined <==> !old(handles)[r].status.Created?
      ensures joined ==> Snapshot() == Join(old(Snapshot()), r, exits)
      ensures !joined ==> Snapshot() == old(Snapshot()).(log := old(log) + [JoinRefused(r, old(handles)[r].id)])
    {
      var h := handles[r];
      if h.status.Created? {
        log := log + [JoinRefused(r, h.id)];
        return false;
      }
      JoinEffect(Snapshot(), r, exits, debug);
      var code := if h.status.Exited? then h.status.code else exits(r);
      handles := handles[r := h.(status := Exited(code))];
      log := log + [Joined(r, h.id, code)];
      joined := true;
    }

    /** The `except KeyboardInterrupt:` block, entered between two poll passes. */
    method Shutdown(exits: Role -> int)
      requires Valid()
      modifies this
      ensures Valid()
      ensures Snapshot() == AfterShutdown(old(Snapshot()), exits)
    {
      ghost var t := Snapshot();
      log := log + [Sent(End1, Stop)];
      assert PollOrder[1..] == [Telegram, Reddit, Stats];
      assert PollOrder[1..][1..] == [Reddit, Stats];
      assert PollOrder[1..][1..][1..] == [Stats];
      var joined := JoinProcess(Discord, exits);
      if !joined {
        return;
      }
      joined := JoinProcess(Telegram, exits);
      if !joined {
        return;
      }
      joined := JoinProcess(Reddit, exits);
      if !joined {
        return;
      }
      joined := JoinProcess(Stats, exits);
    }
  }
}
