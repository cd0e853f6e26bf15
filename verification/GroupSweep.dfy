/**
 * The daemon's sweep of its own process group, against a process table that any other process may
 * change between any two system calls: members fork, exit, leave the group, and their ids are reused.
 *
 * Time is counted in steps, one per system call. `env(t)` is the process table at step `t`, and
 * checking a process's group and signalling it is one step.
 */
module GroupSweep {

  /** An entry of the process table: a process (`owner` is its own id) or a thread of process `owner`. */
  datatype Task = Task(pgid: nat, owner: nat, zombie: bool)

  /** The table, and the order in which a snapshot of it iterates. */
  datatype Table = Table(tasks: map<nat, Task>, order: seq<nat>)

  type Env = nat -> Table

  datatype Sig = Terminate | Kill

  datatype Sent = Sent(pid: nat, sig: Sig, step: nat)

  const GROUP_POLL: nat := 50

  predicate InGroup(table: Table, pid: nat, pgid: nat)
  {
    pid in table.tasks && table.tasks[pid].pgid == pgid
  }

  /** A process that is not a zombie; threads are not processes. */
  predicate LiveProcess(table: Table, pid: nat)
  {
    pid in table.tasks && table.tasks[pid].owner == pid && !table.tasks[pid].zombie
  }

  predicate OwnThread(table: Table, pid: nat, me: nat)
  {
    pid in table.tasks && pid != me && table.tasks[pid].owner == me
  }

  /** Candidate `pid` of the snapshot `table` is listed when the table asked is `now`. */
  predicate Counts(table: Table, now: Table, me: nat, pgid: nat, pid: nat)
  {
    LiveProcess(table, pid) && pid != me && InGroup(now, pid, pgid)
  }

  // ---- the two loops, as functions of the environment ----

  /** Which of the first `i` candidates are listed: those in the group when asked, candidate `k` at step `t + k`. */
  function ListedOf(env: Env, table: Table, me: nat, pgid: nat, t: nat, i: nat): seq<nat>
    requires i <= |table.order|
  {
    if i == 0 then []
    else
      var pid := table.order[i - 1];
      ListedOf(env, table, me, pgid, t, i - 1)
      + if Counts(table, env(t + i - 1), me, pgid, pid) then [pid] else []
  }

  /** The listing begun at step `t`: a snapshot, then one question per candidate. */
  function Listing(env: Env, me: nat, pgid: nat, t: nat): seq<nat>
  {
    ListedOf(env, env(t), me, pgid, t + 1, |env(t).order|)
  }

  function ListingEnd(env: Env, t: nat): nat { t + 1 + |env(t).order| }

  /** What the signalling loop sends to the first `i` of `pids`, `pids[k]` having its turn at step `t + k`. */
  function SentOf(env: Env, pgid: nat, pids: seq<nat>, sig: Sig, t: nat, i: nat): seq<Sent>
    requires i <= |pids|
  {
    if i == 0 then []
    else
      SentOf(env, pgid, pids, sig, t, i - 1)
      + if InGroup(env(t + i - 1), pids[i - 1], pgid) then [Sent(pids[i - 1], sig, t + i - 1)] else []
  }

  function SentTo(env: Env, pgid: nat, pids: seq<nat>, sig: Sig, t: nat): seq<Sent>
  {
    SentOf(env, pgid, pids, sig, t, |pids|)
  }

  // ---- the sweep ----

  datatype Outcome = NotLeader | Swept(terminated: nat, killed: nat)

  /** What a sweep did: whom it listed and when their turns began, and how often it slept. */
  datatype Record = Record(members: seq<nat>, termAt: nat, listAt: nat, left: seq<nat>, killAt: nat, polls: nat)

  /** `sent` is what a sweep started at step `start` sends, and `r` its record. */
  ghost predicate IsSweep(env: Env, me: nat, pgid: nat, start: nat, r: Record, sent: seq<Sent>)
  {
    && r.members == Listing(env, me, pgid, start) && r.termAt == ListingEnd(env, start)
    && r.termAt + |r.members| <= r.listAt
    && r.left == Listing(env, me, pgid, r.listAt) && r.killAt == ListingEnd(env, r.listAt)
    && sent == SentTo(env, pgid, r.members, Terminate, r.termAt) + SentTo(env, pgid, r.left, Kill, r.killAt)
  }

  class Sweeper {
    const env: Env
    const delay: nat -> nat   // how long each step takes, at least
    const me: nat
    const pgid: nat
    var step: nat
    var time: nat
    var log: seq<Sent>

    constructor (env: Env, delay: nat -> nat, me: nat, pgid: nat, step: nat)
      ensures this.env == env && this.delay == delay && this.me == me && this.pgid == pgid
      ensures this.step == step && log == []
    {
      this.env, this.delay, this.me, this.pgid := env, delay, me, pgid;
      this.step, time, log := step, 0, [];
    }

    method Tick()
      modifies this`step, this`time
      ensures step == old(step) + 1 && time >= old(time)
    {
      time := time + delay(step);
      step := step + 1;
    }

    method Sleep()
      modifies this`step, this`time
      ensures step == old(step) + 1 && time >= old(time) + GROUP_POLL
    {
      Tick();
      time := time + GROUP_POLL;
    }

    method GroupMembers() returns (pids: seq<nat>)
      modifies this`step, this`time
      ensures pids == Listing(env, me, pgid, old(step))
      ensures step == ListingEnd(env, old(step)) && time >= old(time)
    {
      var table := env(step);
      Tick();
      ghost var first := step;
      pids := [];
      for i := 0 to |table.order|
        invariant step == first + i && time >= old(time)
        invariant pids == ListedOf(env, table, me, pgid, first, i)
      {
        var pid := table.order[i];
        if Counts(table, env(step), me, pgid, pid) {
          pids := pids + [pid];
        }
        Tick();
      }
    }

    method SignalMembers(pids: seq<nat>, sig: Sig)
      modifies this`step, this`time, this`log
      ensures log == old(log) + SentTo(env, pgid, pids, sig, old(step))
      ensures step == old(step) + |pids| && time >= old(time)
    {
      ghost var first := step;
      for i := 0 to |pids|
        invariant step == first + i && time >= old(time)
        invariant log == old(log) + SentOf(env, pgid, pids, sig, first, i)
      {
        if InGroup(env(step), pids[i], pgid) {
          log := log + [Sent(pids[i], sig, step)];
        }
        Tick();
      }
    }

    /** Waits until the group is empty or the grace is spent; it never starts a sleep after the deadline. */
    method AwaitEmpty(grace: nat) returns (left: seq<nat>, ghost listAt: nat, ghost polls: nat)
      modifies this`step, this`time
      ensures old(step) <= listAt && left == Listing(env, me, pgid, listAt) && step == ListingEnd(env, listAt)
      ensures left == [] || time >= old(time) + grace
      ensures polls == 0 || (polls - 1) * GROUP_POLL < grace
    {
      var deadline := time + grace;
      listAt := step;
      polls := 0;
      left := GroupMembers();
      while left != [] && time < deadline
        invariant old(step) <= listAt && left == Listing(env, me, pgid, listAt) && step == ListingEnd(env, listAt)
        invariant time >= deadline - grace + polls * GROUP_POLL
        invariant polls == 0 || (polls - 1) * GROUP_POLL < grace
        decreases deadline - time
      {
        Sleep();
        polls := polls + 1;
        listAt := step;
        left := GroupMembers();
      }
    }

    /** From the first signal on. */
    method EndMembers(members: seq<nat>, grace: nat) returns (left: seq<nat>, ghost listAt: nat, ghost polls: nat)
      modifies this`step, this`time, this`log
      ensures old(step) + |members| <= listAt && left == Listing(env, me, pgid, listAt)
      ensures log == old(log) + SentTo(env, pgid, members, Terminate, old(step))
                     + SentTo(env, pgid, left, Kill, ListingEnd(env, listAt))
      ensures left != [] ==> time >= old(time) + grace
      ensures polls == 0 || (polls - 1) * GROUP_POLL < grace
    {
      SignalMembers(members, Terminate);
      left, listAt, polls := AwaitEmpty(grace);
      SignalMembers(left, Kill);
    }

    method KillOwnGroup(grace: nat) returns (outcome: Outcome, ghost r: Record)
      modifies this`step, this`time, this`log
      ensures pgid != me ==> outcome == NotLeader && log == old(log)
      ensures pgid == me ==> outcome == Swept(|r.members|, |r.left|) && old(log) <= log
      ensures pgid == me ==> r.members == Listing(env, me, pgid, old(step))
      ensures pgid == me && r.members == [] ==> r.left == [] && log == old(log)
      ensures pgid == me && r.members != [] ==>
                && IsSweep(env, me, pgid, old(step), r, log[|old(log)|..])
                && (r.left != [] ==> time >= old(time) + grace)
                && (r.polls == 0 || (r.polls - 1) * GROUP_POLL < grace)
    {
      r := Record([], 0, 0, [], 0, 0);
      if pgid != me {
        return NotLeader, r;
      }
      var members := GroupMembers();
      ghost var termAt := step;
      r := r.(members := members);
      if members == [] {
        return Swept(0, 0), r;
      }
      var left, listAt, polls := EndMembers(members, grace);
      r := Record(members, termAt, listAt, left, ListingEnd(env, listAt), polls);
      outcome := Swept(|members|, |left|);
      Rest(old(log), SentTo(env, pgid, members, Terminate, termAt), SentTo(env, pgid, left, Kill, r.killAt), log);
    }
  }

  lemma Rest(before: seq<Sent>, first: seq<Sent>, second: seq<Sent>, log: seq<Sent>)
    requires log == before + first + second
    ensures before <= log && log[|before|..] == first + second
  {
  }

  // ---- whom the loops reach ----

  /** A signal is sent exactly to those still in the group at their turn, and at that turn. */
  lemma {:induction false} SentExactly(env: Env, pgid: nat, pids: seq<nat>, sig: Sig, t: nat, i: nat, s: Sent)
    requires i <= |pids|
    ensures s in SentOf(env, pgid, pids, sig, t, i) <==>
              && s.sig == sig && t <= s.step < t + i
              && s.pid == pids[s.step - t] && InGroup(env(s.step), s.pid, pgid)
  {
    if i > 0 {
      SentExactly(env, pgid, pids, sig, t, i - 1, s);
    }
  }

  /** An id is listed exactly when the snapshot has it as a process, not a thread, that is no zombie and not
      the caller, and it is in the group at the step at which it is asked. */
  lemma {:induction false} ListedExactly(env: Env, table: Table, me: nat, pgid: nat, t: nat, i: nat, pid: nat)
    requires i <= |table.order|
    ensures pid in ListedOf(env, table, me, pgid, t, i) <==>
              && pid != me && pid in table.tasks && table.tasks[pid].owner == pid && !table.tasks[pid].zombie
              && exists s :: t <= s < t + i && table.order[s - t] == pid
                             && pid in env(s).tasks && env(s).tasks[pid].pgid == pgid
  {
    if i > 0 {
      ListedExactly(env, table, me, pgid, t, i - 1, pid);
      assert table.order[(t + i - 1) - t] == table.order[i - 1];
    }
  }

  /** A listing holds only live processes other than the caller, each in the group when asked. */
  lemma {:induction false} ListedIs(env: Env, table: Table, me: nat, pgid: nat, t: nat, i: nat, pid: nat)
    requires i <= |table.order|
    requires pid in ListedOf(env, table, me, pgid, t, i)
    ensures pid != me && LiveProcess(table, pid)
    ensures exists s :: t <= s < t + i && InGroup(env(s), pid, pgid)
  {
    if pid in ListedOf(env, table, me, pgid, t, i - 1) {
      ListedIs(env, table, me, pgid, t, i - 1, pid);
    } else {
      assert InGroup(env(t + i - 1), pid, pgid);
    }
  }

  /** A listing misses no live process that stays in the group while it is made. */
  lemma {:induction false} ListedAll(env: Env, table: Table, me: nat, pgid: nat, t: nat, i: nat, pid: nat)
    requires i <= |table.order|
    requires pid in table.order[..i] && pid != me && LiveProcess(table, pid)
    requires forall s :: t <= s < t + i ==> InGroup(env(s), pid, pgid)
    ensures pid in ListedOf(env, table, me, pgid, t, i)
  {
    if pid != table.order[i - 1] {
      assert table.order[..i] == table.order[..i - 1] + [table.order[i - 1]];
      ListedAll(env, table, me, pgid, t, i - 1, pid);
    } else {
      assert InGroup(env(t + i - 1), pid, pgid);
    }
  }

  /** No signal goes to the caller, nor to anything that is not in its group at that moment. */
  lemma SweepStaysInGroup(env: Env, me: nat, pgid: nat, start: nat, r: Record, sent: seq<Sent>, s: Sent)
    requires IsSweep(env, me, pgid, start, r, sent) && s in sent
    ensures s.pid != me && InGroup(env(s.step), s.pid, pgid)
    ensures s.sig == Terminate ==> s.pid in r.members && LiveProcess(env(start), s.pid)
    ensures s.sig == Kill ==> s.pid in r.left && LiveProcess(env(r.listAt), s.pid)
  {
    if s in SentTo(env, pgid, r.members, Terminate, r.termAt) {
      SentExactly(env, pgid, r.members, Terminate, r.termAt, |r.members|, s);
      ListedIs(env, env(start), me, pgid, start + 1, |env(start).order|, s.pid);
    } else {
      SentExactly(env, pgid, r.left, Kill, r.killAt, |r.left|, s);
      ListedIs(env, env(r.listAt), me, pgid, r.listAt + 1, |env(r.listAt).order|, s.pid);
    }
  }

  /** Everything in the last listing that is still in the group at its turn is killed, and nothing else is. */
  lemma KillIsComplete(env: Env, me: nat, pgid: nat, start: nat, r: Record, sent: seq<Sent>, i: nat)
    requires IsSweep(env, me, pgid, start, r, sent) && i < |r.left|
    ensures Sent(r.left[i], Kill, r.killAt + i) in sent <==> InGroup(env(r.killAt + i), r.left[i], pgid)
  {
    var s := Sent(r.left[i], Kill, r.killAt + i);
    SentExactly(env, pgid, r.left, Kill, r.killAt, |r.left|, s);
    SentExactly(env, pgid, r.members, Terminate, r.termAt, |r.members|, s);
  }

  /** A member that never leaves the group is told to end, and is killed if it is alive at the last listing. */
  lemma StayerIsSwept(env: Env, me: nat, pgid: nat, start: nat, r: Record, sent: seq<Sent>, pid: nat)
    requires IsSweep(env, me, pgid, start, r, sent) && pid != me
    requires forall t :: start <= t ==> InGroup(env(t), pid, pgid)
    requires LiveProcess(env(start), pid) && pid in env(start).order
    ensures exists s :: s in sent && s.pid == pid && s.sig == Terminate
    ensures LiveProcess(env(r.listAt), pid) && pid in env(r.listAt).order ==>
              exists s :: s in sent && s.pid == pid && s.sig == Kill
  {
    Reached(env, me, pgid, start, pid, Terminate);
    if LiveProcess(env(r.listAt), pid) && pid in env(r.listAt).order {
      Reached(env, me, pgid, r.listAt, pid, Kill);
    }
  }

  lemma Reached(env: Env, me: nat, pgid: nat, at: nat, pid: nat, sig: Sig)
    requires pid != me && LiveProcess(env(at), pid) && pid in env(at).order
    requires forall t :: at <= t ==> InGroup(env(t), pid, pgid)
    ensures var pids := Listing(env, me, pgid, at);
            exists s :: s in SentTo(env, pgid, pids, sig, ListingEnd(env, at)) && s.pid == pid && s.sig == sig
  {
    hide ListedOf, LiveProcess, InGroup;
    assert env(at).order[..|env(at).order|] == env(at).order;
    ListedAll(env, env(at), me, pgid, at + 1, |env(at).order|, pid);
    var pids := Listing(env, me, pgid, at);
    var i :| 0 <= i < |pids| && pids[i] == pid;
    var end := ListingEnd(env, at);
    SentExactly(env, pgid, pids, sig, end, |pids|, Sent(pid, sig, end + i));
  }

  // ---- the caller's own threads ----

  /** From step `a` to step `b` the caller starts no thread. */
  ghost predicate StartsNoThread(env: Env, me: nat, a: nat, b: nat)
  {
    forall s, t, id :: a <= s <= t < b && OwnThread(env(t), id, me) ==> OwnThread(env(s), id, me)
  }

  /** A caller that starts no thread while it sweeps never signals one of its own. */
  lemma SparesOwnThreads(env: Env, me: nat, pgid: nat, start: nat, r: Record, sent: seq<Sent>, s: Sent)
    requires IsSweep(env, me, pgid, start, r, sent) && s in sent
    requires StartsNoThread(env, me, start, r.killAt + |r.left|)
    ensures !OwnThread(env(s.step), s.pid, me)
  {
    SweepStaysInGroup(env, me, pgid, start, r, sent, s);
    SentExactly(env, pgid, r.members, Terminate, r.termAt, |r.members|, s);
    SentExactly(env, pgid, r.left, Kill, r.killAt, |r.left|, s);
    var listed := if s.sig == Terminate then start else r.listAt;
    assert LiveProcess(env(listed), s.pid) && !OwnThread(env(listed), s.pid, me);
    assert start <= listed <= s.step < r.killAt + |r.left|;
  }

  /** Some id of `pids` is one of the caller's own threads at its turn. */
  ghost predicate TakenByThread(env: Env, me: nat, pids: seq<nat>, t: nat)
  {
    exists s :: t <= s < t + |pids| && OwnThread(env(s), pids[s - t], me)
  }

  /**
   * The group check alone does not keep them safe: a thread is in its process's group, so an own thread
   * is signalled exactly when it has got a listed id by that id's turn.
   */
  lemma OwnThreadSignalledIff(env: Env, me: nat, pgid: nat, start: nat, r: Record, sent: seq<Sent>)
    requires IsSweep(env, me, pgid, start, r, sent)
    requires forall t, id :: OwnThread(env(t), id, me) ==> InGroup(env(t), id, pgid)
    ensures (exists s :: s in sent && OwnThread(env(s.step), s.pid, me)) <==>
              TakenByThread(env, me, r.members, r.termAt) || TakenByThread(env, me, r.left, r.killAt)
  {
    if TakenByThread(env, me, r.members, r.termAt) {
      ThreadTurn(env, me, pgid, r.members, Terminate, r.termAt);
    }
    if TakenByThread(env, me, r.left, r.killAt) {
      ThreadTurn(env, me, pgid, r.left, Kill, r.killAt);
    }
    forall s | s in sent && OwnThread(env(s.step), s.pid, me)
      ensures TakenByThread(env, me, r.members, r.termAt) || TakenByThread(env, me, r.left, r.killAt)
    {
      if s in SentTo(env, pgid, r.members, Terminate, r.termAt) {
        TurnTaken(env, me, pgid, r.members, Terminate, r.termAt, s);
      } else {
        TurnTaken(env, me, pgid, r.left, Kill, r.killAt, s);
      }
    }
  }

  lemma TurnTaken(env: Env, me: nat, pgid: nat, pids: seq<nat>, sig: Sig, t: nat, s: Sent)
    requires s in SentTo(env, pgid, pids, sig, t) && OwnThread(env(s.step), s.pid, me)
    ensures TakenByThread(env, me, pids, t)
  {
    SentExactly(env, pgid, pids, sig, t, |pids|, s);
  }

  lemma ThreadTurn(env: Env, me: nat, pgid: nat, pids: seq<nat>, sig: Sig, t: nat)
    requires TakenByThread(env, me, pids, t)
    requires forall t, id :: OwnThread(env(t), id, me) ==> InGroup(env(t), id, pgid)
    ensures exists s :: s in SentTo(env, pgid, pids, sig, t) && OwnThread(env(s.step), s.pid, me)
  {
    var k :| t <= k < t + |pids| && OwnThread(env(k), pids[k - t], me);
    SentExactly(env, pgid, pids, sig, t, |pids|, Sent(pids[k - t], sig, k));
  }

  /** Process 11 of group 10 exits after it was listed, and the daemon's new thread gets its id. */
  function ReusedByThread(t: nat): Table
  {
    Table(map[10 := Task(10, 10, false), 11 := Task(10, if t < 3 then 11 else 10, false)], [10, 11])
  }

  /** The whole sweep of that history: the group's one member is listed, and the daemon's own thread is
      signalled in its stead. */
  lemma ThreadIsSignalled() returns (r: Record, sent: seq<Sent>)
    ensures IsSweep(ReusedByThread, 10, 10, 0, r, sent)
    ensures sent == [Sent(11, Terminate, 3)] && OwnThread(ReusedByThread(3), 11, 10)
  {
    r := Record([11], 3, 4, [], 7, 0);
    sent := [Sent(11, Terminate, 3)];
    ListedOnce(0);
    ListedOnce(4);
    assert SentOf(ReusedByThread, 10, [11], Terminate, 3, 0) == [];
    assert SentTo(ReusedByThread, 10, [11], Terminate, 3) == sent;
    assert SentTo(ReusedByThread, 10, [], Kill, 7) == [];
  }

  lemma ListedOnce(t: nat)
    requires t == 0 || t == 4
    ensures Listing(ReusedByThread, 10, 10, t) == if t == 0 then [11] else []
    ensures ListingEnd(ReusedByThread, t) == t + 3
  {
    var table := ReusedByThread(t);
    assert ListedOf(ReusedByThread, table, 10, 10, t + 1, 0) == [];
    assert ListedOf(ReusedByThread, table, 10, 10, t + 1, 1) == [];
  }
}
