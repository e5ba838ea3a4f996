/**
 Transaction mode and heartbeat of `AsyncFlowClient`, and the life of an
 `AsyncTransactionSession` on top of it.  Every await can fail; what fails is
 chosen by the environment and handed in.
 */
module TransactionMode {
  import Runs

  datatype Name = Multi | Exec | Discard | Watch | Unwatch | Other
  {
    predicate Control() { !Other? }
    predicate Ending() { Exec? || Discard? }
  }

  /** What became of one pause or resume call: it returned, or it raised with or without effect. */
  datatype Beat = Done | RaisedInVain | RaisedAfterEffect
  {
    predicate Took() { !RaisedInVain? }
    predicate Raised() { !Done? }
  }

  /** What becomes of the awaits of one command. */
  datatype Luck = Luck(pause: Beat, executes: bool, resume: Beat)

  datatype Event = Pause | Resume | Send(name: Name, wrapped: bool) | Invalidate | CloseExecutor

  datatype Client = Client(explicitSession: bool, mode: bool, paused: bool, trace: seq<Event>)

  const NEW_CLIENT := Client(false, false, false, [])

  // ------------------------------------------------ single commands

  function Paused(c: Client, beat: Beat): Client {
    c.(paused := c.paused || beat.Took(), trace := c.trace + [Pause])
  }

  function Resumed(c: Client, beat: Beat): Client {
    c.(paused := c.paused && !beat.Took(), trace := c.trace + [Resume])
  }

  function Executed(c: Client, name: Name): Client {
    c.(trace := c.trace + [Send(name, c.mode && !name.Control())])
  }

  /** `command`: the client afterwards, and whether it returned. */
  function Commanded(c: Client, name: Name, luck: Luck): (Client, bool) {
    if name.Control() && c.explicitSession then (c, false)
    else if name.Multi? && !c.mode then
      var p := Paused(c, luck.pause);
      if luck.pause.Raised() then (p, false)
      else
        var e := Executed(p, name);
        if luck.executes then (e.(mode := true), true) else (Resumed(e, luck.resume), false)
    else
      var e := Executed(c, name);
      if name.Ending() then
        if c.mode then (Resumed(e.(mode := false), luck.resume), luck.executes && !luck.resume.Raised())
        else (e.(mode := false), luck.executes)
      else (e.(mode := e.mode || (name.Multi? && luck.executes)), luck.executes)
  }

  /** `close` of the client. */
  function ClientClosed(c: Client, resume: Beat, closes: bool): (Client, bool) {
    if c.mode && resume.Raised() then (Resumed(c.(mode := false), resume), false)
    else
      var d := if c.mode then Resumed(c.(mode := false), resume) else c;
      (d.(trace := d.trace + [CloseExecutor]), closes)
  }

  /**
   What a command makes the executor do, and when it returns.  A refused control
   command does nothing.  The MULTI that starts a transaction is sent with the
   heartbeat paused and undone if it fails; the EXEC or DISCARD that ends one is
   followed by the resume.  Everything else is sent as it is, wrapped exactly when
   it is a plain command inside a transaction.
   */
  lemma CommandAnswers(c: Client, name: Name, luck: Luck)
    ensures var (d, ok) := Commanded(c, name, luck);
            var refused, starts, ends := !name.Other? && c.explicitSession, name.Multi? && !c.mode, (name.Exec? || name.Discard?) && c.mode;
            && (refused ==> d == c && !ok)
            && (!refused && starts ==>
                  && d.trace == c.trace + (if !luck.pause.Done? then [Pause]
                                           else if luck.executes then [Pause, Send(Multi, false)]
                                           else [Pause, Send(Multi, false), Resume])
                  && (ok <==> luck.pause.Done? && luck.executes) && (d.mode <==> ok))
            && (!refused && ends ==>
                  && d.trace == c.trace + [Send(name, false), Resume] && !d.mode
                  && (ok <==> luck.executes && luck.resume.Done?))
            && (!refused && !starts && !ends ==>
                  && d.trace == c.trace + [Send(name, c.mode && name.Other?)] && d.mode == c.mode && d.paused == c.paused
                  && (ok <==> luck.executes))
  {
  }

  /** Closing inside a transaction resumes the heartbeat first, and stops there if that raises. */
  lemma CloseAnswers(c: Client, resume: Beat, closes: bool)
    ensures var (d, ok) := ClientClosed(c, resume, closes);
            && !d.mode && (ok <==> (c.mode ==> resume.Done?) && closes)
            && d.trace == c.trace + (if !c.mode then [CloseExecutor]
                                     else if resume.Done? then [Resume, CloseExecutor] else [Resume])
  {
  }

  predicate InStep(c: Client) { c.paused == c.mode }

  /** The failures that put mode and heartbeat out of step. */
  predicate Breaks(c: Client, name: Name, luck: Luck) {
    && !(name.Control() && c.explicitSession)
    && if name.Multi? && !c.mode then
         luck.pause.RaisedAfterEffect? || (luck.pause.Done? && !luck.executes && !luck.resume.Took())
       else
         name.Ending() && c.mode && !luck.resume.Took()
  }

  lemma CommandKeepsStep(c: Client, name: Name, luck: Luck)
    requires InStep(c)
    ensures InStep(Commanded(c, name, luck).0) <==> !Breaks(c, name, luck)
  {
  }

  /** A command returns normally in step, whatever the heartbeat did: only raising calls leave it out of step. */
  lemma OnlyRaisingCommandsBreakStep(c: Client, name: Name, luck: Luck)
    requires InStep(c) && Commanded(c, name, luck).1
    ensures InStep(Commanded(c, name, luck).0)
  {
  }

  datatype Call = Call(name: Name, luck: Luck)

  function AfterCalls(c: Client, calls: seq<Call>): Client {
    if calls == [] then c
    else Commanded(AfterCalls(c, calls[..|calls| - 1]), calls[|calls| - 1].name, calls[|calls| - 1].luck).0
  }

  predicate AlwaysInStep(c: Client, calls: seq<Call>) {
    forall k | 0 <= k <= |calls| :: InStep(AfterCalls(c, calls[..k]))
  }

  predicate NeverBreaks(c: Client, calls: seq<Call>) {
    forall k | 0 <= k < |calls| :: !Breaks(AfterCalls(c, calls[..k]), calls[k].name, calls[k].luck)
  }

  lemma PrefixStep(c: Client, calls: seq<Call>, k: nat)
    requires k < |calls|
    ensures AfterCalls(c, calls[..k + 1]) == Commanded(AfterCalls(c, calls[..k]), calls[k].name, calls[k].luck).0
  {
    assert calls[..k + 1][..k] == calls[..k];
  }

  lemma {:induction false} InStepUpTo(c: Client, calls: seq<Call>, k: nat)
    requires InStep(c) && NeverBreaks(c, calls) && k <= |calls|
    ensures InStep(AfterCalls(c, calls[..k]))
    decreases k
  {
    if k > 0 {
      InStepUpTo(c, calls, k - 1);
      PrefixStep(c, calls, k - 1);
      assert !Breaks(AfterCalls(c, calls[..k - 1]), calls[k - 1].name, calls[k - 1].luck);
      CommandKeepsStep(AfterCalls(c, calls[..k - 1]), calls[k - 1].name, calls[k - 1].luck);
    }
  }

  /**
   For every sequence of commands and every failure pattern, the heartbeat is
   paused exactly in transaction mode between all commands if and only if no
   pause raised after taking effect and no resume failed to take effect.
   */
  lemma InStepIffNothingBreaks(c: Client, calls: seq<Call>)
    requires InStep(c)
    ensures AlwaysInStep(c, calls) <==> NeverBreaks(c, calls)
  {
    if NeverBreaks(c, calls) {
      forall k | 0 <= k <= |calls| ensures InStep(AfterCalls(c, calls[..k])) {
        InStepUpTo(c, calls, k);
      }
    }
    if AlwaysInStep(c, calls) {
      forall k | 0 <= k < |calls| ensures !Breaks(AfterCalls(c, calls[..k]), calls[k].name, calls[k].luck) {
        assert InStep(AfterCalls(c, calls[..k])) && InStep(AfterCalls(c, calls[..k + 1]));
        PrefixStep(c, calls, k);
        CommandKeepsStep(AfterCalls(c, calls[..k]), calls[k].name, calls[k].luck);
      }
    }
  }

  /** Either kind of failure, on the first command of a new client, puts it out of step. */
  lemma OneFailureBreaksStep()
    ensures !InStep(AfterCalls(NEW_CLIENT, [Call(Multi, Luck(RaisedAfterEffect, true, Done))]))
    ensures !InStep(AfterCalls(NEW_CLIENT, [Call(Multi, Luck(Done, false, RaisedInVain))]))
  {
    var pause, resume := Call(Multi, Luck(RaisedAfterEffect, true, Done)), Call(Multi, Luck(Done, false, RaisedInVain));
    assert [pause][..0] == [] && [resume][..0] == [];
    assert Breaks(NEW_CLIENT, Multi, pause.luck) && Breaks(NEW_CLIENT, Multi, resume.luck);
    CommandKeepsStep(NEW_CLIENT, Multi, pause.luck);
    CommandKeepsStep(NEW_CLIENT, Multi, resume.luck);
  }

  /** A client left paused outside a transaction stays paused over plain commands: nothing else resumes it. */
  lemma {:induction false} StaysPaused(c: Client, calls: seq<Call>)
    requires c.paused && !c.mode && forall k | 0 <= k < |calls| :: !calls[k].name.Multi?
    ensures AfterCalls(c, calls).paused && !AfterCalls(c, calls).mode
    decreases |calls|
  {
    if calls != [] {
      StaysPaused(c, calls[..|calls| - 1]);
    }
  }

  // ------------------------------------------------ sessions

  datatype Session = Session(active: bool, owns: bool, closed: bool)

  /** A session together with the client it uses, or used last. */
  datatype Pair = Pair(session: Session, client: Client, acquired: nat, closes: nat)

  /** What becomes of the awaits of one session call. */
  datatype Fate = Fate(acquires: bool, owned: bool, watches: bool,
                       watch: Luck, first: Luck, second: Luck, closing: bool)

  /** `_release`: drop the reference, invalidate if asked, close if owned. */
  function Released(p: Pair, invalidate: bool, closing: bool): Pair {
    var c := if invalidate then p.client.(trace := p.client.trace + [Invalidate]) else p.client;
    var s := p.session.(active := false, owns := false);
    if p.session.owns then
      var closed := ClientClosed(c, Done, closing).0;
      Pair(s, closed, p.acquired, p.closes + (if |closed.trace| > 0 && closed.trace[|closed.trace| - 1] == CloseExecutor then 1 else 0))
    else Pair(s, c, p.acquired, p.closes)
  }

  /** The client after the WATCH and MULTI of `__aenter__`, and after the UNWATCH when they failed. */
  function Opened(c: Client, fate: Fate): (Client, bool) {
    var (watched, watchOk) := if fate.watches then Commanded(c, Watch, fate.watch) else (c, true);
    if watchOk then Commanded(watched, Multi, fate.first) else (watched, false)
  }

  function GivenUp(c: Client, fate: Fate): Client {
    if fate.watches then Commanded(c, Unwatch, fate.second).0 else c
  }

  /** `__aenter__`. */
  function Entered(p: Pair, fate: Fate): (Pair, bool) {
    if p.session.closed || p.session.active || !fate.acquires then (p, false)
    else
      var c := if fate.owned then NEW_CLIENT else p.client;
      var q := Pair(Session(true, fate.owned, false), c, p.acquired + (if fate.owned then 1 else 0), p.closes);
      var (d, ok) := Opened(c, fate);
      if ok then (q.(client := d), true)
      else (Released(q.(client := GivenUp(d, fate)), true, fate.closing), false)
  }

  /** The settling command, and the DISCARD that follows an EXEC that failed. */
  function Attempted(c: Client, name: Name, fate: Fate): (Client, bool) {
    var (d, ok) := Commanded(c, name, fate.first);
    if !ok && name.Exec? then (Commanded(d, Discard, fate.second).0, false) else (d, ok)
  }

  /** `execute` (EXEC, then DISCARD when it fails) and `discard` (DISCARD alone). */
  function Settled(p: Pair, name: Name, fate: Fate): (Pair, bool)
    requires name.Ending()
  {
    if !p.session.active then (p, false)
    else
      var q := p.(session := p.session.(closed := true));
      var (c, ok) := Attempted(q.client, name, fate);
      (Released(q.(client := c), !ok, fate.closing), ok)
  }

  datatype SessionAction =
    | Enter(fate: Fate)
    | Command(name: Name, luck: Luck)
    | Settle(exec: bool, fate: Fate)
    | Leave(failed: bool, fate: Fate)

  function SessionStep(p: Pair, a: SessionAction): Pair {
    match a
    case Enter(fate) => Entered(p, fate).0
    case Command(name, luck) =>
      if p.session.active then p.(client := Commanded(p.client, name, luck).0) else p
    case Settle(exec, fate) => Settled(p, if exec then Exec else Discard, fate).0
    case Leave(failed, fate) => if p.session.closed then p else Settled(p, if failed then Discard else Exec, fate).0
  }

  function Stepper(): (Pair, SessionAction) -> Pair { (p: Pair, a: SessionAction) => SessionStep(p, a) }

  predicate SessionInv(p: Pair) {
    && (p.session.active ==> !p.session.closed)
    && (p.session.owns ==> p.session.active)
    && p.acquired == p.closes + (if p.session.owns then 1 else 0)
    && (!p.session.active ==> !p.client.mode)
    && (p.client.explicitSession ==> !p.client.mode)
  }

  /** Settling commands end transaction mode whether they succeed or not. */
  lemma EndingEndsMode(c: Client, name: Name, luck: Luck)
    requires name.Ending() && (c.explicitSession ==> !c.mode)
    ensures var d := Commanded(c, name, luck).0; !d.mode && (d.explicitSession == c.explicitSession)
  {
  }

  lemma AttemptEndsMode(c: Client, name: Name, fate: Fate)
    requires name.Ending() && (c.explicitSession ==> !c.mode)
    ensures !Attempted(c, name, fate).0.mode
  {
    EndingEndsMode(c, name, fate.first);
    EndingEndsMode(Commanded(c, name, fate.first).0, Discard, fate.second);
  }

  function Tail(invalidate: bool, owns: bool): seq<Event> {
    (if invalidate then [Invalidate] else []) + (if owns then [CloseExecutor] else [])
  }

  lemma ReleaseKeeps(p: Pair, invalidate: bool, closing: bool)
    requires p.session.active && !p.client.mode && p.acquired == p.closes + (if p.session.owns then 1 else 0)
    ensures var q := Released(p, invalidate, closing);
            && SessionInv(q) && !q.session.active && q.session.closed == p.session.closed
            && q.closes == q.acquired == p.acquired
            && q.client.trace == p.client.trace + Tail(invalidate, p.session.owns)
  {
  }

  /** Only a MULTI that returns turns transaction mode on. */
  lemma ModeBeforeEnding(c: Client, name: Name, luck: Luck)
    requires !name.Ending()
    ensures var (d, ok) := Commanded(c, name, luck);
            && d.explicitSession == c.explicitSession
            && d.mode == (c.mode || (name.Multi? && ok))
            && (c.explicitSession && !c.mode ==> !d.mode)
  {
  }

  lemma OpenedMode(c: Client, fate: Fate)
    ensures var (d, ok) := Opened(c, fate);
            && d.explicitSession == c.explicitSession && d.mode == (c.mode || ok)
            && (c.explicitSession && !c.mode ==> !d.mode)
            && GivenUp(d, fate).mode == d.mode && GivenUp(d, fate).explicitSession == d.explicitSession
  {
    if fate.watches {
      ModeBeforeEnding(c, Watch, fate.watch);
      ModeBeforeEnding(Commanded(c, Watch, fate.watch).0, Multi, fate.first);
      ModeBeforeEnding(Opened(c, fate).0, Unwatch, fate.second);
    } else {
      ModeBeforeEnding(c, Multi, fate.first);
    }
  }

  lemma EnterKeeps(p: Pair, fate: Fate)
    requires SessionInv(p)
    ensures SessionInv(Entered(p, fate).0)
    ensures var (q, ok) := Entered(p, fate);
            !ok && fate.acquires && !p.session.active && !p.session.closed ==>
              && !q.session.active && !q.client.mode
              && var c := if fate.owned then NEW_CLIENT else p.client;
                 q.client.trace == GivenUp(Opened(c, fate).0, fate).trace + Tail(true, fate.owned)
  {
    if fate.acquires && !p.session.active && !p.session.closed {
      var c := if fate.owned then NEW_CLIENT else p.client;
      var q := Pair(Session(true, fate.owned, false), c, p.acquired + (if fate.owned then 1 else 0), p.closes);
      OpenedMode(c, fate);
      var (d, ok) := Opened(c, fate);
      if !ok { ReleaseKeeps(q.(client := GivenUp(d, fate)), true, fate.closing); }
    }
  }

  /**
   A settled session: mode off, reference gone, an owned client closed last, and
   the connection invalidated just before that exactly when the settling failed.
   */
  lemma SettleKeeps(p: Pair, name: Name, fate: Fate)
    requires SessionInv(p) && name.Ending()
    ensures var (q, ok) := Settled(p, name, fate);
            && SessionInv(q)
            && (p.session.active ==>
                  && q.session == Session(false, false, true) && !q.client.mode && q.closes == q.acquired == p.acquired
                  && q.client.trace == Attempted(p.client, name, fate).0.trace + Tail(!ok, p.session.owns))
  {
    if p.session.active {
      var r := p.(session := p.session.(closed := true));
      AttemptEndsMode(r.client, name, fate);
      var (c, ok) := Attempted(r.client, name, fate);
      ReleaseKeeps(r.(client := c), !ok, fate.closing);
    }
  }

  // ------------------------------------------------ what entering and leaving send

  function Watching(watches: bool, name: Name): seq<Event> { if watches then [Send(name, false)] else [] }

  /** How far an enter that failed got with its MULTI: not to it, to its pause, or to the resume behind it. */
  function GotTo(fate: Fate): seq<Event> {
    if fate.watches && !fate.watch.executes then []
    else if !fate.first.pause.Done? then [Pause]
    else [Pause, Send(Multi, false), Resume]
  }

  /** A session is entered by WATCH, if it watches, and MULTI; it is active exactly when all of that went well. */
  lemma EnterSends(p: Pair, fate: Fate, c: Client)
    requires !p.session.active && !p.session.closed && fate.acquires
    requires c == (if fate.owned then NEW_CLIENT else p.client) && !c.explicitSession && !c.mode
    ensures var (q, ok) := Entered(p, fate);
            && (ok <==> (fate.watches ==> fate.watch.executes) && fate.first.pause.Done? && fate.first.executes)
            && (ok <==> q.session.active) && (ok ==> q.session.owns == fate.owned && q.client.mode)
            && (ok ==> q.client.trace == c.trace + Watching(fate.watches, Watch) + [Pause, Send(Multi, false)])
            && (!ok ==> q.client.trace == c.trace + Watching(fate.watches, Watch) + GotTo(fate)
                                          + Watching(fate.watches, Unwatch) + Tail(true, fate.owned))
  {
    var watched := if fate.watches then Commanded(c, Watch, fate.watch).0 else c;
    assert watched == c.(trace := c.trace + Watching(fate.watches, Watch));
    OpenedMode(c, fate);
    var (d, ok) := Opened(c, fate);
    if ok {
      assert d.trace == watched.trace + [Pause, Send(Multi, false)];
    } else {
      assert d.trace == watched.trace + GotTo(fate);
      assert GivenUp(d, fate).trace == d.trace + Watching(fate.watches, Unwatch);
    }
  }

  /** Nobody enters a session twice, or one that is over. */
  lemma EnterRefused(p: Pair, fate: Fate)
    requires p.session.active || p.session.closed
    ensures Entered(p, fate) == (p, false)
  {
  }

  /** Whether the settling command itself goes well; inside a transaction the resume counts. */
  predicate GoesWell(c: Client, luck: Luck) { luck.executes && (c.mode ==> luck.resume.Done?) }

  /** Everything that settling sends: the command, the resume, the DISCARD behind a failed EXEC, and the clean-up. */
  function Settlement(name: Name, mode: bool, ok: bool, owns: bool): seq<Event> {
    [Send(name, false)] + (if mode then [Resume] else []) + (if !ok && name.Exec? then [Send(Discard, false)] else [])
    + Tail(!ok, owns)
  }

  lemma AttemptSends(c: Client, name: Name, fate: Fate)
    requires name.Ending() && !c.explicitSession
    ensures var (d, ok) := Attempted(c, name, fate);
            && (ok <==> GoesWell(c, fate.first))
            && d.trace == c.trace + [Send(name, false)] + (if c.mode then [Resume] else [])
                          + (if !ok && name.Exec? then [Send(Discard, false)] else [])
  {
    var (e, ok) := Commanded(c, name, fate.first);
    assert e.trace == c.trace + [Send(name, false)] + (if c.mode then [Resume] else []);
  }

  lemma Regroup(s: seq<Event>, a: seq<Event>, b: seq<Event>, c: seq<Event>, d: seq<Event>)
    ensures s + a + b + c + d == s + (a + b + c + d)
  {
  }

  lemma SettleSends(p: Pair, name: Name, fate: Fate)
    requires SessionInv(p) && name.Ending() && p.session.active && !p.client.explicitSession
    ensures var (q, ok) := Settled(p, name, fate);
            && (ok <==> GoesWell(p.client, fate.first))
            && q.client.trace == p.client.trace + Settlement(name, p.client.mode, ok, p.session.owns)
  {
    SettleKeeps(p, name, fate);
    AttemptSends(p.client, name, fate);
    var ok := Settled(p, name, fate).1;
    Regroup(p.client.trace, [Send(name, false)], if p.client.mode then [Resume] else [],
            if !ok && name.Exec? then [Send(Discard, false)] else [], Tail(!ok, p.session.owns));
  }

  predicate Sends(events: seq<Event>, name: Name) { exists e | e in events :: e.Send? && e.name == name }

  lemma SettlementHolds(name: Name, mode: bool, ok: bool, owns: bool, events: seq<Event>)
    requires name.Ending() && events == Settlement(name, mode, ok, owns)
    ensures |events| > 0 && events[0] == Send(name, false)
    ensures Sends(events, Exec) <==> name.Exec?
    ensures Sends(events, Discard) <==> name.Discard? || !ok
    ensures Invalidate in events <==> !ok
    ensures CloseExecutor in events <==> owns
  {
    var rest := Tail(!ok, owns);
    assert forall e | e in rest :: e == Invalidate || e == CloseExecutor;
    assert events[0] == Send(name, false);
    if !ok && name.Exec? {
      assert Send(Discard, false) in events;
    }
    if !ok { assert rest[0] == Invalidate; }
    if owns { assert rest[|rest| - 1] == CloseExecutor; }
  }

  function Added(p: Pair, q: Pair): seq<Event>
    requires |p.client.trace| <= |q.client.trace|
  {
    q.client.trace[|p.client.trace|..]
  }

  /**
   Leaving an open session executes after a block that ended well and discards
   after one that raised, and nothing else is tried first.  EXEC is sent exactly
   after a block that ended well; DISCARD exactly after one that raised and after
   an EXEC that failed; and the connection is invalidated exactly on failure.
   */
  lemma LeaveSends(p: Pair, failed: bool, fate: Fate)
    requires SessionInv(p) && p.session.active && !p.client.explicitSession
    ensures var q := SessionStep(p, Leave(failed, fate));
            && q.session == Session(false, false, true)
            && |p.client.trace| < |q.client.trace| && p.client.trace <= q.client.trace
            && Added(p, q)[0] == Send(if failed then Discard else Exec, false)
            && (Sends(Added(p, q), Exec) <==> !failed)
            && (Sends(Added(p, q), Discard) <==> failed || !GoesWell(p.client, fate.first))
            && (Invalidate in Added(p, q) <==> !GoesWell(p.client, fate.first))
            && (CloseExecutor in Added(p, q) <==> p.session.owns)
  {
    var name := if failed then Discard else Exec;
    SettleKeeps(p, name, fate);
    SettleSends(p, name, fate);
    var ok := Settled(p, name, fate).1;
    var q := SessionStep(p, Leave(failed, fate));
    var added := Settlement(name, p.client.mode, ok, p.session.owns);
    assert Added(p, q) == added;
    SettlementHolds(name, p.client.mode, ok, p.session.owns, added);
  }

  /** Leaving a session that was settled inside its block does nothing more. */
  lemma LeaveSettled(p: Pair, failed: bool, fate: Fate)
    requires p.session.closed
    ensures SessionStep(p, Leave(failed, fate)) == p
  {
  }

  predicate NoExec(c: Client) { !Sends(c.trace, Exec) }

  /** The session calls that may send an EXEC. */
  predicate AsksToExecute(a: SessionAction) {
    (a.Settle? && a.exec) || (a.Leave? && !a.failed) || (a.Command? && a.name.Exec?)
  }

  lemma CommandAddsNoExec(c: Client, name: Name, luck: Luck)
    requires NoExec(c) && !name.Exec?
    ensures NoExec(Commanded(c, name, luck).0)
  {
  }

  lemma ReleaseAddsNoExec(p: Pair, invalidate: bool, closing: bool)
    requires NoExec(p.client)
    ensures NoExec(Released(p, invalidate, closing).client)
  {
  }

  lemma EnterAddsNoExec(p: Pair, fate: Fate)
    requires NoExec(p.client)
    ensures NoExec(Entered(p, fate).0.client)
  {
    if !p.session.closed && !p.session.active && fate.acquires {
      var c := if fate.owned then NEW_CLIENT else p.client;
      var watched := if fate.watches then Commanded(c, Watch, fate.watch).0 else c;
      CommandAddsNoExec(c, Watch, fate.watch);
      CommandAddsNoExec(watched, Multi, fate.first);
      var (d, ok) := Opened(c, fate);
      CommandAddsNoExec(d, Unwatch, fate.second);
      var q := Pair(Session(true, fate.owned, false), c, p.acquired + (if fate.owned then 1 else 0), p.closes);
      ReleaseAddsNoExec(q.(client := GivenUp(d, fate)), true, fate.closing);
    }
  }

  lemma DiscardAddsNoExec(p: Pair, fate: Fate)
    requires NoExec(p.client)
    ensures NoExec(Settled(p, Discard, fate).0.client)
  {
    if p.session.active {
      var q := p.(session := p.session.(closed := true));
      CommandAddsNoExec(p.client, Discard, fate.first);
      var (c, ok) := Attempted(q.client, Discard, fate);
      ReleaseAddsNoExec(q.(client := c), !ok, fate.closing);
    }
  }

  /** In every run, nothing is executed unless a call asked for it: a raised block, a discard or a failed enter never sends EXEC. */
  lemma {:induction false} NothingExecutedUnasked(p: Pair, actions: seq<SessionAction>)
    requires NoExec(p.client) && forall k | 0 <= k < |actions| :: !AsksToExecute(actions[k])
    ensures NoExec(Runs.Run(Stepper(), p, actions).client)
    decreases |actions|
  {
    if actions != [] {
      var n := |actions| - 1;
      NothingExecutedUnasked(p, actions[..n]);
      var q := Runs.Run(Stepper(), p, actions[..n]);
      match actions[n]
      case Enter(fate) => EnterAddsNoExec(q, fate);
      case Command(name, luck) => CommandAddsNoExec(q.client, name, luck);
      case Settle(_, fate) => DiscardAddsNoExec(q, fate);
      case Leave(_, fate) => DiscardAddsNoExec(q, fate);
    }
  }

  /** A client that needs explicit sessions never enters transaction mode by itself. */
  lemma {:induction false} ExplicitStaysOut(c: Client, calls: seq<Call>)
    requires c.explicitSession ==> !c.mode
    ensures var d := AfterCalls(c, calls); d.explicitSession == c.explicitSession && (d.explicitSession ==> !d.mode)
    decreases |calls|
  {
    if calls != [] { ExplicitStaysOut(c, calls[..|calls| - 1]); }
  }

  /** Which transaction a session that is not active can still see: only one that was there before it. */
  predicate Inherited(p: Pair, foreign: bool) {
    && (p.session.active ==> !p.session.closed)
    && (p.session.owns ==> p.session.active)
    && p.acquired == p.closes + (if p.session.owns then 1 else 0)
    && (!p.session.active ==> (p.client.mode <==> foreign && !p.session.closed && p.acquired == 0))
    && (p.client.explicitSession ==> !p.client.mode)
  }

  /** What an enter does, whatever state the shared client is in. */
  lemma EnterInherits(p: Pair, fate: Fate, foreign: bool)
    requires Inherited(p, foreign)
    ensures Inherited(Entered(p, fate).0, foreign)
  {
    if fate.acquires && !p.session.active && !p.session.closed {
      var c := if fate.owned then NEW_CLIENT else p.client;
      OpenedMode(c, fate);
    }
  }

  lemma SettleInherits(p: Pair, name: Name, fate: Fate, foreign: bool)
    requires Inherited(p, foreign) && name.Ending()
    ensures Inherited(Settled(p, name, fate).0, foreign)
  {
    if p.session.active { AttemptEndsMode(p.client, name, fate); }
  }

  lemma SessionStepInherits(p: Pair, a: SessionAction, foreign: bool)
    requires Inherited(p, foreign)
    ensures Inherited(SessionStep(p, a), foreign)
  {
    match a
    case Enter(fate) => EnterInherits(p, fate, foreign);
    case Command(name, luck) =>
    case Settle(exec, fate) => SettleInherits(p, if exec then Exec else Discard, fate, foreign);
    case Leave(failed, fate) => if !p.session.closed { SettleInherits(p, if failed then Discard else Exec, fate, foreign); }
  }

  lemma {:induction false} SessionRunInherits(p: Pair, actions: seq<SessionAction>, foreign: bool)
    requires Inherited(p, foreign)
    ensures Inherited(Runs.Run(Stepper(), p, actions), foreign)
    decreases |actions|
  {
    if actions != [] {
      var front := actions[..|actions| - 1];
      SessionRunInherits(p, front, foreign);
      SessionStepInherits(Runs.Run(Stepper(), p, front), actions[|actions| - 1], foreign);
    }
  }

  /**
   In every run of session calls with every failure pattern, over a shared client
   that any commands have used before: a session that is not active holds no
   client and has closed every owned client it acquired exactly once, and its
   client is in transaction mode if and only if the shared client already was and
   no call of the session got beyond a failed enter on it.
   */
  lemma SessionsEndClean(explicitSession: bool, calls: seq<Call>, actions: seq<SessionAction>)
    ensures var shared := AfterCalls(NEW_CLIENT.(explicitSession := explicitSession), calls);
            var p := Runs.Run(Stepper(), Pair(Session(false, false, false), shared, 0, 0), actions);
            && (p.session.closed ==> !p.session.active)
            && (!p.session.active ==>
                  && !p.session.owns && p.closes == p.acquired
                  && (p.client.mode <==> shared.mode && !p.session.closed && p.acquired == 0))
            && (p.session.active ==> p.acquired == p.closes + (if p.session.owns then 1 else 0))
  {
    var unused := NEW_CLIENT.(explicitSession := explicitSession);
    ExplicitStaysOut(unused, calls);
    var shared := AfterCalls(unused, calls);
    SessionRunInherits(Pair(Session(false, false, false), shared, 0, 0), actions, shared.mode);
  }

  /** A shared client that was already in a transaction keeps it when the session's own MULTI fails. */
  lemma FailedEnterKeepsForeignMode(p: Pair, fate: Fate)
    requires !p.session.active && !p.session.closed && fate.acquires && !fate.owned && !p.client.explicitSession
    requires !Entered(p, fate).1
    ensures Entered(p, fate).0.client.mode == p.client.mode
  {
    OpenedMode(p.client, fate);
  }

  // ------------------------------------------------ the objects

  class AsyncFlowClient {
    const explicitSession: bool
    var transactionMode: bool
    var heartbeatPaused: bool            // the executor's heartbeat
    var trace: seq<Event>                // what the executor was asked to do

    ghost function View(): Client
      reads this
    {
      Client(explicitSession, transactionMode, heartbeatPaused, trace)
    }

    constructor (explicitSession: bool)
      ensures View() == NEW_CLIENT.(explicitSession := explicitSession)
    {
      this.explicitSession := explicitSession;
      transactionMode, heartbeatPaused, trace := false, false, [];
    }

    method SetHeartbeatPaused(pause: bool, beat: Beat) returns (raised: bool)
      modifies this
      ensures View() == (if pause then Paused(old(View()), beat) else Resumed(old(View()), beat))
      ensures raised == beat.Raised()
    {
      if beat.Took() { heartbeatPaused := pause; }
      trace := trace + [if pause then Pause else Resume];
      return beat.Raised();
    }

    method Command(name: Name, luck: Luck) returns (ok: bool)
      modifies this
      ensures (View(), ok) == Commanded(old(View()), name, luck)
      ensures old(InStep(View())) ==> (InStep(View()) <==> !Breaks(old(View()), name, luck))
    {
      var control := name.Control();
      if control && explicitSession { return false; }
      var starting := name.Multi? && !transactionMode;
      var ending := name.Ending() && transactionMode;
      if starting {
        var raised := SetHeartbeatPaused(true, luck.pause);
        if raised { return false; }
      }
      trace := trace + [Send(name, transactionMode && !control)];
      ok := luck.executes;
      if !ok && starting {
        var _ := SetHeartbeatPaused(false, luck.resume);
      }
      if name.Ending() {
        transactionMode := false;
        if ending {
          var raised := SetHeartbeatPaused(false, luck.resume);
          ok := ok && !raised;
        }
      }
      if ok && name.Multi? { transactionMode := true; }
    }

    method Close(resume: Beat, closes: bool) returns (ok: bool)
      modifies this
      ensures (View(), ok) == ClientClosed(old(View()), resume, closes)
    {
      if transactionMode {
        transactionMode := false;
        var raised := SetHeartbeatPaused(false, resume);
        if raised { return false; }
      }
      trace := trace + [CloseExecutor];
      return closes;
    }

    method InvalidateConnection()
      modifies this
      ensures View() == old(View()).(trace := old(trace) + [Invalidate])
    {
      trace := trace + [Invalidate];
    }
  }

  class AsyncTransactionSession {
    const shared: AsyncFlowClient
    const dedicated: bool                // the executor hands out a client of its own for every session
    const watches: bool
    var activeClient: AsyncFlowClient?
    var lastClient: AsyncFlowClient      // the client used last, for the statement of contracts
    var ownsClient: bool
    var closed: bool
    ghost var acquired: nat
    ghost var closes: nat

    ghost predicate Valid()
      reads this
    {
      && (activeClient == null || activeClient == lastClient)
      && (!dedicated ==> lastClient == shared)
    }

    ghost function View(): Pair
      reads this, lastClient
    {
      Pair(Session(activeClient != null, ownsClient, closed), lastClient.View(), acquired, closes)
    }

    constructor (shared: AsyncFlowClient, dedicated: bool, watches: bool)
      ensures Valid() && this.shared == shared == lastClient && this.dedicated == dedicated && this.watches == watches
      ensures View() == Pair(Session(false, false, false), shared.View(), 0, 0)
    {
      this.shared, this.dedicated, this.watches, lastClient := shared, dedicated, watches, shared;
      activeClient, ownsClient, closed, acquired, closes := null, false, false, 0, 0;
    }

    /** `_release`. */
    method Release(invalidate: bool, closing: bool)
      requires Valid() && activeClient != null && (ownsClient ==> !lastClient.transactionMode)
      modifies this, lastClient
      ensures Valid() && lastClient == old(lastClient) && activeClient == null
      ensures View() == Released(old(View()), invalidate, closing)
    {
      var client, owns := activeClient, ownsClient;
      activeClient, ownsClient := null, false;
      if invalidate { client.InvalidateConnection(); }
      if owns {
        var _ := client.Close(Done, closing);
        closes := closes + 1;
      }
    }

    /** `execute` and `discard`. */
    method SettleSession(exec: bool, fate: Fate) returns (ok: bool)
      requires Valid() && SessionInv(View())
      modifies this, lastClient
      ensures Valid() && lastClient == old(lastClient) && SessionInv(View())
      ensures (View(), ok) == Settled(old(View()), if exec then Exec else Discard, fate)
      ensures old(activeClient) != null ==> activeClient == null && closed && !lastClient.transactionMode && closes == acquired
    {
      if activeClient == null { return false; }
      ghost var before := View();
      SettleKeeps(before, if exec then Exec else Discard, fate);
      AttemptEndsMode(before.client, if exec then Exec else Discard, fate);
      closed := true;
      ok := Attempt(exec, fate);
      Release(!ok, fate.closing);
    }

    method Attempt(exec: bool, fate: Fate) returns (ok: bool)
      requires Valid() && activeClient != null
      modifies lastClient
      ensures (lastClient.View(), ok) == Attempted(old(lastClient.View()), if exec then Exec else Discard, fate)
    {
      ok := activeClient.Command(if exec then Exec else Discard, fate.first);
      if !ok && exec { var _ := activeClient.Command(Discard, fate.second); }
    }

    /** `__aexit__`; `failed` says that the block raised. */
    method LeaveSession(failed: bool, fate: Fate) returns (ok: bool)
      requires Valid() && SessionInv(View())
      modifies this, lastClient
      ensures Valid() && lastClient == old(lastClient) && SessionInv(View())
      ensures View() == SessionStep(old(View()), Leave(failed, fate))
      ensures old(closed) ==> ok && View() == old(View())
      ensures old(activeClient) != null ==> activeClient == null && closed && !lastClient.transactionMode && closes == acquired
      ensures old(activeClient) != null && !lastClient.explicitSession ==>
                && (ok <==> GoesWell(old(View()).client, fate.first))
                && |old(lastClient.trace)| < |lastClient.trace| && old(lastClient.trace) <= lastClient.trace
                && lastClient.trace[|old(lastClient.trace)|] == Send(if failed then Discard else Exec, false)
                && (Sends(lastClient.trace[|old(lastClient.trace)|..], Exec) <==> !failed)
    {
      ghost var before := View();
      if closed { return true; }
      if activeClient != null && !lastClient.explicitSession {
        LeaveSends(before, failed, fate);
        SettleSends(before, if failed then Discard else Exec, fate);
      }
      ok := SettleSession(!failed, fate);
    }

    /** `__aenter__`. */
    method EnterSession(fate: Fate) returns (ok: bool)
      requires Valid() && fate.watches == watches && fate.owned == dedicated
      modifies this, lastClient
      ensures Valid() && (old(SessionInv(View())) ==> SessionInv(View()))
      ensures ok ==> activeClient != null && !closed
      ensures (View(), ok) == Entered(old(View()), fate)
    {
      ghost var before := View();
      if SessionInv(before) { EnterKeeps(before, fate); }
      if closed || activeClient != null || !fate.acquires { return false; }
      if fate.owned {
        var client := new AsyncFlowClient(false);
        activeClient, lastClient, acquired := client, client, acquired + 1;
      } else {
        activeClient := shared;
      }
      ownsClient := fate.owned;
      OpenedMode(lastClient.View(), fate);
      ok := true;
      if watches { ok := activeClient.Command(Watch, fate.watch); }
      if ok { ok := activeClient.Command(Multi, fate.first); }
      if !ok {
        if watches { var _ := activeClient.Command(Unwatch, fate.second); }
        Release(true, fate.closing);
      }
    }
  }
}
