/**
 * The dialog notification clock: a push after four minutes without interaction,
 * which keepalives defer, but never past fifteen minutes from the showing.
 *
 * Times are milliseconds. `dialogTimers` is what the program remembers; `live` is
 * what the event loop still has armed. Every dialog ever shown keeps its place in
 * `dialogs`, with what became of it.
 */
module AttentionNotify {
  const NOTIFY_DELAY_MS := 4 * 60 * 1000
  const MAX_NOTIFY_DEFERRAL_MS := 15 * 60 * 1000

  datatype Fate = Waiting | Attempted(at: int) | Cancelled(at: int)

  /** `lastActivity` is the showing, or the last keepalive that found it waiting. */
  datatype Dialog = Dialog(conversation: string, shownAt: int, lastActivity: int, fate: Fate)

  datatype DialogTimer = DialogTimer(token: nat, shownAt: int, dialog: nat)

  datatype Armed = Armed(conversation: string, deadline: int, dialog: nat)

  /** `pushes` are the attempts that the debounce gate let through. */
  datatype Notifier = Notifier(
    now: int, dialogTimers: map<string, DialogTimer>, live: map<nat, Armed>, nextToken: nat,
    dialogs: seq<Dialog>, pushes: seq<nat>)

  function Start(now: int): Notifier {
    Notifier(now, map[], map[], 0, [], [])
  }

  function Min(a: int, b: int): int {
    if a <= b then a else b
  }

  function Max(a: int, b: int): int {
    if a >= b then a else b
  }

  /** When the push for a dialog is due. */
  function Due(d: Dialog): int {
    Min(d.lastActivity + NOTIFY_DELAY_MS, d.shownAt + MAX_NOTIFY_DEFERRAL_MS)
  }

  // ---------- the operations ----------

  function Arm(n: Notifier, conversation: string, shownAt: int, delayMs: int, dialog: nat): Notifier {
    n.(live := n.live[n.nextToken := Armed(conversation, n.now + delayMs, dialog)],
       dialogTimers := n.dialogTimers[conversation := DialogTimer(n.nextToken, shownAt, dialog)],
       nextToken := n.nextToken + 1)
  }

  function SetFate(dialogs: seq<Dialog>, k: nat, fate: Fate): seq<Dialog> {
    if k < |dialogs| then dialogs[k := dialogs[k].(fate := fate)] else dialogs
  }

  function Cancel(n: Notifier, conversation: string): Notifier {
    if conversation !in n.dialogTimers then n
    else
      var timer := n.dialogTimers[conversation];
      n.(live := n.live - {timer.token}, dialogTimers := n.dialogTimers - {conversation},
         dialogs := SetFate(n.dialogs, timer.dialog, Cancelled(n.now)))
  }

  function Schedule(n: Notifier, conversation: string): Notifier {
    var c := Cancel(n, conversation);
    var armed := Arm(c, conversation, c.now, NOTIFY_DELAY_MS, |c.dialogs|);
    armed.(dialogs := armed.dialogs + [Dialog(conversation, n.now, n.now, Waiting)])
  }

  function Touch(dialogs: seq<Dialog>, k: nat, now: int): seq<Dialog> {
    if k < |dialogs| then dialogs[k := dialogs[k].(lastActivity := now)] else dialogs
  }

  function Keepalive(n: Notifier, conversation: string): Notifier {
    if conversation !in n.dialogTimers then n
    else
      var timer := n.dialogTimers[conversation];
      var ceiling := timer.shownAt + MAX_NOTIFY_DEFERRAL_MS;
      var delayMs := Max(0, Min(NOTIFY_DELAY_MS, ceiling - n.now));
      Arm(n.(live := n.live - {timer.token}, dialogs := Touch(n.dialogs, timer.dialog, n.now)),
          conversation, timer.shownAt, delayMs, timer.dialog)
  }

  /** A timer fires when it is due; `passes` is the debounce gate's verdict. */
  function Fire(n: Notifier, token: nat, passes: bool): Notifier {
    if token !in n.live || n.now < n.live[token].deadline then n
    else
      var a := n.live[token];
      n.(live := n.live - {token}, dialogTimers := n.dialogTimers - {a.conversation},
         dialogs := SetFate(n.dialogs, a.dialog, Attempted(n.now)),
         pushes := if passes then n.pushes + [a.dialog] else n.pushes)
  }

  /** Due timers fire before later events: time does not pass a live deadline. */
  ghost predicate MayAdvance(n: Notifier, to: int) {
    n.now <= to && forall t | t in n.live :: to <= n.live[t].deadline
  }

  datatype Event =
    | Show(conversation: string)
    | Keep(conversation: string)
    | Resolve(conversation: string)
    | Timer(token: nat, passes: bool)
    | Advance(to: int)

  ghost function Step(n: Notifier, e: Event): Notifier {
    match e
    case Show(conversation) => Schedule(n, conversation)
    case Keep(conversation) => Keepalive(n, conversation)
    case Resolve(conversation) => Cancel(n, conversation)
    case Timer(token, passes) => Fire(n, token, passes)
    case Advance(to) => if MayAdvance(n, to) then n.(now := to) else n
  }

  ghost function Run(start: int, trace: seq<Event>): Notifier {
    if trace == [] then Start(start) else Step(Run(start, trace[..|trace| - 1]), trace[|trace| - 1])
  }

  // ---------- the invariant ----------

  /** Program memory and event loop agree: one live timer per conversation. */
  ghost predicate TimersMatch(n: Notifier) {
    && (forall c | c in n.dialogTimers :: n.dialogTimers[c].token in n.live
                                          && n.live[n.dialogTimers[c].token].conversation == c
                                          && n.live[n.dialogTimers[c].token].dialog == n.dialogTimers[c].dialog)
    && (forall t | t in n.live :: t < n.nextToken && n.live[t].conversation in n.dialogTimers
                                  && n.dialogTimers[n.live[t].conversation].token == t)
  }

  /** The timer of a conversation belongs to a waiting dialog and is armed for when
      that dialog is due, which is not past. */
  ghost predicate TimerGood(n: Notifier, conversation: string)
    requires TimersMatch(n)
  {
    conversation in n.dialogTimers ==>
      var timer := n.dialogTimers[conversation];
      timer.dialog < |n.dialogs| &&
      var d := n.dialogs[timer.dialog];
      && d.conversation == conversation && d.fate == Waiting && d.shownAt == timer.shownAt
      && d.shownAt <= d.lastActivity <= n.now <= Due(d)
      && n.live[timer.token].deadline == Due(d)
  }

  /** Every dialog shown is waiting with its timer, was attempted exactly when due,
      or was cancelled no later. */
  ghost predicate DialogGood(n: Notifier, k: nat) {
    k < |n.dialogs| ==>
      var d := n.dialogs[k];
      && d.shownAt <= d.lastActivity
      && match d.fate
         case Waiting => d.conversation in n.dialogTimers && n.dialogTimers[d.conversation].dialog == k
         case Attempted(at) => at == Due(d)
         case Cancelled(at) => d.lastActivity <= at <= Due(d)
  }

  /** A push is for an attempted dialog, and no dialog is pushed twice. */
  ghost predicate PushesGood(n: Notifier) {
    && (forall i :: 0 <= i < |n.pushes| ==> n.pushes[i] < |n.dialogs| && n.dialogs[n.pushes[i]].fate.Attempted?)
    && (forall i, j :: 0 <= i < j < |n.pushes| ==> n.pushes[i] != n.pushes[j])
  }

  ghost predicate Good(n: Notifier) {
    && PushesGood(n)
    && TimersMatch(n)
    && (forall c :: TimerGood(n, c))
    && (forall k: nat :: DialogGood(n, k))
  }

  // ---------- what every step keeps ----------

  lemma CancelMatchesTimers(n: Notifier, conversation: string)
    requires TimersMatch(n)
    ensures TimersMatch(Cancel(n, conversation)) && conversation !in Cancel(n, conversation).dialogTimers
  {
  }

  lemma ArmMatchesTimers(n: Notifier, conversation: string, shownAt: int, delayMs: int, dialog: nat)
    requires conversation !in n.dialogTimers && TimersMatch(n)
    ensures TimersMatch(Arm(n, conversation, shownAt, delayMs, dialog))
  {
  }

  lemma CancelKeepsGood(n: Notifier, conversation: string)
    requires Good(n)
    ensures Good(Cancel(n, conversation))
  {
    var r := Cancel(n, conversation);
    CancelMatchesTimers(n, conversation);
    assert TimerGood(n, conversation);
    forall c ensures TimerGood(r, c) { assert TimerGood(n, c); }
    forall k: nat ensures DialogGood(r, k) { assert DialogGood(n, k); }
  }

  lemma ScheduleKeepsGood(n: Notifier, conversation: string)
    requires Good(n)
    ensures Good(Schedule(n, conversation))
  {
    var m := Cancel(n, conversation);
    CancelKeepsGood(n, conversation);
    CancelMatchesTimers(n, conversation);
    FreshKeepsGood(m, conversation);
  }

  lemma FreshKeepsGood(m: Notifier, conversation: string)
    requires Good(m) && conversation !in m.dialogTimers
    ensures Good(Arm(m, conversation, m.now, NOTIFY_DELAY_MS, |m.dialogs|)
                 .(dialogs := m.dialogs + [Dialog(conversation, m.now, m.now, Waiting)]))
  {
    var armed := Arm(m, conversation, m.now, NOTIFY_DELAY_MS, |m.dialogs|);
    var r := armed.(dialogs := m.dialogs + [Dialog(conversation, m.now, m.now, Waiting)]);
    ArmMatchesTimers(m, conversation, m.now, NOTIFY_DELAY_MS, |m.dialogs|);
    assert TimersMatch(r);
    forall c ensures TimerGood(r, c) { assert TimerGood(m, c); }
    forall k: nat ensures DialogGood(r, k) { assert DialogGood(m, k); }
  }

  lemma KeepaliveKeepsGood(n: Notifier, conversation: string)
    requires Good(n)
    ensures Good(Keepalive(n, conversation))
  {
    if conversation in n.dialogTimers {
      var r := Keepalive(n, conversation);
      var timer := n.dialogTimers[conversation];
      assert TimerGood(n, conversation);
      KeepaliveMatchesTimers(n, conversation);
      forall c ensures TimerGood(r, c) { assert TimerGood(n, c); }
      forall k: nat ensures DialogGood(r, k) { assert DialogGood(n, k); }
    }
  }

  lemma KeepaliveMatchesTimers(n: Notifier, conversation: string)
    requires TimersMatch(n)
    ensures TimersMatch(Keepalive(n, conversation))
  {
  }

  lemma FireKeepsGood(n: Notifier, token: nat, passes: bool)
    requires Good(n)
    ensures Good(Fire(n, token, passes))
  {
    if token in n.live && n.live[token].deadline <= n.now {
      var r, a := Fire(n, token, passes), n.live[token];
      assert TimerGood(n, a.conversation);
      FireMatchesTimers(n, token, passes);
      forall c ensures TimerGood(r, c) { assert TimerGood(n, c); }
      forall k: nat ensures DialogGood(r, k) { assert DialogGood(n, k); }
    }
  }

  lemma FireMatchesTimers(n: Notifier, token: nat, passes: bool)
    requires TimersMatch(n)
    ensures TimersMatch(Fire(n, token, passes))
  {
  }

  lemma AdvanceKeepsGood(n: Notifier, to: int)
    requires Good(n) && MayAdvance(n, to)
    ensures Good(n.(now := to))
  {
    var r := n.(now := to);
    assert TimersMatch(r);
    forall c ensures TimerGood(r, c) { assert TimerGood(n, c); }
    forall k: nat ensures DialogGood(r, k) { assert DialogGood(n, k); }
  }

  lemma StepKeepsGood(n: Notifier, e: Event)
    requires Good(n)
    ensures Good(Step(n, e))
  {
    hide Good;
    match e
    case Show(conversation) => ScheduleKeepsGood(n, conversation);
    case Keep(conversation) => KeepaliveKeepsGood(n, conversation);
    case Resolve(conversation) => CancelKeepsGood(n, conversation);
    case Timer(token, passes) => FireKeepsGood(n, token, passes);
    case Advance(to) => if MayAdvance(n, to) { AdvanceKeepsGood(n, to); }
  }

  lemma {:induction false} RunIsGood(start: int, trace: seq<Event>)
    ensures Good(Run(start, trace))
  {
    if trace != [] {
      RunIsGood(start, trace[..|trace| - 1]);
      StepKeepsGood(Run(start, trace[..|trace| - 1]), trace[|trace| - 1]);
    }
  }

  // ---------- what it means ----------

  /** At most one timer per conversation is live. */
  lemma OneTimerPerConversation(start: int, trace: seq<Event>, t: nat, u: nat)
    requires t in Run(start, trace).live && u in Run(start, trace).live
    requires Run(start, trace).live[t].conversation == Run(start, trace).live[u].conversation
    ensures t == u
  {
    RunIsGood(start, trace);
  }

  /** No dialog is pushed twice, and none that was not attempted. */
  lemma OnePushPerDialog(start: int, trace: seq<Event>)
    ensures PushesGood(Run(start, trace))
  {
    RunIsGood(start, trace);
  }

  /** All that can happen to a waiting dialog in one step, and when. */
  lemma WhatHappensToAWaitingDialog(n: Notifier, e: Event, k: nat)
    requires Good(n) && k < |n.dialogs| && n.dialogs[k].fate == Waiting
    ensures k < |Step(n, e).dialogs|
    ensures var d := n.dialogs[k];
            Step(n, e).dialogs[k]
            == match e
               case Show(c) => if c == d.conversation then d.(fate := Cancelled(n.now)) else d
               case Resolve(c) => if c == d.conversation then d.(fate := Cancelled(n.now)) else d
               case Keep(c) => if c == d.conversation then d.(lastActivity := n.now) else d
               case Timer(t, _) => if t in n.live && n.live[t].dialog == k && n.now >= Due(d)
                                   then d.(fate := Attempted(n.now)) else d
               case Advance(_) => d
  {
    assert DialogGood(n, k);
    var d := n.dialogs[k];
    assert TimerGood(n, d.conversation);
    match e
    case Show(c) => assert TimerGood(n, c);
    case Resolve(c) => assert TimerGood(n, c);
    case Keep(c) => assert TimerGood(n, c);
    case Timer(t, _) => if t in n.live { assert TimerGood(n, n.live[t].conversation); }
    case Advance(_) =>
  }

  /** What a dialog's record may become: settled records stay as they are, and the
      due time of a waiting one only moves later. */
  ghost predicate Moves(d: Dialog, r: Dialog) {
    && r.conversation == d.conversation && r.shownAt == d.shownAt && Due(d) <= Due(r)
    && (d.fate != Waiting ==> r == d)
  }

  lemma SettledDialogStays(n: Notifier, e: Event, k: nat)
    requires Good(n) && k < |n.dialogs| && n.dialogs[k].fate != Waiting
    ensures k < |Step(n, e).dialogs| && Step(n, e).dialogs[k] == n.dialogs[k]
  {
    match e
    case Show(c) => assert TimerGood(n, c);
    case Resolve(c) => assert TimerGood(n, c);
    case Keep(c) => assert TimerGood(n, c);
    case Timer(t, _) => if t in n.live { assert TimerGood(n, n.live[t].conversation); }
    case Advance(_) =>
  }

  lemma StepMoves(n: Notifier, e: Event, k: nat)
    requires Good(n) && k < |n.dialogs|
    ensures k < |Step(n, e).dialogs| && Moves(n.dialogs[k], Step(n, e).dialogs[k])
  {
    hide Step;
    if n.dialogs[k].fate == Waiting {
      assert DialogGood(n, k) && TimerGood(n, n.dialogs[k].conversation);
      WhatHappensToAWaitingDialog(n, e, k);
    } else {
      SettledDialogStays(n, e, k);
    }
  }

  /** Along every run a keepalive never brings a push forward, and a dialog that was
      attempted or cancelled is never revived. */
  lemma {:induction false} PushesOnlyMoveLater(start: int, past: seq<Event>, future: seq<Event>, k: nat)
    requires k < |Run(start, past).dialogs|
    ensures k < |Run(start, past + future).dialogs|
            && Moves(Run(start, past).dialogs[k], Run(start, past + future).dialogs[k])
  {
    hide Step, Good, Due;
    if future == [] {
      assert past + future == past;
    } else {
      var before, e := future[..|future| - 1], future[|future| - 1];
      PushesOnlyMoveLater(start, past, before, k);
      assert past + future == (past + before) + [e];
      assert ((past + before) + [e])[..|past + before|] == past + before;
      RunIsGood(start, past + before);
      StepMoves(Run(start, past + before), e, k);
    }
  }

  // ---------- when a dialog was shown and last touched, by the events alone ----------

  ghost function ClockAt(start: int, trace: seq<Event>, j: nat): int
    requires j <= |trace|
  {
    Run(start, trace[..j]).now
  }

  /** The event at `j` showed dialog `k`: the first `k` showings came before it. */
  ghost predicate ShowsDialog(start: int, trace: seq<Event>, k: nat, j: nat) {
    j < |trace| && trace[j].Show? && |Run(start, trace[..j]).dialogs| == k
  }

  /** The event at `j` is the showing of dialog `k`, or a keepalive of its conversation
      that found it waiting. */
  ghost predicate Touches(start: int, trace: seq<Event>, k: nat, j: nat) {
    ShowsDialog(start, trace, k, j)
    || (j < |trace| && trace[j].Keep? &&
        var n := Run(start, trace[..j]);
        k < |n.dialogs| && n.dialogs[k].fate == Waiting && n.dialogs[k].conversation == trace[j].conversation)
  }

  ghost predicate LastTouch(start: int, trace: seq<Event>, k: nat, j: nat) {
    Touches(start, trace, k, j) && forall i :: j < i < |trace| ==> !Touches(start, trace, k, i)
  }

  lemma TouchesSnoc(start: int, before: seq<Event>, e: Event, k: nat, j: nat)
    requires j < |before|
    ensures Touches(start, before + [e], k, j) <==> Touches(start, before, k, j)
    ensures ShowsDialog(start, before + [e], k, j) <==> ShowsDialog(start, before, k, j)
    ensures ClockAt(start, before + [e], j) == ClockAt(start, before, j)
  {
    hide Run;
    assert (before + [e])[..j] == before[..j] && (before + [e])[j] == before[j];
  }

  lemma TouchStaysLast(start: int, before: seq<Event>, e: Event, k: nat, j: nat)
    requires LastTouch(start, before, k, j) && !Touches(start, before + [e], k, |before|)
    ensures LastTouch(start, before + [e], k, j)
  {
    hide Run;
    assert j < |before|;
    hide Touches;
    forall i | j <= i < |before| ensures Touches(start, before + [e], k, i) <==> Touches(start, before, k, i) {
      TouchesSnoc(start, before, e, k, i);
    }
  }

  lemma ShowingsAddDialogs(n: Notifier, e: Event)
    ensures |Step(n, e).dialogs| == |n.dialogs| + if e.Show? then 1 else 0
    ensures e.Show? ==> Step(n, e).dialogs[|n.dialogs|] == Dialog(e.conversation, n.now, n.now, Waiting)
  {}

  /** One event and the times of one dialog. */
  lemma StepTouches(n: Notifier, e: Event, k: nat)
    requires Good(n) && k < |n.dialogs|
    ensures k < |Step(n, e).dialogs|
    ensures var d, r := n.dialogs[k], Step(n, e).dialogs[k];
            && r.shownAt == d.shownAt && r.conversation == d.conversation
            && r.lastActivity == if e.Keep? && d.fate == Waiting && d.conversation == e.conversation
                                 then n.now else d.lastActivity
  {
    hide Step;
    if n.dialogs[k].fate == Waiting {
      WhatHappensToAWaitingDialog(n, e, k);
    } else {
      SettledDialogStays(n, e, k);
    }
  }

  /** Dialog `k` was shown at `s` and last touched at `a`, as its record says. */
  ghost predicate TimesOf(start: int, trace: seq<Event>, k: nat, s: nat, a: nat) {
    && k < |Run(start, trace).dialogs|
    && ShowsDialog(start, trace, k, s) && LastTouch(start, trace, k, a)
    && var d := Run(start, trace).dialogs[k];
       && d.conversation == trace[s].conversation
       && d.shownAt == ClockAt(start, trace, s) && d.lastActivity == ClockAt(start, trace, a)
  }

  lemma RunSnoc(start: int, before: seq<Event>, e: Event)
    ensures Run(start, before + [e]) == Step(Run(start, before), e)
    ensures (before + [e])[..|before|] == before
  {
    hide Step;
    assert (before + [e])[..|before|] == before;
  }

  lemma ShowingTimes(start: int, before: seq<Event>, e: Event)
    requires e.Show?
    ensures TimesOf(start, before + [e], |Run(start, before).dialogs|, |before|, |before|)
  {
    RunSnoc(start, before, e);
    ShowingsAddDialogs(Run(start, before), e);
    hide Run, Step;
  }

  lemma TouchedNow(start: int, before: seq<Event>, e: Event, k: nat)
    ensures ClockAt(start, before + [e], |before|) == Run(start, before).now
    ensures k < |Run(start, before).dialogs| ==>
              (Touches(start, before + [e], k, |before|)
               <==> e.Keep? && var d := Run(start, before).dialogs[k]; d.fate == Waiting && d.conversation == e.conversation)
  {
    RunSnoc(start, before, e);
    hide Run, Step;
  }

  lemma TimesStay(start: int, before: seq<Event>, e: Event, k: nat, s: nat, a: nat) returns (a': nat)
    requires TimesOf(start, before, k, s, a)
    ensures TimesOf(start, before + [e], k, s, a')
  {
    RunIsGood(start, before);
    RunSnoc(start, before, e);
    hide Run, Step, Good;
    StepTouches(Run(start, before), e, k);
    TouchedNow(start, before, e, k);
    assert s < |before| && a < |before|;
    TouchesSnoc(start, before, e, k, s);
    TouchesSnoc(start, before, e, k, a);
    assert (before + [e])[s] == before[s];
    hide ClockAt, ShowsDialog, Touches;
    if Touches(start, before + [e], k, |before|) {
      a' := |before|;
    } else {
      a' := a;
      TouchStaysLast(start, before, e, k, a);
    }
  }

  /** The machine's record of a dialog agrees with the events. */
  lemma {:induction false} DialogTimes(start: int, trace: seq<Event>, k: nat) returns (s: nat, a: nat)
    requires k < |Run(start, trace).dialogs|
    ensures TimesOf(start, trace, k, s, a)
  {
    hide Step, TimesOf;
    assert trace != [];
    var before, e := trace[..|trace| - 1], trace[|trace| - 1];
    assert trace == before + [e];
    ShowingsAddDialogs(Run(start, before), e);
    if k == |Run(start, before).dialogs| {
      ShowingTimes(start, before, e);
      s, a := |before|, |before|;
    } else {
      s, a := DialogTimes(start, before, k);
      a := TimesStay(start, before, e, k, s, a);
    }
  }

  /** Every dialog ever shown is waiting on a live timer for the moment it is due, or
      was attempted at exactly that moment, or was cancelled no later. It was shown by
      the event at `s` and last touched by the event at `a`, and is due at the earlier
      of the latter plus four minutes and the former plus fifteen. */
  lemma EveryDialogIsAccountedFor(start: int, trace: seq<Event>, k: nat) returns (s: nat, a: nat)
    requires k < |Run(start, trace).dialogs|
    ensures ShowsDialog(start, trace, k, s) && LastTouch(start, trace, k, a)
    ensures var n := Run(start, trace); var d := n.dialogs[k];
            var idle, ceiling := ClockAt(start, trace, a) + 240000, ClockAt(start, trace, s) + 900000;
            var due := if idle <= ceiling then idle else ceiling;
            && d.conversation == trace[s].conversation
            && ClockAt(start, trace, s) + 240000 <= due
            && match d.fate
               case Waiting => n.now <= due && exists t :: t in n.live && n.live[t] == Armed(d.conversation, due, k)
               case Attempted(at) => at == due
               case Cancelled(at) => at <= due
  {
    s, a := DialogTimes(start, trace, k);
    RunIsGood(start, trace);
    var n := Run(start, trace);
    var d := n.dialogs[k];
    assert DialogGood(n, k);
    if d.fate.Waiting? {
      assert TimerGood(n, d.conversation);
      assert n.live[n.dialogTimers[d.conversation].token] == Armed(d.conversation, Due(d), k);
    }
  }

  /** Whatever the panel claims, no dialog waits past fifteen minutes. */
  lemma CeilingHolds(start: int, trace: seq<Event>, k: nat)
    requires k < |Run(start, trace).dialogs|
    requires Run(start, trace).now > Run(start, trace).dialogs[k].shownAt + 900000
    ensures !Run(start, trace).dialogs[k].fate.Waiting?
  {
    RunIsGood(start, trace);
    assert DialogGood(Run(start, trace), k) && TimerGood(Run(start, trace), Run(start, trace).dialogs[k].conversation);
  }

  // ---------- pushes, and time passing ----------

  /** The gate lets through what the events say, and nothing is pushed otherwise. */
  lemma PushesOfStep(n: Notifier, e: Event)
    ensures Step(n, e).pushes
         == n.pushes + if e.Timer? && e.passes && e.token in n.live && n.live[e.token].deadline <= n.now
                       then [n.live[e.token].dialog] else []
  {}

  /** The event at `j` is the timer of dialog `k` going off while it waits, with the
      debounce gate open. */
  ghost predicate Rings(start: int, trace: seq<Event>, k: nat, j: nat) {
    j < |trace| && trace[j].Timer? && trace[j].passes &&
    var n := Run(start, trace[..j]);
    && trace[j].token in n.live && n.live[trace[j].token].deadline <= n.now
    && n.live[trace[j].token].dialog == k
  }

  lemma RingsSnoc(start: int, before: seq<Event>, e: Event, k: nat, j: nat)
    requires j < |before|
    ensures Rings(start, before + [e], k, j) <==> Rings(start, before, k, j)
  {
    hide Run;
    assert (before + [e])[..j] == before[..j] && (before + [e])[j] == before[j];
  }

  /** Over any run a dialog is pushed exactly when its timer went off with the gate open. */
  lemma {:induction false} PushedExactly(start: int, trace: seq<Event>, k: nat)
    ensures k in Run(start, trace).pushes <==> exists j: nat :: Rings(start, trace, k, j)
  {
    if trace != [] {
      hide Step;
      var before, e := trace[..|trace| - 1], trace[|trace| - 1];
      var n := Run(start, before);
      PushedExactly(start, before, k);
      PushesOfStep(n, e);
      assert trace == before + [e] && trace[..|before|] == before;
      forall j: nat | j < |before| ensures Rings(start, trace, k, j) <==> Rings(start, before, k, j) {
        RingsSnoc(start, before, e, k, j);
      }
      if exists j: nat :: Rings(start, before, k, j) {
        var j: nat :| Rings(start, before, k, j);
        assert Rings(start, trace, k, j);
      }
      if k in Run(start, trace).pushes && k !in n.pushes {
        assert Rings(start, trace, k, |before|);
      }
      if j: nat :| Rings(start, trace, k, j) {
        if j < |before| { assert Rings(start, before, k, j); }
      }
    }
  }

  /** Nothing gets stuck: at any moment the clock can move on, or some dialog is due and
      the firing of its timer attempts it. */
  lemma ClockMovesOrTimerRings(start: int, trace: seq<Event>, passes: bool)
    ensures var n := Run(start, trace);
            || Step(n, Advance(n.now + 1)).now == n.now + 1
            || exists t :: t in n.live && n.live[t].dialog < |n.dialogs|
                           && Step(n, Timer(t, passes)).dialogs[n.live[t].dialog].fate == Attempted(n.now)
  {
    RunIsGood(start, trace);
    var n := Run(start, trace);
    hide Run;
    if !MayAdvance(n, n.now + 1) {
      var t :| t in n.live && n.live[t].deadline < n.now + 1;
      assert TimerGood(n, n.live[t].conversation);
      assert Fire(n, t, passes).dialogs[n.live[t].dialog].fate == Attempted(n.now);
    }
  }

  // ---------- the module state as an object ----------

  class AttentionNotifier {
    var now: int
    var dialogTimers: map<string, DialogTimer>
    var live: map<nat, Armed>
    var nextToken: nat
    var shown: nat
    ghost var dialogs: seq<Dialog>
    var pushes: seq<nat>

    ghost function View(): Notifier
      reads this
    {
      Notifier(now, dialogTimers, live, nextToken, dialogs, pushes)
    }

    ghost predicate Valid()
      reads this
    {
      Good(View()) && shown == |dialogs|
    }

    constructor (now: int)
      ensures Valid() && View() == Start(now)
    {
      this.now := now;
      dialogTimers, live, nextToken, shown, dialogs, pushes := map[], map[], 0, 0, [], [];
    }

    method ArmDialogTimer(conversation: string, shownAt: int, delayMs: int, dialog: nat)
      modifies this`dialogTimers, this`live, this`nextToken
      ensures View() == Arm(old(View()), conversation, shownAt, delayMs, dialog)
    {
      live := live[nextToken := Armed(conversation, now + delayMs, dialog)];
      dialogTimers := dialogTimers[conversation := DialogTimer(nextToken, shownAt, dialog)];
      nextToken := nextToken + 1;
    }

    method CancelDialogNotify(conversation: string)
      requires Valid()
      modifies this`dialogTimers, this`live, this`dialogs
      ensures Valid() && View() == Cancel(old(View()), conversation)
    {
      StepKeepsGood(View(), Resolve(conversation));
      hide Good;
      if conversation in dialogTimers {
        var timer := dialogTimers[conversation];
        live := live - {timer.token};
        dialogTimers := dialogTimers - {conversation};
        dialogs := SetFate(dialogs, timer.dialog, Cancelled(now));
      }
    }

    method ScheduleDialogNotify(conversation: string)
      requires Valid()
      modifies this
      ensures Valid() && View() == Schedule(old(View()), conversation)
    {
      StepKeepsGood(View(), Show(conversation));
      hide Good;
      CancelDialogNotify(conversation);
      ArmDialogTimer(conversation, now, NOTIFY_DELAY_MS, shown);
      dialogs := dialogs + [Dialog(conversation, now, now, Waiting)];
      shown := shown + 1;
    }

    /** Keepalive. With no live clock to restart it does nothing, so that a fired or
        cancelled dialog is not revived. */
    method ResetDialogNotifyTimer(conversation: string)
      requires Valid()
      modifies this
      ensures Valid() && View() == Keepalive(old(View()), conversation)
    {
      StepKeepsGood(View(), Keep(conversation));
      hide Good;
      if conversation !in dialogTimers { return; }
      var existing := dialogTimers[conversation];
      var ceiling := existing.shownAt + MAX_NOTIFY_DEFERRAL_MS;
      var delayMs := Max(0, Min(NOTIFY_DELAY_MS, ceiling - now));
      live := live - {existing.token};
      dialogs := Touch(dialogs, existing.dialog, now);
      ArmDialogTimer(conversation, existing.shownAt, delayMs, existing.dialog);
    }

    /** The callback of a due timer. */
    method OnTimer(token: nat, passes: bool)
      requires Valid() && token in live && live[token].deadline <= now
      modifies this
      ensures Valid() && View() == Fire(old(View()), token, passes)
    {
      StepKeepsGood(View(), Timer(token, passes));
      hide Good;
      var armed := live[token];
      live := live - {token};
      dialogTimers := dialogTimers - {armed.conversation};
      dialogs := SetFate(dialogs, armed.dialog, Attempted(now));
      if passes { pushes := pushes + [armed.dialog]; }
    }

    method AdvanceClock(to: int)
      requires Valid() && MayAdvance(View(), to)
      modifies this`now
      ensures Valid() && View() == old(View()).(now := to)
    {
      StepKeepsGood(View(), Advance(to));
      hide Good;
      now := to;
    }
  }
}
