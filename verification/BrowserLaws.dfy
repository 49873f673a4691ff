/**
 What the browser sends when it changes profile, what each message does to its log, and which epoch a log belongs to.
 */
module BrowserLaws {
  import opened Common
  import opened WsQueue
  import opened WsBrowser
  import opened StreamRuns

  // ---------- subscriptions ----------

  /** The channels a connection is subscribed to after some commands. */
  function SubscribedAfter(subs: set<Profile>, sent: seq<Command>): set<Profile>
  {
    if sent == [] then subs
    else
      var before := SubscribedAfter(subs, sent[..|sent| - 1]);
      match sent[|sent| - 1]
      case Subscribe(p) => before + {p}
      case Unsubscribe(p) => before - {p}
      case _ => before
  }

  /** The channels a profile listens to. */
  function ChannelsOf(p: Profile): set<Profile> { if p == Hidden then {} else {p} }

  /** The profile a browser wants: one the server cannot serve falls back to the dashboard. */
  function WantedProfile(c: Browser): Profile
  {
    if c.desired == Context && !c.contextCapable then Dashboard else c.desired
  }

  function SwitchCommands(p: Profile, requestedRepair: bool): seq<Command>
  {
    match p
    case Context => [Subscribe(Context), Unsubscribe(Dashboard), Ping]
    case Hidden => [Unsubscribe(Dashboard), Unsubscribe(Context), Ping]
    case Dashboard => [Subscribe(Dashboard), Unsubscribe(Context)] + if requestedRepair then [] else [Resync]
  }

  lemma SentThree(subs: set<Profile>, a: Command, b: Command, c: Command)
    ensures SubscribedAfter(subs, [a, b, c]) == SubscribedAfter(SubscribedAfter(SubscribedAfter(subs, [a]), [b]), [c])
    ensures SubscribedAfter(subs, [a, b]) == SubscribedAfter(SubscribedAfter(subs, [a]), [b])
  {
    assert [a, b, c][..2] == [a, b] && [a, b][..1] == [a] && [a][..0] == [];
  }

  /** The commands of a switch take the server from any one profile to the target, never through no channel at all. */
  lemma SwitchSubscribes(from: Profile, to: Profile, requestedRepair: bool)
    ensures SubscribedAfter(ChannelsOf(from), SwitchCommands(to, requestedRepair)) == ChannelsOf(to)
    ensures to != Hidden && from != Hidden ==>
      SubscribedAfter(ChannelsOf(from), SwitchCommands(to, requestedRepair)[..1]) == ChannelsOf(from) + ChannelsOf(to)
  {
    var sent := SwitchCommands(to, requestedRepair);
    assert sent[..1] == [sent[0]];
    assert [sent[0]][..0] == [] && [sent[1]][..0] == [];
    if |sent| == 3 {
      assert sent == [sent[0], sent[1], sent[2]] && [sent[2]][..0] == [];
      SentThree(ChannelsOf(from), sent[0], sent[1], sent[2]);
    } else {
      assert sent == [sent[0], sent[1]];
      SentThree(ChannelsOf(from), sent[0], sent[1], Ping);
    }
  }

  lemma Appended3(o: seq<Command>, a: Command, b: Command, c: Command)
    ensures o + [a] + [b] == o + [a, b] && o + [a, b] + [c] == o + [a, b, c] && o + [a, b] + [] == o + [a, b]
  {
  }

  lemma Switches(c: Browser)
    requires c.socket == Open && !c.resyncing && Target(c) != c.applied
    ensures var r, to := ApplyProfile(c), Target(c);
      r.outbox == c.outbox + SwitchCommands(to, c.requestedRepair)
      && r.profileBarrier == (to == Context || c.profileBarrier)
      && (to == Dashboard ==> r.requestedRepair && (r.resyncing || c.requestedRepair))
  {
    match Target(c)
    case Context =>
      Appended3(c.outbox, Subscribe(Context), Unsubscribe(Dashboard), Ping);
      assert ApplyProfile(c).outbox == c.outbox + [Subscribe(Context)] + [Unsubscribe(Dashboard)] + [Ping];
    case Hidden =>
      Appended3(c.outbox, Unsubscribe(Dashboard), Unsubscribe(Context), Ping);
      assert ApplyProfile(c).outbox == c.outbox + [Unsubscribe(Dashboard)] + [Unsubscribe(Context)] + [Ping];
    case Dashboard =>
      Appended3(c.outbox, Subscribe(Dashboard), Unsubscribe(Context), Resync);
      var told := c.outbox + [Subscribe(Dashboard)] + [Unsubscribe(Context)];
      assert ApplyProfile(c).outbox == if c.requestedRepair then told else told + [Resync];
      assert [Subscribe(Dashboard), Unsubscribe(Context)] + [Resync]
        == [Subscribe(Dashboard), Unsubscribe(Context), Resync];
      assert [Subscribe(Dashboard), Unsubscribe(Context)] + [] == [Subscribe(Dashboard), Unsubscribe(Context)];
  }

  /**
   Applying a profile. An open browser in sync whose profile is not the wanted one sends exactly the commands of the
   switch; a switch to the context raises the barrier that its pong will lower, and a return to the dashboard has a
   repair outstanding. Any other browser sends nothing and stays as it is.
   */
  lemma ProfileIsNegotiated(c: Browser)
    ensures var r, to := ApplyProfile(c), WantedProfile(c);
      if c.socket == Open && !c.resyncing && c.applied != to then
        && r.applied == to && r.outbox == c.outbox + SwitchCommands(to, c.requestedRepair)
        && r.profileBarrier == (to == Context || c.profileBarrier)
        && (to == Dashboard ==> r.requestedRepair && (r.resyncing || c.requestedRepair))
      else r == c
  {
    ApplyIsApplied(c);
    assert Target(c) == WantedProfile(c);
    hide ApplyProfile, SwitchCommands, Target;
    if c.socket == Open && !c.resyncing && c.applied != WantedProfile(c) { Switches(c); }
  }

  // ---------- messages ----------

  /** The frame is the next patch of the stream a browser in sync is following. */
  predicate IsNext(c: Browser, f: Frame)
  {
    && !c.closed && c.socket != NoSocket && !c.resyncing && f.msg.kind != "state.snapshot"
    && 1 <= f.seqNo <= 0x1f_ffff_ffff_ffff && (c.sequence.Some? ==> f.seqNo == c.sequence.value + 1)
    && (f.msg.kind == "context.snapshot" ==> f.msg.epoch == c.epoch)
  }

  predicate IsBaselineFor(c: Browser, f: Frame)
  {
    && !c.closed && c.socket != NoSocket && 1 <= f.seqNo <= 0x1f_ffff_ffff_ffff
    && f.msg.kind == "state.snapshot" && f.msg.valid
  }

  /** The frame shows that something is wrong: an impossible number, a gap, or a context of another server. */
  predicate IsSuspect(c: Browser, f: Frame)
  {
    && !c.closed && c.socket != NoSocket
    && (f.seqNo < 1 || f.seqNo > 0x1f_ffff_ffff_ffff
      || (f.msg.kind != "state.snapshot" && !c.resyncing && c.sequence.Some?
        && (f.seqNo > c.sequence.value + 1
          || (f.seqNo == c.sequence.value + 1 && f.msg.kind == "context.snapshot" && f.msg.epoch != c.epoch))))
  }

  /** Nothing of the log or of what belongs to its baseline has changed. */
  predicate SameLog(c: Browser, r: Browser)
  {
    && r.consumed == c.consumed && r.view == c.view && r.sequence == c.sequence && r.epoch == c.epoch
    && r.contextCapable == c.contextCapable
  }

  /** A consumed patch, shown unless it is a pong, the page is hidden or the barrier is up. */
  predicate Consumes(c: Browser, f: Frame, r: Browser)
  {
    && r.consumed == c.consumed + [f] && r.sequence == Some(f.seqNo) && r.epoch == c.epoch
    && r.contextCapable == c.contextCapable
    && r.view == (if f.msg.kind == "pong" || c.desired == Hidden || c.profileBarrier then c.view else c.view + [f])
    && r.profileBarrier == (c.profileBarrier && f.msg.kind != "pong") && r.outbox == c.outbox && !r.resyncing
    && r.applied == c.applied
  }

  predicate StartsOver(f: Frame, r: Browser)
  {
    && r.consumed == [f] && r.view == [f] && r.sequence == Some(f.seqNo)
    && r.epoch == f.msg.epoch && r.contextCapable == f.msg.contextCapable
  }

  lemma NextMessage(c: Browser, f: Frame)
    requires IsNext(c, f)
    ensures Consumes(c, f, OnMessage(c, f))
  {
  }

  lemma BaselineMessage(c: Browser, f: Frame)
    requires IsBaselineFor(c, f)
    ensures StartsOver(f, OnMessage(c, f)) && OnMessage(c, f) == ApplyProfile(Reset(c, f))
  {
    ApplyIsApplied(Reset(c, f));
    hide ApplyProfile;
  }

  /** Any other message asks for a repair, closes the browser for good, or changes nothing. */
  lemma OtherOutcome(c: Browser, f: Frame)
    requires !IsNext(c, f) && !IsBaselineFor(c, f) && (!c.resyncing ==> c.sequence.Some?)
    ensures OnMessage(c, f) == if IsSuspect(c, f) then RequestRepair(c)
      else if c.closed || c.socket == NoSocket || f.msg.kind != STATE_SNAPSHOT then c
      else c.(closed := true, baselineArmed := false, socket := Closing)
  {
    hide RequestRepair, Baseline, Advance;
  }

  lemma OtherMessage(c: Browser, f: Frame)
    requires !IsNext(c, f) && !IsBaselineFor(c, f) && (!c.resyncing ==> c.sequence.Some?)
    ensures var r := OnMessage(c, f);
      && SameLog(c, r) && r.applied == c.applied && r.profileBarrier == c.profileBarrier
      && (if IsSuspect(c, f) then r == RequestRepair(c) else r.outbox == c.outbox && r.resyncing == c.resyncing)
  {
    OtherOutcome(c, f);
    hide OnMessage, IsNext, IsBaselineFor, IsSuspect;
  }

  lemma RepairAsks(c: Browser)
    ensures var r := RequestRepair(c);
      if c.socket == Open && !c.requestedRepair
      then r == c.(resyncing := true, requestedRepair := true, baselineArmed := true, outbox := c.outbox + [Resync])
      else r == c
  {
  }

  /**
   What a message does. The next patch is consumed, and shown to the handlers unless it is a pong, the page is hidden or
   the barrier is up, which a pong lowers. A valid state snapshot starts the log over with its epoch and capabilities.
   Everything else leaves the log alone; a suspect frame asks for a repair if none is outstanding on an open socket.
   */
  lemma MessagesExactly(c: Browser, f: Frame)
    requires !c.resyncing ==> c.sequence.Some?
    ensures var r := OnMessage(c, f);
      && (IsNext(c, f) ==> Consumes(c, f, r)) && (IsBaselineFor(c, f) ==> StartsOver(f, r))
      && (!IsNext(c, f) && !IsBaselineFor(c, f) ==> SameLog(c, r))
      && (IsSuspect(c, f) && c.socket == Open && !c.requestedRepair ==>
            r.resyncing && r.requestedRepair && r.baselineArmed && r.outbox == c.outbox + [Resync])
      && (!IsSuspect(c, f) && !IsBaselineFor(c, f) ==> r.outbox == c.outbox && r.resyncing == c.resyncing)
  {
    RepairAsks(c);
    assert IsSuspect(c, f) ==> !IsNext(c, f) && !IsBaselineFor(c, f);
    assert IsNext(c, f) ==> !c.resyncing;
    hide OnMessage, IsNext, IsBaselineFor, IsSuspect, RequestRepair, SameLog, StartsOver;
    if IsNext(c, f) {
      NextMessage(c, f);
    } else if IsBaselineFor(c, f) {
      BaselineMessage(c, f);
    } else {
      OtherMessage(c, f);
    }
  }

  // ---------- profiles and refreshes ----------

  lemma ApplyKeepsWants(c: Browser)
    ensures WantedProfile(ApplyProfile(c)) == WantedProfile(c) && ApplyProfile(c).socket == c.socket
    ensures c.requestedRepair ==> ApplyProfile(c).requestedRepair
    ensures c.socket == Open && !c.resyncing ==> ApplyProfile(c).applied == WantedProfile(c)
  {
    ApplyIsApplied(c);
    ProfileIsNegotiated(c);
    hide ApplyProfile;
  }

  /**
   What a change of profile does. A page that is shown again on an open socket has a repair outstanding; an open browser
   in sync has the profile it wants applied; the log stays as it is. The same profile, or a closed browser, changes
   nothing.
   */
  lemma ProfileChangesExactly(c: Browser, profile: Profile)
    ensures var r := SetProfile(c, profile);
      if c.closed || profile == c.desired then r == c else
        && r.desired == profile && SameLog(c, r) && r.socket == c.socket
        && (c.socket == Open && !c.resyncing ==> r.applied == WantedProfile(c.(desired := profile)))
        && (c.socket == Open && c.desired == Hidden ==> r.requestedRepair)
        && (c.socket != Open ==> r == c.(desired := profile))
  {
    var next := c.(desired := profile);
    ApplyKeepsWants(next);
    ApplyIsApplied(next);
    RepairAsks(ApplyProfile(next));
    hide ApplyProfile, RequestRepair;
  }

  /** A refresh of a visible, open browser has a repair outstanding; any other changes nothing. */
  lemma RefreshAsksRepair(c: Browser)
    ensures if !c.closed && c.desired != Hidden && c.socket == Open
      then Refresh(c).requestedRepair && (Refresh(c).resyncing || c.requestedRepair) else Refresh(c) == c
  {
    RepairAsks(c);
  }

  // ---------- runs: the log's epoch ----------

  /** In sync, the log belongs to one baseline: its epoch and capabilities, and no context of another server. */
  ghost predicate OneEpoch(c: Browser)
  {
    !c.resyncing ==>
      && c.consumed != [] && c.epoch == c.consumed[0].msg.epoch
      && c.contextCapable == c.consumed[0].msg.contextCapable
      && (forall i :: 0 <= i < |c.consumed| && c.consumed[i].msg.kind == "context.snapshot"
            ==> c.consumed[i].msg.epoch == c.epoch)
      && (forall i :: 0 < i < |c.consumed| ==> c.consumed[i].msg.kind != "state.snapshot")
  }

  lemma SameLogOneEpoch(c: Browser, r: Browser)
    requires OneEpoch(c) && SameLog(c, r) && (c.resyncing ==> r.resyncing)
    ensures OneEpoch(r)
  {
  }

  lemma MessageKeepsEpoch(c: Browser, f: Frame)
    requires OneEpoch(c) && (!c.resyncing ==> c.sequence.Some?)
    ensures OneEpoch(OnMessage(c, f))
  {
    var r := OnMessage(c, f);
    hide OnMessage, RequestRepair, ApplyProfile;
    if IsNext(c, f) {
      NextMessage(c, f);
    } else if IsBaselineFor(c, f) {
      BaselineMessage(c, f);
    } else {
      OtherMessage(c, f);
      RepairAsks(c);
      SameLogOneEpoch(c, r);
    }
  }

  lemma ApplyKeepsLog(c: Browser)
    ensures SameLog(c, ApplyProfile(c)) && (c.resyncing ==> ApplyProfile(c).resyncing)
  {
    ApplyIsApplied(c);
    hide ApplyProfile;
  }

  lemma ProfileKeepsLog(c: Browser, profile: Profile)
    ensures SameLog(c, SetProfile(c, profile)) && (c.resyncing ==> SetProfile(c, profile).resyncing)
  {
    ApplyKeepsLog(c.(desired := profile));
    RepairAsks(ApplyProfile(c.(desired := profile)));
    hide ApplyProfile, RequestRepair;
  }

  /** What a move does to the browser. */
  function BrowserStep(n: Net, move: Move): Browser
  {
    var b := n.browser;
    match move
    case Reconnect(limit, m, size, now) =>
      if b.closed || b.desired == Hidden || m.kind != STATE_SNAPSHOT then b else Connect(b)
    case Deliver =>
      if n.channel == [] || b.socket == NoSocket || b.socket == Connecting then b else OnMessage(b, n.channel[0])
    case SocketOpens => OnOpen(b)
    case SocketCloses => StartClosing(b)
    case SocketGone => DropSocket(b)
    case ChangeProfile(profile) => SetProfile(b, profile)
    case AskRefresh => Refresh(b)
    case ShutDown => Shut(b)
    case _ => b
  }

  lemma RegisterConnects(n: Net, limit: int, m: Message, size: nat, now: int)
    ensures Register(n, limit, m, size, now).browser == Connect(n.browser)
  {
    hide Offer, Record;
  }

  lemma MoveIsStep(n: Net, move: Move)
    requires NetOk(n)
    ensures Next(n, move).browser == BrowserStep(n, move)
  {
    if move.Reconnect? { RegisterConnects(n, move.limit, move.m, move.size, move.now); }
    assert Accounted(n.queue);
    hide NetOk, Register, Offer, Dequeue, OnMessage, Connect, SetProfile, Refresh, OnOpen, StartClosing, DropSocket,
      Shut;
  }

  ghost predicate LogStays(c: Browser, r: Browser) { SameLog(c, r) && (c.resyncing ==> r.resyncing) }

  lemma SocketKeepsLog(c: Browser)
    ensures LogStays(c, OnOpen(c)) && LogStays(c, StartClosing(c)) && LogStays(c, DropSocket(c)) && LogStays(c, Shut(c))
  {
  }

  lemma RefreshKeepsLog(c: Browser)
    ensures LogStays(c, Refresh(c))
  {
    RepairAsks(c);
  }

  lemma StayingKeepsEpoch(c: Browser, r: Browser)
    requires OneEpoch(c) && LogStays(c, r)
    ensures OneEpoch(r)
  {
    hide OneEpoch, SameLog;
    SameLogOneEpoch(c, r);
  }

  lemma StepKeepsEpoch(n: Net, move: Move)
    requires OneEpoch(n.browser) && (!n.browser.resyncing ==> n.browser.sequence.Some?)
    ensures OneEpoch(BrowserStep(n, move))
  {
    var b := n.browser;
    hide OneEpoch, LogStays, OnMessage, SetProfile, Connect, OnOpen, StartClosing, DropSocket, Shut, Refresh;
    SocketKeepsLog(b);
    match move
    case Reconnect(_, _, _, _) => Disconnected(b);
    case Deliver => if n.channel != [] { MessageKeepsEpoch(b, n.channel[0]); }
    case SocketOpens => StayingKeepsEpoch(b, OnOpen(b));
    case SocketCloses => StayingKeepsEpoch(b, StartClosing(b));
    case SocketGone => StayingKeepsEpoch(b, DropSocket(b));
    case ChangeProfile(profile) =>
      ChangeKeepsLog(b, profile);
      StayingKeepsEpoch(b, SetProfile(b, profile));
    case AskRefresh =>
      RefreshKeepsLog(b);
      StayingKeepsEpoch(b, Refresh(b));
    case ShutDown => StayingKeepsEpoch(b, Shut(b));
    case _ =>
  }

  lemma ChangeKeepsLog(c: Browser, profile: Profile)
    ensures LogStays(c, SetProfile(c, profile))
  {
    ProfileKeepsLog(c, profile);
    hide SetProfile, SameLog;
  }

  lemma MoveKeepsEpoch(n: Net, move: Move)
    requires NetOk(n) && OneEpoch(n.browser)
    ensures OneEpoch(Next(n, move).browser)
  {
    MoveIsStep(n, move);
    assert BrowserOk(n.browser) && Accounted(n.queue);
    if !n.browser.resyncing { SequenceKnown(n.browser); }
    hide NetOk, Next, OneEpoch, BrowserStep;
    StepKeepsEpoch(n, move);
  }

  lemma Disconnected(b: Browser)
    ensures OneEpoch(Connect(b))
  {
  }

  /**
   In every run a browser in sync follows one server: its log starts with the baseline whose epoch and capabilities it
   has, and contains no other baseline and no context snapshot of another epoch.
   */
  lemma {:induction false} LogHasOneEpoch(moves: seq<Move>)
    ensures OneEpoch(StreamRuns.After(moves).browser)
  {
    hide Next, NetOk;
    if moves != [] {
      LogHasOneEpoch(moves[..|moves| - 1]);
      MoveKeepsEpoch(StreamRuns.After(moves[..|moves| - 1]), moves[|moves| - 1]);
    }
  }

  // ---------- runs: the server's subscriptions ----------

  /** r sent some commands after those of c, and they take the server from the profile of c to that of r. */
  ghost predicate Negotiates(c: Browser, r: Browser)
  {
    c.outbox <= r.outbox && SubscribedAfter(ChannelsOf(c.applied), r.outbox[|c.outbox|..]) == ChannelsOf(r.applied)
  }

  lemma SentNothing(c: Browser, r: Browser)
    requires r.outbox == c.outbox && r.applied == c.applied
    ensures Negotiates(c, r)
  {
    assert r.outbox[|c.outbox|..] == [];
  }

  lemma {:induction false} SubscribedAppend(subs: set<Profile>, a: seq<Command>, b: seq<Command>)
    ensures SubscribedAfter(subs, a + b) == SubscribedAfter(SubscribedAfter(subs, a), b)
  {
    if b == [] {
      assert a + b == a;
    } else {
      assert (a + b)[..|a + b| - 1] == a + b[..|b| - 1];
      SubscribedAppend(subs, a, b[..|b| - 1]);
    }
  }

  lemma NegotiatesTransitive(c: Browser, r: Browser, w: Browser)
    requires Negotiates(c, r) && Negotiates(r, w)
    ensures Negotiates(c, w)
  {
    hide SubscribedAfter, ChannelsOf;
    var a, b := r.outbox[|c.outbox|..], w.outbox[|r.outbox|..];
    assert w.outbox == r.outbox + b && r.outbox == c.outbox + a;
    assert w.outbox[|c.outbox|..] == a + b;
    SubscribedAppend(ChannelsOf(c.applied), a, b);
  }

  lemma SentCommands(c: Browser, r: Browser, sent: seq<Command>)
    requires r.outbox == c.outbox + sent && SubscribedAfter(ChannelsOf(c.applied), sent) == ChannelsOf(r.applied)
    ensures Negotiates(c, r)
  {
    assert r.outbox[|c.outbox|..] == sent;
  }

  lemma RepairNegotiates(c: Browser)
    ensures Negotiates(c, RequestRepair(c))
  {
    RepairAsks(c);
    hide RequestRepair;
    if c.socket == Open && !c.requestedRepair {
      assert [Resync][..0] == [];
      assert SubscribedAfter(ChannelsOf(c.applied), [Resync]) == ChannelsOf(c.applied);
      SentCommands(c, RequestRepair(c), [Resync]);
    } else {
      SentNothing(c, c);
    }
  }

  lemma ApplyNegotiates(c: Browser)
    ensures Negotiates(c, ApplyProfile(c))
  {
    ProfileIsNegotiated(c);
    SwitchSubscribes(c.applied, WantedProfile(c), c.requestedRepair);
    SentNothing(c, c);
    hide ApplyProfile, SwitchCommands, SubscribedAfter, WantedProfile;
    if ApplyProfile(c) != c { SentCommands(c, ApplyProfile(c), SwitchCommands(WantedProfile(c), c.requestedRepair)); }
  }

  lemma MessageNegotiates(c: Browser, f: Frame)
    requires !c.resyncing ==> c.sequence.Some?
    ensures Negotiates(c, OnMessage(c, f))
  {
    hide OnMessage, RequestRepair, ApplyProfile, SubscribedAfter, Negotiates;
    if IsNext(c, f) {
      NextMessage(c, f);
      SentNothing(c, OnMessage(c, f));
    } else if IsBaselineFor(c, f) {
      BaselineMessage(c, f);
      SentNothing(c, Reset(c, f));
      ApplyNegotiates(Reset(c, f));
      NegotiatesTransitive(c, Reset(c, f), OnMessage(c, f));
    } else {
      OtherMessage(c, f);
      RepairNegotiates(c);
      if !IsSuspect(c, f) { SentNothing(c, OnMessage(c, f)); }
    }
  }

  lemma ChangeNegotiates(c: Browser, profile: Profile)
    ensures Negotiates(c, SetProfile(c, profile))
  {
    var next := c.(desired := profile);
    SentNothing(c, c);
    SentNothing(c, next);
    ApplyNegotiates(next);
    NegotiatesTransitive(c, next, ApplyProfile(next));
    RepairNegotiates(ApplyProfile(next));
    NegotiatesTransitive(c, ApplyProfile(next), RequestRepair(ApplyProfile(next)));
    hide ApplyProfile, RequestRepair, Negotiates;
  }

  lemma SocketSendsNothing(c: Browser)
    ensures Negotiates(c, OnOpen(c)) && Negotiates(c, StartClosing(c)) && Negotiates(c, DropSocket(c))
      && Negotiates(c, Shut(c))
  {
    SentNothing(c, OnOpen(c));
    SentNothing(c, StartClosing(c));
    SentNothing(c, DropSocket(c));
    SentNothing(c, Shut(c));
    hide Negotiates;
  }

  lemma RefreshNegotiates(c: Browser)
    ensures Negotiates(c, Refresh(c))
  {
    SentNothing(c, c);
    RepairNegotiates(c);
    hide Negotiates, RequestRepair;
  }

  lemma ConnectStartsOver(c: Browser)
    ensures Connect(c).applied == Dashboard && Connect(c).outbox == c.outbox
  {
  }

  lemma StepNegotiates(n: Net, move: Move)
    requires !n.browser.resyncing ==> n.browser.sequence.Some?
    ensures move.Reconnect? && BrowserStep(n, move) != n.browser ==>
      BrowserStep(n, move).applied == Dashboard && BrowserStep(n, move).outbox == n.browser.outbox
    ensures !move.Reconnect? || BrowserStep(n, move) == n.browser ==> Negotiates(n.browser, BrowserStep(n, move))
  {
    var b := n.browser;
    hide OnMessage, SetProfile, Refresh, Connect, OnOpen, StartClosing, DropSocket, Shut, Negotiates;
    SentNothing(b, b);
    ConnectStartsOver(b);
    SocketSendsNothing(b);
    RefreshNegotiates(b);
    match move
    case Deliver => if n.channel != [] { MessageNegotiates(b, n.channel[0]); }
    case ChangeProfile(profile) => ChangeNegotiates(b, profile);
    case _ =>
  }

  /** How many commands had been sent when the current connection was opened. */
  ghost function ConnectionStart(moves: seq<Move>): nat
  {
    if moves == [] then 0
    else
      var before, move := moves[..|moves| - 1], moves[|moves| - 1];
      if move.Reconnect? && StreamRuns.After(moves).browser != StreamRuns.After(before).browser
        then |StreamRuns.After(moves).browser.outbox| else ConnectionStart(before)
  }

  ghost predicate Subscribed(b: Browser, start: nat)
  {
    start <= |b.outbox| && SubscribedAfter({Dashboard}, b.outbox[start..]) == ChannelsOf(b.applied)
  }

  lemma StaysSubscribed(b: Browser, r: Browser, start: nat)
    requires Subscribed(b, start) && Negotiates(b, r)
    ensures Subscribed(r, start)
  {
    var sent := r.outbox[|b.outbox|..];
    assert r.outbox == b.outbox + sent && r.outbox[start..] == b.outbox[start..] + sent;
    SubscribedAppend({Dashboard}, b.outbox[start..], sent);
  }

  lemma NewlySubscribed(b: Browser)
    requires b.applied == Dashboard
    ensures Subscribed(b, |b.outbox|)
  {
    assert b.outbox[|b.outbox|..] == [];
  }

  /**
   In every run the commands a connection has sent take a server that starts it on the dashboard to exactly the channels
   of the profile the browser takes to be applied.
   */
  lemma {:induction false} ServerListensToProfile(moves: seq<Move>)
    ensures Subscribed(StreamRuns.After(moves).browser, ConnectionStart(moves))
  {
    hide Next, NetOk, Subscribed, BrowserStep;
    if moves == [] {
      NewlySubscribed(NEW_BROWSER);
    } else {
      var before, move := moves[..|moves| - 1], moves[|moves| - 1];
      var n := StreamRuns.After(before);
      ServerListensToProfile(before);
      MoveIsStep(n, move);
      SyncedHasSequence(n);
      StepNegotiates(n, move);
      var r := BrowserStep(n, move);
      if move.Reconnect? && r != n.browser {
        NewlySubscribed(r);
      } else {
        StaysSubscribed(n.browser, r, ConnectionStart(before));
      }
    }
  }

  lemma SyncedHasSequence(n: Net)
    requires NetOk(n)
    ensures !n.browser.resyncing ==> n.browser.sequence.Some?
  {
    if !n.browser.resyncing { SequenceKnown(n.browser); }
  }
}
