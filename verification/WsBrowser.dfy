/**
 web/src/lib/ws.ts: the closure variables of createWS and the handlers that assign them. consumed and
 view record what the handlers saw since the last baseline: consumed every frame that advanced the
 sequence, view every frame handed to the message handlers.
 */
module WsBrowser {
  import opened Common
  import opened WsQueue

  const MAX_SAFE_INTEGER := 0x1f_ffff_ffff_ffff

  datatype Profile = Dashboard | Context | Hidden

  datatype Socket = NoSocket | Connecting | Open | Closing

  datatype Command = Resync | Ping | Subscribe(profile: Profile) | Unsubscribe(profile: Profile)

  datatype Browser = Browser(
    sequence: Option<nat>,
    resyncing: bool,
    requestedRepair: bool,
    profileBarrier: bool,
    desired: Profile,
    applied: Profile,
    socket: Socket,
    closed: bool,
    epoch: string,
    contextCapable: bool,
    baselineArmed: bool,
    outbox: seq<Command>,
    consumed: seq<Frame>,
    view: seq<Frame>)

  const NEW_BROWSER := Browser(None, true, false, false, Dashboard, Dashboard, NoSocket, false, "", false, false, [],
    [], [])

  // ---------- steps ----------

  function Send(c: Browser, m: Command): Browser { if c.socket == Open then c.(outbox := c.outbox + [m]) else c }

  function RequestRepair(c: Browser): Browser
  {
    if c.requestedRepair || c.socket != Open then c
    else Send(c.(requestedRepair := true, resyncing := true), Resync).(baselineArmed := true)
  }

  function Target(c: Browser): Profile { if c.desired == Context && !c.contextCapable then Dashboard else c.desired }

  function ApplyProfile(c: Browser): Browser
  {
    if c.socket != Open || c.resyncing || Target(c) == c.applied then c
    else
      match Target(c)
      case Context => Send(Send(Send(c, Subscribe(Context)), Unsubscribe(Dashboard)).(profileBarrier := true),
        Ping).(applied := Context)
      case Hidden => Send(Send(Send(c, Unsubscribe(Dashboard)), Unsubscribe(Context)), Ping).(applied := Hidden)
      case Dashboard => RequestRepair(Send(Send(c, Subscribe(Dashboard)), Unsubscribe(Context))).(applied := Dashboard)
  }

  /** open, once the session probe has succeeded. */
  function Connect(c: Browser): Browser
  {
    c.(sequence := None, resyncing := true, requestedRepair := false, applied := Dashboard, profileBarrier := false,
       socket := Connecting, baselineArmed := true, consumed := [], view := [])
  }

  /** What an accepted state snapshot resets. */
  function Reset(c: Browser, f: Frame): Browser
  {
    c.(epoch := f.msg.epoch, contextCapable := f.msg.contextCapable, sequence := Some(f.seqNo),
       requestedRepair := false, profileBarrier := false, resyncing := false, baselineArmed := false,
       consumed := [f], view := [f])
  }

  function Baseline(c: Browser, f: Frame): Browser { ApplyProfile(Reset(c, f)) }

  function Advance(c: Browser, f: Frame): Browser
  {
    var next := c.(sequence := Some(f.seqNo), consumed := c.consumed + [f]);
    if f.msg.kind == PONG then next.(profileBarrier := false)
    else if c.desired != Hidden && !c.profileBarrier then next.(view := c.view + [f])
    else next
  }

  /** socket.onmessage */
  function OnMessage(c: Browser, f: Frame): Browser
  {
    if c.closed || c.socket == NoSocket then c
    else if f.seqNo < 1 || f.seqNo > MAX_SAFE_INTEGER then RequestRepair(c)
    else if f.msg.kind == STATE_SNAPSHOT then
      if !f.msg.valid then c.(closed := true, baselineArmed := false, socket := Closing) else Baseline(c, f)
    else if c.resyncing then c
    else if c.sequence.Some? && f.seqNo <= c.sequence.value then c
    else if c.sequence.Some? && f.seqNo != c.sequence.value + 1 then RequestRepair(c)
    else if f.msg.kind == CONTEXT_SNAPSHOT && f.msg.epoch != c.epoch then RequestRepair(c)
    else Advance(c, f)
  }

  /** setProfile, up to opening a missing socket. */
  function SetProfile(c: Browser, profile: Profile): Browser
  {
    if c.closed || profile == c.desired then c else
      var next := c.(desired := profile);
      if profile == Hidden then ApplyProfile(next)
      else if c.socket == NoSocket then next
      else if c.desired == Hidden then RequestRepair(ApplyProfile(next))
      else ApplyProfile(next)
  }

  /** refresh, up to opening a missing socket. */
  function Refresh(c: Browser): Browser { if c.closed || c.desired == Hidden then c else RequestRepair(c) }

  /** socket.onopen */
  function OnOpen(c: Browser): Browser
  {
    if c.closed || c.socket != Connecting then c else c.(socket := Open, baselineArmed := true)
  }

  /** The baseline timeout, socket.onerror and close all end in a closing socket. */
  function StartClosing(c: Browser): Browser
  {
    if c.socket == NoSocket then c else c.(socket := Closing, baselineArmed := false)
  }

  /** socket.onclose, and the timer that gives up a hidden tab's socket. */
  function DropSocket(c: Browser): Browser { c.(socket := NoSocket, baselineArmed := false) }

  function Shut(c: Browser): Browser { StartClosing(c).(closed := true, baselineArmed := false) }

  // ---------- what a frame can do ----------

  /** The frames of log carry consecutive numbers from a valid baseline on. */
  ghost predicate Contiguous(log: seq<Frame>)
  {
    && log != [] && log[0].msg.kind == STATE_SNAPSHOT && log[0].msg.valid
    && (forall i :: 0 <= i < |log| ==> log[i].seqNo == log[0].seqNo + i)
  }

  function WithoutPongs(log: seq<Frame>): seq<Frame>
  {
    if log == [] then [] else
      WithoutPongs(log[..|log| - 1]) + if log[|log| - 1].msg.kind == PONG then [] else [log[|log| - 1]]
  }

  /** Whenever the browser is in sync, it has consumed one frame per number up to its sequence. */
  ghost predicate InSync(c: Browser)
  {
    !c.resyncing ==> Contiguous(c.consumed) && c.sequence == Some(c.consumed[|c.consumed| - 1].seqNo)
  }

  /** Profiles: on an open, synced dashboard connection nothing was withheld from the handlers. */
  ghost predicate ProfileOk(c: Browser)
  {
    && (c.requestedRepair ==> c.resyncing)
    && (c.socket == Open && !c.resyncing ==>
          && (c.desired == Hidden ==> c.applied == Hidden)
          && (c.applied == Dashboard ==> !c.profileBarrier && c.view == WithoutPongs(c.consumed)))
  }

  /** A browser that waits for a baseline has a timer that ends the wait. */
  ghost predicate Guarded(c: Browser)
  {
    (c.socket == Connecting || c.socket == Open) && c.resyncing && !c.closed ==> c.baselineArmed
  }

  ghost predicate BrowserOk(c: Browser)
  {
    InSync(c) && ProfileOk(c) && Guarded(c) && (c.socket == Connecting ==> c.resyncing)
  }

  lemma RepairKeepsOk(c: Browser)
    requires BrowserOk(c)
    ensures BrowserOk(RequestRepair(c))
    ensures c.socket == Open ==> RequestRepair(c).resyncing
  {
    hide Contiguous, WithoutPongs;
  }

  /** What applying a profile changes. */
  ghost predicate Applied(c: Browser, r: Browser)
  {
    && r == c.(requestedRepair := r.requestedRepair, resyncing := r.resyncing, profileBarrier := r.profileBarrier,
      applied := r.applied,
               baselineArmed := r.baselineArmed, outbox := r.outbox)
    && (c.socket != Open || c.resyncing || c.applied == Target(c) ==> r == c)
    && (c.socket == Open && !c.resyncing && c.applied != Target(c) ==>
          && r.applied == Target(c)
          && (Target(c) == Dashboard && !c.requestedRepair
            ==> r.requestedRepair && r.resyncing && r.baselineArmed && r.profileBarrier == c.profileBarrier)
          && (Target(c) != Dashboard
            ==> r.requestedRepair == c.requestedRepair && !r.resyncing && r.baselineArmed == c.baselineArmed))
  }

  lemma SendOnly(c: Browser, m: Command)
    ensures Send(c, m) == c.(outbox := Send(c, m).outbox)
  {
  }

  lemma ApplyIsApplied(c: Browser)
    ensures Applied(c, ApplyProfile(c))
  {
    hide Send;
    if c.socket == Open && !c.resyncing && Target(c) != c.applied {
      match Target(c)
      case Context =>
        var left := Send(Send(c, Subscribe(Context)), Unsubscribe(Dashboard));
        SendOnly(c, Subscribe(Context));
        SendOnly(Send(c, Subscribe(Context)), Unsubscribe(Dashboard));
        SendOnly(left.(profileBarrier := true), Ping);
      case Hidden =>
        SendOnly(c, Unsubscribe(Dashboard));
        SendOnly(Send(c, Unsubscribe(Dashboard)), Unsubscribe(Context));
        SendOnly(Send(Send(c, Unsubscribe(Dashboard)), Unsubscribe(Context)), Ping);
      case Dashboard =>
        var left := Send(Send(c, Subscribe(Dashboard)), Unsubscribe(Context));
        SendOnly(c, Subscribe(Dashboard));
        SendOnly(Send(c, Subscribe(Dashboard)), Unsubscribe(Context));
        SendOnly(left.(requestedRepair := true, resyncing := true), Resync);
    }
  }

  lemma ApplyKeepsOk(c: Browser)
    requires InSync(c) && Guarded(c) && (c.requestedRepair ==> c.resyncing) && (c.socket == Connecting ==> c.resyncing)
    requires c.socket == Open && !c.resyncing && c.applied == Dashboard
      ==> !c.profileBarrier && c.view == WithoutPongs(c.consumed)
    requires c.socket != Open ==> ProfileOk(c)
    ensures BrowserOk(ApplyProfile(c))
  {
    ApplyIsApplied(c);
    hide Contiguous, WithoutPongs, ApplyProfile;
  }

  lemma BaselineAlone(f: Frame)
    requires f.msg.kind == STATE_SNAPSHOT && f.msg.valid
    ensures Contiguous([f]) && WithoutPongs([f]) == [f]
  {
    assert [f][..0] == [];
  }

  lemma BaselineKeepsOk(c: Browser, f: Frame)
    requires BrowserOk(c) && f.msg.kind == STATE_SNAPSHOT && f.msg.valid && c.socket != NoSocket
    requires c.socket != Connecting
    ensures BrowserOk(Baseline(c, f))
  {
    BaselineAlone(f);
    hide Contiguous, WithoutPongs, ApplyProfile;
    ApplyKeepsOk(Reset(c, f));
  }

  lemma ContiguousMore(log: seq<Frame>, f: Frame)
    requires Contiguous(log) && f.seqNo == log[|log| - 1].seqNo + 1
    ensures Contiguous(log + [f])
    ensures WithoutPongs(log + [f]) == WithoutPongs(log) + if f.msg.kind == PONG then [] else [f]
  {
    assert (log + [f])[..|log|] == log;
  }

  lemma AdvanceKeepsOk(c: Browser, f: Frame)
    requires BrowserOk(c) && !c.resyncing && c.sequence.Some? && f.seqNo == c.sequence.value + 1
    ensures BrowserOk(Advance(c, f))
  {
    assert Contiguous(c.consumed) && ProfileOk(c) && f.seqNo == c.consumed[|c.consumed| - 1].seqNo + 1 by {
      hide Contiguous, WithoutPongs, ProfileOk, Guarded;
    }
    AdvanceGuarded(c, f);
    hide *;
    ContiguousMore(c.consumed, f);
    assert WithoutPongs(c.consumed) + [] == WithoutPongs(c.consumed);
    AdvanceSync(c, f);
    AdvanceProfile(c, f);
    BrowserIsOk(Advance(c, f));
  }

  lemma AdvanceGuarded(c: Browser, f: Frame)
    requires BrowserOk(c) && !c.resyncing
    ensures Guarded(Advance(c, f)) && (Advance(c, f).socket == Connecting ==> Advance(c, f).resyncing)
  {
    hide Contiguous, WithoutPongs;
  }

  lemma BrowserIsOk(c: Browser)
    requires InSync(c) && ProfileOk(c) && Guarded(c) && (c.socket == Connecting ==> c.resyncing)
    ensures BrowserOk(c)
  {
    hide InSync, ProfileOk, Guarded;
  }

  lemma AdvanceSync(c: Browser, f: Frame)
    requires Contiguous(c.consumed + [f])
    ensures InSync(Advance(c, f))
  {
    hide Contiguous, WithoutPongs;
    assert (c.consumed + [f])[|c.consumed + [f]| - 1] == f;
  }

  lemma AdvanceProfile(c: Browser, f: Frame)
    requires ProfileOk(c) && !c.resyncing
    requires WithoutPongs(c.consumed + [f]) == WithoutPongs(c.consumed) + if f.msg.kind == PONG then [] else [f]
    requires WithoutPongs(c.consumed) + [] == WithoutPongs(c.consumed)
    ensures ProfileOk(Advance(c, f))
  {
    hide Contiguous, WithoutPongs;
  }

  /** The message handler keeps all of it; frames only arrive on a socket that has opened. */
  lemma OnMessageKeepsOk(c: Browser, f: Frame)
    requires BrowserOk(c) && c.socket != Connecting
    ensures BrowserOk(OnMessage(c, f))
  {
    hide InSync, ProfileOk, Guarded, Baseline, Advance, RequestRepair;
    RepairKeepsOk(c);
    if c.closed || c.socket == NoSocket || f.seqNo < 1 || f.seqNo > MAX_SAFE_INTEGER {
    } else if f.msg.kind == STATE_SNAPSHOT {
      if f.msg.valid { BaselineKeepsOk(c, f); } else { StopKeepsOk(c); }
    } else if !c.resyncing && c.sequence.Some? && f.seqNo == c.sequence.value + 1 {
      AdvanceKeepsOk(c, f);
    } else if !c.resyncing {
      SequenceKnown(c);
    }
  }

  lemma SequenceKnown(c: Browser)
    requires BrowserOk(c) && !c.resyncing
    ensures c.sequence.Some?
  {
  }

  lemma StopKeepsOk(c: Browser)
    requires BrowserOk(c)
    ensures BrowserOk(c.(closed := true, baselineArmed := false, socket := Closing))
  {
    hide Contiguous, WithoutPongs;
  }

  lemma SetProfileKeepsOk(c: Browser, profile: Profile)
    requires BrowserOk(c)
    ensures BrowserOk(SetProfile(c, profile))
  {
    if !(c.closed || profile == c.desired) {
      var next := c.(desired := profile);
      hide Contiguous, WithoutPongs;
      if c.socket == Open {
        ApplyKeepsOk(next);
        hide ApplyProfile;
        RepairKeepsOk(ApplyProfile(next));
      } else {
        assert ApplyProfile(next) == next;
      }
    }
  }

  lemma RefreshKeepsOk(c: Browser)
    requires BrowserOk(c)
    ensures BrowserOk(Refresh(c))
  {
    hide BrowserOk, RequestRepair;
    RepairKeepsOk(c);
  }

  lemma OpeningKeepsOk(c: Browser)
    requires BrowserOk(c)
    ensures BrowserOk(OnOpen(c)) && BrowserOk(Connect(c))
  {
    hide Contiguous, WithoutPongs;
  }

  lemma ClosingKeepsOk(c: Browser)
    requires BrowserOk(c)
    ensures BrowserOk(StartClosing(c)) && BrowserOk(DropSocket(c)) && BrowserOk(Shut(c))
  {
    hide Contiguous, WithoutPongs;
  }

  lemma SocketStepsKeepOk(c: Browser)
    requires BrowserOk(c)
    ensures BrowserOk(Refresh(c)) && BrowserOk(OnOpen(c)) && BrowserOk(StartClosing(c)) && BrowserOk(DropSocket(c))
      && BrowserOk(Shut(c))
    ensures BrowserOk(Connect(c))
  {
    hide *;
    RefreshKeepsOk(c);
    OpeningKeepsOk(c);
    ClosingKeepsOk(c);
  }

  // ---------- the closure as an object ----------

  class StreamClient {
    var sequence: Option<nat>
    var resyncing: bool
    var requestedRepair: bool
    var profileBarrier: bool
    var desired: Profile
    var applied: Profile
    var socket: Socket
    var closed: bool
    var epoch: string
    var contextCapable: bool
    var baselineArmed: bool
    var outbox: seq<Command>
    ghost var consumed: seq<Frame>
    ghost var view: seq<Frame>

    ghost function State(): Browser
      reads this
    {
      Browser(sequence, resyncing, requestedRepair, profileBarrier, desired, applied, socket, closed, epoch,
        contextCapable, baselineArmed, outbox, consumed, view)
    }

    constructor ()
      ensures State() == NEW_BROWSER
    {
      sequence, resyncing, requestedRepair, profileBarrier, desired, applied := None, true, false, false, Dashboard,
        Dashboard;
      socket, closed, epoch, contextCapable, baselineArmed, outbox, consumed, view := NoSocket, false, "", false, false,
        [], [], [];
    }

    method SendCommand(m: Command)
      modifies this`outbox
      ensures State() == Send(old(State()), m)
    {
      if socket == Open { outbox := outbox + [m]; }
    }

    method RequestRepairNow()
      modifies this
      ensures State() == RequestRepair(old(State()))
    {
      if requestedRepair || socket != Open { return; }
      requestedRepair := true;
      resyncing := true;
      SendCommand(Resync);
      baselineArmed := true;
    }

    method ApplyProfileNow()
      modifies this
      ensures State() == ApplyProfile(old(State()))
    {
      hide Send, RequestRepair;
      if socket != Open || resyncing { return; }
      var target := if desired == Context && !contextCapable then Dashboard else desired;
      if target == applied { return; }
      if target == Context {
        SendCommand(Subscribe(Context));
        SendCommand(Unsubscribe(Dashboard));
        profileBarrier := true;
        SendCommand(Ping);
      } else if target == Hidden {
        SendCommand(Unsubscribe(Dashboard));
        SendCommand(Unsubscribe(Context));
        SendCommand(Ping);
      } else {
        SendCommand(Subscribe(Dashboard));
        SendCommand(Unsubscribe(Context));
        RequestRepairNow();
      }
      applied := target;
    }

    method HandleMessage(f: Frame)
      modifies this
      ensures State() == OnMessage(old(State()), f)
    {
      hide RequestRepair, Baseline, Advance;
      if closed || socket == NoSocket { return; }
      if f.seqNo < 1 || f.seqNo > MAX_SAFE_INTEGER {
        RequestRepairNow();
        return;
      }
      if f.msg.kind == STATE_SNAPSHOT {
        if !f.msg.valid {
          closed, baselineArmed, socket := true, false, Closing;
          return;
        }
        TakeBaseline(f);
        return;
      }
      if resyncing { return; }
      if sequence.Some? && f.seqNo <= sequence.value { return; }
      if sequence.Some? && f.seqNo != sequence.value + 1 {
        RequestRepairNow();
        return;
      }
      if f.msg.kind == CONTEXT_SNAPSHOT && f.msg.epoch != epoch {
        RequestRepairNow();
        return;
      }
      TakePatch(f);
    }

    method ClearFlags()
      modifies this`requestedRepair, this`profileBarrier, this`resyncing, this`baselineArmed
      ensures !requestedRepair && !profileBarrier && !resyncing && !baselineArmed
    {
      requestedRepair, profileBarrier, resyncing, baselineArmed := false, false, false, false;
    }

    method ResetTo(f: Frame)
      modifies this
      ensures State() == Reset(old(State()), f)
    {
      ClearFlags();
      epoch, contextCapable := f.msg.epoch, f.msg.contextCapable;
      sequence := Some(f.seqNo);
      consumed, view := [f], [f];
    }

    /** The branch of onmessage that accepts a state snapshot. */
    method TakeBaseline(f: Frame)
      modifies this
      ensures State() == Baseline(old(State()), f)
    {
      hide ApplyProfile, Reset;
      ResetTo(f);
      ApplyProfileNow();
    }

    /** The end of onmessage: the frame is next in sequence. */
    method TakePatch(f: Frame)
      modifies this
      ensures State() == Advance(old(State()), f)
    {
      sequence := Some(f.seqNo);
      consumed := consumed + [f];
      if f.msg.kind == PONG {
        profileBarrier := false;
        return;
      }
      if desired != Hidden && !profileBarrier { view := view + [f]; }
    }

    method ChangeProfile(profile: Profile)
      modifies this
      ensures State() == SetProfile(old(State()), profile)
    {
      hide ApplyProfile, RequestRepair;
      if closed || profile == desired { return; }
      var wasHidden := desired == Hidden;
      desired := profile;
      if profile == Hidden {
        ApplyProfileNow();
      } else if socket == NoSocket {
      } else if wasHidden {
        ApplyProfileNow();
        RequestRepairNow();
      } else {
        ApplyProfileNow();
      }
    }
  }
}
