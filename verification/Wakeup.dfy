/** libev's wake-up handshake between a loop that may block in the kernel and
    any number of concurrent senders (ev_async_send, ev_feed_signal), as
    interleaved steps that each make one access to shared memory. */
module Wakeup {

  /** What a sender announces: an async watcher, or signal number n + 1. */
  datatype Source = Async(w: nat) | Sig(n: nat)

  datatype Kind = KAsync | KSig

  function KindOf(src: Source): Kind {
    if src.Async? then KAsync else KSig
  }

  /** Where a sender stands in ev_async_send or ev_feed_signal. */
  datatype SenderPc =
    | Mark(src: Source)          // about to set w->sent or signals[n].pending
    | CheckFlag(src: Source)     // evpipe_write: if (*flag) return
    | SetFlag(src: Source)       // *flag = 1
    | SetSkipped(src: Source)    // pipe_write_skipped = 1
    | CheckWanted(src: Source)   // if (pipe_write_wanted)
    | ClearSkipped(src: Source)  // pipe_write_skipped = 0
    | WriteFd(src: Source)       // write to the eventfd

  /** Where the loop stands in ev_run, and inside it in pipecb. */
  datatype LoopPc =
    | Top                        // pipe_write_wanted = 1
    | CheckSkipped               // block only if !pipe_write_skipped
    | Poll(block: bool)          // backend_poll
    | ClearWanted                // pipe_write_wanted = 0
    | CheckSkippedAgain          // if (pipe_write_skipped) feed pipe_w
    | Invoke                     // EV_INVOKE_PENDING
    | ReadFd                     // pipecb: read the eventfd if told so
    | ResetSkipped               // pipe_write_skipped = 0
    | TestSig                    // if (sig_pending)
    | ClearSig                   // sig_pending = 0
    | ScanSig(i: nat)            // for (i = EV_NSIG - 1; i--; ) test
    | FeedSig(i: nat)            // ev_feed_signal_event (i + 1)
    | TestAsync                  // if (async_pending)
    | ClearAsync                 // async_pending = 0
    | ScanAsync(i: nat)          // for (i = asynccnt; i--; ) test
    | FeedAsync(i: nat)          // sent = 0 and ev_feed_event

  /** What senders and loop share. */
  datatype Shared = Shared(
    marked: set<Source>,         // the sent and pending fields that are set
    asyncFlag: bool,             // async_pending
    sigFlag: bool,               // sig_pending
    skipped: bool,               // pipe_write_skipped
    wanted: bool,                // pipe_write_wanted
    evfd: nat)                   // the counter of the eventfd

  /** What only the loop thread uses. */
  datatype LoopState = LoopState(
    pc: LoopPc,
    nsig: nat,                   // EV_NSIG - 1
    asyncs: seq<nat>,            // the active async watchers
    pipePending: bool,           // pipe_w is pending
    pipeRead: bool,              // with EV_READ among its events
    fed: multiset<Source>)       // how often each source was fed so far

  type Senders = map<nat, SenderPc>

  datatype State = State(mem: Shared, lp: LoopState, senders: Senders)

  predicate Flag(m: Shared, k: Kind) {
    if k == KAsync then m.asyncFlag else m.sigFlag
  }

  function Raise(m: Shared, k: Kind): Shared {
    if k == KAsync then m.(asyncFlag := true) else m.(sigFlag := true)
  }

  predicate Init(s: State) {
    && s.mem == Shared({}, false, false, false, false, 0)
    && s.lp.pc == Invoke && s.lp.asyncs == [] && !s.lp.pipePending && s.lp.fed == multiset{}
    && s.senders == map[]
  }

  /** The sources the loop listens to. */
  predicate Live(lp: LoopState, src: Source) {
    match src
    case Async(w) => w in lp.asyncs
    case Sig(n) => n < lp.nsig
  }

  /** One step of a sender: its effect on shared memory. */
  function SenderMem(m: Shared, pc: SenderPc): Shared {
    match pc
    case Mark(src) => m.(marked := m.marked + {src})
    case CheckFlag(_) => m
    case SetFlag(src) => Raise(m, KindOf(src))
    case SetSkipped(_) => m.(skipped := true)
    case CheckWanted(_) => m
    case ClearSkipped(_) => m.(skipped := false)
    case WriteFd(_) => m.(evfd := m.evfd + 1)
  }

  /** Where it stands afterwards; a sender that is done is gone. */
  function SenderGoes(m: Shared, senders: Senders, id: nat): Senders
    requires id in senders
  {
    match senders[id]
    case Mark(src) => senders[id := CheckFlag(src)]
    case CheckFlag(src) => if Flag(m, KindOf(src)) then senders - {id} else senders[id := SetFlag(src)]
    case SetFlag(src) => senders[id := SetSkipped(src)]
    case SetSkipped(src) => senders[id := CheckWanted(src)]
    case CheckWanted(src) => if m.wanted then senders[id := ClearSkipped(src)] else senders - {id}
    case ClearSkipped(src) => senders[id := WriteFd(src)]
    case WriteFd(_) => senders - {id}
  }

  /** One step of the loop thread: its effect on shared memory. */
  function LoopMem(m: Shared, lp: LoopState): Shared {
    match lp.pc
    case Top => m.(wanted := true)
    case ClearWanted => m.(wanted := false)
    case ReadFd => if lp.pipeRead then m.(evfd := 0) else m
    case ResetSkipped => m.(skipped := false)
    case ClearSig => m.(sigFlag := false)
    case FeedSig(i) => m.(marked := m.marked - {Sig(i)})
    case ClearAsync => m.(asyncFlag := false)
    case FeedAsync(i) => if i < |lp.asyncs| then m.(marked := m.marked - {Async(lp.asyncs[i])}) else m
    case _ => m
  }

  /** And its effect on the loop itself; `other` says that the loop need not
      or does not wait for the pipe: EVRUN_NOWAIT, a timer, another file. */
  function LoopGoes(m: Shared, lp: LoopState, other: bool): LoopState {
    match lp.pc
    case Top => lp.(pc := CheckSkipped)
    case CheckSkipped => lp.(pc := Poll(!m.skipped && !other))
    case Poll(block) =>
      if m.evfd > 0 then lp.(pc := ClearWanted, pipePending := true, pipeRead := true)
      else if block && !other then lp
      else lp.(pc := ClearWanted)
    case ClearWanted => lp.(pc := CheckSkippedAgain)
    case CheckSkippedAgain =>
      if m.skipped then lp.(pc := Invoke, pipePending := true, pipeRead := lp.pipePending && lp.pipeRead)
      else lp.(pc := Invoke)
    case Invoke => if lp.pipePending then lp.(pc := ReadFd, pipePending := false) else lp.(pc := Top)
    case ReadFd => lp.(pc := ResetSkipped)
    case ResetSkipped => lp.(pc := TestSig)
    case TestSig => lp.(pc := if m.sigFlag then ClearSig else TestAsync)
    case ClearSig => lp.(pc := ScanSig(lp.nsig))
    case ScanSig(i) =>
      lp.(pc := if i == 0 then TestAsync else if Sig(i - 1) in m.marked then FeedSig(i - 1) else ScanSig(i - 1))
    case FeedSig(i) => lp.(pc := ScanSig(i), fed := lp.fed + multiset{Sig(i)})
    case TestAsync => lp.(pc := if m.asyncFlag then ClearAsync else Invoke)
    case ClearAsync => lp.(pc := ScanAsync(|lp.asyncs|))
    case ScanAsync(i) =>
      if i == 0 || i > |lp.asyncs| then lp.(pc := Invoke)
      else lp.(pc := if Async(lp.asyncs[i - 1]) in m.marked then FeedAsync(i - 1) else ScanAsync(i - 1))
    case FeedAsync(i) =>
      if i >= |lp.asyncs| then lp.(pc := Invoke)
      else lp.(pc := ScanAsync(i), fed := lp.fed + multiset{Async(lp.asyncs[i])})
  }

  datatype Step =
    | Spawn(id: nat, src: Source)      // a thread or signal handler begins a send
    | Sender(id: nat)
    | Loop(other: bool)
    | AsyncStart(w: nat)               // ev_async_start, from a callback
    | AsyncStop(i: nat)                // ev_async_stop of the watcher at index i

  predicate NextStep(s: State, t: State, step: Step) {
    match step
    case Spawn(id, src) => id !in s.senders && t == s.(senders := s.senders[id := Mark(src)])
    case Sender(id) =>
      && id in s.senders
      && t == s.(mem := SenderMem(s.mem, s.senders[id]), senders := SenderGoes(s.mem, s.senders, id))
    case Loop(other) => t == s.(mem := LoopMem(s.mem, s.lp), lp := LoopGoes(s.mem, s.lp, other))
    case AsyncStart(w) =>
      && s.lp.pc == Invoke && w !in s.lp.asyncs
      && t == s.(mem := s.mem.(marked := s.mem.marked - {Async(w)}), lp := s.lp.(asyncs := s.lp.asyncs + [w]))
    case AsyncStop(i) =>
      && s.lp.pc == Invoke && i < |s.lp.asyncs|
      && var last := |s.lp.asyncs| - 1;
         t == s.(lp := s.lp.(asyncs := s.lp.asyncs[i := s.lp.asyncs[last]][..last]))
  }

  ghost predicate Next(s: State, t: State) {
    exists step :: NextStep(s, t, step)
  }

  /** A run: any interleaving, of any length, of any number of senders. */
  ghost predicate IsRun(run: seq<State>) {
    && run != [] && Init(run[0])
    && forall i :: 0 < i < |run| ==> Next(run[i - 1], run[i])
  }

  // ----- the invariant

  /** Some sender is about to raise the flag for `src`. */
  ghost predicate Raising(senders: Senders, src: Source) {
    exists id :: id in senders && (senders[id] == CheckFlag(src) || senders[id] == SetFlag(src))
  }

  /** Some sender is about to raise pipe_write_skipped for a flag of kind `k`. */
  ghost predicate Announcing(senders: Senders, k: Kind) {
    exists id :: id in senders && senders[id].SetSkipped? && KindOf(senders[id].src) == k
  }

  /** Some sender is committed to writing the eventfd. */
  ghost predicate Writing(senders: Senders) {
    exists id :: id in senders && (senders[id].ClearSkipped? || senders[id].WriteFd?)
  }

  /** Some sender has set pipe_write_skipped and not cleared it yet. */
  ghost predicate Hesitating(senders: Senders) {
    exists id :: id in senders && (senders[id].CheckWanted? || senders[id].ClearSkipped?)
  }

  /** `w` is among the first `n` active async watchers. */
  ghost predicate Among(asyncs: seq<nat>, n: nat, w: nat) {
    exists j :: 0 <= j < n && j < |asyncs| && asyncs[j] == w
  }

  /** The scan under way has not yet passed `src`. */
  ghost predicate WillScan(lp: LoopState, src: Source) {
    match src
    case Sig(n) => (lp.pc.ScanSig? && n < lp.pc.i) || (lp.pc.FeedSig? && n <= lp.pc.i)
    case Async(w) =>
      || (lp.pc.ScanAsync? && Among(lp.asyncs, lp.pc.i, w))
      || (lp.pc.FeedAsync? && Among(lp.asyncs, lp.pc.i + 1, w))
  }

  /** The loop will test the flag of kind `k` before it can block again. */
  predicate WillTest(lp: LoopState, k: Kind) {
    || lp.pipePending
    || lp.pc.ReadFd? || lp.pc.ResetSkipped? || lp.pc.TestSig? || lp.pc.ClearSig?
    || (k == KAsync && (lp.pc.ScanSig? || lp.pc.FeedSig? || lp.pc.TestAsync? || lp.pc.ClearAsync?))
  }

  ghost predicate MarkSeen(m: Shared, lp: LoopState, senders: Senders, src: Source) {
    src in m.marked && Live(lp, src) ==> Flag(m, KindOf(src)) || Raising(senders, src) || WillScan(lp, src)
  }

  ghost predicate FlagSeen(m: Shared, lp: LoopState, senders: Senders, k: Kind) {
    Flag(m, k) ==> m.evfd > 0 || m.skipped || Writing(senders) || Announcing(senders, k) || WillTest(lp, k)
  }

  ghost predicate SkipSeen(m: Shared, lp: LoopState, senders: Senders) {
    lp.pc == Poll(true) && m.skipped ==> Hesitating(senders)
  }

  predicate Phases(m: Shared, lp: LoopState) {
    && (lp.pc.Poll? || lp.pc.CheckSkipped? ==> m.wanted)
    && (lp.pipePending ==> lp.pc.ClearWanted? || lp.pc.CheckSkippedAgain? || lp.pc.Invoke?)
    && (lp.pc.ScanAsync? ==> lp.pc.i <= |lp.asyncs|)
    && (lp.pc.FeedAsync? ==> lp.pc.i < |lp.asyncs|)
    && (lp.pc.ScanSig? ==> lp.pc.i <= lp.nsig)
    && (lp.pc.FeedSig? ==> lp.pc.i < lp.nsig)
  }

  ghost predicate Inv(s: State) {
    && (forall src :: MarkSeen(s.mem, s.lp, s.senders, src))
    && (forall k :: FlagSeen(s.mem, s.lp, s.senders, k))
    && SkipSeen(s.mem, s.lp, s.senders)
    && Phases(s.mem, s.lp)
  }

  // ----- it is kept by every step

  /** A sender's step moves that sender only. */
  lemma SenderAlone(m: Shared, senders: Senders, id: nat)
    requires id in senders
    ensures forall o :: o in senders && o != id ==>
      o in SenderGoes(m, senders, id) && SenderGoes(m, senders, id)[o] == senders[o]
  {
  }

  lemma SenderKeepsMark(m: Shared, lp: LoopState, senders: Senders, id: nat, src: Source)
    requires id in senders && MarkSeen(m, lp, senders, src)
    ensures MarkSeen(SenderMem(m, senders[id]), lp, SenderGoes(m, senders, id), src)
  {
    hide WillScan, Live;
    SenderAlone(m, senders, id);
    var next := SenderGoes(m, senders, id);
    if senders[id] == Mark(src) {
      assert next[id] == CheckFlag(src);
    } else if senders[id] == CheckFlag(src) && !Flag(m, KindOf(src)) {
      assert next[id] == SetFlag(src);
    } else if Raising(senders, src) && !(senders[id] == CheckFlag(src) || senders[id] == SetFlag(src)) {
      var o :| o in senders && (senders[o] == CheckFlag(src) || senders[o] == SetFlag(src));
      assert next[o] == senders[o];
    }
  }

  lemma SenderKeepsFlag(m: Shared, lp: LoopState, senders: Senders, id: nat, k: Kind)
    requires id in senders && FlagSeen(m, lp, senders, k)
    ensures FlagSeen(SenderMem(m, senders[id]), lp, SenderGoes(m, senders, id), k)
  {
    hide WillTest;
    SenderAlone(m, senders, id);
    var next := SenderGoes(m, senders, id);
    if senders[id].SetFlag? {
      assert next[id] == SetSkipped(senders[id].src);
    } else if senders[id].ClearSkipped? {
      assert next[id] == WriteFd(senders[id].src);
    } else if Writing(senders) && !senders[id].WriteFd? {
      var o :| o in senders && (senders[o].ClearSkipped? || senders[o].WriteFd?);
      assert next[o] == senders[o];
    } else if Announcing(senders, k) && !senders[id].SetSkipped? {
      var o :| o in senders && senders[o].SetSkipped? && KindOf(senders[o].src) == k;
      assert next[o] == senders[o];
    }
  }

  lemma SenderKeepsSkip(m: Shared, lp: LoopState, senders: Senders, id: nat)
    requires id in senders && SkipSeen(m, lp, senders) && Phases(m, lp)
    ensures SkipSeen(SenderMem(m, senders[id]), lp, SenderGoes(m, senders, id))
  {
    SenderAlone(m, senders, id);
    var next := SenderGoes(m, senders, id);
    match senders[id]
    case SetSkipped(src) => assert next[id] == CheckWanted(src);
    case CheckWanted(src) =>
      if m.wanted {
        assert next[id] == ClearSkipped(src);
      }
    case _ =>
      if Hesitating(senders) {
        var o :| o in senders && (senders[o].CheckWanted? || senders[o].ClearSkipped?);
        assert o != id ==> next[o] == senders[o];
      }
  }

  lemma AmongStep(asyncs: seq<nat>, i: nat, w: nat)
    ensures Among(asyncs, i + 1, w) <==> Among(asyncs, i, w) || (i < |asyncs| && asyncs[i] == w)
  {
    if Among(asyncs, i + 1, w) {
      var j :| 0 <= j < i + 1 && j < |asyncs| && asyncs[j] == w;
      assert j == i || (0 <= j < i && j < |asyncs| && asyncs[j] == w);
    }
  }

  lemma AmongEnds(asyncs: seq<nat>, w: nat)
    ensures !Among(asyncs, 0, w)
    ensures w in asyncs ==> Among(asyncs, |asyncs|, w)
  {
  }

  lemma LoopKeepsSigMark(m: Shared, lp: LoopState, senders: Senders, other: bool, src: Source)
    requires MarkSeen(m, lp, senders, src) && Phases(m, lp) && src.Sig?
    ensures MarkSeen(LoopMem(m, lp), LoopGoes(m, lp, other), senders, src)
  {
    hide Raising, Among;
  }

  predicate Scanning(pc: LoopPc) {
    pc.ClearAsync? || pc.ScanAsync? || pc.FeedAsync?
  }

  /** Outside the scan, the loop touches no async watcher's mark. */
  lemma LoopElsewhere(m: Shared, lp: LoopState, other: bool, src: Source)
    requires src.Async? && !Scanning(lp.pc)
    ensures src in LoopMem(m, lp).marked <==> src in m.marked
    ensures LoopMem(m, lp).asyncFlag == m.asyncFlag
    ensures !WillScan(lp, src) && LoopGoes(m, lp, other).asyncs == lp.asyncs
  {
  }

  /** The scan takes one watcher at a time and forgets none. */
  lemma ScanStep(m: Shared, lp: LoopState, other: bool, src: Source)
    requires src.Async? && Scanning(lp.pc) && Phases(m, lp)
    requires src in m.marked && Live(lp, src) && (lp.pc.ClearAsync? || WillScan(lp, src))
    ensures var m1, lp1 := LoopMem(m, lp), LoopGoes(m, lp, other);
      src in m1.marked ==> WillScan(lp1, src)
  {
    hide Among;
    AmongEnds(lp.asyncs, src.w);
    match lp.pc
    case ScanAsync(i) => if i > 0 { AmongStep(lp.asyncs, i - 1, src.w); }
    case FeedAsync(i) => AmongStep(lp.asyncs, i, src.w);
    case _ =>
  }

  lemma ScanFrame(m: Shared, lp: LoopState, other: bool, src: Source)
    requires src.Async? && Scanning(lp.pc)
    ensures src in LoopMem(m, lp).marked ==> src in m.marked
    ensures lp.pc.ClearAsync? || LoopMem(m, lp).asyncFlag == m.asyncFlag
    ensures LoopGoes(m, lp, other).asyncs == lp.asyncs
  {
  }

  lemma LoopKeepsAsyncMark(m: Shared, lp: LoopState, senders: Senders, other: bool, src: Source)
    requires MarkSeen(m, lp, senders, src) && Phases(m, lp) && src.Async?
    ensures MarkSeen(LoopMem(m, lp), LoopGoes(m, lp, other), senders, src)
  {
    hide Raising, Among, LoopMem, LoopGoes, Phases, WillScan;
    if Scanning(lp.pc) {
      ScanFrame(m, lp, other, src);
      if src in m.marked && Live(lp, src) && (lp.pc.ClearAsync? || WillScan(lp, src)) {
        ScanStep(m, lp, other, src);
      }
    } else {
      LoopElsewhere(m, lp, other, src);
    }
  }

  lemma LoopKeepsMark(m: Shared, lp: LoopState, senders: Senders, other: bool, src: Source)
    requires MarkSeen(m, lp, senders, src) && Phases(m, lp)
    ensures MarkSeen(LoopMem(m, lp), LoopGoes(m, lp, other), senders, src)
  {
    hide *;
    if src.Sig? {
      LoopKeepsSigMark(m, lp, senders, other, src);
    } else {
      LoopKeepsAsyncMark(m, lp, senders, other, src);
    }
  }

  lemma LoopKeepsFlag(m: Shared, lp: LoopState, senders: Senders, other: bool, k: Kind)
    requires FlagSeen(m, lp, senders, k) && Phases(m, lp)
    ensures FlagSeen(LoopMem(m, lp), LoopGoes(m, lp, other), senders, k)
  {
    hide Writing, Announcing;
  }

  lemma LoopKeepsRest(m: Shared, lp: LoopState, senders: Senders, other: bool)
    requires SkipSeen(m, lp, senders) && Phases(m, lp)
    ensures SkipSeen(LoopMem(m, lp), LoopGoes(m, lp, other), senders)
    ensures Phases(LoopMem(m, lp), LoopGoes(m, lp, other))
  {
    hide Hesitating, Phases;
    LoopKeepsPhases(m, lp, other);
  }

  lemma LoopKeepsPhases(m: Shared, lp: LoopState, other: bool)
    requires Phases(m, lp)
    ensures Phases(LoopMem(m, lp), LoopGoes(m, lp, other))
  {
  }

  /** A new sender, or a callback that starts or stops a watcher. */
  lemma OutsideKeeps(s: State, t: State, step: Step)
    requires Inv(s) && NextStep(s, t, step) && !step.Sender? && !step.Loop?
    ensures Inv(t)
  {
    forall src
      ensures MarkSeen(t.mem, t.lp, t.senders, src)
    {
      assert MarkSeen(s.mem, s.lp, s.senders, src);
      assert Raising(s.senders, src) ==> Raising(t.senders, src) by {
        hide *;
        assert forall o :: o in s.senders ==> o in t.senders && t.senders[o] == s.senders[o] by {
          Stay(s, t, step);
        }
        RaisingStays(s.senders, t.senders, src);
      }
    }
    Stay(s, t, step);
    forall k
      ensures FlagSeen(t.mem, t.lp, t.senders, k)
    {
      assert FlagSeen(s.mem, s.lp, s.senders, k);
    }
    assert SkipSeen(s.mem, s.lp, s.senders);
  }

  lemma Stay(s: State, t: State, step: Step)
    requires NextStep(s, t, step) && !step.Sender? && !step.Loop?
    ensures forall o :: o in s.senders ==> o in t.senders && t.senders[o] == s.senders[o]
  {
  }

  lemma RaisingStays(senders: Senders, more: Senders, src: Source)
    requires forall o :: o in senders ==> o in more && more[o] == senders[o]
    ensures Raising(senders, src) ==> Raising(more, src)
  {
  }

  lemma NextKeeps(s: State, t: State)
    requires Inv(s) && Next(s, t)
    ensures Inv(t)
  {
    hide MarkSeen, FlagSeen, SkipSeen, Phases, SenderMem, SenderGoes, LoopMem, LoopGoes;
    var step :| NextStep(s, t, step);
    match step
    case Sender(id) =>
      forall src
        ensures MarkSeen(t.mem, t.lp, t.senders, src)
      {
        SenderKeepsMark(s.mem, s.lp, s.senders, id, src);
      }
      forall k
        ensures FlagSeen(t.mem, t.lp, t.senders, k)
      {
        SenderKeepsFlag(s.mem, s.lp, s.senders, id, k);
      }
      SenderKeepsSkip(s.mem, s.lp, s.senders, id);
      SenderKeepsPhases(s.mem, s.lp, s.senders[id]);
    case Loop(other) =>
      forall src
        ensures MarkSeen(t.mem, t.lp, t.senders, src)
      {
        LoopKeepsMark(s.mem, s.lp, s.senders, other, src);
      }
      forall k
        ensures FlagSeen(t.mem, t.lp, t.senders, k)
      {
        LoopKeepsFlag(s.mem, s.lp, s.senders, other, k);
      }
      LoopKeepsRest(s.mem, s.lp, s.senders, other);
    case _ => OutsideKeeps(s, t, step);
  }

  lemma SenderKeepsPhases(m: Shared, lp: LoopState, pc: SenderPc)
    requires Phases(m, lp)
    ensures Phases(SenderMem(m, pc), lp)
  {
  }

  lemma {:induction false} RunKeeps(run: seq<State>, i: nat)
    requires IsRun(run) && i < |run|
    ensures Inv(run[i])
  {
    if i > 0 {
      RunKeeps(run, i - 1);
      NextKeeps(run[i - 1], run[i]);
    }
  }

  // ----- no wake-up is lost

  /** The loop sleeps in the kernel and nothing is going to wake it. */
  predicate Asleep(s: State) {
    s.lp.pc == Poll(true) && s.mem.evfd == 0 && s.senders == map[]
  }

  /** In every interleaving: a loop that is asleep has nothing left to do. */
  lemma NoLostWakeup(run: seq<State>, i: nat)
    requires IsRun(run) && i < |run| && Asleep(run[i])
    ensures !run[i].mem.asyncFlag && !run[i].mem.sigFlag && !run[i].mem.skipped
    ensures forall src :: src in run[i].mem.marked ==> !Live(run[i].lp, src)
  {
    RunKeeps(run, i);
    var s := run[i];
    assert FlagSeen(s.mem, s.lp, s.senders, KAsync) && FlagSeen(s.mem, s.lp, s.senders, KSig);
    forall src | src in s.mem.marked
      ensures !Live(s.lp, src)
    {
      assert MarkSeen(s.mem, s.lp, s.senders, src);
    }
  }

  // ----- every send is fed

  /** One step of a loop that nobody but the pipe wakes, with no sender about. */
  function Quiet(s: State): State {
    s.(mem := LoopMem(s.mem, s.lp), lp := LoopGoes(s.mem, s.lp, false))
  }

  function QuietRun(s: State, n: nat): State
    decreases n
  {
    if n == 0 then s else QuietRun(Quiet(s), n - 1)
  }

  /** The present round of the loop will come to feed `src`. */
  ghost predicate Served(s: State, src: Source) {
    || WillScan(s.lp, src)
    || (Flag(s.mem, KindOf(src))
        && (WillTest(s.lp, KindOf(src))
            || ((s.lp.pc.Top? || s.lp.pc.CheckSkipped? || s.lp.pc.Poll?) && (s.mem.evfd > 0 || s.mem.skipped))
            || ((s.lp.pc.ClearWanted? || s.lp.pc.CheckSkippedAgain?) && s.mem.skipped)))
  }

  /** Steps until the present round of the loop is over. */
  function Left(lp: LoopState): nat {
    var a, n := 2 * |lp.asyncs|, 2 * lp.nsig;
    match lp.pc
    case Invoke => if lp.pipePending then a + n + 20 else 0
    case ScanAsync(i) => 2 * i + 1
    case FeedAsync(i) => 2 * i + 2
    case ClearAsync => a + 2
    case TestAsync => a + 3
    case ScanSig(i) => a + 4 + 2 * i
    case FeedSig(i) => a + 5 + 2 * i
    case ClearSig => a + n + 5
    case TestSig => a + n + 6
    case ResetSkipped => a + n + 7
    case ReadFd => a + n + 8
    case CheckSkippedAgain => a + n + 21
    case ClearWanted => a + n + 22
    case Poll(_) => a + n + 23
    case CheckSkipped => a + n + 24
    case Top => a + n + 25
  }

  /** Steps until `src` is fed at the latest. */
  ghost function Rank(s: State, src: Source): nat {
    Left(s.lp) + if Served(s, src) then 0 else 2 * |s.lp.asyncs| + 2 * s.lp.nsig + 26
  }

  /** The round goes on. */
  lemma LeftDrops(m: Shared, lp: LoopState)
    requires Phases(m, lp)
    requires lp.pc == Poll(true) ==> m.evfd > 0
    requires lp.pc == Invoke ==> lp.pipePending
    ensures Left(LoopGoes(m, lp, false)) < Left(lp)
  {
    if lp.pc.ScanSig? || lp.pc.FeedSig? || lp.pc.ScanAsync? || lp.pc.FeedAsync? {
      LeftDropsScanning(m, lp);
    } else {
      hide Phases;
    }
  }

  lemma LeftDropsScanning(m: Shared, lp: LoopState)
    requires Phases(m, lp) && (lp.pc.ScanSig? || lp.pc.FeedSig? || lp.pc.ScanAsync? || lp.pc.FeedAsync?)
    ensures Left(LoopGoes(m, lp, false)) < Left(lp)
  {
  }

  lemma ServedStaysSig(s: State, src: Source)
    requires Phases(s.mem, s.lp) && Served(s, src) && src.Sig? && src in s.mem.marked && Live(s.lp, src)
    ensures src in Quiet(s).mem.marked ==> Served(Quiet(s), src)
  {
    hide Among;
  }

  lemma ServedStaysAsync(s: State, src: Source)
    requires Phases(s.mem, s.lp) && Served(s, src) && src.Async? && src in s.mem.marked && Live(s.lp, src)
    ensures src in Quiet(s).mem.marked ==> Served(Quiet(s), src)
  {
    hide Among;
    if Scanning(s.lp.pc) {
      assert s.lp.pc.ClearAsync? || WillScan(s.lp, src);
      ScanStep(s.mem, s.lp, false, src);
    } else {
      LoopElsewhere(s.mem, s.lp, false, src);
    }
  }

  /** A round that will serve `src` serves it now or still will. */
  lemma ServedStays(s: State, src: Source)
    requires Phases(s.mem, s.lp) && Served(s, src)
    requires src in s.mem.marked && Live(s.lp, src)
    ensures src in Quiet(s).mem.marked ==> Served(Quiet(s), src)
  {
    hide *;
    if src.Sig? {
      ServedStaysSig(s, src);
    } else {
      ServedStaysAsync(s, src);
    }
  }

  /** With no sender about, a marked source is served by this round or the next. */
  lemma NextServes(s: State, src: Source)
    requires Inv(s) && s.senders == map[]
    requires src in s.mem.marked && Live(s.lp, src)
    ensures s.lp.pc == Poll(true) ==> s.mem.evfd > 0
    ensures s.lp.pc == Invoke && !s.lp.pipePending ==> !Served(s, src) && Served(Quiet(s), src)
  {
    hide Among;
    assert MarkSeen(s.mem, s.lp, s.senders, src);
    assert FlagSeen(s.mem, s.lp, s.senders, KindOf(src));
  }

  lemma QuietKeepsMark(m: Shared, lp: LoopState, src: Source)
    requires src in m.marked
    ensures LoopGoes(m, lp, false).fed[src] == lp.fed[src] + if src in LoopMem(m, lp).marked then 0 else 1
  {
    if !lp.pc.FeedSig? && !lp.pc.FeedAsync? {
      FeedsNone(m, lp, false);
    }
  }

  lemma FeedsNone(m: Shared, lp: LoopState, other: bool)
    requires !lp.pc.FeedSig? && !lp.pc.FeedAsync?
    ensures LoopGoes(m, lp, other).fed == lp.fed && LoopMem(m, lp).marked == m.marked
  {
  }

  lemma QuietKeepsLive(m: Shared, lp: LoopState, src: Source)
    ensures Live(LoopGoes(m, lp, false), src) == Live(lp, src)
    ensures LoopGoes(m, lp, false).asyncs == lp.asyncs && LoopGoes(m, lp, false).nsig == lp.nsig
  {
  }

  /** The mark of `src` in s is gone in t, and src was fed for it, once. */
  predicate FedSince(s: State, t: State, src: Source) {
    src !in t.mem.marked && t.lp.fed[src] == s.lp.fed[src] + 1
  }

  /** With nobody sending, a marked source is fed next or comes closer. */
  lemma Closer(s: State, src: Source)
    requires Inv(s) && s.senders == map[]
    requires src in s.mem.marked && Live(s.lp, src)
    ensures var t := Quiet(s);
      && t.senders == map[]
      && (FedSince(s, t, src)
          || (src in t.mem.marked && t.lp.fed[src] == s.lp.fed[src] && Live(t.lp, src) && Rank(t, src) < Rank(s, src)))
  {
    hide Served, LoopMem, LoopGoes, MarkSeen, FlagSeen, SkipSeen, Phases, Left, Live;
    NextServes(s, src);
    QuietKeepsMark(s.mem, s.lp, src);
    QuietKeepsLive(s.mem, s.lp, src);
    if s.lp.pc == Invoke && !s.lp.pipePending {
      TopIsLess(s.mem, s.lp);
    } else {
      LeftDrops(s.mem, s.lp);
      if Served(s, src) {
        ServedStays(s, src);
      }
    }
  }

  lemma TopIsLess(m: Shared, lp: LoopState)
    requires lp.pc == Invoke && !lp.pipePending
    ensures Left(LoopGoes(m, lp, false)) < 2 * |lp.asyncs| + 2 * lp.nsig + 26
  {
  }

  lemma {:induction false} FedWithin(s: State, src: Source) returns (n: nat)
    requires Inv(s) && s.senders == map[]
    requires src in s.mem.marked && Live(s.lp, src)
    ensures n <= Rank(s, src) + 1 && FedSince(s, QuietRun(s, n), src)
    decreases Rank(s, src)
  {
    hide *;
    Closer(s, src);
    var t := Quiet(s);
    if FedSince(s, t, src) {
      QuietOne(s);
      n := 1;
    } else {
      assert Inv(t) by {
        QuietNext(s);
        NextKeeps(s, t);
      }
      n := FedWithin(t, src);
      QuietMore(s, n);
      FedSinceEarlier(s, t, QuietRun(t, n), src);
      n := n + 1;
    }
  }

  lemma FedSinceEarlier(s: State, t: State, u: State, src: Source)
    requires t.lp.fed[src] == s.lp.fed[src] && FedSince(t, u, src)
    ensures FedSince(s, u, src)
  {
  }

  lemma QuietNext(s: State)
    ensures Next(s, Quiet(s))
  {
    assert NextStep(s, Quiet(s), Loop(false));
  }

  lemma QuietOne(s: State)
    ensures QuietRun(s, 1) == Quiet(s)
  {
    assert QuietRun(Quiet(s), 0) == Quiet(s);
  }

  lemma QuietMore(s: State, n: nat)
    ensures QuietRun(s, n + 1) == QuietRun(Quiet(s), n)
  {
  }

  /** Whatever happened before, earlier feeds of the same source included: once
      the senders are through, each mark they left is taken away, and its source
      fed exactly once for it, within a bounded number of steps of the loop. */
  lemma EverySendIsFed(run: seq<State>, i: nat, src: Source) returns (n: nat)
    requires IsRun(run) && i < |run| && run[i].senders == map[]
    requires src in run[i].mem.marked && Live(run[i].lp, src)
    ensures n <= 4 * |run[i].lp.asyncs| + 4 * run[i].lp.nsig + 53
    ensures src !in QuietRun(run[i], n).mem.marked
    ensures QuietRun(run[i], n).lp.fed[src] == run[i].lp.fed[src] + 1
  {
    RunKeeps(run, i);
    RankBound(run[i], src);
    n := FedWithin(run[i], src);
  }

  lemma RankBound(s: State, src: Source)
    requires Inv(s)
    ensures Rank(s, src) <= 4 * |s.lp.asyncs| + 4 * s.lp.nsig + 52
  {
  }
  // ----- a loop with nothing to do comes to sleep

  /** Nothing will wake the loop from its next poll. */
  predicate Calm(s: State) {
    s.mem.evfd == 0 && !s.mem.skipped && !s.lp.pipePending && s.senders == map[]
  }

  /** The present round of the loop will have read the eventfd, if it needs to be
      read, and taken pipe_write_skipped back. */
  predicate WillCalm(s: State) {
    match s.lp.pc
    case Top => s.mem.evfd > 0 || s.mem.skipped
    case CheckSkipped => s.mem.evfd > 0 || s.mem.skipped
    case Poll(block) => s.mem.evfd > 0 || (s.mem.skipped && !block)
    case ClearWanted => PipeCalms(s) || (!s.lp.pipePending && s.mem.skipped && s.mem.evfd == 0)
    case CheckSkippedAgain => PipeCalms(s) || (!s.lp.pipePending && s.mem.skipped && s.mem.evfd == 0)
    case Invoke => PipeCalms(s)
    case ReadFd => s.lp.pipeRead || s.mem.evfd == 0
    case ResetSkipped => s.mem.evfd == 0
    case _ => false
  }

  predicate PipeCalms(s: State) {
    s.lp.pipePending && (s.lp.pipeRead || s.mem.evfd == 0)
  }

  predicate Falling(pc: LoopPc) {
    pc.Top? || pc.CheckSkipped? || pc == Poll(true)
  }

  function Round(lp: LoopState): nat {
    2 * |lp.asyncs| + 2 * lp.nsig + 26
  }

  /** Steps until the loop sleeps at the latest. */
  function Waking(s: State): nat {
    Left(s.lp) + Round(s.lp) * (if Calm(s) && Falling(s.lp.pc) then 0 else if Calm(s) then 1 else if WillCalm(s) then 2 else 3)
  }

  lemma CalmStays(s: State)
    requires Calm(s) && Phases(s.mem, s.lp)
    ensures Calm(Quiet(s)) && (Falling(s.lp.pc) ==> Falling(Quiet(s).lp.pc))
    ensures s.lp.pc == Poll(true) ==> Asleep(s)
    ensures s.lp.pc == Invoke ==> Falling(Quiet(s).lp.pc)
  {
  }

  lemma CalmComes(s: State)
    requires WillCalm(s) && !Calm(s) && s.senders == map[] && Phases(s.mem, s.lp)
    ensures Calm(Quiet(s)) || WillCalm(Quiet(s))
    ensures s.lp.pc == Poll(true) ==> s.mem.evfd > 0
    ensures s.lp.pc == Invoke ==> s.lp.pipePending
  {
  }

  lemma CalmNext(s: State)
    requires !WillCalm(s) && !Calm(s) && s.senders == map[] && Phases(s.mem, s.lp) && SkipSeen(s.mem, s.lp, s.senders)
    ensures s.lp.pc != Poll(true)
    ensures s.lp.pc == Invoke && !s.lp.pipePending ==> Calm(Quiet(s)) || WillCalm(Quiet(s))
  {
  }

  lemma RoundSame(m: Shared, lp: LoopState)
    ensures Round(LoopGoes(m, lp, false)) == Round(lp)
  {
    QuietKeepsLive(m, lp, Sig(0));
  }

  /** The loop is asleep, or comes closer to it. */
  lemma Sleepier(s: State)
    requires Inv(s) && s.senders == map[]
    ensures Asleep(s) || Waking(Quiet(s)) < Waking(s)
  {
    hide MarkSeen, FlagSeen, SkipSeen, Phases, Left, LoopMem, LoopGoes, Calm, WillCalm, Falling, Round;
    RoundSame(s.mem, s.lp);
    if Calm(s) {
      CalmStays(s);
    } else if WillCalm(s) {
      CalmComes(s);
    } else {
      CalmNext(s);
    }
    if !Asleep(s) {
      if s.lp.pc == Invoke && !s.lp.pipePending {
        TopInRound(s.mem, s.lp);
        CalmTop(s);
      } else {
        CalmPoll(s);
        LeftDrops(s.mem, s.lp);
      }
    }
  }

  lemma TopInRound(m: Shared, lp: LoopState)
    requires lp.pc == Invoke && !lp.pipePending
    ensures Left(LoopGoes(m, lp, false)) < Round(lp)
  {
  }

  lemma CalmTop(s: State)
    requires s.lp.pc == Invoke && !s.lp.pipePending
    ensures !WillCalm(s) && !Falling(s.lp.pc)
  {
  }

  lemma CalmPoll(s: State)
    requires !Asleep(s) && s.senders == map[]
    ensures s.lp.pc == Poll(true) ==> s.mem.evfd > 0
  {
  }

  lemma {:induction false} AsleepWithin(s: State) returns (n: nat)
    requires Inv(s) && s.senders == map[]
    ensures n <= Waking(s) && Asleep(QuietRun(s, n))
    decreases Waking(s)
  {
    hide *;
    Sleepier(s);
    if Asleep(s) {
      n := 0;
      QuietNone(s);
    } else {
      assert Inv(Quiet(s)) && Quiet(s).senders == map[] by {
        QuietNext(s);
        NextKeeps(s, Quiet(s));
        QuietAlone(s);
      }
      n := AsleepWithin(Quiet(s));
      QuietMore(s, n);
      n := n + 1;
    }
  }

  /** With nobody sending, whatever happened before, the loop goes to sleep within
      a bounded number of steps. */
  lemma FallsAsleep(run: seq<State>, i: nat) returns (n: nat)
    requires IsRun(run) && i < |run| && run[i].senders == map[]
    ensures n <= 8 * |run[i].lp.asyncs| + 8 * run[i].lp.nsig + 104 && Asleep(QuietRun(run[i], n))
  {
    hide IsRun, Inv, Asleep, QuietRun, Left;
    RunKeeps(run, i);
    WakingBound(run[i]);
    n := AsleepWithin(run[i]);
  }

  lemma WakingBound(s: State)
    requires Inv(s)
    ensures Waking(s) <= 8 * |s.lp.asyncs| + 8 * s.lp.nsig + 104
  {
    hide MarkSeen, FlagSeen, SkipSeen, Calm, WillCalm, Falling;
  }

  lemma QuietNone(s: State)
    ensures QuietRun(s, 0) == s
  {
  }

  lemma QuietAlone(s: State)
    ensures Quiet(s).senders == s.senders
  {
  }

  // ----- from the send on

  /** ev_async_start of this source's watcher, which takes its mark away, came
      between two states of a run. */
  ghost predicate Restarted(run: seq<State>, i: nat, j: nat, src: Source) {
    exists k :: i < k <= j && RestartedStep(run, k, src)
  }

  ghost predicate RestartedStep(run: seq<State>, k: nat, src: Source) {
    0 < k < |run| && RestartedAt(run[k - 1], run[k], src)
  }

  ghost predicate RestartedAt(s: State, t: State, src: Source) {
    src.Async? && NextStep(s, t, AsyncStart(src.w))
  }

  /** A sender that was about to mark `src` still is, or the mark is there, or
      was there and led to a feed. */
  ghost predicate Noticed(s: State, t: State, id: nat, src: Source) {
    && t.lp.fed[src] >= s.lp.fed[src]
    && (|| (id in t.senders && t.senders[id] == Mark(src))
        || src in t.mem.marked
        || t.lp.fed[src] > s.lp.fed[src])
  }

  lemma SenderNotices(s: State, t: State, u: State, o: nat, id: nat, src: Source)
    requires Noticed(s, t, id, src) && NextStep(t, u, Sender(o))
    ensures Noticed(s, u, id, src)
  {
    SenderAlone(t.mem, t.senders, o);
  }

  lemma LoopNotices(s: State, t: State, u: State, other: bool, id: nat, src: Source)
    requires Noticed(s, t, id, src) && NextStep(t, u, Loop(other))
    ensures Noticed(s, u, id, src)
  {
    hide LoopMem, LoopGoes;
    LoopFeeds(t.mem, t.lp, other, src);
  }

  /** The loop takes a mark away only by feeding its source, once. */
  lemma LoopFeeds(m: Shared, lp: LoopState, other: bool, src: Source)
    ensures src in LoopMem(m, lp).marked ==> src in m.marked
    ensures LoopGoes(m, lp, other).fed[src] >= lp.fed[src]
    ensures src in m.marked && src !in LoopMem(m, lp).marked ==> LoopGoes(m, lp, other).fed[src] == lp.fed[src] + 1
    ensures LoopGoes(m, lp, other).fed[src] != lp.fed[src] ==>
      && LoopGoes(m, lp, other).fed[src] == lp.fed[src] + 1 && src !in LoopMem(m, lp).marked
      && (FeedsMarked(m, lp) ==> src in m.marked)
  {
    if lp.pc.FeedSig? || lp.pc.FeedAsync? {
      LoopFeedsOne(m, lp, other, src);
    } else {
      FeedsNone(m, lp, other);
      hide *;
    }
  }

  lemma LoopFeedsOne(m: Shared, lp: LoopState, other: bool, src: Source)
    requires lp.pc.FeedSig? || lp.pc.FeedAsync?
    ensures src in LoopMem(m, lp).marked ==> src in m.marked
    ensures LoopGoes(m, lp, other).fed[src] >= lp.fed[src]
    ensures src in m.marked && src !in LoopMem(m, lp).marked ==> LoopGoes(m, lp, other).fed[src] == lp.fed[src] + 1
    ensures LoopGoes(m, lp, other).fed[src] != lp.fed[src] ==>
      && LoopGoes(m, lp, other).fed[src] == lp.fed[src] + 1 && src !in LoopMem(m, lp).marked
      && (FeedsMarked(m, lp) ==> src in m.marked)
  {
  }

  lemma NextNotices(s: State, t: State, u: State, id: nat, src: Source)
    requires Noticed(s, t, id, src) && Next(t, u)
    ensures Noticed(s, u, id, src) || RestartedAt(t, u, src)
  {
    hide SenderMem, SenderGoes, LoopMem, LoopGoes, Noticed;
    var step :| NextStep(t, u, step);
    match step
    case Sender(o) => SenderNotices(s, t, u, o, id, src);
    case Loop(other) => LoopNotices(s, t, u, other, id, src);
    case _ => OutsideNotices(s, t, u, step, id, src);
  }

  lemma OutsideNotices(s: State, t: State, u: State, step: Step, id: nat, src: Source)
    requires Noticed(s, t, id, src) && NextStep(t, u, step) && !step.Sender? && !step.Loop?
    ensures Noticed(s, u, id, src) || RestartedAt(t, u, src)
  {
  }

  /** In every interleaving, what a sender is about to mark stays noticed until
      it is fed, unless its watcher is started anew. */
  lemma {:induction false} SendIsNoticed(run: seq<State>, i: nat, j: nat, id: nat, src: Source)
    requires IsRun(run) && i <= j < |run| && id in run[i].senders && run[i].senders[id] == Mark(src)
    ensures Noticed(run[i], run[j], id, src) || Restarted(run, i, j, src)
    decreases j - i
  {
    hide Noticed, RestartedAt, IsRun;
    if i == j {
      StillThere(run[i], id, src);
    } else {
      SendIsNoticed(run, i, j - 1, id, src);
      if Restarted(run, i, j - 1, src) {
        var k :| i < k <= j - 1 && RestartedStep(run, k, src);
      } else {
        RunNext(run, j);
        NextNotices(run[i], run[j - 1], run[j], id, src);
        assert RestartedAt(run[j - 1], run[j], src) ==> RestartedStep(run, j, src);
      }
    }
  }

  lemma RunNext(run: seq<State>, j: nat)
    requires IsRun(run) && 0 < j < |run|
    ensures Next(run[j - 1], run[j])
  {
  }

  lemma StillThere(s: State, id: nat, src: Source)
    requires id in s.senders && s.senders[id] == Mark(src)
    ensures Noticed(s, s, id, src)
  {
  }

  /** Every send is answered: once the senders are through, its source has been
      fed since the send began, or is fed within a bounded number of steps of the
      loop, if the loop listens to it and its watcher was not started anew. */
  lemma SendIsFed(run: seq<State>, i: nat, j: nat, id: nat, src: Source) returns (n: nat)
    requires IsRun(run) && 0 < i <= j < |run| && NextStep(run[i - 1], run[i], Spawn(id, src))
    requires run[j].senders == map[] && Live(run[j].lp, src) && !Restarted(run, i, j, src)
    ensures n <= 4 * |run[j].lp.asyncs| + 4 * run[j].lp.nsig + 53
    ensures QuietRun(run[j], n).lp.fed[src] > run[i].lp.fed[src]
  {
    hide Live, Restarted, IsRun;
    SendIsNoticed(run, i, j, id, src);
    if src in run[j].mem.marked {
      FedGrows(run, i, j, src);
      n := EverySendIsFed(run, j, src);
    } else {
      n := 0;
    }
  }

  lemma {:induction false} FedGrows(run: seq<State>, i: nat, j: nat, src: Source)
    requires IsRun(run) && i <= j < |run|
    ensures run[i].lp.fed[src] <= run[j].lp.fed[src]
    decreases j - i
  {
    if i < j {
      FedGrows(run, i, j - 1, src);
      NextFeeds(run[j - 1], run[j], src);
    }
  }

  lemma NextFeeds(s: State, t: State, src: Source)
    requires Next(s, t)
    ensures s.lp.fed[src] <= t.lp.fed[src]
  {
    hide SenderMem, SenderGoes, LoopMem, LoopGoes;
    var step :| NextStep(s, t, step);
    if step.Loop? {
      LoopFeeds(s.mem, s.lp, step.other, src);
    }
  }

  /** Sends are coalesced: while the flag of its kind is up, a send only leaves
      its mark. */
  lemma Coalesced(s: State, t: State, u: State, id: nat, src: Source)
    requires id in s.senders && s.senders[id] == Mark(src) && Flag(s.mem, KindOf(src))
    requires NextStep(s, t, Sender(id)) && NextStep(t, u, Sender(id))
    ensures u == s.(mem := s.mem.(marked := s.mem.marked + {src}), senders := s.senders - {id})
  {
    assert s.senders[id := CheckFlag(src)] - {id} == s.senders - {id};
  }

  // ----- nothing is fed without a send

  /** What is about to be fed is marked. */
  predicate FeedsMarked(m: Shared, lp: LoopState) {
    && (lp.pc.FeedSig? ==> Sig(lp.pc.i) in m.marked)
    && (lp.pc.FeedAsync? ==> lp.pc.i < |lp.asyncs| && Async(lp.asyncs[lp.pc.i]) in m.marked)
  }

  lemma NextFeedsMarked(s: State, t: State)
    requires FeedsMarked(s.mem, s.lp) && Next(s, t)
    ensures FeedsMarked(t.mem, t.lp)
  {
    hide SenderGoes;
    var step :| NextStep(s, t, step);
    if step.Loop? {
      LoopFeedsMarked(s.mem, s.lp, step.other);
    }
  }

  lemma LoopFeedsMarked(m: Shared, lp: LoopState, other: bool)
    requires FeedsMarked(m, lp)
    ensures FeedsMarked(LoopMem(m, lp), LoopGoes(m, lp, other))
  {
    if lp.pc.ScanSig? || lp.pc.ScanAsync? {
      ScanFeedsMarked(m, lp, other);
    } else {
      FeedsNext(m, lp, other);
    }
  }

  lemma ScanFeedsMarked(m: Shared, lp: LoopState, other: bool)
    requires lp.pc.ScanSig? || lp.pc.ScanAsync?
    ensures FeedsMarked(LoopMem(m, lp), LoopGoes(m, lp, other))
  {
  }

  /** Only the scans come to feed. */
  lemma FeedsNext(m: Shared, lp: LoopState, other: bool)
    requires !lp.pc.ScanSig? && !lp.pc.ScanAsync?
    ensures !LoopGoes(m, lp, other).pc.FeedSig? && !LoopGoes(m, lp, other).pc.FeedAsync?
  {
  }

  lemma {:induction false} RunFeedsMarked(run: seq<State>, i: nat)
    requires IsRun(run) && i < |run|
    ensures FeedsMarked(run[i].mem, run[i].lp)
  {
    if i > 0 {
      RunFeedsMarked(run, i - 1);
      NextFeedsMarked(run[i - 1], run[i]);
    }
  }

  /** How many sends of `src` set its mark in the first i steps of a run. */
  ghost function Sends(run: seq<State>, i: nat, src: Source): nat
    requires i < |run|
  {
    if i == 0 then 0 else Sends(run, i - 1, src) + if Sent(run[i - 1], run[i], src) then 1 else 0
  }

  /** Some sender went past its mark. */
  ghost predicate Sent(s: State, t: State, src: Source) {
    exists id :: id in s.senders && s.senders[id] == Mark(src) && !(id in t.senders && t.senders[id] == Mark(src))
  }

  /** Every feed takes the mark of a send of its own: no source is fed more often
      than it was sent. */
  lemma {:induction false} FedAtMostSent(run: seq<State>, i: nat, src: Source)
    requires IsRun(run) && i < |run|
    ensures run[i].lp.fed[src] + (if src in run[i].mem.marked then 1 else 0) <= Sends(run, i, src)
  {
    hide Sent;
    if i > 0 {
      FedAtMostSent(run, i - 1, src);
      RunFeedsMarked(run, i - 1);
      NextTakesMark(run[i - 1], run[i], src);
    }
  }

  lemma NextTakesMark(s: State, t: State, src: Source)
    requires Next(s, t) && FeedsMarked(s.mem, s.lp)
    ensures var before := s.lp.fed[src] + (if src in s.mem.marked then 1 else 0);
      var after := t.lp.fed[src] + (if src in t.mem.marked then 1 else 0);
      after <= before + if Sent(s, t, src) then 1 else 0
  {
    hide LoopMem, LoopGoes;
    var step :| NextStep(s, t, step);
    match step
    case Sender(id) =>
      if s.senders[id] == Mark(src) {
        assert !(id in t.senders && t.senders[id] == Mark(src));
      }
    case Loop(other) =>
      LoopFeeds(s.mem, s.lp, other, src);
    case _ =>
  }

  // ----- which watchers the loop listens to

  predicate NoTwice(asyncs: seq<nat>) {
    forall j, k :: 0 <= j < k < |asyncs| ==> asyncs[j] != asyncs[k]
  }

  lemma {:induction false} AsyncsOnce(run: seq<State>, i: nat)
    requires IsRun(run) && i < |run|
    ensures NoTwice(run[i].lp.asyncs)
  {
    if i > 0 {
      AsyncsOnce(run, i - 1);
      var step :| NextStep(run[i - 1], run[i], step);
      ListensTo(run[i - 1], run[i], step);
    }
  }

  /** ev_async_start adds its watcher, ev_async_stop takes exactly the one at that
      index, and nothing else changes what the loop listens to. */
  lemma ListensTo(s: State, t: State, step: Step)
    requires NextStep(s, t, step) && NoTwice(s.lp.asyncs)
    ensures NoTwice(t.lp.asyncs) && t.lp.nsig == s.lp.nsig
    ensures match step
      case AsyncStart(w) => forall x :: x in t.lp.asyncs <==> x in s.lp.asyncs || x == w
      case AsyncStop(i) => forall x :: x in t.lp.asyncs <==> x in s.lp.asyncs && x != s.lp.asyncs[i]
      case _ => t.lp.asyncs == s.lp.asyncs
  {
    hide SenderMem, SenderGoes, LoopMem;
    match step
    case Loop(other) => QuietKeeps(s.mem, s.lp, other);
    case AsyncStop(i) => Swapped(s.lp.asyncs, i);
    case _ =>
  }

  lemma QuietKeeps(m: Shared, lp: LoopState, other: bool)
    ensures LoopGoes(m, lp, other).asyncs == lp.asyncs && LoopGoes(m, lp, other).nsig == lp.nsig
  {
  }

  lemma Swapped(a: seq<nat>, i: nat)
    requires i < |a| && NoTwice(a)
    ensures var b := a[i := a[|a| - 1]][..|a| - 1];
      NoTwice(b) && forall x :: x in b <==> x in a && x != a[i]
  {
    var b := a[i := a[|a| - 1]][..|a| - 1];
    forall x | x in a && x != a[i] ensures x in b {
      var k :| 0 <= k < |a| && a[k] == x;
      assert b[if k == |a| - 1 then i else k] == x;
    }
  }
}
