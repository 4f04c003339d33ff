/** Lock nesting and IRQ masking over all kernel paths.

    Every kernel path is written out as the sequence of mask, lock, unlock, restore and
    switch instructions it executes (kernel/spinlock.h, kernel/sched.c, kernel/sync.c,
    kernel/main.c, kernel/uart.c).  A machine then runs any number of tasks on any number
    of cores, each starting any path at any time, with an interrupt possible whenever a
    core's IRQs are open and a context switch at every switch point. */
module LockOrder {
  import opened Base

  datatype Lock = Uart | Accel | Sem(id: nat) | Queue(cpu: nat)

  /** The documented order: accel, semaphore, run queues by CPU id; uart with nothing held. */
  function Rank(l: Lock): nat {
    match l
    case Uart => 0
    case Accel => 0
    case Sem(_) => 1
    case Queue(c) => 2 + c
  }

  /** What a path does to shared data, in the terms of the machines that take it as one step. */
  datatype Work =
    | PrintLine                      // characters to the UART
    | SubmitCommand                  // doorbell and pending_register
    | DrainRing                      // accel_drain_completions_multi
    | MatchSlot                      // record one completion in the pending table
    | TakeSem(sem: nat)              // count--
    | JoinSem(sem: nat)              // waiter = current
    | PostSem(sem: nat)              // count++, or take the waiter out
    | WakeOn(cpu: nat)               // sched_wake: state = 0
    | RegisterOn(cpu: nat)           // append to the queue
    | PickOn(cpu: nat)               // select_next
    | VictimScan(cpu: nat)           // look for a task to move
    | MoveBetween(src: nat, dst: nat) // sched_migrate's test and move

  /** The locks that protect the data the work is on. */
  function Needs(w: Work): set<Lock> {
    match w
    case PrintLine => {Uart}
    case SubmitCommand => {Accel}
    case DrainRing => {Accel}
    case MatchSlot => {Accel}
    case TakeSem(s) => {Sem(s)}
    case JoinSem(s) => {Sem(s)}
    case PostSem(s) => {Sem(s)}
    case WakeOn(c) => {Queue(c)}
    case RegisterOn(c) => {Queue(c)}
    case PickOn(c) => {Queue(c)}
    case VictimScan(c) => {Queue(c)}
    case MoveBetween(src, dst) => {Queue(src), Queue(dst)}
  }

  datatype Instr =
    | MaskSave            // mrs flags, daif; msr daifset, #2
    | Spin(lock: Lock)    // spin_lock
    | Act(work: Work)
    | Unspin(lock: Lock)  // spin_unlock
    | MaskRestore         // msr daif, flags
    | SwitchPoint         // switch_to

  // ---- the kernel paths ---------------------------------------------------------------

  /** spin_lock_irqsave ... spin_unlock_irqrestore around some code. */
  function Nest(l: Lock, inner: seq<Instr>): seq<Instr> {
    [MaskSave, Spin(l)] + inner + [Unspin(l), MaskRestore]
  }

  /** Around work that takes no other lock. */
  function Section(l: Lock, w: Work): seq<Instr> {
    Nest(l, [Act(w)])
  }

  function SwitchIf(switches: bool): seq<Instr> {
    if switches then [SwitchPoint] else []
  }

  /** A post made while draining: the semaphore, and the waiter's home CPU if one waits. */
  datatype Post = Post(sem: nat, wake: Option<nat>)

  function WakeCode(wake: Option<nat>): seq<Instr> {
    match wake case None => [] case Some(home) => Section(Queue(home), WakeOn(home))
  }

  function PostCode(p: Post): seq<Instr> {
    Nest(Sem(p.sem), [Act(PostSem(p.sem))] + WakeCode(p.wake))
  }

  function PostsCode(ps: seq<Post>): seq<Instr> {
    if ps == [] then [] else PostsCode(ps[..|ps| - 1]) + ([Act(MatchSlot)] + PostCode(ps[|ps| - 1]))
  }

  /** sched_migrate: lower CPU id first, the second lock taken without saving the mask. */
  function MigrateCode(src: nat, dst: nat, moved: bool): seq<Instr> {
    if src == dst || dst == 0 then []
    else
      var lo, hi := if src < dst then src else dst, if src < dst then dst else src;
      Nest(Queue(lo), [Spin(Queue(hi)), Act(MoveBetween(src, dst)), Unspin(Queue(hi))])
      + (if moved then Section(Uart, PrintLine) + Section(Uart, PrintLine) else [])
  }

  datatype Op =
    | Print                                                   // uart_puts, klog
    | Register(cpu: nat)                                      // sched_register_on
    | WaitFast(sem: nat)                                      // sem_wait, count > 0
    | WaitSlow(sem: nat, cpu: nat, switches: bool)            // sem_wait, blocking
    | PostOp(post: Post)                                      // sem_post
    | YieldOp(cpu: nat, switches: bool)                       // yield; mutex, event and queue blocking
    | Masked                                                  // mutex_unlock, event_set, ...
    | Submit                                                  // worker submit + register
    | Drain(posts: seq<Post>)                                 // dispatch_available_completions
    | TimerIrq(cpu: nat, balance: Option<(nat, nat, bool)>, switches: bool)

  function Code(op: Op): seq<Instr> {
    match op
    case Print => Section(Uart, PrintLine)
    case Register(c) => Section(Queue(c), RegisterOn(c))
    case WaitFast(s) => Section(Sem(s), TakeSem(s))
    case WaitSlow(s, c, sw) =>
      [MaskSave] + ([Spin(Sem(s)), Act(JoinSem(s)), Unspin(Sem(s))] + Section(Queue(c), PickOn(c))) + SwitchIf(sw) + [MaskRestore]
    case PostOp(p) => PostCode(p)
    case YieldOp(c, sw) => [MaskSave] + Section(Queue(c), PickOn(c)) + SwitchIf(sw) + [MaskRestore]
    case Masked => [MaskSave, MaskRestore]
    case Submit => Nest(Accel, [MaskSave, Act(SubmitCommand), MaskRestore])
    case Drain(ps) => Nest(Accel, [Act(DrainRing)] + PostsCode(ps))
    case TimerIrq(c, b, sw) => Section(Queue(c), PickOn(c)) + BalanceCode(b) + SwitchIf(sw)
  }

  function BalanceCode(b: Option<(nat, nat, bool)>): seq<Instr> {
    match b case None => [] case Some(m) => Section(Queue(m.0), VictimScan(m.0)) + MigrateCode(m.0, m.1, m.2)
  }

  /** The paths irq_handler and secondary_irq can take. */
  predicate IsHandler(op: Op) {
    op.TimerIrq? || op.Drain?
  }

  // ---- checking a path against the discipline -----------------------------------------

  /** Locks held (innermost last), masks saved (innermost last), current IRQ mask. */
  datatype Config = Config(held: seq<Lock>, saved: seq<bool>, masked: bool)

  predicate Above(l: Lock, held: seq<Lock>) {
    forall h :: h in held ==> Rank(h) < Rank(l)
  }

  /** One instruction, or None when it breaks the discipline: a lock is taken masked and
      above everything held, shared data is touched with its locks held, a lock is released
      innermost first, never unmasked while one is held,
      and never carried across a switch. */
  function Exec1(c: Config, i: Instr): Option<Config> {
    match i
    case MaskSave => Some(c.(saved := c.saved + [c.masked], masked := true))
    case Spin(l) => if c.masked && Above(l, c.held) then Some(c.(held := c.held + [l])) else None
    case Act(w) => if forall l :: l in Needs(w) ==> l in c.held then Some(c) else None
    case Unspin(l) =>
      if c.held != [] && c.held[|c.held| - 1] == l then Some(c.(held := c.held[..|c.held| - 1])) else None
    case MaskRestore =>
      if c.saved != [] && (c.held != [] ==> c.saved[|c.saved| - 1])
      then Some(Config(c.held, c.saved[..|c.saved| - 1], c.saved[|c.saved| - 1])) else None
    case SwitchPoint => if c.held == [] && c.masked then Some(c) else None
  }

  function Exec(c: Config, code: seq<Instr>): Option<Config>
    decreases |code|
  {
    if code == [] then Some(c)
    else match Exec1(c, code[0]) case None => None case Some(d) => Exec(d, code[1..])
  }

  lemma {:induction false} ExecAppend(c: Config, a: seq<Instr>, b: seq<Instr>)
    ensures Exec(c, a + b) == match Exec(c, a) case None => None case Some(d) => Exec(d, b)
    decreases |a|
  {
    if a == [] {
      assert a + b == b;
    } else {
      assert (a + b)[1..] == a[1..] + b;
      match Exec1(c, a[0]) {
        case None =>
        case Some(d) => ExecAppend(d, a[1..], b);
      }
    }
  }

  lemma ExecTwo(c: Config, i: Instr, j: Instr)
    ensures Exec(c, [i, j]) == match Exec1(c, i) case None => None case Some(d) => Exec1(d, j)
  {
    assert [i, j][1..] == [j] && [j][1..] == [];
    match Exec1(c, i) {
      case None =>
      case Some(d) =>
        match Exec1(d, j) {
          case None =>
          case Some(e) => assert Exec(e, []) == Some(e);
        }
    }
  }

  /** A code fragment that, from c, keeps the discipline and gives c back. */
  ghost predicate Neutral(c: Config, code: seq<Instr>) {
    Exec(c, code) == Some(c)
  }

  lemma NeutralAppend(c: Config, a: seq<Instr>, b: seq<Instr>)
    requires Neutral(c, a) && Neutral(c, b)
    ensures Neutral(c, a + b)
  {
    ExecAppend(c, a, b);
  }

  lemma NestIsNeutral(c: Config, l: Lock, inner: seq<Instr>)
    requires Above(l, c.held) && (c.held != [] ==> c.masked)
    requires Neutral(Config(c.held + [l], c.saved + [c.masked], true), inner)
    ensures Neutral(c, Nest(l, inner))
  {
    var d := Config(c.held + [l], c.saved + [c.masked], true);
    var open, close := [MaskSave, Spin(l)], [Unspin(l), MaskRestore];
    ExecAppend(c, open + inner, close);
    ExecAppend(c, open, inner);
    ExecTwo(c, MaskSave, Spin(l));
    ExecTwo(d, Unspin(l), MaskRestore);
    assert d.held[..|d.held| - 1] == c.held && d.saved[..|d.saved| - 1] == c.saved;
  }

  lemma ActIsNeutral(c: Config, w: Work)
    requires forall l :: l in Needs(w) ==> l in c.held
    ensures Neutral(c, [Act(w)])
  {
    assert [Act(w)][1..] == [];
    assert Exec(c, []) == Some(c);
  }

  lemma SectionIsNeutral(c: Config, l: Lock, w: Work)
    requires Above(l, c.held) && (c.held != [] ==> c.masked) && Needs(w) == {l}
    ensures Neutral(c, Section(l, w))
  {
    ActIsNeutral(Config(c.held + [l], c.saved + [c.masked], true), w);
    NestIsNeutral(c, l, [Act(w)]);
  }

  lemma PostIsNeutral(c: Config, p: Post)
    requires Above(Sem(p.sem), c.held) && (c.held != [] ==> c.masked)
    ensures Neutral(c, PostCode(p))
  {
    var d := Config(c.held + [Sem(p.sem)], c.saved + [c.masked], true);
    ActIsNeutral(d, PostSem(p.sem));
    if p.wake.Some? {
      SectionIsNeutral(d, Queue(p.wake.value), WakeOn(p.wake.value));
    }
    NeutralAppend(d, [Act(PostSem(p.sem))], WakeCode(p.wake));
    NestIsNeutral(c, Sem(p.sem), [Act(PostSem(p.sem))] + WakeCode(p.wake));
  }

  lemma {:induction false} PostsAreNeutral(c: Config, ps: seq<Post>)
    requires c.held == [Accel] && c.masked
    ensures Neutral(c, PostsCode(ps))
  {
    if ps != [] {
      PostsAreNeutral(c, ps[..|ps| - 1]);
      PostIsNeutral(c, ps[|ps| - 1]);
      ActIsNeutral(c, MatchSlot);
      NeutralAppend(c, [Act(MatchSlot)], PostCode(ps[|ps| - 1]));
      NeutralAppend(c, PostsCode(ps[..|ps| - 1]), [Act(MatchSlot)] + PostCode(ps[|ps| - 1]));
    }
  }

  /** A lock taken without saving the mask, around work. */
  lemma InnerLockIsNeutral(c: Config, l: Lock, w: Work)
    requires c.masked && Above(l, c.held) && forall k :: k in Needs(w) ==> k == l || k in c.held
    ensures Neutral(c, [Spin(l), Act(w), Unspin(l)])
  {
    var d := c.(held := c.held + [l]);
    var code := [Spin(l), Act(w), Unspin(l)];
    assert code[1..] == [Act(w), Unspin(l)];
    ExecTwo(d, Act(w), Unspin(l));
    assert d.held[..|d.held| - 1] == c.held;
  }

  lemma MigrateIsNeutral(c: Config, src: nat, dst: nat, moved: bool)
    requires c.held == []
    ensures Neutral(c, MigrateCode(src, dst, moved))
  {
    if src != dst && dst != 0 {
      var lo, hi := if src < dst then src else dst, if src < dst then dst else src;
      var inner := [Spin(Queue(hi)), Act(MoveBetween(src, dst)), Unspin(Queue(hi))];
      var d := Config([Queue(lo)], c.saved + [c.masked], true);
      InnerLockIsNeutral(d, Queue(hi), MoveBetween(src, dst));
      assert c.held + [Queue(lo)] == [Queue(lo)];
      NestIsNeutral(c, Queue(lo), inner);
      SectionIsNeutral(c, Uart, PrintLine);
      var report := if moved then Section(Uart, PrintLine) + Section(Uart, PrintLine) else [];
      NeutralAppend(c, Section(Uart, PrintLine), Section(Uart, PrintLine));
      NeutralAppend(c, Nest(Queue(lo), inner), report);
    }
  }

  /** Mask, a neutral body run masked, an optional switch, restore: the shape of yield and
      of every blocking primitive. */
  lemma MaskedBodyIsNeutral(c: Config, body: seq<Instr>, switches: bool)
    requires c.held == [] && Neutral(Config([], c.saved + [c.masked], true), body)
    ensures Neutral(c, [MaskSave] + body + SwitchIf(switches) + [MaskRestore])
  {
    var d := Config([], c.saved + [c.masked], true);
    ExecAppend(c, [MaskSave] + body + SwitchIf(switches), [MaskRestore]);
    ExecAppend(c, [MaskSave] + body, SwitchIf(switches));
    ExecAppend(c, [MaskSave], body);
    assert Exec(c, [MaskSave]) == Exec(d, []);
    assert Exec(d, SwitchIf(switches)) == Some(d);
    assert d.saved[..|d.saved| - 1] == c.saved;
  }

  /** Every path keeps the order accel, semaphore, lower queue, higher queue, with uart
      alone, and gives the caller's mask back, whatever the mask was and whatever the
      parameters are.  The timer path is only entered masked. */
  lemma EveryPathIsNeutral(c: Config, op: Op)
    requires c.held == [] && (op.TimerIrq? ==> c.masked)
    ensures Neutral(c, Code(op))
  {
    match op {
      case Print => SectionIsNeutral(c, Uart, PrintLine);
      case Register(cpu) => SectionIsNeutral(c, Queue(cpu), RegisterOn(cpu));
      case WaitFast(s) => SectionIsNeutral(c, Sem(s), TakeSem(s));
      case WaitSlow(s, cpu, sw) =>
        var d := Config([], c.saved + [c.masked], true);
        InnerLockIsNeutral(d, Sem(s), JoinSem(s));
        SectionIsNeutral(d, Queue(cpu), PickOn(cpu));
        NeutralAppend(d, [Spin(Sem(s)), Act(JoinSem(s)), Unspin(Sem(s))], Section(Queue(cpu), PickOn(cpu)));
        MaskedBodyIsNeutral(c, [Spin(Sem(s)), Act(JoinSem(s)), Unspin(Sem(s))] + Section(Queue(cpu), PickOn(cpu)), sw);
      case PostOp(p) => PostIsNeutral(c, p);
      case YieldOp(cpu, sw) =>
        SectionIsNeutral(Config([], c.saved + [c.masked], true), Queue(cpu), PickOn(cpu));
        MaskedBodyIsNeutral(c, Section(Queue(cpu), PickOn(cpu)), sw);
      case Masked =>
        MaskedBodyIsNeutral(c, [], false);
        assert [MaskSave] + [] + SwitchIf(false) + [MaskRestore] == Code(op);
      case Submit => SubmitIsNeutral(c);
      case Drain(ps) =>
        var d := Config(c.held + [Accel], c.saved + [c.masked], true);
        PostsAreNeutral(d, ps);
        ActIsNeutral(d, DrainRing);
        NeutralAppend(d, [Act(DrainRing)], PostsCode(ps));
        NestIsNeutral(c, Accel, [Act(DrainRing)] + PostsCode(ps));
      case TimerIrq(cpu, b, sw) => TimerIsNeutral(c, op);
    }
  }

  /** accel_submit_copy masks once more inside accel_lock. */
  lemma SubmitIsNeutral(c: Config)
    requires c.held == []
    ensures Neutral(c, Code(Submit))
  {
    var d := Config([Accel], c.saved + [c.masked], true);
    var e := d.(saved := d.saved + [true]);
    var inner := [MaskSave, Act(SubmitCommand), MaskRestore];
    assert inner[1..] == [Act(SubmitCommand), MaskRestore];
    ExecTwo(e, Act(SubmitCommand), MaskRestore);
    assert e.saved[..|e.saved| - 1] == d.saved;
    assert c.held + [Accel] == [Accel];
    NestIsNeutral(c, Accel, inner);
  }

  lemma TimerIsNeutral(c: Config, op: Op)
    requires c.held == [] && op.TimerIrq? && c.masked
    ensures Neutral(c, Code(op))
  {
    var pick, balance := Section(Queue(op.cpu), PickOn(op.cpu)), BalanceCode(op.balance);
    SectionIsNeutral(c, Queue(op.cpu), PickOn(op.cpu));
    if op.balance.Some? {
      var m := op.balance.value;
      SectionIsNeutral(c, Queue(m.0), VictimScan(m.0));
      MigrateIsNeutral(c, m.0, m.1, m.2);
      NeutralAppend(c, Section(Queue(m.0), VictimScan(m.0)), MigrateCode(m.0, m.1, m.2));
    }
    NeutralAppend(c, pick, balance);
    assert Neutral(c, SwitchIf(op.switches));
    NeutralAppend(c, pick + balance, SwitchIf(op.switches));
  }

  // ---- the work of each path ----------------------------------------------------------

  /** The work instructions of a code fragment, in order. */
  function Works(code: seq<Instr>): seq<Work>
    decreases |code|
  {
    if code == [] then [] else (if code[0].Act? then [code[0].work] else []) + Works(code[1..])
  }

  lemma {:induction false} WorksAppend(a: seq<Instr>, b: seq<Instr>)
    ensures Works(a + b) == Works(a) + Works(b)
    decreases |a|
  {
    if a == [] {
      assert a + b == b;
    } else {
      assert (a + b)[1..] == a[1..] + b;
      WorksAppend(a[1..], b);
    }
  }

  lemma NestWorks(l: Lock, inner: seq<Instr>)
    ensures Works(Nest(l, inner)) == Works(inner)
  {
    WorksAppend([MaskSave, Spin(l)] + inner, [Unspin(l), MaskRestore]);
    WorksAppend([MaskSave, Spin(l)], inner);
    NoWork([MaskSave, Spin(l)]);
    NoWork([Unspin(l), MaskRestore]);
  }

  lemma {:induction false} NoWork(code: seq<Instr>)
    requires forall i :: 0 <= i < |code| ==> !code[i].Act?
    ensures Works(code) == []
    decreases |code|
  {
    if code != [] {
      NoWork(code[1..]);
    }
  }

  lemma SectionWorks(l: Lock, w: Work)
    ensures Works(Section(l, w)) == [w]
  {
    NestWorks(l, [Act(w)]);
    assert [Act(w)][1..] == [];
  }

  /** What sem_post has to do: post, and wake a waiter on its home CPU's queue. */
  function PostWorks(p: Post): seq<Work> {
    [PostSem(p.sem)] + match p.wake case None => [] case Some(home) => [WakeOn(home)]
  }

  function PostsWorks(ps: seq<Post>): seq<Work> {
    if ps == [] then [] else PostsWorks(ps[..|ps| - 1]) + ([MatchSlot] + PostWorks(ps[|ps| - 1]))
  }

  /** What sched_migrate has to do when its arguments make sense. */
  function MigrateWorks(src: nat, dst: nat, moved: bool): seq<Work> {
    if src == dst || dst == 0 then [] else [MoveBetween(src, dst)] + if moved then [PrintLine, PrintLine] else []
  }

  /** What each path has to do to shared data, in order. */
  function Duty(op: Op): seq<Work> {
    match op
    case Print => [PrintLine]
    case Register(c) => [RegisterOn(c)]
    case WaitFast(s) => [TakeSem(s)]
    case WaitSlow(s, c, _) => [JoinSem(s), PickOn(c)]
    case PostOp(p) => PostWorks(p)
    case YieldOp(c, _) => [PickOn(c)]
    case Masked => []
    case Submit => [SubmitCommand]
    case Drain(ps) => [DrainRing] + PostsWorks(ps)
    case TimerIrq(c, b, _) =>
      [PickOn(c)] + match b case None => [] case Some(m) => [VictimScan(m.0)] + MigrateWorks(m.0, m.1, m.2)
  }

  lemma PostCodeWorks(p: Post)
    ensures Works(PostCode(p)) == PostWorks(p)
  {
    NestWorks(Sem(p.sem), [Act(PostSem(p.sem))] + WakeCode(p.wake));
    WorksAppend([Act(PostSem(p.sem))], WakeCode(p.wake));
    assert [Act(PostSem(p.sem))][1..] == [];
    if p.wake.Some? {
      SectionWorks(Queue(p.wake.value), WakeOn(p.wake.value));
    }
  }

  lemma {:induction false} PostsCodeWorks(ps: seq<Post>)
    ensures Works(PostsCode(ps)) == PostsWorks(ps)
  {
    if ps != [] {
      var p := ps[|ps| - 1];
      PostsCodeWorks(ps[..|ps| - 1]);
      PostCodeWorks(p);
      WorksAppend(PostsCode(ps[..|ps| - 1]), [Act(MatchSlot)] + PostCode(p));
      WorksAppend([Act(MatchSlot)], PostCode(p));
      assert [Act(MatchSlot)][1..] == [];
    }
  }

  lemma MigrateCodeWorks(src: nat, dst: nat, moved: bool)
    ensures Works(MigrateCode(src, dst, moved)) == MigrateWorks(src, dst, moved)
  {
    if src != dst && dst != 0 {
      var lo, hi := if src < dst then src else dst, if src < dst then dst else src;
      var inner := [Spin(Queue(hi)), Act(MoveBetween(src, dst)), Unspin(Queue(hi))];
      NestWorks(Queue(lo), inner);
      assert inner[1..][1..] == [Unspin(Queue(hi))];
      NoWork([Unspin(Queue(hi))]);
      SectionWorks(Uart, PrintLine);
      WorksAppend(Section(Uart, PrintLine), Section(Uart, PrintLine));
      WorksAppend(Nest(Queue(lo), inner), if moved then Section(Uart, PrintLine) + Section(Uart, PrintLine) else []);
    }
  }

  lemma MaskedWorks(body: seq<Instr>, switches: bool)
    ensures Works([MaskSave] + body + SwitchIf(switches) + [MaskRestore]) == Works(body)
  {
    WorksAppend([MaskSave] + body + SwitchIf(switches), [MaskRestore]);
    WorksAppend([MaskSave] + body, SwitchIf(switches));
    WorksAppend([MaskSave], body);
    NoWork([MaskSave]);
    NoWork([MaskRestore]);
    NoWork(SwitchIf(switches));
  }

  lemma WaitSlowWorks(s: nat, c: nat, sw: bool)
    ensures Works(Code(WaitSlow(s, c, sw))) == [JoinSem(s), PickOn(c)]
  {
    var join := [Spin(Sem(s)), Act(JoinSem(s)), Unspin(Sem(s))];
    MaskedWorks(join + Section(Queue(c), PickOn(c)), sw);
    WorksAppend(join, Section(Queue(c), PickOn(c)));
    SectionWorks(Queue(c), PickOn(c));
    assert join[1..][1..] == [Unspin(Sem(s))];
    NoWork([Unspin(Sem(s))]);
  }

  lemma TimerWorks(op: Op)
    requires op.TimerIrq?
    ensures Works(Code(op)) == Duty(op)
  {
    var pick, balance := Section(Queue(op.cpu), PickOn(op.cpu)), BalanceCode(op.balance);
    WorksAppend(pick + balance, SwitchIf(op.switches));
    WorksAppend(pick, balance);
    NoWork(SwitchIf(op.switches));
    SectionWorks(Queue(op.cpu), PickOn(op.cpu));
    if op.balance.Some? {
      var m := op.balance.value;
      WorksAppend(Section(Queue(m.0), VictimScan(m.0)), MigrateCode(m.0, m.1, m.2));
      SectionWorks(Queue(m.0), VictimScan(m.0));
      MigrateCodeWorks(m.0, m.1, m.2);
    }
  }

  /** Every path does exactly its duty; with EveryPathIsNeutral, all of it under the locks the
      work needs. */
  lemma EveryPathDoesItsDuty(op: Op)
    ensures Works(Code(op)) == Duty(op)
  {
    match op {
      case Print => SectionWorks(Uart, PrintLine);
      case Register(c) => SectionWorks(Queue(c), RegisterOn(c));
      case WaitFast(s) => SectionWorks(Sem(s), TakeSem(s));
      case WaitSlow(s, c, sw) => WaitSlowWorks(s, c, sw);
      case PostOp(p) => PostCodeWorks(p);
      case YieldOp(c, sw) =>
        MaskedWorks(Section(Queue(c), PickOn(c)), sw);
        SectionWorks(Queue(c), PickOn(c));
      case Masked => NoWork([MaskSave, MaskRestore]);
      case Submit =>
        var inner := [MaskSave, Act(SubmitCommand), MaskRestore];
        NestWorks(Accel, inner);
        assert inner[1..][1..] == [MaskRestore];
        NoWork([MaskRestore]);
      case Drain(ps) =>
        NestWorks(Accel, [Act(DrainRing)] + PostsCode(ps));
        WorksAppend([Act(DrainRing)], PostsCode(ps));
        assert [Act(DrainRing)][1..] == [];
        PostsCodeWorks(ps);
      case TimerIrq(_, _, _) => TimerWorks(op);
    }
  }

  // ---- the machine --------------------------------------------------------------------

  /** A path under way: the code left, the masks it has saved, the mask it began with. */
  datatype Frame = Frame(code: seq<Instr>, saved: seq<bool>, entry: bool)

  /** A task: its DAIF mask is part of its context; the innermost frame is last. */
  datatype Task = Task(held: seq<Lock>, masked: bool, frames: seq<Frame>)

  /** running[core] is the task on that core; the others are switched out. */
  datatype State = State(tasks: seq<Task>, running: seq<nat>)

  datatype Step =
    | Begin(core: nat, op: Op)        // task code calls a kernel path
    | Irq(core: nat, op: Op)          // an interrupt is taken
    | Eret(core: nat)                 // the handler returns
    | Execute(core: nat)              // next instruction of the innermost frame
    | Switch(core: nat, next: nat)    // switch_to: another switched-out task continues

  predicate Shape(s: State) {
    && (forall c :: 0 <= c < |s.running| ==> s.running[c] < |s.tasks|)
    && (forall c, d :: 0 <= c < d < |s.running| ==> s.running[c] != s.running[d])
    && (forall t :: 0 <= t < |s.tasks| ==> |s.tasks[t].frames| > 0)
  }

  function Top(t: Task): Frame
    requires |t.frames| > 0
  {
    t.frames[|t.frames| - 1]
  }

  function WithTop(t: Task, f: Frame): Task
    requires |t.frames| > 0
  {
    t.(frames := t.frames[..|t.frames| - 1] + [f])
  }

  predicate Free(s: State, l: Lock) {
    forall t :: 0 <= t < |s.tasks| ==> l !in s.tasks[t].held
  }

  /** Some task is switched out. */
  predicate HasSpare(s: State) {
    exists n :: 0 <= n < |s.tasks| && n !in s.running
  }

  /** A path reaches switch_to only if pick_next_ready returned a task other than the current
      one, which then is a switched-out one. */
  predicate MayPick(s: State, op: Op) {
    SwitchPoint in Code(op) ==> HasSpare(s)
  }

  predicate CanRun(s: State, t: nat)
    requires t < |s.tasks| && |s.tasks[t].frames| > 0
  {
    var f := Top(s.tasks[t]);
    && f.code != [] && !f.code[0].SwitchPoint?
    && (f.code[0].Spin? ==> Free(s, f.code[0].lock))
    && Exec1(Config(s.tasks[t].held, f.saved, s.tasks[t].masked), f.code[0]).Some?
  }

  predicate Enabled(s: State, a: Step)
    requires Shape(s)
  {
    && a.core < |s.running|
    && var t := s.running[a.core];
       var task := s.tasks[t];
       match a
       case Begin(_, op) => Top(task).code == [] && |task.frames| == 1 && !op.TimerIrq? && MayPick(s, op)
       case Irq(_, op) => !task.masked && IsHandler(op) && MayPick(s, op)
       case Eret(_) => |task.frames| > 1 && Top(task).code == []
       case Execute(_) => CanRun(s, t)
       case Switch(_, n) =>
         && Top(task).code != [] && Top(task).code[0].SwitchPoint?
         && n < |s.tasks| && n !in s.running
  }

  function Do(s: State, a: Step): State
    requires Shape(s) && Enabled(s, a)
  {
    var t := s.running[a.core];
    var task := s.tasks[t];
    var f := Top(task);
    match a
    case Begin(_, op) => s.(tasks := s.tasks[t := WithTop(task, Frame(Code(op), [], task.masked))])
    case Irq(_, op) => s.(tasks := s.tasks[t := task.(masked := true, frames := task.frames + [Frame(Code(op), [], true)])])
    case Eret(_) => s.(tasks := s.tasks[t := task.(masked := false, frames := task.frames[..|task.frames| - 1])])
    case Execute(_) =>
      var d := Exec1(Config(task.held, f.saved, task.masked), f.code[0]).value;
      s.(tasks := s.tasks[t := WithTop(task, Frame(f.code[1..], d.saved, f.entry)).(held := d.held, masked := d.masked)])
    case Switch(_, n) =>
      State(s.tasks[t := WithTop(task, f.(code := f.code[1..]))], s.running[a.core := n])
  }

  ghost predicate Init(s: State) {
    && Shape(s)
    && forall t :: 0 <= t < |s.tasks| ==>
         s.tasks[t].held == [] && s.tasks[t].frames == [Frame([], [], s.tasks[t].masked)]
  }

  ghost predicate Next(s: State, s': State) {
    Shape(s) && exists a :: Enabled(s, a) && s' == Do(s, a)
  }

  ghost predicate Run(run: seq<State>) {
    && |run| > 0 && Init(run[0])
    && forall k :: 0 <= k < |run| - 1 ==> Next(run[k], run[k + 1])
  }

  // ---- the invariant ------------------------------------------------------------------

  /** The rest of a path keeps the discipline and ends with nothing held and the entry mask. */
  ghost predicate Completes(held: seq<Lock>, masked: bool, f: Frame) {
    Exec(Config(held, f.saved, masked), f.code) == Some(Config([], [], f.entry))
  }

  ghost predicate TaskInv(t: Task) {
    && 1 <= |t.frames| <= 2
    && Completes(t.held, t.masked, Top(t))
    && (t.held != [] ==> t.masked)
    && (|t.frames| == 2 ==>
          && Completes([], false, t.frames[0])
          && t.masked && Top(t).entry && forall k :: 0 <= k < |Top(t).saved| ==> Top(t).saved[k])
  }

  /** Only a running task holds locks, and no lock has two holders. */
  ghost predicate HoldersInv(s: State) {
    && (forall t :: 0 <= t < |s.tasks| && t !in s.running ==> s.tasks[t].held == [])
    && (forall t, u, l :: 0 <= t < |s.tasks| && 0 <= u < |s.tasks| && l in s.tasks[t].held && l in s.tasks[u].held ==> t == u)
  }

  /** No path under way has a switch ahead of it. */
  ghost predicate NoSwitchAhead(t: Task) {
    forall i :: 0 <= i < |t.frames| ==> SwitchPoint !in t.frames[i].code
  }

  ghost predicate SpareInv(s: State) {
    HasSpare(s) || forall t :: 0 <= t < |s.tasks| ==> NoSwitchAhead(s.tasks[t])
  }

  ghost predicate Inv(s: State) {
    && Shape(s) && HoldersInv(s) && SpareInv(s)
    && forall t :: 0 <= t < |s.tasks| ==> TaskInv(s.tasks[t])
  }

  lemma StepKeepsTask(s: State, a: Step)
    requires Inv(s) && Enabled(s, a)
    ensures TaskInv(Do(s, a).tasks[s.running[a.core]])
  {
    var t := s.running[a.core];
    var task := s.tasks[t];
    assert TaskInv(task);
    if a.Begin? {
      EveryPathIsNeutral(Config([], [], task.masked), a.op);
    } else if a.Irq? {
      EveryPathIsNeutral(Config([], [], true), a.op);
    } else if a.Execute? {
      ExecuteKeepsTask(s, a);
    }
  }

  lemma ExecuteKeepsTask(s: State, a: Step)
    requires Inv(s) && Enabled(s, a) && a.Execute?
    ensures TaskInv(Do(s, a).tasks[s.running[a.core]])
  {
    assert TaskInv(s.tasks[s.running[a.core]]);
  }

  /** A switch leaves its task with nothing held. */
  lemma SwitchKeepsHolders(s: State, a: Step)
    requires Inv(s) && Enabled(s, a) && a.Switch?
    ensures Shape(Do(s, a)) && HoldersInv(Do(s, a))
  {
    var t := s.running[a.core];
    var r := Do(s, a);
    assert TaskInv(s.tasks[t]) && s.tasks[t].held == [];
    assert forall c :: 0 <= c < |s.running| && c != a.core ==> r.running[c] == s.running[c];
    assert forall u :: u in s.running && u != t ==> u in r.running;
  }

  /** An instruction takes a free lock, gives one up, or leaves the locks alone. */
  lemma ExecuteAndLocks(s: State, a: Step, l: Lock)
    requires Inv(s) && Enabled(s, a) && a.Execute? && l in Do(s, a).tasks[s.running[a.core]].held
    ensures l in s.tasks[s.running[a.core]].held || Free(s, l)
  {
    assert TaskInv(s.tasks[s.running[a.core]]);
  }

  lemma OthersKeepHolders(s: State, a: Step)
    requires Inv(s) && Enabled(s, a) && !a.Switch?
    ensures Shape(Do(s, a)) && HoldersInv(Do(s, a))
  {
    var t := s.running[a.core];
    var r := Do(s, a);
    assert r.running == s.running && |r.tasks| == |s.tasks|;
    assert forall u :: 0 <= u < |s.tasks| && u != t ==> r.tasks[u] == s.tasks[u];
    forall l | l in r.tasks[t].held ensures l in s.tasks[t].held || Free(s, l) {
      if a.Execute? {
        ExecuteAndLocks(s, a, l);
      }
    }
  }

  /** A switch leaves its old task switched out; nothing else changes who is. */
  lemma StepKeepsSpare(s: State, a: Step)
    requires Inv(s) && Enabled(s, a)
    ensures SpareInv(Do(s, a))
  {
    var t := s.running[a.core];
    var r := Do(s, a);
    if a.Switch? {
      assert t !in r.running;
    } else if HasSpare(s) {
      var n :| 0 <= n < |s.tasks| && n !in s.running;
      assert n !in r.running;
    } else {
      assert NoSwitchAhead(s.tasks[t]);
    }
  }

  lemma StepKeepsInv(s: State, a: Step)
    requires Inv(s) && Enabled(s, a)
    ensures Inv(Do(s, a))
  {
    StepKeepsTask(s, a);
    StepKeepsSpare(s, a);
    if a.Switch? { SwitchKeepsHolders(s, a); } else { OthersKeepHolders(s, a); }
  }

  lemma {:induction false} RunKeepsInv(run: seq<State>, k: nat)
    requires Run(run) && k < |run|
    ensures Inv(run[k])
  {
    if k > 0 {
      RunKeepsInv(run, k - 1);
      assert Next(run[k - 1], run[k - 1 + 1]);
      var a :| Enabled(run[k - 1], a) && run[k] == Do(run[k - 1], a);
      StepKeepsInv(run[k - 1], a);
    }
  }

  // ---- what every run promises --------------------------------------------------------

  /** A task holding any lock has IRQs masked and is on a core, so its own handler cannot
      re-enter the section and no switch carries a lock away. */
  lemma HoldersAreMaskedAndRunning(run: seq<State>, k: nat, t: nat)
    requires Run(run) && k < |run| && t < |run[k].tasks| && run[k].tasks[t].held != []
    ensures run[k].tasks[t].masked && t in run[k].running
  {
    RunKeepsInv(run, k);
    assert TaskInv(run[k].tasks[t]);
  }

  /** A task about to touch shared data holds every lock that protects it. */
  lemma WorkIsLocked(run: seq<State>, k: nat, t: nat)
    requires Run(run) && k < |run| && t < |run[k].tasks| && |run[k].tasks[t].frames| > 0
    requires Top(run[k].tasks[t]).code != [] && Top(run[k].tasks[t]).code[0].Act?
    ensures forall l :: l in Needs(Top(run[k].tasks[t]).code[0].work) ==> l in run[k].tasks[t].held
  {
    RunKeepsInv(run, k);
    assert TaskInv(run[k].tasks[t]);
  }

  /** So no two tasks are ever about to touch the same data: a locked section is one step to
      everybody else, both queues of a migration included. */
  lemma WorkIsExclusive(run: seq<State>, k: nat, t: nat, u: nat, l: Lock)
    requires Run(run) && k < |run| && t < |run[k].tasks| && u < |run[k].tasks|
    requires |run[k].tasks[t].frames| > 0 && Top(run[k].tasks[t]).code != [] && Top(run[k].tasks[t]).code[0].Act?
    requires |run[k].tasks[u].frames| > 0 && Top(run[k].tasks[u]).code != [] && Top(run[k].tasks[u]).code[0].Act?
    requires l in Needs(Top(run[k].tasks[t]).code[0].work) && l in Needs(Top(run[k].tasks[u]).code[0].work)
    ensures t == u
  {
    RunKeepsInv(run, k);
    WorkIsLocked(run, k, t);
    WorkIsLocked(run, k, u);
  }

  /** When a path has executed its last instruction the mask is the one it began with and
      nothing is held, through any nesting, interrupts and switches. */
  lemma FinishedPathRestoresMask(run: seq<State>, k: nat, t: nat)
    requires Run(run) && k < |run| && t < |run[k].tasks|
    requires |run[k].tasks[t].frames| > 0 && Top(run[k].tasks[t]).code == []
    ensures run[k].tasks[t].masked == Top(run[k].tasks[t]).entry && run[k].tasks[t].held == []
  {
    RunKeepsInv(run, k);
    assert TaskInv(run[k].tasks[t]);
  }

  /** Task i spins on a lock that task j holds. */
  predicate WaitsFor(s: State, i: nat, j: nat)
    requires Shape(s)
  {
    && i < |s.tasks| && j < |s.tasks|
    && Top(s.tasks[i]).code != [] && Top(s.tasks[i]).code[0].Spin?
    && Top(s.tasks[i]).code[0].lock in s.tasks[j].held
  }

  function Wanted(s: State, i: nat): nat
    requires Shape(s) && i < |s.tasks| && Top(s.tasks[i]).code != [] && Top(s.tasks[i]).code[0].Spin?
  {
    Rank(Top(s.tasks[i]).code[0].lock)
  }

  lemma WaitingClimbs(s: State, i: nat, j: nat)
    requires Inv(s) && WaitsFor(s, i, j)
    requires Top(s.tasks[j]).code != [] && Top(s.tasks[j]).code[0].Spin?
    ensures Wanted(s, i) < Wanted(s, j)
  {
    assert TaskInv(s.tasks[j]);
  }

  function After(cycle: seq<nat>, m: nat): nat
    requires m < |cycle|
  {
    cycle[if m + 1 < |cycle| then m + 1 else 0]
  }

  /** Each task of the cycle spins on a lock held by the next one, the last by the first. */
  predicate CyclicWait(s: State, cycle: seq<nat>)
    requires Shape(s)
  {
    |cycle| > 0 && forall m {:trigger After(cycle, m)} :: 0 <= m < |cycle| ==> WaitsFor(s, cycle[m], After(cycle, m))
  }

  lemma {:induction false} ChainClimbs(s: State, cycle: seq<nat>, k: nat)
    requires Inv(s) && CyclicWait(s, cycle) && k < |cycle|
    ensures WaitsFor(s, cycle[0], After(cycle, 0)) && WaitsFor(s, cycle[k], After(cycle, k))
    ensures Wanted(s, cycle[0]) <= Wanted(s, cycle[k])
  {
    assert WaitsFor(s, cycle[k], After(cycle, k));
    if k > 0 {
      ChainClimbs(s, cycle, k - 1);
      WaitingClimbs(s, cycle[k - 1], cycle[k]);
    }
  }

  /** No cyclic wait, of any length, is reachable. */
  lemma NoCyclicWait(run: seq<State>, k: nat, cycle: seq<nat>)
    requires Run(run) && k < |run| && Shape(run[k])
    ensures !CyclicWait(run[k], cycle)
  {
    RunKeepsInv(run, k);
    if CyclicWait(run[k], cycle) {
      ChainClimbs(run[k], cycle, |cycle| - 1);
      WaitingClimbs(run[k], cycle[|cycle| - 1], cycle[0]);
      assert false;
    }
  }

  /** The tasks spinning for something of higher rank than r. */
  function Higher(s: State, r: nat): set<nat>
    requires Shape(s)
  {
    set i | 0 <= i < |s.tasks| && Top(s.tasks[i]).code != [] && Top(s.tasks[i]).code[0].Spin? && Wanted(s, i) > r
  }

  /** A task that is not spinning on a lock somebody holds. */
  predicate CanStep(s: State, t: nat)
    requires t < |s.tasks| && |s.tasks[t].frames| > 0
  {
    CanRun(s, t) || Top(s.tasks[t]).code == [] || Top(s.tasks[t]).code[0].SwitchPoint?
  }

  /** Following the holders from a spinning task leads to a core that can execute. */
  lemma {:induction false} SpinnerLeadsToRunner(s: State, i: nat)
    requires Inv(s) && i < |s.tasks| && i in s.running
    requires Top(s.tasks[i]).code != [] && Top(s.tasks[i]).code[0].Spin?
    ensures exists t :: t in s.running && CanStep(s, t)
    decreases Higher(s, Wanted(s, i))
  {
    assert TaskInv(s.tasks[i]);
    var l := Top(s.tasks[i]).code[0].lock;
    if Free(s, l) {
      assert CanStep(s, i);
    } else {
      var j :| 0 <= j < |s.tasks| && l in s.tasks[j].held;
      assert TaskInv(s.tasks[j]);
      assert j in s.running;
      assert WaitsFor(s, i, j);
      var f := Top(s.tasks[j]);
      if f.code != [] && f.code[0].Spin? {
        WaitingClimbs(s, i, j);
        assert j in Higher(s, Wanted(s, i)) && j !in Higher(s, Wanted(s, j));
        SpinnerLeadsToRunner(s, j);
      } else {
        assert CanStep(s, j);
      }
    }
  }

  /** A task on a core that is not spinning on a held lock has a step to take. */
  lemma CanStepIsEnabled(s: State, c: nat)
    requires Inv(s) && c < |s.running| && CanStep(s, s.running[c])
    ensures exists a :: Enabled(s, a)
  {
    var t := s.running[c];
    var f := Top(s.tasks[t]);
    assert TaskInv(s.tasks[t]);
    if f.code == [] {
      var a := if |s.tasks[t].frames| == 1 then Begin(c, Masked) else Eret(c);
      assert Enabled(s, a);
    } else if f.code[0].SwitchPoint? {
      assert SwitchPoint in s.tasks[t].frames[|s.tasks[t].frames| - 1].code;
      assert !NoSwitchAhead(s.tasks[t]);
      var n :| 0 <= n < |s.tasks| && n !in s.running;
      assert Enabled(s, Switch(c, n));
    } else {
      assert Enabled(s, Execute(c));
    }
  }

  /** Spinning never stops the whole machine: in every reachable state some core has a step
      to take. */
  lemma NoDeadlock(run: seq<State>, k: nat, core: nat)
    requires Run(run) && k < |run| && Shape(run[k]) && core < |run[k].running|
    ensures exists a :: Enabled(run[k], a)
  {
    var s := run[k];
    RunKeepsInv(run, k);
    var i := s.running[core];
    assert TaskInv(s.tasks[i]);
    var f := Top(s.tasks[i]);
    if f.code != [] && f.code[0].Spin? {
      SpinnerLeadsToRunner(s, i);
      var t :| t in s.running && CanStep(s, t);
      var c :| 0 <= c < |s.running| && s.running[c] == t;
      CanStepIsEnabled(s, c);
    } else {
      assert CanStep(s, i);
      CanStepIsEnabled(s, core);
    }
  }
}
