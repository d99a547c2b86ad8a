/** The classic-BPF seccomp filter of the preparation worker, its generator and
    an interpreter for the instructions it uses. */
module Seccomp {
  import opened Base

  type Word = w: nat | w < 0x1_0000_0000

  /** One `struct sock_filter`. */
  datatype Filter = Filter(code: nat, jt: nat, jf: nat, k: Word)

  /** `struct seccomp_data`: number, architecture, then the remaining fourteen
      32-bit little-endian words (instruction pointer, six 64-bit arguments). */
  datatype Data = Data(nr: Word, arch: Word, words: seq<Word>) {
    ghost predicate Valid() { |words| == 14 }

    /** The low half of the first argument, in memory the word at offset 16. */
    function FirstArgumentLow(): Word
      requires Valid()
    {
      words[2]
    }
  }

  const LOAD: nat := 0x20
  const JEQ: nat := 0x15
  const JSET: nat := 0x45
  const RET: nat := 0x06

  const KILL: Word := 0x80000000
  const EPERM: Word := 0x00050001
  const ALLOW: Word := 0x7FFF0000
  const X32_BIT: Word := 0x40000000
  const CLONE_MASK: Word := 0x7E020000

  /** BPF_MAXINSNS, and the deny lists that keep a program within it. */
  const MAX_INSTRUCTIONS: nat := 4096
  const MAX_NUMBERS: nat := 2042

  /** io_uring_setup, io_uring_enter, io_uring_register and clone3: denied on every machine. */
  const GENERIC: seq<Word> := [425, 426, 427, 435]

  /** The test of BPF_JSET: the two words share a set bit. */
  predicate Shares(a: Word, k: Word) {
    (a as bv32) & (k as bv32) != 0
  }

  /** BPF_LD | BPF_W | BPF_ABS: the kernel accepts word-aligned offsets inside the struct only. */
  function Load(d: Data, offset: nat): Option<Word>
    requires d.Valid()
  {
    if offset == 0 then Some(d.nr)
    else if offset == 4 then Some(d.arch)
    else if offset % 4 == 0 && offset < 64 then Some(d.words[offset / 4 - 2])
    else None
  }

  /** The kernel's interpreter from instruction `pc` with accumulator `a`; None is a fault. */
  function Interpret(program: seq<Filter>, d: Data, pc: nat, a: Word): Option<Word>
    requires d.Valid()
    decreases |program| - pc
  {
    if pc >= |program| then None
    else
      var i := program[pc];
      if i.code == RET then Some(i.k)
      else if i.code == LOAD then
        match Load(d, i.k)
        case None => None
        case Some(word) => Interpret(program, d, pc + 1, word)
      else if i.code == JEQ then Interpret(program, d, pc + 1 + (if a == i.k then i.jt else i.jf), a)
      else if i.code == JSET then Interpret(program, d, pc + 1 + (if Shares(a, i.k) then i.jt else i.jf), a)
      else None
  }

  /** What the kernel's checker demands before it attaches a filter: jumps are
      forward and land inside the program, loads are aligned and inside
      `struct seccomp_data`, control cannot run past the end, and there are at most 4096
      instructions. */
  ghost predicate Attachable(program: seq<Filter>) {
    && 0 < |program| <= MAX_INSTRUCTIONS
    && program[|program| - 1].code == RET
    && forall pc | 0 <= pc < |program| ::
         var i := program[pc];
         && i.code in {LOAD, JEQ, JSET, RET}
         && (i.code == LOAD ==> i.k % 4 == 0 && i.k < 64)
         && (i.code in {JEQ, JSET} ==> i.jt < 256 && i.jf < 256 && pc + 1 + i.jt < |program| && pc + 1 + i.jf < |program|)
  }

  /** The decision the filter is written for. */
  function Policy(arch: Word, clone: Word, denied: seq<Word>, d: Data): (action: Word)
    requires d.Valid()
  {
    if d.arch != arch then KILL
    else if Shares(d.nr, X32_BIT) then KILL
    else if d.nr in denied then EPERM
    else if d.nr == clone && Shares(d.FirstArgumentLow(), CLONE_MASK) then EPERM
    else ALLOW
  }

  // ---- The generated text ----

  function Header(arch: Word): (r: seq<Filter>) {
    [Filter(LOAD, 0, 0, 4), Filter(JEQ, 1, 0, arch), Filter(RET, 0, 0, KILL),
     Filter(LOAD, 0, 0, 0), Filter(JSET, 0, 1, X32_BIT), Filter(RET, 0, 0, KILL)]
  }

  function DenyPair(number: Word): seq<Filter> {
    [Filter(JEQ, 0, 1, number), Filter(RET, 0, 0, EPERM)]
  }

  function DenyBlock(numbers: seq<Word>): (r: seq<Filter>)
    ensures |r| == 2 * |numbers|
    ensures forall i | 0 <= i < |numbers| :: r[2 * i] == Filter(JEQ, 0, 1, numbers[i])
    ensures forall i | 0 <= i < |numbers| :: r[2 * i + 1] == Filter(RET, 0, 0, EPERM)
  {
    seq(2 * |numbers|, j requires 0 <= j < 2 * |numbers| =>
      if j % 2 == 0 then Filter(JEQ, 0, 1, numbers[j / 2]) else Filter(RET, 0, 0, EPERM))
  }

  function Tail(clone: Word): seq<Filter> {
    [Filter(JEQ, 0, 3, clone), Filter(LOAD, 0, 0, 16), Filter(JSET, 0, 1, CLONE_MASK),
     Filter(RET, 0, 0, EPERM), Filter(RET, 0, 0, ALLOW)]
  }

  function Program(arch: Word, clone: Word, denied: seq<Word>): seq<Filter> {
    Header(arch) + DenyBlock(denied) + Tail(clone)
  }

  lemma NoDenyBlock()
    ensures DenyBlock([]) == []
  {
  }

  lemma DenyBlockSnoc(numbers: seq<Word>, n: Word)
    ensures DenyBlock(numbers + [n]) == DenyBlock(numbers) + DenyPair(n)
  {
  }

  /** `seccomp_program` from its table row: the list is extended pair by pair. */
  method Generate(arch: Word, clone: Word, denied: seq<Word>) returns (program: seq<Filter>)
    ensures Attachable(program) <==> |denied| + |GENERIC| <= MAX_NUMBERS
    ensures forall d: Data | d.Valid() :: Interpret(program, d, 0, 0) == Some(Policy(arch, clone, denied + GENERIC, d))
  {
    hide Interpret, Policy, Attachable, Header, Tail, DenyPair, DenyBlock;
    NoDenyBlock();
    var numbers := denied + GENERIC;
    program := Header(arch);
    for n := 0 to |numbers|
      invariant program == Header(arch) + DenyBlock(numbers[..n])
    {
      program := program + DenyPair(numbers[n]);
      DenyBlockSnoc(numbers[..n], numbers[n]);
      assert numbers[..n + 1] == numbers[..n] + [numbers[n]];
    }
    assert numbers[..|numbers|] == numbers;
    program := program + Tail(clone);
    assert program == Program(arch, clone, numbers);
    ProgramAttachable(arch, clone, numbers);
    forall d: Data | d.Valid()
      ensures Interpret(program, d, 0, 0) == Some(Policy(arch, clone, numbers, d))
    {
      FilterIsPolicy(arch, clone, numbers, d);
    }
  }

  datatype Machine = X86_64 | Aarch64 | Unsupported(name: string)

  /** Architecture word, `clone` number and the machine's own denied numbers. */
  function Table(m: Machine): Option<(Word, Word, seq<Word>)> {
    match m
    case X86_64 => Some((0xC000003E, 56, [41, 42, 44, 46, 53, 101, 272, 308, 310, 311, 321, 323]))
    case Aarch64 => Some((0xC00000B7, 220, [198, 199, 203, 206, 211, 117, 97, 268, 270, 271, 280, 282]))
    case Unsupported(_) => None
  }

  /** The calls that the worker must not make, by name. */
  datatype Syscall = Socket | SocketPair | Connect | SendTo | SendMsg | Ptrace | Unshare | Setns | ProcessVmReadv | ProcessVmWritev
    | Bpf | UserFaultFd

  /** Their numbers in the Linux v6.12 syscall tables of the two machines. */
  function Number(m: Machine, call: Syscall): Word
    requires !m.Unsupported?
  {
    var x := m.X86_64?;
    match call
    case Socket => if x then 41 else 198
    case SocketPair => if x then 53 else 199
    case Connect => if x then 42 else 203
    case SendTo => if x then 44 else 206
    case SendMsg => if x then 46 else 211
    case Ptrace => if x then 101 else 117
    case Unshare => if x then 272 else 97
    case Setns => if x then 308 else 268
    case ProcessVmReadv => if x then 310 else 270
    case ProcessVmWritev => if x then 311 else 271
    case Bpf => if x then 321 else 280
    case UserFaultFd => if x then 323 else 282
  }

  /** AUDIT_ARCH: the ELF machine number, 64 bit and little endian. */
  function Audit(m: Machine): Word
    requires !m.Unsupported?
  {
    (if m.X86_64? then 62 else 183) + 0x8000_0000 + 0x4000_0000
  }

  /** The calls in the order of a machine's row. */
  function Listed(m: Machine): seq<Syscall> {
    (if m.X86_64? then [Socket, Connect, SendTo, SendMsg, SocketPair] else [Socket, SocketPair, Connect, SendTo, SendMsg])
    + [Ptrace, Unshare, Setns, ProcessVmReadv, ProcessVmWritev, Bpf, UserFaultFd]
  }

  lemma RowsListed(m: Machine)
    requires !m.Unsupported?
    ensures |Table(m).value.2| == |Listed(m)| && forall i | 0 <= i < |Listed(m)| :: Table(m).value.2[i] == Number(m, Listed(m)[i])
  {
  }

  lemma AllListed(m: Machine, call: Syscall)
    ensures call in Listed(m)
  {
  }

  /** Each row is of its machine, and lists exactly these calls. */
  lemma TableRows(m: Machine, number: Word)
    requires !m.Unsupported?
    ensures Table(m).value.0 == Audit(m) && Table(m).value.1 == if m.X86_64? then 56 else 220
    ensures number in Table(m).value.2 <==> exists call :: Number(m, call) == number
  {
    RowsListed(m);
    hide Listed;
    forall call ensures Number(m, call) in Table(m).value.2 {
      AllListed(m, call);
      var i :| 0 <= i < |Listed(m)| && Listed(m)[i] == call;
      assert Table(m).value.2[i] == Number(m, call);
    }
    hide Number;
  }

  method SeccompProgram(m: Machine) returns (r: Result<seq<Filter>>)
    ensures r.Raised? <==> m.Unsupported?
    ensures r.Ok? ==> Attachable(r.value)
    ensures r.Ok? ==> forall d: Data | d.Valid() ::
      Interpret(r.value, d, 0, 0) == Some(Policy(Table(m).value.0, Table(m).value.1, Table(m).value.2 + GENERIC, d))
  {
    match Table(m)
    case None => r := Raised("unsupported seccomp architecture");
    case Some((arch, clone, denied)) =>
      var program := Generate(arch, clone, denied);
      r := Ok(program);
  }

  // ---- Proofs ----

  lemma ProgramAt(arch: Word, clone: Word, denied: seq<Word>, i: nat)
    requires i < |denied|
    ensures var p := Program(arch, clone, denied);
      |p| == 11 + 2 * |denied| && p[6 + 2 * i] == Filter(JEQ, 0, 1, denied[i]) && p[7 + 2 * i] == Filter(RET, 0, 0, EPERM)
  {
    var p := Program(arch, clone, denied);
    assert p[6 + 2 * i] == DenyBlock(denied)[2 * i];
    assert p[7 + 2 * i] == DenyBlock(denied)[2 * i + 1];
  }

  lemma ProgramAttachable(arch: Word, clone: Word, denied: seq<Word>)
    ensures Attachable(Program(arch, clone, denied)) <==> |denied| <= MAX_NUMBERS
  {
  }

  lemma DenyPairStep(p: seq<Filter>, d: Data, pc: nat, a: Word, number: Word)
    requires d.Valid() && pc + 1 < |p| && p[pc] == Filter(JEQ, 0, 1, number) && p[pc + 1] == Filter(RET, 0, 0, EPERM)
    ensures Interpret(p, d, pc, a) == if a == number then Some(EPERM) else Interpret(p, d, pc + 2, a)
  {
  }

  /** From pair `i` on, with the syscall number loaded, the filter denies the
      numbers still to come and otherwise reaches the clone test. */
  lemma {:induction false} DenyScan(p: seq<Filter>, denied: seq<Word>, d: Data, i: nat)
    requires d.Valid() && i <= |denied| && |p| >= 6 + 2 * |denied|
    requires forall j | 0 <= j < |denied| :: p[6 + 2 * j] == Filter(JEQ, 0, 1, denied[j]) && p[7 + 2 * j] == Filter(RET, 0, 0, EPERM)
    ensures Interpret(p, d, 6 + 2 * i, d.nr) ==
      if d.nr in denied[i..] then Some(EPERM) else Interpret(p, d, 6 + 2 * |denied|, d.nr)
    decreases |denied| - i
  {
    if i < |denied| {
      DenyPairStep(p, d, 6 + 2 * i, d.nr, denied[i]);
      DenyScan(p, denied, d, i + 1);
      assert denied[i..] == [denied[i]] + denied[i + 1..];
    }
  }

  lemma CloneTest(p: seq<Filter>, clone: Word, d: Data, t: nat)
    requires d.Valid() && |p| == t + 5 && p[t..] == Tail(clone)
    ensures Interpret(p, d, t, d.nr) ==
      Some(if d.nr == clone && Shares(d.FirstArgumentLow(), CLONE_MASK) then EPERM else ALLOW)
  {
    assert forall j | 0 <= j < 5 :: p[t + j] == Tail(clone)[j];
    var low := d.FirstArgumentLow();
    assert Load(d, 16) == Some(low);
    assert p[t + 3] == Filter(RET, 0, 0, EPERM) && p[t + 4] == Filter(RET, 0, 0, ALLOW);
    assert Interpret(p, d, t + 3, low) == Some(EPERM);
    assert Interpret(p, d, t + 4, low) == Some(ALLOW) == Interpret(p, d, t + 4, d.nr);
    assert p[t + 2] == Filter(JSET, 0, 1, CLONE_MASK);
    assert Interpret(p, d, t + 2, low) == Some(if Shares(low, CLONE_MASK) then EPERM else ALLOW);
    assert p[t + 1] == Filter(LOAD, 0, 0, 16);
    assert Interpret(p, d, t + 1, d.nr) == Interpret(p, d, t + 2, low);
    assert p[t] == Filter(JEQ, 0, 3, clone);
  }

  lemma AbiTest(p: seq<Filter>, arch: Word, d: Data)
    requires d.Valid() && |p| > 6 && p[..6] == Header(arch)
    ensures Interpret(p, d, 0, 0) ==
      if d.arch != arch || Shares(d.nr, X32_BIT) then Some(KILL) else Interpret(p, d, 6, d.nr)
  {
    assert forall j | 0 <= j < 6 :: p[j] == Header(arch)[j];
    assert p[2] == Filter(RET, 0, 0, KILL) && p[5] == Filter(RET, 0, 0, KILL);
    assert Interpret(p, d, 5, d.nr) == Some(KILL);
    assert p[4] == Filter(JSET, 0, 1, X32_BIT);
    assert Interpret(p, d, 4, d.nr) == if Shares(d.nr, X32_BIT) then Some(KILL) else Interpret(p, d, 6, d.nr);
    assert p[3] == Filter(LOAD, 0, 0, 0) && Load(d, 0) == Some(d.nr);
    assert Interpret(p, d, 3, d.arch) == Interpret(p, d, 4, d.nr);
    assert Interpret(p, d, 2, d.arch) == Some(KILL);
    assert p[1] == Filter(JEQ, 1, 0, arch);
    assert Interpret(p, d, 1, d.arch) == if d.arch == arch then Interpret(p, d, 3, d.arch) else Some(KILL);
    assert p[0] == Filter(LOAD, 0, 0, 4) && Load(d, 4) == Some(d.arch);
  }

  /** Interpreting the generated text is the policy, for a deny list of any length. */
  lemma FilterIsPolicy(arch: Word, clone: Word, denied: seq<Word>, d: Data)
    requires d.Valid()
    ensures Interpret(Program(arch, clone, denied), d, 0, 0) == Some(Policy(arch, clone, denied, d))
  {
    var p := Program(arch, clone, denied);
    assert p[..6] == Header(arch);
    AbiTest(p, arch, d);
    forall j | 0 <= j < |denied|
      ensures p[6 + 2 * j] == Filter(JEQ, 0, 1, denied[j]) && p[7 + 2 * j] == Filter(RET, 0, 0, EPERM)
    {
      ProgramAt(arch, clone, denied, j);
    }
    DenyScan(p, denied, d, 0);
    assert denied[0..] == denied;
    assert p[6 + 2 * |denied|..] == Tail(clone);
    CloneTest(p, clone, d, 6 + 2 * |denied|);
  }

  /** Each number is denied if and only if it is listed: an extra or a missing pair is visible. */
  lemma DeniedExactly(arch: Word, clone: Word, denied: seq<Word>, number: Word)
    requires !Shares(number, X32_BIT) && number != clone
    ensures Interpret(Program(arch, clone, denied), Data(number, arch, seq(14, _ => 0)), 0, 0) == Some(EPERM) <==> number in denied
  {
    FilterIsPolicy(arch, clone, denied, Data(number, arch, seq(14, _ => 0)));
  }
}
