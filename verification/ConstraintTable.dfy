/** The table of registered constraints, keyed by a packed 32-bit value. */
module ConstraintTable {
  import opened StandbyTypes
  import opened StandbyMachine

  const TWO_32: int := 0x1_0000_0000

  /** ConstraintEvalParam::GetHashValue: four fields shifted into one unsigned 32-bit word. */
  function HashValue(p: EvalParams): nat {
    var sum := Index(p.curState) * 0x100_0000 + p.curPhase * 0x1_0000 + Index(p.nextState) * 0x100 + p.nextPhase * 2;
    (if p.isRepeated then sum % TWO_32 + 1 else sum) % TWO_32
  }

  /** The fields stay inside the bits reserved for them. */
  predicate Packable(p: EvalParams) {
    p.curPhase < 256 && p.nextPhase < 128
  }

  function LowBits(p: EvalParams): nat {
    p.nextPhase * 2 + (if p.isRepeated then 1 else 0)
  }

  function LowWord(p: EvalParams): nat {
    Index(p.nextState) * 0x100 + LowBits(p)
  }

  lemma HashFits(p: EvalParams)
    requires Packable(p)
    ensures LowBits(p) < 0x100 && LowWord(p) < 0x1_0000
    ensures p.curPhase * 0x1_0000 + LowWord(p) < 0x100_0000
    ensures HashValue(p) == Index(p.curState) * 0x100_0000 + (p.curPhase * 0x1_0000 + LowWord(p))
  {
    IndexIsInjective(p.curState, p.curState);
    IndexIsInjective(p.nextState, p.nextState);
  }

  /** No two parameters that fit their bits share a key. */
  lemma HashIsInjective(p: EvalParams, q: EvalParams)
    requires Packable(p) && Packable(q) && HashValue(p) == HashValue(q)
    ensures p == q
  {
    HashFits(p);
    HashFits(q);
    hide HashValue, LowWord, LowBits, Index;
    assert Index(p.curState) == Index(q.curState);
    assert p.curPhase == q.curPhase && LowWord(p) == LowWord(q);
    LowWordIsInjective(p, q);
    IndexIsInjective(p.curState, q.curState);
  }

  lemma LowWordIsInjective(p: EvalParams, q: EvalParams)
    requires Packable(p) && Packable(q) && LowWord(p) == LowWord(q)
    ensures p.nextState == q.nextState && p.nextPhase == q.nextPhase && p.isRepeated == q.isRepeated
  {
    IndexIsInjective(p.nextState, q.nextState);
    assert LowBits(p) < 0x100 && LowBits(q) < 0x100;
    hide Index;
    assert LowBits(p) == LowBits(q);
  }

  lemma IndexIsInjective(s: State, t: State)
    ensures Index(s) == Index(t) <==> s == t
    ensures Index(s) < 5
  {
  }

  /** Outside its bits a field spills into the next one, and keys collide. */
  lemma WidePhasesCollide()
    ensures HashValue(EvalParams(Working, 256, Dark, 0, false)) == HashValue(EvalParams(Dark, 0, Dark, 0, false))
    ensures HashValue(EvalParams(Nap, 0, Working, 128, false)) == HashValue(EvalParams(Nap, 0, Dark, 0, false))
  {
  }

  /** RegisterConstraintCallback: the first registration under a key stays. */
  function Register(table: map<nat, Monitor>, p: EvalParams, kind: Monitor): map<nat, Monitor> {
    if HashValue(p) in table then table else table[HashValue(p) := kind]
  }

  const CHARGE_PARAMS := EvalParams(Working, 0, Dark, 0, false)
  const MOTION_PARAMS := EvalParams(Nap, PHASE_END, Sleep, 0, false)
  const REPEAT_PARAMS := EvalParams(Sleep, PHASE_END, Sleep, PHASE_END, true)

  /** The table that ConstraintManagerAdapter::Init leaves behind. */
  function Registered(cfg: Config): map<nat, Monitor> {
    var t1 := Register(map[], CHARGE_PARAMS, ChargeMonitor);
    var t2 := if cfg.napMotion then Register(t1, MOTION_PARAMS, MotionMonitor) else t1;
    if cfg.repeatMotion then Register(t2, REPEAT_PARAMS, MotionMonitor) else t2
  }

  function Lookup(table: map<nat, Monitor>, key: nat): Monitor {
    if key in table then table[key] else NoMonitor
  }

  /** Looking up the packed key finds the constraint registered for exactly these parameters. */
  lemma LookupIsExact(cfg: Config, p: EvalParams)
    requires Packable(p)
    ensures Lookup(Registered(cfg), HashValue(p)) == Classify(cfg, p)
  {
    var key := HashValue(p);
    if key == HashValue(CHARGE_PARAMS) { HashIsInjective(p, CHARGE_PARAMS); }
    if key == HashValue(MOTION_PARAMS) { HashIsInjective(p, MOTION_PARAMS); }
    if key == HashValue(REPEAT_PARAMS) { HashIsInjective(p, REPEAT_PARAMS); }
    assert HashValue(CHARGE_PARAMS) == 0x100;
    assert HashValue(MOTION_PARAMS) == 0x203_0400;
    assert HashValue(REPEAT_PARAMS) == 0x403_0407;
    hide HashValue;
  }
}
