/**
 * The register-dump analyser of analyze_esp32_state.py: it reads the
 * OpenOCD `(N) name (/bits): 0xVALUE` lines into a name-to-value table
 * (a later line for the same name overwrites an earlier one), and then
 * interprets PC, SP, EXCCAUSE, DEBUGCAUSE, EXCVADDR and INTERRUPT.
 * Console output is modelled by the report values the analyses return.
 */
module Esp32State {

  import opened Wrappers
  import opened Scan
  import CrashAnalyzer

  // ---------------------------------------------------------------------
  // \((\d+)\)\s+(\w+)\s+\(/\d+\):\s+(0x[0-9a-fA-F]+)
  // Every repetition is followed by a character outside its class, so
  // each run that succeeds is the longest one.
  // ---------------------------------------------------------------------

  datatype RegMatch = RegMatch(num: nat, name: string, value: nat, end: nat)

  /** The register-line pattern anchored at `i`. */
  function RegAt(s: string, i: nat): (r: Option<RegMatch>)
    requires i <= |s|
    ensures r.Some? ==> i < r.value.end <= |s| && StartsAt(s, i, "(")
    ensures r.Some? ==> r.value.name != [] && forall j :: 0 <= j < |r.value.name| ==> IsWord(r.value.name[j])
  {
    if !StartsAt(s, i, "(") then None
    else
      var d := RunEnd(s, i + 1, Digit);
      if d == i + 1 || !StartsAt(s, d, ")") then None
      else
        var w1 := RunEnd(s, d + 1, Space);
        var n := RunEnd(s, w1, Word);
        var w2 := RunEnd(s, n, Space);
        if w1 == d + 1 || n == w1 || w2 == n || !StartsAt(s, w2, "(/") then None
        else
          var d2 := RunEnd(s, w2 + 2, Digit);
          if d2 == w2 + 2 || !StartsAt(s, d2, "):") then None
          else
            var w3 := RunEnd(s, d2 + 2, Space);
            if w3 == d2 + 2 || !StartsAt(s, w3, "0x") then None
            else
              var x := RunEnd(s, w3 + 2, Hex);
              if x == w3 + 2 then None
              else Some(RegMatch(DecimalValue(s[i + 1..d]), s[w1..n], HexValue(s[w3 + 2..x]), x))
  }

  /** re.finditer: every match, left to right, resuming after each one. */
  function FindRegs(s: string, pos: nat): (ms: seq<RegMatch>)
    requires pos <= |s|
    ensures forall k :: 0 <= k < |ms| ==> pos < ms[k].end <= |s|
    decreases |s| - pos
  {
    match RegAt(s, pos)
    case Some(m) => [m] + FindRegs(s, m.end)
    case None => if pos == |s| then [] else FindRegs(s, pos + 1)
  }

  /** A dump without any '(' yields no register. */
  lemma {:induction false} NoParenNoRegs(s: string, pos: nat)
    requires pos <= |s|
    requires forall j :: pos <= j < |s| ==> s[j] != '('
    ensures FindRegs(s, pos) == []
    decreases |s| - pos
  {
    if pos < |s| {
      assert s[pos..pos + 1] == [s[pos]];
      NoParenNoRegs(s, pos + 1);
    }
  }

  /** `self.registers[name] = value` for each match in turn. */
  function Store(m: map<string, nat>, ms: seq<RegMatch>): map<string, nat>
  {
    if ms == [] then m
    else Store(m, ms[..|ms| - 1])[ms[|ms| - 1].name := ms[|ms| - 1].value]
  }

  /** The last match for a name decides its value. */
  lemma {:induction false} StoreLastWins(m: map<string, nat>, ms: seq<RegMatch>, k: nat)
    requires k < |ms|
    requires forall j :: k < j < |ms| ==> ms[j].name != ms[k].name
    ensures ms[k].name in Store(m, ms) && Store(m, ms)[ms[k].name] == ms[k].value
  {
    if k < |ms| - 1 {
      StoreLastWins(m, ms[..|ms| - 1], k);
    }
  }

  /** A name no match mentions keeps what it had before, or stays absent. */
  lemma {:induction false} StoreUntouched(m: map<string, nat>, ms: seq<RegMatch>, name: string)
    requires forall j :: 0 <= j < |ms| ==> ms[j].name != name
    ensures name in Store(m, ms) <==> name in m
    ensures name in m ==> Store(m, ms)[name] == m[name]
  {
    if ms != [] {
      StoreUntouched(m, ms[..|ms| - 1], name);
    }
  }

  /** `dict.get(name, 0)`. */
  function Get(m: map<string, nat>, name: string): (v: nat)
    ensures name !in m ==> v == 0
    ensures name in m ==> v == m[name]
  {
    if name in m then m[name] else 0
  }

  class StateAnalyzer {
    var registers: map<string, nat>
    var pc: Option<nat>
    var sp: Option<nat>

    constructor()
      ensures registers == map[] && pc == None && sp == None
    {
      registers := map[];
      pc := None;
      sp := None;
    }

    /**
     * parse_register_dump: stores every match into the table it already
     * has (the table is not cleared first), then takes PC and SP (`a1`),
     * reading 0 for a missing register.
     */
    method ParseRegisterDump(dump: string) returns (regs: map<string, nat>)
      modifies this
      ensures registers == Store(old(registers), FindRegs(dump, 0))
      ensures pc == Some(Get(registers, "pc")) && sp == Some(Get(registers, "a1"))
      ensures regs == registers
    {
      var ms := FindRegs(dump, 0);
      for k := 0 to |ms|
        invariant registers == Store(old(registers), ms[..k])
      {
        assert ms[..k + 1][..k] == ms[..k];
        registers := registers[ms[k].name := ms[k].value];
      }
      assert ms[..|ms|] == ms;
      pc := Some(Get(registers, "pc"));
      sp := Some(Get(registers, "a1"));
      regs := registers;
    }
  }

  // ---------------------------------------------------------------------
  // analyze_pc, analyze_sp
  // ---------------------------------------------------------------------

  /** The label analyze_pc prints for each region. */
  function RegionLabel(r: CrashAnalyzer.Region): string
  {
    match r
    case Rom => "ROM (Boot ROM)"
    case Iram => "IRAM"
    case Flash => "Flash (memory mapped)"
    case Dram => "DRAM"
    case Unknown => "Unknown"
  }

  /** analyze_pc: the same four intervals as the crash analyser, "Unknown" for the rest. */
  function AnalyzePc(pc: nat): (region: string)
    ensures region == RegionLabel(CrashAnalyzer.ClassifyPc(pc))
    ensures region == "Unknown" <==> forall k: CrashAnalyzer.Region :: !CrashAnalyzer.InRegion(pc, k)
  {
    if 0x4000_0000 <= pc < 0x4006_0000 then "ROM (Boot ROM)"
    else if 0x4037_0000 <= pc < 0x403E_0000 then "IRAM"
    else if 0x4200_0000 <= pc < 0x4400_0000 then "Flash (memory mapped)"
    else if 0x3FC8_8000 <= pc < 0x3FD0_0000 then "DRAM"
    else "Unknown"
  }

  datatype SpVerdict =
    | StackInDram        // "DRAM [OK]"
    | StackInUpperDram   // "DRAM (upper part) [OK]"
    | StackUnusual       // "unusual area for the stack"

  /**
   * analyze_sp.  The second branch tests [0x3FCE0000, 0x3FD00000), which
   * lies inside the first one, so it is never taken.
   */
  function AnalyzeSp(sp: nat): (v: SpVerdict)
    ensures v == StackInDram <==> CrashAnalyzer.SpInDram(sp)
    ensures v != StackInUpperDram
  {
    if 0x3FC8_8000 <= sp < 0x3FD0_0000 then StackInDram
    else if 0x3FCE_0000 <= sp < 0x3FD0_0000 then StackInUpperDram
    else StackUnusual
  }

  // ---------------------------------------------------------------------
  // analyze_exceptions
  // ---------------------------------------------------------------------

  function Pow2(k: nat): (r: nat)
    ensures r >= 1
  {
    if k == 0 then 1 else 2 * Pow2(k - 1)
  }

  /** `x & (1 << k)` is non-zero (x is a parsed register, so never negative). */
  predicate Bit(x: nat, k: nat)
  {
    (x / Pow2(k)) % 2 == 1
  }

  /** The cause table of analyze_exceptions; unlike the crash analyser, 1 is SyscallCause. */
  function ExcCauseName(code: nat): Option<string>
  {
    if code == 0 then Some("IllegalInstructionCause")
    else if code == 1 then Some("SyscallCause")
    else if code == 2 then Some("InstructionFetchErrorCause")
    else if code == 3 then Some("LoadStoreErrorCause")
    else if code == 4 then Some("Level1InterruptCause")
    else if code == 5 then Some("AllocaCause")
    else if code == 6 then Some("IntegerDivideByZeroCause")
    else if code == 9 then Some("LoadStoreAlignmentCause")
    else if code == 28 then Some("LoadProhibitedCause")
    else if code == 29 then Some("StoreProhibitedCause")
    else None
  }

  /** The two analysers name EXCCAUSE 1 differently. */
  lemma CauseTablesDisagree()
    ensures CrashAnalyzer.CauseName(1) == Some("IllegalInstructionCause")
    ensures ExcCauseName(1) == Some("SyscallCause")
  {
  }

  datatype DebugEvent = DebugInterrupt | InstructionBreakpoint | DataBreakpointLoad | DataBreakpointStore

  /** The DEBUGCAUSE bits 0x20, 0x01, 0x02, 0x04, each tested on its own. */
  function DebugEvents(d: nat): (r: seq<DebugEvent>)
    ensures DebugInterrupt in r <==> Bit(d, 5)
    ensures InstructionBreakpoint in r <==> Bit(d, 0)
    ensures DataBreakpointLoad in r <==> Bit(d, 1)
    ensures DataBreakpointStore in r <==> Bit(d, 2)
    ensures forall i, j :: 0 <= i < j < |r| ==> r[i] != r[j]
  {
    (if Bit(d, 5) then [DebugInterrupt] else [])
    + (if Bit(d, 0) then [InstructionBreakpoint] else [])
    + (if Bit(d, 1) then [DataBreakpointLoad] else [])
    + (if Bit(d, 2) then [DataBreakpointStore] else [])
  }

  /** Several debug causes can fire together. */
  lemma AllDebugCauses()
    ensures DebugEvents(0x27) == [DebugInterrupt, InstructionBreakpoint, DataBreakpointLoad, DataBreakpointStore]
  {
    assert Bit(0x27, 5) && Bit(0x27, 0) && Bit(0x27, 1) && Bit(0x27, 2);
  }

  /** What analyze_exceptions reports: the cause (None for "no exception"), debug causes, fault address. */
  datatype ExceptionReport = ExceptionReport(
    exccause: nat, cause: Option<string>, debug: seq<DebugEvent>, faultAddress: Option<nat>)

  function AnalyzeExceptions(regs: map<string, nat>): (r: ExceptionReport)
    ensures r.exccause == Get(regs, "exccause")
    ensures r.cause.None? <==> r.exccause == 0
    ensures r.cause == Some("Unknown") <==> r.exccause != 0 && ExcCauseName(r.exccause).None?
    ensures r.cause != Some("IllegalInstructionCause")
    ensures r.faultAddress.Some? <==> Get(regs, "excvaddr") != 0
    ensures r.faultAddress.Some? ==> r.faultAddress.value == Get(regs, "excvaddr")
    ensures r.debug == DebugEvents(Get(regs, "debugcause"))
  {
    var exccause := Get(regs, "exccause");
    var excvaddr := Get(regs, "excvaddr");
    var cause := if exccause == 0 then None else Some(ExcCauseName(exccause).GetOr("Unknown"));
    ExceptionReport(exccause, cause, DebugEvents(Get(regs, "debugcause")),
                    if excvaddr != 0 then Some(excvaddr) else None)
  }

  // ---------------------------------------------------------------------
  // analyze_interrupts
  // ---------------------------------------------------------------------

  function DigitChar(d: nat): (c: char)
    requires d < 10
    ensures IsDigit(c) && DigitValue(c) == d
  {
    ('0' as int + d) as char
  }

  /** Python's `str(n)` for a natural number. */
  function DecimalText(n: nat): (t: string)
    ensures t != [] && forall j :: 0 <= j < |t| ==> IsDigit(t[j])
  {
    if n < 10 then [DigitChar(n)] else DecimalText(n / 10) + [DigitChar(n % 10)]
  }

  /** `int(str(n)) == n`. */
  lemma {:induction false} DecimalTextRoundTrip(n: nat)
    ensures DecimalValue(DecimalText(n)) == n
  {
    var t := DecimalText(n);
    if n < 10 {
      assert t[..0] == [];
    } else {
      var u := DecimalText(n / 10);
      assert t[..|t| - 1] == u;
      DecimalTextRoundTrip(n / 10);
    }
  }

  /** The names analyze_interrupts knows, "IRQn" for the others. */
  function IrqName(i: nat): (name: string)
    ensures i !in {6, 15, 16, 19, 22} ==> name == "IRQ" + DecimalText(i)
  {
    if i == 6 then "Timer"
    else if i == 15 then "WiFi MAC"
    else if i == 16 then "WiFi BB"
    else if i == 19 then "UART0"
    else if i == 22 then "I2C"
    else "IRQ" + DecimalText(i)
  }

  datatype IrqLine = IrqLine(bit: nat, name: string)

  datatype InterruptReport = NoActiveInterrupts | ActiveInterrupts(lines: seq<IrqLine>)

  /** `ls` lists, in increasing order and with their names, exactly the set bits of `x` below `n`. */
  predicate ListsSetBits(x: nat, ls: seq<IrqLine>, n: nat)
  {
    (forall k :: 0 <= k < |ls| ==> ls[k].bit < n && Bit(x, ls[k].bit) && ls[k].name == IrqName(ls[k].bit))
    && (forall k, l :: 0 <= k < l < |ls| ==> ls[k].bit < ls[l].bit)
    && (forall i :: 0 <= i < n && Bit(x, i) ==> exists k :: 0 <= k < |ls| && ls[k].bit == i)
  }

  /** One more bit examined: it is appended exactly when it is set. */
  lemma ListsSetBitsStep(x: nat, ls: seq<IrqLine>, n: nat)
    requires ListsSetBits(x, ls, n)
    ensures Bit(x, n) ==> ListsSetBits(x, ls + [IrqLine(n, IrqName(n))], n + 1)
    ensures !Bit(x, n) ==> ListsSetBits(x, ls, n + 1)
  {
    var ls' := ls + [IrqLine(n, IrqName(n))];
    if Bit(x, n) {
      forall i | 0 <= i < n + 1 && Bit(x, i)
        ensures exists k :: 0 <= k < |ls'| && ls'[k].bit == i
      {
        if i == n {
          assert ls'[|ls|].bit == i;
        } else {
          var k :| 0 <= k < |ls| && ls[k].bit == i;
          assert ls'[k].bit == i;
        }
      }
    }
  }

  /** analyze_interrupts: every set bit among 0..31, in increasing order, with its name. */
  method AnalyzeInterrupts(regs: map<string, nat>) returns (report: InterruptReport)
    ensures report.NoActiveInterrupts? <==> Get(regs, "interrupt") == 0
    ensures report.ActiveInterrupts? ==> ListsSetBits(Get(regs, "interrupt"), report.lines, 32)
  {
    var interrupt := Get(regs, "interrupt");
    if interrupt == 0 {
      return NoActiveInterrupts;
    }
    var lines: seq<IrqLine> := [];
    for i := 0 to 32
      invariant ListsSetBits(interrupt, lines, i)
    {
      ListsSetBitsStep(interrupt, lines, i);
      if Bit(interrupt, i) {
        lines := lines + [IrqLine(i, IrqName(i))];
      }
    }
    return ActiveInterrupts(lines);
  }

  /** The sample interrupt word 0x00018040 has bits 6, 15 and 16 set. */
  lemma SampleInterruptBits()
    ensures Bit(0x18040, 6) && Bit(0x18040, 15) && Bit(0x18040, 16)
    ensures !Bit(0x18040, 19) && !Bit(0x18040, 22)
  {
    assert Pow2(6) == 64;
    assert Pow2(15) == 32768;
    assert Pow2(16) == 65536;
    assert Pow2(19) == 524288;
    assert Pow2(22) == 4194304;
  }
}
