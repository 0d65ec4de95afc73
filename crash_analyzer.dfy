/**
 * The crash-report interpreter of analyze_crash.py: classification of the
 * program counter and stack pointer into ESP32-S3 memory regions, the
 * exception-cause table, and the scanners that pull registers, backtrace
 * frames, FreeRTOS tasks and code-pointer-looking words out of the report
 * text.  Console output is modelled by the verdict values the methods
 * return; the report file is passed in as its contents.
 */
module CrashAnalyzer {

  import opened Wrappers
  import opened Scan

  // ---------------------------------------------------------------------
  // Memory regions (analyze_pc_location, analyze_sp_location)
  // ---------------------------------------------------------------------

  datatype Region = Rom | Iram | Flash | Dram | Unknown

  /** The half-open address interval [lo, hi) of each named region. */
  function Lo(r: Region): int
  {
    match r
    case Rom => 0x4000_0000
    case Iram => 0x4037_0000
    case Flash => 0x4200_0000
    case Dram => 0x3FC8_8000
    case Unknown => 0
  }

  function Hi(r: Region): int
  {
    match r
    case Rom => 0x4006_0000
    case Iram => 0x403E_0000
    case Flash => 0x4400_0000
    case Dram => 0x3FD0_0000
    case Unknown => 0
  }

  /** `a` lies in the interval of the named region `r` (never true for Unknown). */
  predicate InRegion(a: int, r: Region)
  {
    r != Unknown && Lo(r) <= a < Hi(r)
  }

  /** The if/elif chain of analyze_pc_location: the first interval that contains `pc`. */
  function ClassifyPc(pc: int): (r: Region)
    ensures r != Unknown ==> InRegion(pc, r)
    ensures r == Unknown <==> forall k: Region :: !InRegion(pc, k)
  {
    if 0x4000_0000 <= pc < 0x4006_0000 then Rom
    else if 0x4037_0000 <= pc < 0x403E_0000 then Iram
    else if 0x4200_0000 <= pc < 0x4400_0000 then Flash
    else if 0x3FC8_8000 <= pc < 0x3FD0_0000 then Dram
    else Unknown
  }

  /** The four intervals are pairwise disjoint, so the order of the chain does not matter. */
  lemma RegionsDisjoint(a: int, r1: Region, r2: Region)
    requires InRegion(a, r1) && InRegion(a, r2)
    ensures r1 == r2
  {
  }

  /** Every address gets exactly the region whose interval holds it, else Unknown. */
  lemma ClassifyPcExact(a: int, r: Region)
    ensures ClassifyPc(a) == r <==> (InRegion(a, r) || (r == Unknown && forall k: Region :: !InRegion(a, k)))
  {
    if InRegion(a, r) {
      RegionsDisjoint(a, r, ClassifyPc(a));
    }
  }

  /** What analyze_pc_location concludes about a PC in a given region. */
  datatype PcVerdict =
    | NormalExecution   // IRAM or Flash: "[OK]"
    | Unusual           // ROM (exception or boot) or DRAM: "[!]"
    | WildJump          // outside every region: "[ERROR]"

  function PcVerdictOf(r: Region): (v: PcVerdict)
    ensures v == NormalExecution <==> r == Iram || r == Flash
    ensures v == WildJump <==> r == Unknown
  {
    match r
    case Rom => Unusual
    case Iram => NormalExecution
    case Flash => NormalExecution
    case Dram => Unusual
    case Unknown => WildJump
  }

  /** analyze_sp_location: the stack pointer is accepted only inside DRAM. */
  function SpInDram(sp: int): (ok: bool)
    ensures ok <==> InRegion(sp, Dram)
    ensures ok <==> ClassifyPc(sp) == Dram
  {
    0x3FC8_8000 <= sp < 0x3FD0_0000
  }

  // ---------------------------------------------------------------------
  // Exception causes (decode_exception)
  // ---------------------------------------------------------------------

  /** The codes that have an entry in the table of decode_exception. */
  const KnownCauses: set<int> := {0, 1, 2, 3, 4, 5, 6, 9, 28, 29}

  datatype ExceptionVerdict =
    | KnownCause(code: int, name: string, ok: bool)   // table hit; ok only for "No exception"
    | UnknownCause(code: int)                          // "unknown exception code"

  function CauseName(code: int): Option<string>
  {
    if code == 0 then Some("No exception")
    else if code == 1 then Some("IllegalInstructionCause")
    else if code == 2 then Some("InstructionFetchErrorCause")
    else if code == 3 then Some("LoadStoreErrorCause")
    else if code == 4 then Some("Level1InterruptCause")
    else if code == 5 then Some("AllocaCause")
    else if code == 6 then Some("IntegerDivideByZeroCause")
    else if code == 9 then Some("LoadStoreAlignmentCause")
    else if code == 28 then Some("LoadProhibitedCause")
    else if code == 29 then Some("StoreProhibitedCause")
    else None
  }

  /** Total over all integers: a table entry for the ten known codes, "unknown" otherwise. */
  function DecodeException(code: int): (v: ExceptionVerdict)
    ensures v.code == code
    ensures v.KnownCause? <==> code in KnownCauses
    ensures v.KnownCause? ==> (v.ok <==> code == 0)
    ensures v.KnownCause? ==> v.name != ""
  {
    match CauseName(code)
    case Some(n) => KnownCause(code, n, code == 0)
    case None => UnknownCause(code)
  }

  // ---------------------------------------------------------------------
  // Register search: NAME\s+(?:\(/\d+\))?\s*(?:0x)?([0-9a-fA-F]+)
  // ---------------------------------------------------------------------

  /** End of the optional `(/N)` group followed by `\s*`, tried at `w`; `w` itself when it is absent. */
  function BitsGroupEnd(s: string, w: nat): (t: nat)
    requires w <= |s|
    ensures w <= t <= |s|
  {
    if StartsAt(s, w, "(/") then
      var d := RunEnd(s, w + 2, Digit);
      if d > w + 2 && d < |s| && s[d] == ')' then RunEnd(s, d + 1, Space) else w
    else w
  }

  /** `(?:0x)?([0-9a-fA-F]+)` at `t`: the digits after "0x" if there are any, else a bare hex run. */
  function HexTail(s: string, t: nat): (v: Option<nat>)
    requires t <= |s|
    ensures v.None? <==> !(t < |s| && IsHex(s[t]))
  {
    if StartsAt(s, t, "0x") && RunEnd(s, t + 2, Hex) > t + 2 then Some(HexValue(RunText(s, t + 2, Hex)))
    else if t < |s| && IsHex(s[t]) then Some(HexValue(RunText(s, t, Hex)))
    else None
  }

  /** The register pattern for `name` anchored at position `i`. */
  function FieldAt(s: string, i: nat, name: string): Option<nat>
    requires i <= |s|
  {
    if !StartsAt(s, i, name) then None
    else
      var w := RunEnd(s, i + |name|, Space);
      if w == i + |name| then None else HexTail(s, BitsGroupEnd(s, w))
  }

  /** The leftmost position `j >= i` where the register pattern matches, |s| + 1 when there is none. */
  function SearchIndex(s: string, name: string, i: nat): (j: nat)
    requires i <= |s|
    ensures i <= j <= |s| + 1
    ensures j <= |s| ==> FieldAt(s, j, name).Some?
    ensures forall k :: i <= k < j && k <= |s| ==> FieldAt(s, k, name).None?
    decreases |s| - i
  {
    if FieldAt(s, i, name).Some? then i
    else if i == |s| then |s| + 1
    else SearchIndex(s, name, i + 1)
  }

  /** re.search: the match at the leftmost position `j >= i` where the pattern matches. */
  function SearchField(s: string, name: string, i: nat): (r: Option<nat>)
    requires i <= |s|
    ensures r.Some? ==> exists j :: i <= j <= |s| && FieldAt(s, j, name) == r
                                  && forall k :: i <= k < j ==> FieldAt(s, k, name).None?
    ensures r.None? <==> forall j :: i <= j <= |s| ==> FieldAt(s, j, name).None?
  {
    var j := SearchIndex(s, name, i);
    if j <= |s| then FieldAt(s, j, name) else None
  }

  /** A register line as GDB prints it is found, whatever precedes it. */
  lemma GdbRegisterLineParses()
    ensures SearchField("pc 0x4005", "pc", 0) == Some(0x4005)
  {
    var s := "pc 0x4005";
    assert StartsAt(s, 0, "pc");
    assert RunEnd(s, 2, Space) == 3;
    assert BitsGroupEnd(s, 3) == 3;
    assert StartsAt(s, 3, "0x");
    assert RunEnd(s, 5, Hex) == 9;
    assert RunText(s, 5, Hex) == "4005";
    assert HexValue("4005") == 0x4005 by {
      assert "4005"[..3] == "400";
      assert "400"[..2] == "40";
      assert "40"[..1] == "4";
      assert "4"[..0] == "";
    }
  }

  // ---------------------------------------------------------------------
  // Labelled sections: HEADER.*?\n(.*?)(?:\n\s*\n|\Z)   (DOTALL)
  // ---------------------------------------------------------------------

  /** A '\n' occurs in the run of whitespace that starts at `p` (the `\s*\n` part). */
  predicate NewlineInSpaceRun(s: string, p: nat)
    requires p <= |s|
  {
    exists k :: p <= k < RunEnd(s, p, Space) && s[k] == '\n'
  }

  /** A section body ends at the end of the text or at a '\n' that starts a blank line. */
  predicate BodyStops(s: string, j: nat)
    requires j <= |s|
  {
    j == |s| || (s[j] == '\n' && NewlineInSpaceRun(s, j + 1))
  }

  /** The lazy `(.*?)`: the first position at or after `j` where the body stops. */
  function BodyEnd(s: string, j: nat): (e: nat)
    requires j <= |s|
    ensures j <= e <= |s| && BodyStops(s, e)
    ensures forall k :: j <= k < e ==> !BodyStops(s, k)
    decreases |s| - j
  {
    if BodyStops(s, j) then j else BodyEnd(s, j + 1)
  }

  /**
   * The newline that ends the line of the first `header`: the `.*?\n` after
   * the header.  None when the header is missing or no newline follows it.
   */
  function HeaderLineEnd(s: string, header: string): (r: Option<nat>)
    requires header != []
    ensures r.Some? ==> r.value < |s| && s[r.value] == '\n'
  {
    match Find(s, 0, header)
    case None => None
    case Some(i) => Find(s, i + |header|, "\n")
  }

  /**
   * The body of the first section labelled `header`: the text from the line
   * after the header up to the first blank line or the end.  None when the
   * header is missing or no line follows it.
   */
  function Section(s: string, header: string): Option<string>
    requires header != []
  {
    match HeaderLineEnd(s, header)
    case None => None
    case Some(n) => Some(s[n + 1..BodyEnd(s, n + 1)])
  }

  /** A text without the header has no section, whatever else it contains. */
  lemma NoHeaderNoSection(s: string, header: string)
    requires header != []
    requires forall i :: 0 <= i <= |s| ==> !StartsAt(s, i, header)
    ensures Section(s, header).None?
  {
  }

  /** A '\n' read as a one-character literal. */
  lemma NewlineAt(s: string, k: nat)
    ensures StartsAt(s, k, "\n") <==> k < |s| && s[k] == '\n'
  {
    if k < |s| {
      assert s[k..k + 1] == [s[k]];
    }
  }

  /**
   * The first header occurrence `i`, followed by its first newline `n`, gives
   * the section: the text after that newline up to BodyEnd, the first blank
   * line or the end of the report.
   */
  lemma SectionIsBodyAfterHeaderLine(s: string, header: string, i: nat, n: nat)
    requires header != [] && StartsAt(s, i, header)
    requires forall j :: 0 <= j < i ==> !StartsAt(s, j, header)
    requires i + |header| <= n < |s| && s[n] == '\n'
    requires forall k :: i + |header| <= k < n ==> s[k] != '\n'
    ensures Section(s, header) == Some(s[n + 1..BodyEnd(s, n + 1)])
  {
    assert HeaderLineEnd(s, header) == Some(n) by {
      FindIsFirst(s, 0, header, i);
      FindFirstNewline(s, i + |header|, n);
      HeaderLineEndOfFinds(s, header, i, n);
    }
    SectionOfHeaderLineEnd(s, header, n);
  }

  lemma HeaderLineEndOfFinds(s: string, header: string, i: nat, n: nat)
    requires header != [] && Find(s, 0, header) == Some(i) && Find(s, i + |header|, "\n") == Some(n)
    ensures HeaderLineEnd(s, header) == Some(n)
  {
  }

  lemma SectionOfHeaderLineEnd(s: string, header: string, n: nat)
    requires header != [] && HeaderLineEnd(s, header) == Some(n)
    ensures n < |s| && Section(s, header) == Some(s[n + 1..BodyEnd(s, n + 1)])
  {
  }

  /** A header with a newline anywhere after it always yields a section. */
  lemma NewlineAfterHeaderFindsSection(s: string, header: string, i: nat, n: nat)
    requires header != [] && StartsAt(s, i, header)
    requires i + |header| <= n < |s| && s[n] == '\n'
    ensures Section(s, header).Some?
  {
    var first := Find(s, 0, header);
    assert first.Some?;
    assert first.value <= i;
    NewlineAt(s, n);
    assert Find(s, first.value + |header|, "\n").Some?;
    assert HeaderLineEnd(s, header).Some?;
  }

  /** Two consecutive newlines always stop the body: it cannot run through a blank line. */
  lemma DoubleNewlineStops(s: string, j: nat)
    requires j + 1 < |s| && s[j] == '\n' && s[j + 1] == '\n'
    ensures BodyStops(s, j)
  {
    assert IsSpace(s[j + 1]);
    assert j + 1 < RunEnd(s, j + 1, Space);
  }

  /** A body that starts at `b` holds no blank line ("\n\n"). */
  lemma BodyHasNoBlankLine(s: string, b: nat, k: nat)
    requires b <= k <= |s| && b <= |s| && k + 1 < BodyEnd(s, b)
    ensures !(s[k] == '\n' && s[k + 1] == '\n')
  {
    if s[k] == '\n' && s[k + 1] == '\n' {
      DoubleNewlineStops(s, k);
    }
  }

  // ---------------------------------------------------------------------
  // Backtrace frames:
  //   #(\d+)\s+(0x[0-9a-fA-F]+)(?:\s+in\s+(.+?))?(?:\s+at\s+(.+))?$   (MULTILINE)
  // ---------------------------------------------------------------------

  /**
   * Where a greedy `\s+` that ends somewhere in (lo, hi] can hand over to a
   * following `.+`: the largest end position whose next character exists and
   * is not a newline.
   */
  function LastLineStart(s: string, lo: nat, hi: nat): (r: Option<nat>)
    requires lo <= hi <= |s|
    ensures r.Some? ==> lo < r.value <= hi && r.value < |s| && s[r.value] != '\n'
    ensures r.Some? ==> forall k :: r.value < k <= hi ==> k == |s| || s[k] == '\n'
    ensures r.None? ==> forall k :: lo < k <= hi ==> k == |s| || s[k] == '\n'
    decreases hi - lo
  {
    if hi <= lo then None
    else if hi < |s| && s[hi] != '\n' then Some(hi)
    else LastLineStart(s, lo, hi - 1)
  }

  /** `\s+KEYWORD\s+` at `p`: the (lo, hi] range in which the second `\s+` may end. */
  function KeywordSpan(s: string, p: nat, keyword: string): (r: Option<(nat, nat)>)
    requires p <= |s|
    ensures r.Some? ==> p < r.value.0 < r.value.1 <= |s|
  {
    var w1 := RunEnd(s, p, Space);
    if w1 == p || !StartsAt(s, w1, keyword) || keyword == [] then None
    else
      var a := w1 + |keyword|;
      var w2 := RunEnd(s, a, Space);
      if w2 == a then None else Some((a, w2))
  }

  /** `\s+at\s+(.+)$` at `p`: the location text and the end of the match. */
  function AtGroup(s: string, p: nat): (r: Option<(string, nat)>)
    requires p <= |s|
    ensures r.Some? ==> p < r.value.1 <= |s| && AtEol(s, r.value.1) && r.value.0 != []
  {
    match KeywordSpan(s, p, "at")
    case None => None
    case Some((a, w2)) =>
      match LastLineStart(s, a, w2)
      case None => None
      case Some(e) => var l := LineEnd(s, e); Some((s[e..l], l))
  }

  /** The lazy `(.+?)` of a function name starting before `f`: the first place the rest can match. */
  function FuncEnd(s: string, f: nat): (e: nat)
    requires f <= |s|
    ensures f <= e <= |s| && (AtGroup(s, e).Some? || AtEol(s, e))
    ensures forall k :: f <= k < e ==> AtGroup(s, k).None? && !AtEol(s, k)
    decreases |s| - f
  {
    if AtGroup(s, f).Some? || AtEol(s, f) then f else FuncEnd(s, f + 1)
  }

  /** `(?:\s+in\s+(.+?))?` taken at `h`, with the optional location and `$` after it. */
  function InGroup(s: string, h: nat): (r: Option<(string, Option<string>, nat)>)
    requires h <= |s|
    ensures r.Some? ==> h < r.value.2 <= |s| && r.value.0 != []
  {
    match KeywordSpan(s, h, "in")
    case None => None
    case Some((b, w2)) =>
      match LastLineStart(s, b, w2)
      case None => None
      case Some(e) =>
        var f := FuncEnd(s, e + 1);
        match AtGroup(s, f)
        case Some((loc, end)) => Some((s[e..f], Some(loc), end))
        case None => Some((s[e..f], None, f))
  }

  /** One match of the frame pattern: its four groups and where it ends. */
  datatype FrameMatch = FrameMatch(num: string, addr: string, func: Option<string>, loc: Option<string>, end: nat)

  /** The frame pattern anchored at `i`. */
  function FrameAt(s: string, i: nat): (r: Option<FrameMatch>)
    requires i <= |s|
    ensures r.Some? ==> i < r.value.end <= |s|
    ensures r.Some? ==> r.value.num != [] && forall j :: 0 <= j < |r.value.num| ==> IsDigit(r.value.num[j])
    ensures r.Some? ==> StartsAt(s, i, "#")
  {
    if !StartsAt(s, i, "#") then None
    else
      var d := RunEnd(s, i + 1, Digit);
      var w := RunEnd(s, d, Space);
      if d == i + 1 || w == d || !StartsAt(s, w, "0x") then None
      else
        var x := RunEnd(s, w + 2, Hex);
        if x == w + 2 then None
        else
          var num := RunText(s, i + 1, Digit);
          var addr := s[w..x];
          match InGroup(s, x)
          case Some((func, loc, end)) => Some(FrameMatch(num, addr, Some(func), loc, end))
          case None =>
            match AtGroup(s, x)
            case Some((loc, end)) => Some(FrameMatch(num, addr, None, Some(loc), end))
            case None => if AtEol(s, x) then Some(FrameMatch(num, addr, None, None, x)) else None
  }

  /** re.findall: scan left to right, resuming after each match. */
  function FindFrames(s: string, pos: nat): (ms: seq<FrameMatch>)
    requires pos <= |s|
    ensures forall k :: 0 <= k < |ms| ==> pos < ms[k].end <= |s|
    ensures forall k :: 0 <= k < |ms| ==> ms[k].num != [] && forall j :: 0 <= j < |ms[k].num| ==> IsDigit(ms[k].num[j])
    decreases |s| - pos
  {
    match FrameAt(s, pos)
    case Some(m) => [m] + FindFrames(s, m.end)
    case None => if pos == |s| then [] else FindFrames(s, pos + 1)
  }

  /** A text with no '#' has no frames. */
  lemma {:induction false} NoHashNoFrames(s: string, pos: nat)
    requires pos <= |s|
    requires forall j :: pos <= j < |s| ==> s[j] != '#'
    ensures FindFrames(s, pos) == []
    decreases |s| - pos
  {
    if pos < |s| {
      assert s[pos..pos + 1] == [s[pos]];
    }
    if pos < |s| {
      NoHashNoFrames(s, pos + 1);
    }
  }

  /** No `\s+keyword` can start at a character that is not whitespace. */
  lemma NotSpaceNoKeyword(s: string, p: nat, keyword: string)
    requires p < |s| && !IsSpace(s[p])
    ensures KeywordSpan(s, p, keyword).None? && AtGroup(s, p).None?
  {
  }

  /** A frame line as GDB prints it. */
  const FrameLine := "#0  0x40056f62 in app_main () at main.c:42"

  /** The location group of the frame line is "main.c:42", running to the end of the line. */
  lemma FrameLineLocation()
    ensures AtGroup(FrameLine, 29) == Some(("main.c:42", 42))
  {
    var s := FrameLine;
    RunEndIs(s, 29, 30, Space);
    assert s[30..32] == "at";
    RunEndIs(s, 32, 33, Space);
    assert KeywordSpan(s, 29, "at") == Some((32, 33));
    assert LastLineStart(s, 32, 33) == Some(33);
    RunEndIs(s, 33, 42, NotNewline);
    assert LineEnd(s, 33) == 42;
    assert s[33..42] == "main.c:42";
  }

  /** A lazy function name always extends over a character that is not whitespace. */
  lemma FuncEndStep(s: string, f: nat)
    requires f < |s| && !IsSpace(s[f])
    ensures FuncEnd(s, f) == FuncEnd(s, f + 1)
  {
    NotSpaceNoKeyword(s, f, "at");
  }

  /** Inside the function name "app_main ()" of the frame line, except at its space. */
  lemma FrameLineNameStep(f: nat)
    requires 19 <= f < 29 && f != 26
    ensures FuncEnd(FrameLine, f) == FuncEnd(FrameLine, f + 1)
  {
    FuncEndStep(FrameLine, f);
  }

  // The name, two characters at a time.
  lemma FrameLineName1(s: string) requires s == FrameLine ensures FuncEnd(s, 19) == FuncEnd(s, 21)
  { FrameLineNameStep(19); FrameLineNameStep(20); }
  lemma FrameLineName2(s: string) requires s == FrameLine ensures FuncEnd(s, 21) == FuncEnd(s, 23)
  { FrameLineNameStep(21); FrameLineNameStep(22); }
  lemma FrameLineName3(s: string) requires s == FrameLine ensures FuncEnd(s, 23) == FuncEnd(s, 25)
  { FrameLineNameStep(23); FrameLineNameStep(24); }
  lemma FrameLineName4(s: string) requires s == FrameLine ensures FuncEnd(s, 25) == FuncEnd(s, 27)
  { FrameLineNameStep(25); FrameLineSpaceStep(s); }
  lemma FrameLineSpaceStep(s: string) requires s == FrameLine ensures FuncEnd(s, 26) == FuncEnd(s, 27)
  {
    RunEndIs(s, 26, 27, Space);
    assert s[27..29] != "at";
    assert AtGroup(s, 26).None? && !AtEol(s, 26);
  }
  lemma FrameLineName5(s: string) requires s == FrameLine ensures FuncEnd(s, 27) == FuncEnd(s, 29)
  { FrameLineNameStep(27); FrameLineNameStep(28); }

  /** The lazy name group of the frame line stops before " at", keeping the "()" of "app_main ()". */
  lemma FrameLineFunctionEnd(s: string)
    requires s == FrameLine
    ensures FuncEnd(s, 19) == 29
  {
    FrameLineName1(s);
    FrameLineName2(s);
    FrameLineName3(s);
    FrameLineName4(s);
    FrameLineName5(s);
    FrameLineLocation();
  }

  /** A backtrace entry as the analyser stores it; a missing part reads "??". */
  datatype Frame = Frame(frame: nat, addr: string, funcName: string, location: string)

  function ToFrame(m: FrameMatch): (f: Frame)
    requires forall j :: 0 <= j < |m.num| ==> IsDigit(m.num[j])
    ensures f.addr == m.addr
    ensures f.funcName == "??" <==> m.func.None? || m.func == Some("??")
    ensures f.location == "??" <==> m.loc.None? || m.loc == Some("??")
  {
    Frame(DecimalValue(m.num), m.addr, m.func.GetOr("??"), m.loc.GetOr("??"))
  }

  // ---------------------------------------------------------------------
  // Tasks: Thread\s+(0x[0-9a-fA-F]+).*?"([^"]+)"
  // ---------------------------------------------------------------------

  /** `"([^"]+)"` at `q`: a quote, at least one non-quote character, a closing quote. */
  predicate QuotedAt(s: string, q: nat)
    requires q <= |s|
  {
    q < |s| && s[q] == '"' && q + 1 <= |s| && RunEnd(s, q + 1, NotQuote) > q + 1 && RunEnd(s, q + 1, NotQuote) < |s|
  }

  /** The lazy `.*?`: the first quoted name at or after `q` before the end of the line `e`. */
  function FirstQuoted(s: string, q: nat, e: nat): (r: Option<nat>)
    requires q <= e <= |s|
    ensures r.Some? ==> q <= r.value < e && QuotedAt(s, r.value)
    ensures r.Some? ==> forall k :: q <= k < r.value ==> !QuotedAt(s, k)
    ensures r.None? ==> forall k :: q <= k < e ==> !QuotedAt(s, k)
    decreases e - q
  {
    if q >= e then None
    else if QuotedAt(s, q) then Some(q)
    else FirstQuoted(s, q + 1, e)
  }

  datatype TaskMatch = TaskMatch(tid: string, name: string, end: nat)

  function TaskAt(s: string, i: nat): (r: Option<TaskMatch>)
    requires i <= |s|
    ensures r.Some? ==> i < r.value.end <= |s| && r.value.name != [] && '"' !in r.value.name
  {
    if !StartsAt(s, i, "Thread") then None
    else
      var w := RunEnd(s, i + 6, Space);
      if w == i + 6 || !StartsAt(s, w, "0x") then None
      else
        var x := RunEnd(s, w + 2, Hex);
        if x == w + 2 then None
        else
          match FirstQuoted(s, x, LineEnd(s, x))
          case None => None
          case Some(q) =>
            var r := RunEnd(s, q + 1, NotQuote);
            Some(TaskMatch(s[w..x], s[q + 1..r], r + 1))
  }

  function FindTasks(s: string, pos: nat): (ms: seq<TaskMatch>)
    requires pos <= |s|
    ensures forall k :: 0 <= k < |ms| ==> ms[k].name != [] && '"' !in ms[k].name
    decreases |s| - pos
  {
    match TaskAt(s, pos)
    case Some(m) => [m] + FindTasks(s, m.end)
    case None => if pos == |s| then [] else FindTasks(s, pos + 1)
  }

  datatype TaskInfo = TaskInfo(name: string, tid: string)

  // ---------------------------------------------------------------------
  // Stack words: (0x[48][0-9a-fA-F]{7})
  // ---------------------------------------------------------------------

  predicate CodePointerAt(s: string, i: nat)
  {
    StartsAt(s, i, "0x") && i + 10 <= |s| && (s[i + 2] == '4' || s[i + 2] == '8')
    && forall k :: i + 3 <= k < i + 10 ==> IsHex(s[k])
  }

  function FindCodePointers(s: string, pos: nat): (ms: seq<string>)
    requires pos <= |s|
    ensures forall k :: 0 <= k < |ms| ==> |ms[k]| == 10 && ms[k][..2] == "0x" && (ms[k][2] == '4' || ms[k][2] == '8')
    decreases |s| - pos
  {
    if CodePointerAt(s, pos) then [s[pos..pos + 10]] + FindCodePointers(s, pos + 10)
    else if pos == |s| then []
    else FindCodePointers(s, pos + 1)
  }

  /** The distinct elements of `ms`, each at its first appearance. */
  function Distinct(ms: seq<string>): (d: seq<string>)
    ensures forall x :: x in d <==> x in ms
  {
    if ms == [] then []
    else
      var rest := Distinct(ms[..|ms| - 1]);
      if ms[|ms| - 1] in rest then rest else rest + [ms[|ms| - 1]]
  }

  predicate NoDuplicates(d: seq<string>)
  {
    forall i, j :: 0 <= i < j < |d| ==> d[i] != d[j]
  }

  lemma {:induction false} DistinctHasNoDuplicates(ms: seq<string>)
    ensures NoDuplicates(Distinct(ms))
    ensures |Distinct(ms)| == |set x | x in ms|
  {
    if ms != [] {
      var init := ms[..|ms| - 1];
      DistinctHasNoDuplicates(init);
      var last := ms[|ms| - 1];
      assert ms == init + [last];
      assert (set x | x in ms) == (set x | x in init) + {last};
      if last !in Distinct(init) {
        assert last !in (set x | x in init);
      } else {
        assert last in (set x | x in init);
      }
    } else {
      assert (set x | x in ms) == {};
    }
  }

  /** At most ten distinct values are listed from the set of matches. */
  const SampleLimit := 10

  /**
   * The values the analyser lists.  Python takes ten elements of a `set`, in
   * the set's own iteration order; this model takes them in order of first
   * appearance, which is one of the orders that iteration can produce.
   */
  function Sample(ms: seq<string>): (r: seq<string>)
    ensures NoDuplicates(r)
    ensures |r| == if |set x | x in ms| < SampleLimit then |set x | x in ms| else SampleLimit
    ensures forall x :: x in r ==> x in ms
  {
    DistinctHasNoDuplicates(ms);
    var d := Distinct(ms);
    if |d| < SampleLimit then d else d[..SampleLimit]
  }

  // ---------------------------------------------------------------------
  // Results of the analysis steps (what the analyser prints)
  // ---------------------------------------------------------------------

  datatype RegisterReport = RegisterReport(
    pcRegion: Option<Region>,              // analyze_pc_location ran on the PC found
    spInDram: Option<bool>,                // analyze_sp_location ran on the SP found
    exception: Option<ExceptionVerdict>)   // decode_exception ran on the EXCCAUSE found

  datatype BacktraceOutcome =
    | BacktraceSectionMissing   // "Секция BACKTRACE не найдена"
    | NoRecognizableFrames      // the section holds no frame line
    | FramesFound(count: nat)

  datatype TasksOutcome =
    | TasksSectionMissing
    | NoTasks
    | TasksFound(count: nat)

  datatype StackOutcome =
    | StackSectionMissing
    | NoCodePointers
    | CodePointersFound(found: nat, listed: seq<string>)

  /** The content of generate_summary. */
  datatype Summary = Summary(
    pc: Option<nat>,             // printed only when the PC is truthy
    sp: Option<nat>,             // printed only when the SP is truthy
    frameCount: nat,
    topFrames: seq<Frame>,       // at most five
    taskCount: nat,
    topTasks: seq<string>,       // names of at most five tasks
    romAdvice: bool,             // "PC in Boot ROM" recommendation
    stackAdvice: bool)           // "no backtrace - check for stack overflow" recommendation

  const BacktraceHeader := "2. BACKTRACE"
  const TasksHeader := "3. FREERTOS TASKS"
  const StackHeader := "4. STACK MEMORY DUMP"

  /** Python's truthiness of an optional integer. */
  function Truthy(v: Option<nat>): Option<nat>
  {
    if v.Some? && v.value != 0 then v else None
  }

  function FirstN<T>(s: seq<T>, n: nat): (r: seq<T>)
    ensures |r| == if |s| < n then |s| else n
    ensures forall k :: 0 <= k < |r| ==> r[k] == s[k]
  {
    if |s| < n then s else s[..n]
  }

  function TaskNames(ts: seq<TaskInfo>): (r: seq<string>)
    ensures |r| == |ts| && forall k :: 0 <= k < |ts| ==> r[k] == ts[k].name
  {
    seq(|ts|, k requires 0 <= k < |ts| => ts[k].name)
  }

  function MakeSummary(pc: Option<nat>, sp: Option<nat>, backtrace: seq<Frame>, tasks: seq<TaskInfo>): (r: Summary)
    ensures r.romAdvice <==> pc.Some? && ClassifyPc(pc.value) == Rom
    ensures r.stackAdvice <==> backtrace == []
    ensures r.pc.Some? <==> pc.Some? && pc.value != 0
    ensures r.pc.Some? ==> r.pc == pc
    ensures r.sp.Some? <==> sp.Some? && sp.value != 0
    ensures r.sp.Some? ==> r.sp == sp
    ensures r.frameCount == |backtrace| && r.taskCount == |tasks|
    ensures |r.topFrames| == (if |backtrace| < 5 then |backtrace| else 5)
    ensures forall k :: 0 <= k < |r.topFrames| ==> r.topFrames[k] == backtrace[k]
    ensures |r.topTasks| == (if |tasks| < 5 then |tasks| else 5)
    ensures forall k :: 0 <= k < |r.topTasks| ==> r.topTasks[k] == tasks[k].name
  {
    Summary(Truthy(pc), Truthy(sp), |backtrace|, FirstN(backtrace, 5), |tasks|,
            FirstN(TaskNames(tasks), 5),
            Truthy(pc).Some? && 0x4000_0000 <= pc.value < 0x4006_0000,
            backtrace == [])
  }

  /** A zero PC counts as absent: it is not printed and draws no PC advice. */
  lemma ZeroPcIsAbsent(sp: Option<nat>, bt: seq<Frame>, ts: seq<TaskInfo>)
    ensures MakeSummary(Some(0), sp, bt, ts).pc == MakeSummary(None, sp, bt, ts).pc == None
    ensures MakeSummary(Some(0), sp, bt, ts) == MakeSummary(None, sp, bt, ts)
  {
  }

  // ---------------------------------------------------------------------
  // The analyser object
  // ---------------------------------------------------------------------

  /** The loop of parse_backtrace: one frame appended per match, in order. */
  method AppendFrames(acc: seq<Frame>, ms: seq<FrameMatch>) returns (r: seq<Frame>)
    requires forall k :: 0 <= k < |ms| ==> forall j :: 0 <= j < |ms[k].num| ==> IsDigit(ms[k].num[j])
    ensures |r| == |acc| + |ms| && r[..|acc|] == acc
    ensures forall k :: 0 <= k < |ms| ==> r[|acc| + k] == ToFrame(ms[k])
  {
    r := acc;
    for k := 0 to |ms|
      invariant |r| == |acc| + k
      invariant r[..|acc|] == acc
      invariant forall j :: 0 <= j < k ==> r[|acc| + j] == ToFrame(ms[j])
    {
      r := r + [ToFrame(ms[k])];
    }
  }

  /** The loop of parse_tasks: one task appended per match, in order. */
  method AppendTasks(acc: seq<TaskInfo>, ms: seq<TaskMatch>) returns (r: seq<TaskInfo>)
    ensures |r| == |acc| + |ms| && r[..|acc|] == acc
    ensures forall k :: 0 <= k < |ms| ==> r[|acc| + k] == TaskInfo(ms[k].name, ms[k].tid)
  {
    r := acc;
    for k := 0 to |ms|
      invariant |r| == |acc| + k
      invariant r[..|acc|] == acc
      invariant forall j :: 0 <= j < k ==> r[|acc| + j] == TaskInfo(ms[j].name, ms[j].tid)
    {
      r := r + [TaskInfo(ms[k].name, ms[k].tid)];
    }
  }

  /** The three searches of parse_registers over the report text, and the verdicts drawn from them. */
  method ReadRegisters(data: string) returns (pcMatch: Option<nat>, spMatch: Option<nat>, rep: RegisterReport)
    ensures pcMatch == SearchField(data, "pc", 0) && spMatch == SearchField(data, "a1", 0)
    ensures rep.pcRegion == (if pcMatch.Some? then Some(ClassifyPc(pcMatch.value)) else None)
    ensures rep.spInDram == (if spMatch.Some? then Some(SpInDram(spMatch.value)) else None)
    ensures var f := SearchField(data, "exccause", 0);
            rep.exception == if f.Some? then Some(DecodeException(f.value)) else None
  {
    pcMatch := SearchField(data, "pc", 0);
    var pcRegion := None;
    if pcMatch.Some? {
      pcRegion := Some(ClassifyPc(pcMatch.value));
    }
    spMatch := SearchField(data, "a1", 0);
    var spVerdict := None;
    if spMatch.Some? {
      spVerdict := Some(SpInDram(spMatch.value));
    }
    var excMatch := SearchField(data, "exccause", 0);
    var exc := None;
    if excMatch.Some? {
      exc := Some(DecodeException(excMatch.value));
    }
    rep := RegisterReport(pcRegion, spVerdict, exc);
  }

  /** What parse_backtrace does to the frame list r, starting from acc, given the section it found. */
  predicate FramesAppended(section: Option<string>, acc: seq<Frame>, r: seq<Frame>, outcome: BacktraceOutcome)
  {
    if section.None? then outcome == BacktraceSectionMissing && r == acc
    else
      var ms := FindFrames(section.value, 0);
      && |r| == |acc| + |ms|
      && r[..|acc|] == acc
      && (forall k :: 0 <= k < |ms| ==> r[|acc| + k] == ToFrame(ms[k]))
      && outcome == (if ms == [] then NoRecognizableFrames else FramesFound(|ms|))
  }

  /** What parse_tasks does to the task list r, starting from acc, given the section it found. */
  predicate TasksAppended(section: Option<string>, acc: seq<TaskInfo>, r: seq<TaskInfo>, outcome: TasksOutcome)
  {
    if section.None? then outcome == TasksSectionMissing && r == acc
    else
      var ms := FindTasks(section.value, 0);
      && |r| == |acc| + |ms|
      && r[..|acc|] == acc
      && (forall k :: 0 <= k < |ms| ==> r[|acc| + k] == TaskInfo(ms[k].name, ms[k].tid))
      && outcome == (if ms == [] then NoTasks else TasksFound(|ms|))
  }

  /** The frames parse_backtrace appends for a section, in match order (none without a section). */
  function SectionFrames(section: Option<string>): seq<Frame>
  {
    if section.None? then []
    else
      var ms := FindFrames(section.value, 0);
      seq(|ms|, k requires 0 <= k < |ms| => ToFrame(ms[k]))
  }

  /** The tasks parse_tasks appends for a section, in match order (none without a section). */
  function SectionTasks(section: Option<string>): seq<TaskInfo>
  {
    if section.None? then []
    else
      var ms := FindTasks(section.value, 0);
      seq(|ms|, k requires 0 <= k < |ms| => TaskInfo(ms[k].name, ms[k].tid))
  }

  lemma FramesAppendedIs(section: Option<string>, acc: seq<Frame>, r: seq<Frame>, outcome: BacktraceOutcome)
    requires FramesAppended(section, acc, r, outcome)
    ensures r == acc + SectionFrames(section)
  {
    if section.Some? {
      assert r == acc + SectionFrames(section) by {
        assert forall k :: |acc| <= k < |r| ==> r[k] == SectionFrames(section)[k - |acc|];
        assert r[..|acc|] == acc;
      }
    }
  }

  lemma TasksAppendedIs(section: Option<string>, acc: seq<TaskInfo>, r: seq<TaskInfo>, outcome: TasksOutcome)
    requires TasksAppended(section, acc, r, outcome)
    ensures r == acc + SectionTasks(section)
  {
    if section.Some? {
      assert r == acc + SectionTasks(section) by {
        assert forall k :: |acc| <= k < |r| ==> r[k] == SectionTasks(section)[k - |acc|];
        assert r[..|acc|] == acc;
      }
    }
  }

  /** The body of parse_backtrace once the section has been looked up. */
  method FramesOfSection(section: Option<string>, acc: seq<Frame>) returns (outcome: BacktraceOutcome, r: seq<Frame>)
    ensures FramesAppended(section, acc, r, outcome)
  {
    r := acc;
    if section.None? {
      return BacktraceSectionMissing, r;
    }
    var ms := FindFrames(section.value, 0);
    if ms == [] {
      return NoRecognizableFrames, r;
    }
    r := AppendFrames(acc, ms);
    outcome := FramesFound(|ms|);
  }

  /** The body of parse_tasks once the section has been looked up. */
  method TasksOfSection(section: Option<string>, acc: seq<TaskInfo>) returns (outcome: TasksOutcome, r: seq<TaskInfo>)
    ensures TasksAppended(section, acc, r, outcome)
  {
    r := acc;
    if section.None? {
      return TasksSectionMissing, r;
    }
    var ms := FindTasks(section.value, 0);
    if ms == [] {
      return NoTasks, r;
    }
    r := AppendTasks(acc, ms);
    outcome := TasksFound(|ms|);
  }

  class Analyzer {
    var reportFile: string
    var reportData: string
    var pc: Option<nat>
    var sp: Option<nat>
    var backtrace: seq<Frame>
    var registers: map<string, nat>
    var tasks: seq<TaskInfo>

    constructor (reportFile: string)
      ensures this.reportFile == reportFile && reportData == ""
      ensures pc == None && sp == None && backtrace == [] && registers == map[] && tasks == []
    {
      this.reportFile := reportFile;
      reportData := "";
      pc := None;
      sp := None;
      backtrace := [];
      registers := map[];
      tasks := [];
    }

    /** load_report; `contents` is None when the file cannot be read. */
    method LoadReport(contents: Option<string>) returns (ok: bool)
      modifies this`reportData
      ensures ok <==> contents.Some?
      ensures reportData == if ok then contents.value else old(reportData)
    {
      if contents.Some? {
        reportData := contents.value;
        ok := true;
      } else {
        ok := false;
      }
    }

    /** parse_registers: the first match of each pattern; an unmatched register keeps its value. */
    method ParseRegisters() returns (rep: RegisterReport)
      modifies this`pc, this`sp
      ensures var f := SearchField(reportData, "pc", 0);
              pc == (if f.Some? then f else old(pc)) && rep.pcRegion == (if f.Some? then Some(ClassifyPc(f.value)) else None)
      ensures var f := SearchField(reportData, "a1", 0);
              sp == (if f.Some? then f else old(sp)) && rep.spInDram == (if f.Some? then Some(SpInDram(f.value)) else None)
      ensures var f := SearchField(reportData, "exccause", 0);
              rep.exception == if f.Some? then Some(DecodeException(f.value)) else None
    {
      var pcMatch, spMatch;
      pcMatch, spMatch, rep := ReadRegisters(reportData);
      if pcMatch.Some? {
        pc := pcMatch;
      }
      if spMatch.Some? {
        sp := spMatch;
      }
    }

    /** parse_backtrace: frames of the backtrace section are appended in order. */
    method ParseBacktrace() returns (outcome: BacktraceOutcome)
      modifies this`backtrace
      ensures FramesAppended(Section(reportData, BacktraceHeader), old(backtrace), backtrace, outcome)
    {
      var section := Section(reportData, BacktraceHeader);
      outcome, backtrace := FramesOfSection(section, backtrace);
    }

    /** parse_tasks: every task line of the task section is appended in order. */
    method ParseTasks() returns (outcome: TasksOutcome)
      modifies this`tasks
      ensures TasksAppended(Section(reportData, TasksHeader), old(tasks), tasks, outcome)
    {
      var section := Section(reportData, TasksHeader);
      outcome, tasks := TasksOfSection(section, tasks);
    }

    /** analyze_stack_content: count every code-pointer word, list at most ten distinct ones. */
    method AnalyzeStackContent() returns (outcome: StackOutcome)
      ensures Section(reportData, StackHeader).None? ==> outcome == StackSectionMissing
      ensures Section(reportData, StackHeader).Some? ==>
                var ms := FindCodePointers(Section(reportData, StackHeader).value, 0);
                outcome == if ms == [] then NoCodePointers else CodePointersFound(|ms|, Sample(ms))
    {
      var section := Section(reportData, StackHeader);
      if section.None? {
        return StackSectionMissing;
      }
      var ms := FindCodePointers(section.value, 0);
      if ms == [] {
        return NoCodePointers;
      }
      outcome := CodePointersFound(|ms|, Sample(ms));
    }

    /** generate_summary. */
    function GenerateSummary(): (r: Summary)
      reads this
      ensures r.romAdvice <==> pc.Some? && ClassifyPc(pc.value) == Rom
      ensures r.stackAdvice <==> backtrace == []
    {
      MakeSummary(pc, sp, backtrace, tasks)
    }

    /**
     * analyze: load, then the four parsing steps, then the summary.  What the
     * summary reports is what the report text holds: its first PC and A1
     * fields, and the frames and tasks of its backtrace and task sections.
     */
    method Analyze(contents: Option<string>) returns (ok: bool, summary: Option<Summary>)
      modifies this
      ensures ok <==> contents.Some?
      ensures !ok ==> summary == None && unchanged(this)
      ensures ok ==> reportData == contents.value
      ensures ok ==> var f := SearchField(contents.value, "pc", 0); pc == if f.Some? then f else old(pc)
      ensures ok ==> var f := SearchField(contents.value, "a1", 0); sp == if f.Some? then f else old(sp)
      ensures ok ==> backtrace == old(backtrace) + SectionFrames(Section(contents.value, BacktraceHeader))
      ensures ok ==> tasks == old(tasks) + SectionTasks(Section(contents.value, TasksHeader))
      ensures ok ==> summary == Some(MakeSummary(pc, sp, backtrace, tasks))
    {
      ok := LoadReport(contents);
      if !ok {
        return false, None;
      }
      // analyze() ignores what the parse steps report, and so does the model.
      var r := ParseRegisters();
      ghost var bt0 := backtrace;
      var b := ParseBacktrace();
      FramesAppendedIs(Section(reportData, BacktraceHeader), bt0, backtrace, b);
      ghost var ts0 := tasks;
      var t := ParseTasks();
      TasksAppendedIs(Section(reportData, TasksHeader), ts0, tasks, t);
      var st := AnalyzeStackContent();
      summary := Some(GenerateSummary());
    }
  }
}
