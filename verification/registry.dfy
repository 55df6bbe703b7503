/** The network throttling value of Windows: its memorised text, and what installing, updating and
    uninstalling do to the registry (jamodio-agent/src/net_throttling.rs and
    jamodio-agent/wix/network-throttling.wxs). */
module Throttling {
  import opened Options

  const U32: int := 0x1_0000_0000
  const DISABLED: int := 0xFFFF_FFFF

  type DWord = v: int | 0 <= v < U32

  datatype Reading = Value(v: DWord) | Absent

  // ------------------------------------------------------------------ decimal text

  function Digit(d: int): char
    requires 0 <= d < 10
  {
    '0' + d as char
  }

  predicate IsDigit(c: char) {
    '0' <= c <= '9'
  }

  function Decimal(n: nat): (s: string)
    ensures s != [] && forall k :: 0 <= k < |s| ==> IsDigit(s[k])
  {
    if n < 10 then [Digit(n)] else Decimal(n / 10) + [Digit(n % 10)]
  }

  predicate AllDigits(s: string) {
    forall k :: 0 <= k < |s| ==> IsDigit(s[k])
  }

  function Accumulate(s: string): nat
    requires AllDigits(s)
  {
    if s == [] then 0 else 10 * Accumulate(s[..|s| - 1]) + (s[|s| - 1] - '0') as nat
  }

  function Number(s: string): Option<nat> {
    if s != [] && AllDigits(s) then Some(Accumulate(s)) else None
  }

  /** An optional sign `+`, at least one digit, no overflow. */
  function ParseU32(s: string): Option<DWord> {
    var digits := if s != [] && s[0] == '+' then s[1..] else s;
    match Number(digits)
    case Some(n) => if n < U32 then Some(n) else None
    case None => None
  }

  const I64_MAX: int := 0x7FFF_FFFF_FFFF_FFFF

  function ParseI64(s: string): Option<int> {
    if s != [] && s[0] == '-' then
      match Number(s[1..])
      case Some(n) => if n <= I64_MAX + 1 then Some(0 - n as int) else None
      case None => None
    else
      match Number(if s != [] && s[0] == '+' then s[1..] else s)
      case Some(n) => if n <= I64_MAX then Some(n) else None
      case None => None
  }

  lemma {:induction false} OneMoreDigit(s: string, d: int)
    requires AllDigits(s) && 0 <= d < 10
    ensures AllDigits(s + [Digit(d)]) && Accumulate(s + [Digit(d)]) == 10 * Accumulate(s) + d
  {
    var t := s + [Digit(d)];
    assert t[..|t| - 1] == s;
    assert t[|t| - 1] == Digit(d);
  }

  lemma {:induction false} DecimalAccumulates(n: nat)
    ensures AllDigits(Decimal(n)) && Accumulate(Decimal(n)) == n
  {
    if n < 10 {
      OneMoreDigit([], n);
      assert [] + [Digit(n)] == Decimal(n);
    } else {
      DecimalAccumulates(n / 10);
      OneMoreDigit(Decimal(n / 10), n % 10);
      assert Decimal(n) == Decimal(n / 10) + [Digit(n % 10)];
    }
  }

  /** Decimal text reads back as the number it was made from. */
  lemma {:induction false} DecimalReadsBack(n: nat)
    ensures Number(Decimal(n)) == Some(n)
  {
    DecimalAccumulates(n);
  }

  // ------------------------------------------------------------------ white space

  predicate IsSpace(c: char) {
    || '\t' <= c <= '\r' || c == ' ' || c == '\U{85}' || c == '\U{A0}' || c == '\U{1680}'
    || '\U{2000}' <= c <= '\U{200A}' || c == '\U{2028}' || c == '\U{2029}' || c == '\U{202F}'
    || c == '\U{205F}' || c == '\U{3000}'
  }

  function TrimStart(s: string): string {
    if s != [] && IsSpace(s[0]) then TrimStart(s[1..]) else s
  }

  function TrimEnd(s: string): string {
    if s != [] && IsSpace(s[|s| - 1]) then TrimEnd(s[..|s| - 1]) else s
  }

  function Trim(s: string): string {
    TrimEnd(TrimStart(s))
  }

  predicate Blank(s: string) {
    forall k :: 0 <= k < |s| ==> IsSpace(s[k])
  }

  /** Text that neither starts nor ends with white space. */
  predicate Tight(s: string) {
    s != [] && !IsSpace(s[0]) && !IsSpace(s[|s| - 1])
  }

  lemma {:induction false} TrimStartSkips(pad: string, s: string)
    requires Blank(pad)
    ensures TrimStart(pad + s) == TrimStart(s)
  {
    if pad == [] {
      assert pad + s == s;
    } else {
      assert (pad + s)[1..] == pad[1..] + s;
      TrimStartSkips(pad[1..], s);
    }
  }

  lemma {:induction false} TrimEndSkips(s: string, pad: string)
    requires Blank(pad)
    ensures TrimEnd(s + pad) == TrimEnd(s)
  {
    if pad == [] {
      assert s + pad == s;
    } else {
      assert (s + pad)[..|s + pad| - 1] == s + pad[..|pad| - 1];
      TrimEndSkips(s, pad[..|pad| - 1]);
    }
  }

  lemma {:induction false} TrimDropsPadding(left: string, s: string, right: string)
    requires Blank(left) && Blank(right) && Tight(s)
    ensures Trim(left + s + right) == s
  {
    assert left + s + right == left + (s + right);
    TrimStartSkips(left, s + right);
    assert TrimStart(s + right) == s + right;
    TrimEndSkips(s, right);
  }

  // ------------------------------------------------------------------ the memorised form

  const ABSENT: string := "absent"
  const MSI: string := "msi:"

  function ToMemory(r: Reading): string {
    match r
    case Value(v) => Decimal(v)
    case Absent => ABSENT
  }

  /** The number Windows Installer reads, signed or not depending on its version. */
  function FromMsiNumber(n: int): Option<Reading> {
    if 0 <= n <= 0xFFFF_FFFF then Some(Value(n))
    else if -0x8000_0000 <= n <= -1 then Some(Value(n + U32))
    else None
  }

  function FromMsi(msi: string): Option<Reading> {
    if msi == ABSENT then Some(Absent)
    else if msi == [] || msi[0] != '#' then None
    else match ParseI64(msi[1..])
      case Some(n) => FromMsiNumber(n)
      case None => None
  }

  function FromTrimmed(s: string): Option<Reading> {
    if MSI <= s then FromMsi(s[|MSI|..])
    else if s == ABSENT then Some(Absent)
    else match ParseU32(s)
      case Some(v) => Some(Value(v))
      case None => None
  }

  function FromMemory(s: string): Option<Reading> {
    FromTrimmed(Trim(s))
  }

  lemma {:induction false} DecimalIsTight(n: nat)
    ensures Tight(Decimal(n)) && !(MSI <= Decimal(n)) && Decimal(n)[0] != '+' && Decimal(n)[0] != '-'
    ensures Decimal(n) != ABSENT
  {
    assert MSI[0] == 'm' && ABSENT[0] == 'a';
  }

  /** Every reading survives being memorised, with any white space around it. */
  lemma {:induction false} RoundTrip(r: Reading, left: string, right: string)
    requires Blank(left) && Blank(right)
    ensures FromMemory(left + ToMemory(r) + right) == Some(r)
  {
    match r
    case Value(v) =>
      DecimalIsTight(v);
      DecimalReadsBack(v);
      TrimDropsPadding(left, Decimal(v), right);
    case Absent =>
      TrimDropsPadding(left, ABSENT, right);
      assert MSI[0] != ABSENT[0];
  }

  function UnsignedText(n: nat): string {
    MSI + "#" + Decimal(n)
  }

  function SignedText(magnitude: nat): string {
    MSI + "#-" + Decimal(magnitude)
  }

  lemma {:induction false} MsiText(body: string)
    requires body != [] && body[0] == '#' && !IsSpace(body[|body| - 1])
    ensures FromMemory(MSI + body) == FromMsi(body)
  {
    var s := MSI + body;
    TrimDropsPadding([], s, []);
    assert [] + s + [] == s;
    assert s[|MSI|..] == body;
  }

  lemma {:induction false} UnsignedNumber(n: nat)
    ensures ParseI64(Decimal(n)) == if n <= I64_MAX then Some(n) else None
  {
    DecimalIsTight(n);
    DecimalReadsBack(n);
  }

  lemma {:induction false} SignedNumber(n: nat)
    ensures ParseI64("-" + Decimal(n)) == if n <= I64_MAX + 1 then Some(0 - n as int) else None
  {
    var s := "-" + Decimal(n);
    DecimalReadsBack(n);
    assert s[1..] == Decimal(n);
  }

  lemma {:induction false} FromMsiBody(number: string)
    ensures FromMsi("#" + number) ==
            match ParseI64(number)
            case Some(n) => FromMsiNumber(n)
            case None => None
  {
    var body := "#" + number;
    assert body[0] != ABSENT[0];
    assert body[1..] == number;
  }

  /** The installer's unsigned form of any number: read back as it is when it fits in 32 bits, and
      refused otherwise. */
  lemma {:induction false} UnsignedForm(n: nat)
    ensures FromMemory(UnsignedText(n)) == if n < U32 then Some(Value(n)) else None
  {
    hide FromMemory, FromMsi, ParseI64;
    var body := "#" + Decimal(n);
    assert UnsignedText(n) == MSI + body;
    NoSpace(Decimal(n));
    MsiText(body);
    FromMsiBody(Decimal(n));
    UnsignedNumber(n);
  }

  lemma {:induction false} NoSpace(digits: string)
    requires digits != [] && AllDigits(digits)
    ensures !IsSpace(digits[|digits| - 1])
  {
  }

  /** The signed form: the two's complement of what is written, refused below -2^31. */
  lemma {:induction false} SignedForm(magnitude: nat)
    ensures FromMemory(SignedText(magnitude)) ==
            if magnitude == 0 then Some(Value(0))
            else if magnitude <= 0x8000_0000 then Some(Value(U32 - magnitude))
            else None
  {
    hide FromMemory, FromMsi, ParseI64, IsSpace;
    var number := "-" + Decimal(magnitude);
    var body := "#" + number;
    assert SignedText(magnitude) == MSI + body;
    NoSpace(Decimal(magnitude));
    MsiText(body);
    FromMsiBody(number);
    SignedNumber(magnitude);
  }

  // ------------------------------------------------------------------ the decision

  datatype Restore = Rewrite(v: DWord) | DeleteValue | AlreadyOrigin | ChangedSince | NothingRemembered

  function UninstallPlan(current: Reading, remembered: Option<Reading>): Restore {
    match remembered
    case None => NothingRemembered
    case Some(origin) =>
      if current != Value(DISABLED) then ChangedSince
      else match origin
        case Absent => DeleteValue
        case Value(v) => if v == DISABLED then AlreadyOrigin else Rewrite(v)
  }

  // ------------------------------------------------------------------ the registry

  /** Our own key: the memorised origin, the trace of the last step, the installer's marker. */
  datatype Memory = Memory(origin: Option<string>, step: Option<string>, managed: bool)

  datatype Store = Store(current: Reading, memory: Option<Memory>)

  /** Which accesses fail in one run of the uninstall step. */
  datatype Faults = Faults(readCurrent: bool, readOrigin: bool, writeProfile: bool, openMemory: bool,
                           deleteOrigin: bool, deleteStep: bool, writeStep: bool)

  const NO_FAULT: Faults := Faults(false, false, false, false, false, false, false)

  const FAILED: string := "uninstall: failed"

  /** What is remembered: nothing, a reading, or a text that cannot be read. */
  function OriginText(s: Store): Option<string> {
    if s.memory.Some? then s.memory.value.origin else None
  }

  function Remembered(s: Store): Option<Option<Reading>> {
    match OriginText(s)
    case None => Some(None)
    case Some(text) =>
      match FromMemory(text)
      case None => None
      case Some(r) => Some(Some(r))
  }

  /** The value once the plan is carried out. */
  function Restored(current: Reading, plan: Restore): Reading {
    match plan
    case Rewrite(v) => Value(v)
    case DeleteValue => Absent
    case _ => current
  }

  predicate Writes(plan: Restore) {
    plan.Rewrite? || plan.DeleteValue?
  }

  /** Our key after the clean-up: the origin goes first, then the trace. */
  function Cleaned(memory: Option<Memory>, f: Faults): (Option<Memory>, bool) {
    if memory.None? || f.openMemory then (memory, true)
    else if memory.value.origin.Some? && f.deleteOrigin then (memory, false)
    else
      var m := memory.value.(origin := None);
      if m.step.Some? && f.deleteStep then (Some(m), false)
      else (Some(m.(step := None)), true)
  }

  function Uninstalled(s: Store, f: Faults): (Store, bool) {
    if f.readCurrent || f.readOrigin || Remembered(s).None? then (s, false) else
    var plan := UninstallPlan(s.current, Remembered(s).value);
    if Writes(plan) && f.writeProfile then (s, false) else
    var (memory, ok) := Cleaned(s.memory, f);
    (Store(Restored(s.current, plan), memory), ok)
  }

  function Traced(s: Store, f: Faults): Store {
    if f.writeStep then s else
    var m := if s.memory.Some? then s.memory.value else Memory(None, None, false);
    s.(memory := Some(m.(step := Some(FAILED))))
  }

  const UNINSTALL: string := "uninstall"

  /** The step the installer runs: the registry and the exit code. */
  function Stepped(s: Store, step: Option<string>, f: Faults): (Store, int) {
    if step != Some(UNINSTALL) then (s, 2) else
    var (after, ok) := Uninstalled(s, f);
    if ok then (after, 0) else (Traced(after, f), 1)
  }

  class Keys {
    var current: Reading
    var memory: Option<Memory>

    function View(): Store
      reads this
    {
      Store(current, memory)
    }

    constructor (s: Store)
      ensures View() == s
    {
      current, memory := s.current, s.memory;
    }

    method CleanUp(f: Faults) returns (ok: bool)
      modifies this`memory
      ensures (memory, ok) == Cleaned(old(memory), f)
    {
      if memory.None? || f.openMemory {
        return true;
      }
      if memory.value.origin.Some? {
        if f.deleteOrigin {
          return false;
        }
        memory := Some(memory.value.(origin := None));
      }
      if memory.value.step.Some? {
        if f.deleteStep {
          return false;
        }
        memory := Some(memory.value.(step := None));
      }
      return true;
    }

    method Uninstall(f: Faults) returns (ok: bool)
      modifies this
      ensures (View(), ok) == Uninstalled(old(View()), f)
    {
      hide FromMemory, Cleaned;
      if f.readCurrent || f.readOrigin || Remembered(View()).None? {
        return false;
      }
      var plan := UninstallPlan(current, Remembered(View()).value);
      match plan {
        case Rewrite(v) =>
          if f.writeProfile {
            return false;
          }
          current := Value(v);
        case DeleteValue =>
          if f.writeProfile {
            return false;
          }
          current := Absent;
        case _ =>
      }
      ok := CleanUp(f);
    }

    method WriteStep(f: Faults)
      modifies this`memory
      ensures View() == Traced(old(View()), f)
    {
      if !f.writeStep {
        var m := if memory.Some? then memory.value else Memory(None, None, false);
        memory := Some(m.(step := Some(FAILED)));
      }
    }

    method InstallerStep(step: Option<string>, f: Faults) returns (code: int)
      modifies this
      ensures (View(), code) == Stepped(old(View()), step, f)
    {
      hide Uninstalled, Traced;
      if step != Some(UNINSTALL) {
        return 2;
      }
      var ok := Uninstall(f);
      if ok {
        return 0;
      }
      WriteStep(f);
      return 1;
    }
  }

  /** Whatever fails, the step touches the value only if it is still the disabling one, and then it
      leaves either that one or exactly the origin. */
  lemma {:induction false} OnlyOurOwnValueIsTouched(s: Store, step: Option<string>, f: Faults)
    ensures
      var after := Stepped(s, step, f).0.current;
      after == s.current || (s.current == Value(DISABLED) && Remembered(s) == Some(Some(after)))
  {
    hide FromMemory;
  }

  /** Without a fault the step succeeds exactly when what is memorised can be read; then the value is
      the origin if the disabling one is still there and an origin is known, and nothing of ours is
      left. Otherwise nothing is touched but the trace. */
  lemma {:induction false} RestoreIsExact(s: Store)
    ensures
      var (after, code) := Stepped(s, Some(UNINSTALL), NO_FAULT);
      && (code == 0 <==> Remembered(s).Some?)
      && (code == 0 ==>
            && after.current ==
               (if s.current == Value(DISABLED) && Remembered(s).value.Some? then Remembered(s).value.value else s.current)
            && OriginText(after) == None
            && (after.memory.Some? ==> after.memory.value.step.None?))
      && (code != 0 ==> code == 1 && after.current == s.current && OriginText(after) == OriginText(s))
  {
    hide FromMemory;
  }

  /** Once it has succeeded, running the step again leaves the value alone, whatever fails in either
      run and even if the memory could not be erased. */
  lemma {:induction false} TwiceIsOnce(s: Store, f: Faults, g: Faults)
    requires Stepped(s, Some(UNINSTALL), f).1 == 0
    ensures
      var once := Stepped(s, Some(UNINSTALL), f).0;
      Stepped(once, Some(UNINSTALL), g).0.current == once.current
  {
    hide FromMemory;
    var once := Stepped(s, Some(UNINSTALL), f).0;
    if f.openMemory {
      assert OriginText(once) == OriginText(s);
      assert Remembered(once) == Remembered(s);
    } else {
      assert OriginText(once) == None;
    }
  }

  // ------------------------------------------------------------------ a whole life

  /** The value as Windows Installer reads it, signed or not. */
  function RawText(r: Reading, signed: bool): string {
    match r
    case Absent => MSI + ABSENT
    case Value(v) => if signed && v >= 0x8000_0000 then SignedText(U32 - v) else UnsignedText(v)
  }

  const INSTALLED: string := "install (installer)"

  /** Installing or updating: an origin already memorised is kept, otherwise the value found is
      noted; then the disabling value is written. */
  function Installed(s: Store, signed: bool): Store {
    var saved := OriginText(s);
    var origin := if saved.Some? && saved.value != "" then saved.value else RawText(s.current, signed);
    Store(Value(DISABLED), Some(Memory(Some(origin), Some(INSTALLED), true)))
  }

  datatype Event = Update(signed: bool) | UserSets(r: Reading)

  function Happened(s: Store, e: Event): Store {
    match e
    case Update(signed) => Installed(s, signed)
    case UserSets(r) => s.(current := r)
  }

  function Lived(s: Store, events: seq<Event>): Store {
    if events == [] then s else Happened(Lived(s, events[..|events| - 1]), events[|events| - 1])
  }

  lemma {:induction false} RawTextReadsBack(r: Reading, signed: bool)
    ensures RawText(r, signed) != "" && FromMemory(RawText(r, signed)) == Some(r)
  {
    hide FromMemory;
    match r
    case Absent =>
      MsiAbsent();
    case Value(v) =>
      if signed && v >= 0x8000_0000 {
        SignedForm(U32 - v);
      } else {
        UnsignedForm(v);
      }
  }

  lemma {:induction false} MsiAbsent()
    ensures FromMemory(MSI + ABSENT) == Some(Absent)
  {
    var s := MSI + ABSENT;
    TrimDropsPadding([], s, []);
    assert [] + s + [] == s;
    assert s[|MSI|..] == ABSENT;
  }

  lemma {:induction false} OriginIsKept(s: Store, events: seq<Event>)
    requires OriginText(s).Some? && OriginText(s).value != ""
    ensures OriginText(Lived(s, events)) == OriginText(s)
  {
    if events != [] {
      OriginIsKept(s, events[..|events| - 1]);
    }
  }

  /** What an install takes for the origin: the one already memorised, if its text can be read, and
      otherwise the value it finds. */
  function OriginAtInstall(s: Store): Option<Reading> {
    var saved := OriginText(s);
    if saved.Some? && saved.value != "" then FromMemory(saved.value) else Some(s.current)
  }

  /** Install on any machine, then any updates and any changes by the user, then uninstall. It succeeds
      exactly when the origin can be read; the value is then that origin if the disabling value is still
      in place, and otherwise the user's, and uninstalling again changes nothing. If it cannot be read,
      the value and the memorised text are left as they are. */
  lemma {:induction false} LifeCycle(s: Store, signed: bool, events: seq<Event>)
    ensures
      var origin := OriginAtInstall(s);
      var lived := Lived(Installed(s, signed), events);
      var (after, code) := Stepped(lived, Some(UNINSTALL), NO_FAULT);
      && (code == 0 <==> origin.Some?)
      && (code == 0 ==>
            && after.current == (if lived.current == Value(DISABLED) then origin.value else lived.current)
            && Stepped(after, Some(UNINSTALL), NO_FAULT) == (after, 0))
      && (code != 0 ==> code == 1 && after.current == lived.current && OriginText(after) == OriginText(lived))
  {
    hide FromMemory, RawText;
    RawTextReadsBack(s.current, signed);
    var installed := Installed(s, signed);
    OriginIsKept(installed, events);
    var lived := Lived(installed, events);
    assert Remembered(lived) == match OriginAtInstall(s) { case Some(r) => Some(Some(r)) case None => None };
    RestoreIsExact(lived);
  }

  // ------------------------------------------------------------------ since the last start

  const U64: int := 0x1_0000_0000_0000_0000

  function SaturatingMul(a: nat, b: nat): nat {
    if a * b < U64 then a * b else U64 - 1
  }

  function SaturatingSub(a: nat, b: nat): nat {
    if a < b then 0 else a - b
  }

  predicate WrittenSinceBoot(lastWrite: nat, now: nat, uptimeMs: nat) {
    lastWrite > SaturatingSub(now, SaturatingMul(uptimeMs, 10_000))
  }

  /** Saturation changes one answer only: a key stamped 0 on a machine up longer than its clock. */
  lemma {:induction false} SaturationIsHarmless(lastWrite: nat, now: nat, uptimeMs: nat)
    requires lastWrite < U64 && now < U64 && uptimeMs < U64
    ensures
      (WrittenSinceBoot(lastWrite, now, uptimeMs) <==> lastWrite as int > now as int - uptimeMs * 10_000)
      <==> !(lastWrite == 0 && uptimeMs * 10_000 > now)
  {
  }
}
