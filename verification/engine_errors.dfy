/**
 * Engine status codes and the way the binding turns them into Python
 * exceptions.
 *
 * The current module fills a 33-slot table at import time, slot |code| ->
 * exception class, and raises `table[|code|]("error code N")` for every
 * failing status. Slots that no registration fills hold NULL, and a code
 * with |code| >= 33 indexes past the table: both are undefined behaviour of
 * the C code and are modelled as crashes. The legacy module raises its
 * single base class for every failure.
 *
 * The numeric codes are those of Hyperscan's and Chimera's public headers
 * (`hs_common.h`, `ch_common.h`).
 */
module EngineErrors {
  import opened PyRuntime

  const SUCCESS: int := 0
  const INVALID: int := -1
  const NOMEM: int := -2
  const SCAN_TERMINATED: int := -3
  const COMPILER_ERROR: int := -4
  const DB_VERSION_ERROR: int := -5
  const DB_PLATFORM_ERROR: int := -6
  const DB_MODE_ERROR: int := -7
  const BAD_ALIGN: int := -8
  const BAD_ALLOC: int := -9
  const SCRATCH_IN_USE: int := -10
  const ARCH_ERROR: int := -11
  const INSUFFICIENT_SPACE: int := -12
  const UNKNOWN_ERROR: int := -13
  const CH_FAIL_INTERNAL: int := -32

  /** The number of slots of the exception table. */
  const TABLE_SLOTS: nat := 33

  /** A failing engine status: anything but SUCCESS. */
  type ErrorCode = c: int | c != 0 witness -1

  function Abs(x: int): nat { if x < 0 then -x else x }

  /** One import-time registration: `errors[abs(code)] = cls`. */
  datatype Registration = Registration(code: int, cls: ErrorClass)

  /** The registrations, in the order the module initialiser makes them. */
  const Registrations: seq<Registration> := [
    Registration(INVALID, InvalidError),
    Registration(NOMEM, NoMemoryError),
    Registration(COMPILER_ERROR, CompilerError),
    Registration(SCAN_TERMINATED, ScanTerminated),
    Registration(DB_VERSION_ERROR, DatabaseVersionError),
    Registration(DB_PLATFORM_ERROR, DatabasePlatformError),
    Registration(DB_MODE_ERROR, DatabaseModeError),
    Registration(BAD_ALIGN, BadAlignError),
    Registration(BAD_ALLOC, BadAllocationError),
    Registration(SCRATCH_IN_USE, ScratchInUseError),
    Registration(ARCH_ERROR, ArchitectureError),
    Registration(INSUFFICIENT_SPACE, InsufficientSpaceError),
    Registration(UNKNOWN_ERROR, UnknownError),
    Registration(CH_FAIL_INTERNAL, InternalPCREError)
  ]

  predicate InTable(regs: seq<Registration>) {
    forall k :: 0 <= k < |regs| ==> Abs(regs[k].code) < TABLE_SLOTS
  }

  /** No two registrations share a slot. */
  predicate DistinctSlots(regs: seq<Registration>) {
    forall j, k :: 0 <= j < k < |regs| ==> Abs(regs[j].code) != Abs(regs[k].code)
  }

  /** The table after making `regs` in order, starting from all-NULL. */
  function BuildTable(regs: seq<Registration>): (t: seq<Option<ErrorClass>>)
    requires InTable(regs)
    ensures |t| == TABLE_SLOTS
  {
    if |regs| == 0 then seq(TABLE_SLOTS, _ => None)
    else
      var last := regs[|regs| - 1];
      BuildTable(regs[..|regs| - 1])[Abs(last.code) := Some(last.cls)]
  }

  /**
   * With distinct slots, a slot holds a class exactly when some
   * registration targets it, and then it holds that registration's class.
   */
  lemma {:induction false} BuildTableSlot(regs: seq<Registration>, slot: nat)
    requires InTable(regs) && DistinctSlots(regs)
    requires slot < TABLE_SLOTS
    ensures BuildTable(regs)[slot].Some? <==> exists k :: 0 <= k < |regs| && Abs(regs[k].code) == slot
    ensures forall k :: 0 <= k < |regs| && Abs(regs[k].code) == slot ==>
      BuildTable(regs)[slot] == Some(regs[k].cls)
  {
    if |regs| > 0 {
      var init := regs[..|regs| - 1];
      assert InTable(init) && DistinctSlots(init);
      BuildTableSlot(init, slot);
      var last := regs[|regs| - 1];
      if Abs(last.code) == slot {
        assert BuildTable(regs)[slot] == Some(last.cls);
      } else {
        assert BuildTable(regs)[slot] == BuildTable(init)[slot];
        forall k | 0 <= k < |init| && Abs(init[k].code) == slot
          ensures BuildTable(regs)[slot] == Some(regs[k].cls)
        {
          assert regs[k] == init[k];
        }
        if exists k :: 0 <= k < |regs| && Abs(regs[k].code) == slot {
          var k :| 0 <= k < |regs| && Abs(regs[k].code) == slot;
          assert k < |init| && init[k] == regs[k];
        }
      }
    }
  }

  /** `HyperscanErrors` once the module is imported. */
  function ErrorTable(): (t: seq<Option<ErrorClass>>)
    ensures |t| == TABLE_SLOTS
  {
    BuildTable(Registrations)
  }

  /** The registration targeting a slot, if any. */
  function RegisteredAt(slot: nat): Option<ErrorClass> {
    if slot == 1 then Some(InvalidError)
    else if slot == 2 then Some(NoMemoryError)
    else if slot == 3 then Some(ScanTerminated)
    else if slot == 4 then Some(CompilerError)
    else if slot == 5 then Some(DatabaseVersionError)
    else if slot == 6 then Some(DatabasePlatformError)
    else if slot == 7 then Some(DatabaseModeError)
    else if slot == 8 then Some(BadAlignError)
    else if slot == 9 then Some(BadAllocationError)
    else if slot == 10 then Some(ScratchInUseError)
    else if slot == 11 then Some(ArchitectureError)
    else if slot == 12 then Some(InsufficientSpaceError)
    else if slot == 13 then Some(UnknownError)
    else if slot == 32 then Some(InternalPCREError)
    else None
  }

  /**
   * The table built from the registration sequence holds, at every slot,
   * exactly the class the slot-by-slot description names: slots 1-13 and
   * 32 are filled, slot 0 and slots 14-31 stay NULL.
   */
  lemma ErrorTableContents(slot: nat)
    requires slot < TABLE_SLOTS
    ensures ErrorTable()[slot] == RegisteredAt(slot)
  {
    var regs := Registrations;
    assert InTable(regs);
    assert DistinctSlots(regs);
    BuildTableSlot(regs, slot);
    if RegisteredAt(slot).Some? {
      var k := if slot == 3 then 3 else if slot == 4 then 2 else if slot == 32 then 13 else slot - 1;
      assert Abs(regs[k].code) == slot && regs[k].cls == RegisteredAt(slot).value;
    } else {
      assert forall k :: 0 <= k < |regs| ==> Abs(regs[k].code) != slot;
    }
  }

  /**
   * HANDLE_HYPERSCAN_ERR / HANDLE_CHIMERA_ERR for a failing status: the
   * class in slot |code| with the text "error code N"; a NULL slot, or an
   * index past the table, is undefined behaviour.
   */
  function EngineFailure(code: ErrorCode): (f: Failure)
    ensures f.Raise? <==> Abs(code) < TABLE_SLOTS && RegisteredAt(Abs(code)).Some?
    ensures f.Raise? ==> f.exc == EngineExc(RegisteredAt(Abs(code)).value, CodeMsg(code))
    ensures Abs(code) >= TABLE_SLOTS ==> f == Crash(ErrorSlotOutOfRange(Abs(code)))
  {
    var slot := Abs(code);
    if slot >= TABLE_SLOTS then Crash(ErrorSlotOutOfRange(slot))
    else
      ErrorTableContents(slot);
      match ErrorTable()[slot]
      case Some(cls) => Raise(EngineExc(cls, CodeMsg(code)))
      case None => Crash(UnregisteredErrorSlot(slot))
  }

  /** The legacy HANDLE_HYPERSCAN_ERR: one class for every failure. */
  function LegacyEngineFailure(code: ErrorCode): (f: Failure)
    ensures f.Raise? && f.exc.EngineExc?
    ensures f.exc.cls == HyperscanError && f.exc.detail == CodeMsg(code)
  {
    Raise(EngineExc(HyperscanError, CodeMsg(code)))
  }

  /** A status checked with the current HANDLE_*_ERR: SUCCESS passes, anything else fails. */
  function Check(status: int): (r: Outcome<()>)
    ensures r.Ok? <==> status == SUCCESS
    ensures status != SUCCESS ==> r == Fail(EngineFailure(status))
  {
    if status == SUCCESS then Ok(()) else Fail(EngineFailure(status))
  }

  /** A status checked with the legacy HANDLE_HYPERSCAN_ERR. */
  function LegacyCheck(status: int): (r: Outcome<()>)
    ensures r.Ok? <==> status == SUCCESS
    ensures status != SUCCESS ==> r == Fail(LegacyEngineFailure(status))
  {
    if status == SUCCESS then Ok(()) else Fail(LegacyEngineFailure(status))
  }

  /** Every status code the two engines define is raised as a Python exception, never a crash. */
  lemma DefinedCodesRaise(code: ErrorCode)
    requires UNKNOWN_ERROR <= code <= INVALID || code == CH_FAIL_INTERNAL
    ensures EngineFailure(code).Raise?
  {
  }

  /** A termination status raises ScanTerminated in the current module. */
  lemma TerminationRaisesScanTerminated()
    ensures EngineFailure(SCAN_TERMINATED) == Raise(EngineExc(ScanTerminated, CodeMsg(SCAN_TERMINATED)))
  {
  }

  /** A code in the gap between the two ranges lands on a NULL slot. */
  lemma GapCodesCrash(code: ErrorCode)
    requires 14 <= Abs(code) <= 31
    ensures EngineFailure(code) == Crash(UnregisteredErrorSlot(Abs(code)))
  {
  }
}
