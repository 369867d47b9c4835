/** Loading and unloading: the dispatch table and the registration of the five callbacks. */
module Lifecycle {
  import opened Wire
  import opened Protocol

  // ---------------------------------------------------------------- dispatch table

  datatype Handler = Unset | Invalid | CreateClose | CleanupHandler | DeviceControl

  const IRP_MJ_CREATE: nat := 0x00
  const IRP_MJ_CLOSE: nat := 0x02
  const IRP_MJ_DEVICE_CONTROL: nat := 0x0e
  const IRP_MJ_CLEANUP: nat := 0x12
  const IRP_MJ_MAXIMUM_FUNCTION: nat := 0x1b

  function HandlerFor(i: nat): Handler {
    if i == IRP_MJ_CREATE || i == IRP_MJ_CLOSE then CreateClose
    else if i == IRP_MJ_CLEANUP then CleanupHandler
    else if i == IRP_MJ_DEVICE_CONTROL then DeviceControl
    else Invalid
  }

  /** The first part of `driver_entry`: no slot is left without a handler. */
  method WireDispatch(mj: array<Handler>)
    requires mj.Length == IRP_MJ_MAXIMUM_FUNCTION + 1
    modifies mj
    ensures mj[0x00] == CreateClose && mj[0x02] == CreateClose && mj[0x12] == CleanupHandler && mj[0x0e] == DeviceControl
    ensures forall i :: 0 <= i < mj.Length && i != 0x00 && i != 0x02 && i != 0x12 && i != 0x0e ==> mj[i] == Invalid
    ensures forall i :: 0 <= i < mj.Length ==> mj[i] == HandlerFor(i) && mj[i] != Unset
  {
    for i := 0 to IRP_MJ_MAXIMUM_FUNCTION + 1
      invariant forall j :: 0 <= j < i ==> mj[j] == Invalid
    {
      mj[i] := Invalid;
    }
    mj[IRP_MJ_CREATE] := CreateClose;
    mj[IRP_MJ_CLOSE] := CreateClose;
    mj[IRP_MJ_CLEANUP] := CleanupHandler;
    mj[IRP_MJ_DEVICE_CONTROL] := DeviceControl;
  }

  /** `ctl_code(FILE_DEVICE_UNKNOWN, 0x800, METHOD_BUFFERED, FILE_READ_ACCESS)`. */
  const IOCTL_WEDR_GET_EVENT: u32 := 0x22 * 0x1_0000 + 1 * 0x4000 + 0x800 * 4 + 0

  /** What the handler of an IRP makes of it: the requests of the protocol. */
  function RequestOf(handler: Handler, ioctl: u32, outlen: nat): Request {
    match handler
    case CreateClose => OpenClose
    case CleanupHandler => Cleanup
    case DeviceControl => if ioctl == IOCTL_WEDR_GET_EVENT then GetEvent(outlen) else Foreign
    case _ => Foreign
  }

  /** Opening, closing, cleanup and device control reach the routines that model them, and only the one I/O
      control code asks for an event. */
  lemma RoutedRequests(major: nat, ioctl: u32, outlen: nat)
    requires major <= IRP_MJ_MAXIMUM_FUNCTION
    ensures RequestOf(HandlerFor(major), ioctl, outlen) ==
            if major == 0x0e && ioctl == 0x22_6000 then GetEvent(outlen)
            else if major == 0x12 then Cleanup
            else if major == 0x00 || major == 0x02 then OpenClose
            else Foreign
  {
  }

  // ---------------------------------------------------------------- callbacks

  /** What identifies a registration to the kernel when it is removed. */
  datatype Token = ProcessRoutine | ImageRoutine | RegistryCookie(cookie: i64) | ThreadRoutine | ObjectHandle(handle: nat)

  function TokenClass(k: Token): Class {
    match k
    case ProcessRoutine => Process
    case ImageRoutine => Image
    case RegistryCookie(_) => Registry
    case ThreadRoutine => Thread
    case ObjectHandle(_) => Object
  }

  /** What the kernel answers during `driver_entry`. Handle 0 is the null pointer. */
  datatype Answers = Answers(
    device: bool, symlink: bool, process: bool, image: bool, registry: bool, cookie: i64, thread: bool,
    objectCb: bool, handle: nat)

  function Listed(k: Token, present: bool): seq<Token> { if present then [k] else [] }

  /** The registrations the kernel accepted, in order. */
  function Accepted(r: Answers): seq<Token> {
    if !r.device || !r.symlink then []
    else Listed(ProcessRoutine, r.process) + Listed(ImageRoutine, r.image) + Listed(RegistryCookie(r.cookie), r.registry)
         + Listed(ThreadRoutine, r.thread) + Listed(ObjectHandle(r.handle), r.objectCb)
  }

  /** The registration flags, the stored cookie and the stored handle. */
  datatype Flags = Flags(process: bool, image: bool, registry: bool, cookie: i64, thread: bool, handle: nat)

  const UNREGISTERED := Flags(false, false, false, 0, false, 0)

  /** What `driver_unload` removes, in order. */
  function Removals(f: Flags): seq<Token> {
    Listed(ObjectHandle(f.handle), f.handle != 0) + Listed(ThreadRoutine, f.thread)
    + Listed(RegistryCookie(f.cookie), f.registry) + Listed(ImageRoutine, f.image) + Listed(ProcessRoutine, f.process)
  }

  function FlagsAfter(r: Answers): Flags {
    if !r.device || !r.symlink then UNREGISTERED
    else Flags(r.process, r.image, r.registry, if r.registry then r.cookie else 0, r.thread, if r.objectCb then r.handle else 0)
  }

  class Driver {
    var f: Flags
    /** Registrations accepted and removals requested so far, in order. */
    var accepted: seq<Token>
    var removed: seq<Token>

    constructor ()
      ensures f == UNREGISTERED && accepted == [] && removed == []
    {
      f, accepted, removed := UNREGISTERED, [], [];
    }

    /** Record what the kernel answered to one registration. */
    method Register(k: Token, ok: bool) returns (failures: nat)
      modifies this`accepted
      ensures accepted == old(accepted) + Listed(k, ok) && failures + |Listed(k, ok)| == 1
    {
      if ok { accepted := accepted + [k]; }
      failures := if ok then 0 else 1;
    }

    /** Remove one registration if its flag, already swapped to false, was set. */
    method Remove(k: Token, was: bool)
      modifies this`removed
      ensures removed == old(removed) + Listed(k, was)
    {
      if was { removed := removed + [k]; }
    }

    /** The registrations of `driver_entry`: device and symlink are required, each callback may fail. */
    method DriverEntry(r: Answers) returns (success: bool, failed: nat)
      requires f == UNREGISTERED
      modifies this
      ensures success <==> r.device && r.symlink
      ensures f == FlagsAfter(r) && accepted == old(accepted) + Accepted(r) && removed == old(removed)
      ensures success ==> failed + |Accepted(r)| == CLASSES
    {
      hide Listed;
      failed := 0;
      if !r.device { return false, 0; }
      if !r.symlink { return false, 0; }
      var n := Register(ProcessRoutine, r.process);
      if r.process { f := f.(process := true); }
      failed := failed + n;
      n := Register(ImageRoutine, r.image);
      if r.image { f := f.(image := true); }
      failed := failed + n;
      n := Register(RegistryCookie(r.cookie), r.registry);
      if r.registry { f := f.(cookie := r.cookie).(registry := true); }
      failed := failed + n;
      n := Register(ThreadRoutine, r.thread);
      if r.thread { f := f.(thread := true); }
      failed := failed + n;
      n := Register(ObjectHandle(r.handle), r.objectCb);
      if r.objectCb { f := f.(handle := r.handle); }
      failed := failed + n;
      success := true;
      Regroup(old(accepted), Listed(ProcessRoutine, r.process), Listed(ImageRoutine, r.image),
              Listed(RegistryCookie(r.cookie), r.registry), Listed(ThreadRoutine, r.thread), Listed(ObjectHandle(r.handle), r.objectCb));
    }

    /** The removals of `driver_unload`: each flag is swapped to false before its callback is removed, so a
        second call removes nothing. */
    method DriverUnload()
      modifies this
      ensures removed == old(removed) + Removals(old(f)) && accepted == old(accepted)
      ensures Removals(f) == []
    {
      NothingListed();
      hide Listed;
      var handle := f.handle;
      f := f.(handle := 0);
      Remove(ObjectHandle(handle), handle != 0);
      var thread := f.thread;
      f := f.(thread := false);
      Remove(ThreadRoutine, thread);
      var registry := f.registry;
      f := f.(registry := false);
      Remove(RegistryCookie(f.cookie), registry);
      var image := f.image;
      f := f.(image := false);
      Remove(ImageRoutine, image);
      var process := f.process;
      f := f.(process := false);
      Remove(ProcessRoutine, process);
      ghost var f0 := old(f);
      Regroup(old(removed), Listed(ObjectHandle(f0.handle), f0.handle != 0), Listed(ThreadRoutine, f0.thread),
              Listed(RegistryCookie(f0.cookie), f0.registry), Listed(ImageRoutine, f0.image), Listed(ProcessRoutine, f0.process));
    }
  }

  lemma Regroup(p: seq<Token>, a: seq<Token>, b: seq<Token>, c: seq<Token>, d: seq<Token>, e: seq<Token>)
    ensures p + a + b + c + d + e == p + (a + b + c + d + e)
  {
  }

  lemma NothingListed()
    ensures forall k :: Listed(k, false) == []
  {
  }

  /** How often a token occurs among five optional ones. */
  lemma Occurrences(x: Token, a: Token, pa: bool, b: Token, pb: bool, c: Token, pc: bool, d: Token, pd: bool, e: Token, pe: bool)
    requires a != b && a != c && a != d && a != e && b != c && b != d && b != e && c != d && c != e && d != e
    ensures multiset(Listed(a, pa) + Listed(b, pb) + Listed(c, pc) + Listed(d, pd) + Listed(e, pe))[x]
            == if (x == a && pa) || (x == b && pb) || (x == c && pc) || (x == d && pd) || (x == e && pe) then 1 else 0
  {
    Once(x, a, pa);
    Once(x, b, pb);
    Once(x, c, pc);
    Once(x, d, pd);
    Once(x, e, pe);
    hide Listed;
  }

  lemma Once(x: Token, k: Token, present: bool)
    ensures multiset(Listed(k, present))[x] == if x == k && present then 1 else 0
  {
  }

  lemma AcceptedOnce(r: Answers, x: Token)
    requires r.device && r.symlink
    ensures multiset(Accepted(r))[x] ==
            if (x == ProcessRoutine && r.process) || (x == ImageRoutine && r.image) || (x == RegistryCookie(r.cookie) && r.registry)
               || (x == ThreadRoutine && r.thread) || (x == ObjectHandle(r.handle) && r.objectCb) then 1 else 0
  {
    hide Listed;
    Occurrences(x, ProcessRoutine, r.process, ImageRoutine, r.image, RegistryCookie(r.cookie), r.registry,
                ThreadRoutine, r.thread, ObjectHandle(r.handle), r.objectCb);
  }

  lemma RemovedOnce(f: Flags, x: Token)
    ensures multiset(Removals(f))[x] ==
            if (x == ProcessRoutine && f.process) || (x == ImageRoutine && f.image) || (x == RegistryCookie(f.cookie) && f.registry)
               || (x == ThreadRoutine && f.thread) || (x == ObjectHandle(f.handle) && f.handle != 0) then 1 else 0
  {
    hide Listed;
    Occurrences(x, ObjectHandle(f.handle), f.handle != 0, ThreadRoutine, f.thread, RegistryCookie(f.cookie), f.registry,
                ImageRoutine, f.image, ProcessRoutine, f.process);
  }

  /** Unloading removes every accepted registration exactly once, with its own cookie or handle, and
      nothing else, if and only if the object manager did not accept with a null handle: the stored null
      reads as "never registered". */
  lemma RemovedExactlyIff(r: Answers)
    ensures (forall x :: multiset(Removals(FlagsAfter(r)))[x] == multiset(Accepted(r))[x])
            <==> !(r.device && r.symlink && r.objectCb && r.handle == 0)
  {
    hide Removals, Accepted, FlagsAfter;
    if r.device && r.symlink && r.objectCb && r.handle == 0 {
      NullHandleStays(r);
    } else {
      forall x ensures multiset(Removals(FlagsAfter(r)))[x] == multiset(Accepted(r))[x] { SameCount(r, x); }
    }
  }

  lemma SameCount(r: Answers, x: Token)
    requires !(r.device && r.symlink && r.objectCb && r.handle == 0)
    ensures multiset(Removals(FlagsAfter(r)))[x] == multiset(Accepted(r))[x]
  {
    RemovedOnce(FlagsAfter(r), x) by { hide *; }
    if r.device && r.symlink {
      AcceptedOnce(r, x) by { hide *; }
      hide Removals, Accepted;
    } else {
      hide Removals;
    }
  }

  lemma NullHandleStays(r: Answers)
    requires r.device && r.symlink && r.objectCb && r.handle == 0
    ensures multiset(Removals(FlagsAfter(r)))[ObjectHandle(0)] != multiset(Accepted(r))[ObjectHandle(0)]
  {
    AcceptedOnce(r, ObjectHandle(0)) by { hide *; }
    RemovedOnce(FlagsAfter(r), ObjectHandle(0)) by { hide *; }
    hide Removals, Accepted;
  }
}
