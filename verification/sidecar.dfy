/** The example module of examples/sidecar.rs: the `sidecar on|off` directive, the
    location-configuration merge, the request handler and the registration of that
    handler in the precontent phase. */
module Sidecar {
  import Spawn
  import opened Wrappers

  /** A byte of an `ngx_str_t`. */
  type byte = b: int | 0 <= b < 256

  // ---------------------------------------------------------------------------
  // UTF-8 well-formedness, as `str::from_utf8` checks it (Unicode, Table 3-7)

  predicate InRange(b: byte, lo: byte, hi: byte) {
    lo <= b <= hi
  }

  /** The length of the well-formed UTF-8 sequence at the start of `s`, or 0 when
      `s` does not start with one. */
  function SequenceWidth(s: seq<byte>): (w: nat)
    ensures w <= |s| && (w == 0 || 1 <= w <= 4)
  {
    if s == [] then 0
    else if s[0] <= 0x7F then 1
    else if |s| >= 2 && InRange(s[0], 0xC2, 0xDF) && InRange(s[1], 0x80, 0xBF) then 2
    else if |s| >= 3 && (
         (s[0] == 0xE0 && InRange(s[1], 0xA0, 0xBF))
      || (InRange(s[0], 0xE1, 0xEC) && InRange(s[1], 0x80, 0xBF))
      || (s[0] == 0xED && InRange(s[1], 0x80, 0x9F))
      || (InRange(s[0], 0xEE, 0xEF) && InRange(s[1], 0x80, 0xBF)))
      && InRange(s[2], 0x80, 0xBF) then 3
    else if |s| >= 4 && (
         (s[0] == 0xF0 && InRange(s[1], 0x90, 0xBF))
      || (InRange(s[0], 0xF1, 0xF3) && InRange(s[1], 0x80, 0xBF))
      || (s[0] == 0xF4 && InRange(s[1], 0x80, 0x8F)))
      && InRange(s[2], 0x80, 0xBF) && InRange(s[3], 0x80, 0xBF) then 4
    else 0
  }

  /** `s` is a concatenation of well-formed UTF-8 sequences. */
  predicate IsUtf8(s: seq<byte>)
    decreases |s|
  {
    s == [] || (SequenceWidth(s) > 0 && IsUtf8(s[SequenceWidth(s)..]))
  }

  predicate IsAscii(s: seq<byte>) {
    forall i :: 0 <= i < |s| ==> s[i] <= 0x7F
  }

  /** Every ASCII string is UTF-8. */
  lemma {:induction false} AsciiIsUtf8(s: seq<byte>)
    requires IsAscii(s)
    ensures IsUtf8(s)
    decreases |s|
  {
    if s != [] {
      assert SequenceWidth(s) == 1;
      AsciiIsUtf8(s[1..]);
    }
  }

  // ---------------------------------------------------------------------------
  // ASCII case-insensitive comparison

  /** `u8::to_ascii_lowercase`. */
  function AsciiLower(b: byte): byte {
    if 'A' as int <= b <= 'Z' as int then b + 32 else b
  }

  /** `eq_ignore_ascii_case`: the same length, and byte by byte the same after
      ASCII lower-casing. */
  predicate EqIgnoreAsciiCase(a: seq<byte>, b: seq<byte>) {
    |a| == |b| && forall i :: 0 <= i < |a| ==> AsciiLower(a[i]) == AsciiLower(b[i])
  }

  /** "on" and "off" as bytes. */
  const OnWord: seq<byte> := [0x6F, 0x6E]
  const OffWord: seq<byte> := [0x6F, 0x66, 0x66]

  /** A byte that lower-cases to an ASCII lower-case letter is that letter in one of
      its two cases. */
  lemma LowerIsLetter(b: byte, c: char)
    requires 'a' <= c <= 'z' && AsciiLower(b) == c as int
    ensures b == c as int || b == c as int - 32
  {
  }

  // ---------------------------------------------------------------------------
  // The `sidecar` directive

  /** How `set_enable` reads its argument. */
  datatype Switch = NotUtf8 | On | Off | Unrecognized

  function ParseSwitch(arg: seq<byte>): Switch {
    if !IsUtf8(arg) then NotUtf8
    else if EqIgnoreAsciiCase(arg, OnWord) then On
    else if EqIgnoreAsciiCase(arg, OffWord) then Off
    else Unrecognized
  }

  /** The four spellings of "on": o or O, then n or N. */
  const OnSpelled: set<seq<byte>> := {[0x6F, 0x6E], [0x6F, 0x4E], [0x4F, 0x6E], [0x4F, 0x4E]}

  /** The eight spellings of "off". */
  const OffSpelled: set<seq<byte>> :=
    {[0x6F, 0x66, 0x66], [0x6F, 0x66, 0x46], [0x6F, 0x46, 0x66], [0x6F, 0x46, 0x46],
     [0x4F, 0x66, 0x66], [0x4F, 0x66, 0x46], [0x4F, 0x46, 0x66], [0x4F, 0x46, 0x46]}

  /** The arguments read as `on` are exactly the four spellings of "on". */
  lemma {:induction false} OnSpellings(arg: seq<byte>)
    ensures ParseSwitch(arg) == On <==> arg in OnSpelled
  {
    if ParseSwitch(arg) == On {
      assert |arg| == 2;
      LowerIsLetter(arg[0], 'o');
      LowerIsLetter(arg[1], 'n');
      assert arg == [arg[0], arg[1]];
    }
    if arg in OnSpelled {
      AsciiIsUtf8(arg);
      assert EqIgnoreAsciiCase(arg, OnWord);
    }
  }

  /** The arguments read as `off` are exactly the eight spellings of "off". */
  lemma {:induction false} OffSpellings(arg: seq<byte>)
    ensures ParseSwitch(arg) == Off <==> arg in OffSpelled
  {
    if ParseSwitch(arg) == Off {
      assert |arg| == 3;
      LowerIsLetter(arg[0], 'o');
      LowerIsLetter(arg[1], 'f');
      LowerIsLetter(arg[2], 'f');
      assert arg == [arg[0], arg[1], arg[2]];
    }
    if arg in OffSpelled {
      AsciiIsUtf8(arg);
      assert |arg| == 3 && !EqIgnoreAsciiCase(arg, OnWord);
      assert EqIgnoreAsciiCase(arg, OffWord);
    }
  }

  datatype ConfResult = ConfOk | ConfError

  /** The value `enable` holds after the directive. */
  function SwitchedTo(enable: Option<bool>, sw: Switch): (r: Option<bool>)
    ensures sw == On ==> r == Some(true)
    ensures sw == Off ==> r == Some(false)
    ensures sw == NotUtf8 || sw == Unrecognized ==> r == enable
  {
    match sw
    case On => Some(true)
    case Off => Some(false)
    case _ => enable
  }

  /** `Merge for ModuleConfig`: a child that is unset inherits the parent's value. */
  function Merged(child: Option<bool>, parent: Option<bool>): (r: Option<bool>)
    ensures child.Some? ==> r == child
    ensures child.None? ==> r == parent
  {
    if child.None? then parent else child
  }

  /** Merging again with the same parent changes nothing. */
  lemma MergeIdempotent(child: Option<bool>, parent: Option<bool>)
    ensures Merged(Merged(child, parent), parent) == Merged(child, parent)
  {
  }

  /** Merging down a chain of levels: the nearest level that is set wins. */
  lemma MergeNearestWins(own: Option<bool>, mid: Option<bool>, top: Option<bool>)
    ensures Merged(own, Merged(mid, top)) == Merged(Merged(own, mid), top)
  {
  }

  datatype MergeResult = MergeOk

  /** `ModuleConfig`, the location configuration. */
  class ModuleConfig {
    var enable: Option<bool>

    /** `ModuleConfig::default()`. */
    constructor ()
      ensures enable == None
    {
      enable := None;
    }

    /** `set_enable` with the directive's argument `arg` (`args[1]`). */
    method SetEnable(arg: seq<byte>) returns (rc: ConfResult)
      modifies this
      ensures rc == ConfError <==> !IsUtf8(arg)
      ensures enable == SwitchedTo(old(enable), ParseSwitch(arg))
    {
      if !IsUtf8(arg) {
        return ConfError;
      }
      if EqIgnoreAsciiCase(arg, OnWord) {
        enable := Some(true);
      } else if EqIgnoreAsciiCase(arg, OffWord) {
        enable := Some(false);
      }
      rc := ConfOk;
    }

    /** `merge(&mut self, prev)`. */
    method Merge(prev: ModuleConfig) returns (r: MergeResult)
      modifies this
      ensures r == MergeOk
      ensures enable == Merged(old(enable), old(prev.enable))
    {
      if enable.None? {
        enable := prev.enable;
      }
      r := MergeOk;
    }
  }

  // ---------------------------------------------------------------------------
  // The request handler and its registration

  /** The nginx status codes the module returns. */
  datatype Status = Ok | Error | Again | Declined {
    function Code(): int {
      match this
      case Ok => 0
      case Error => -1
      case Again => -2
      case Declined => -5
    }
  }

  /** `enable.unwrap_or(false)`. */
  function Enabled(enable: Option<bool>): (on: bool)
    ensures on <==> enable == Some(true)
  {
    match enable
    case Some(b) => b
    case None => false
  }

  /** What the handler returns, given the configuration and whether allocating the
      request context from the pool failed. */
  function HandlerStatus(enable: Option<bool>, allocFails: bool): Status {
    if !Enabled(enable) then Declined
    else if allocFails then Error
    else Again
  }

  /** The handler takes the request (and spawns) exactly when the module is switched
      on and the context could be allocated; it declines whenever the module is not
      switched on, whatever the allocator does. */
  lemma HandlerDecision(enable: Option<bool>, allocFails: bool)
    ensures HandlerStatus(enable, allocFails) == Again <==> enable == Some(true) && !allocFails
    ensures HandlerStatus(enable, allocFails) == Declined <==> enable != Some(true)
    ensures HandlerStatus(enable, allocFails) == Error <==> enable == Some(true) && allocFails
  {
  }

  /** `RequestCTX`, the per-request module context. */
  class RequestCtx {
    var task: Option<Spawn.TaskId>

    constructor ()
      ensures task == None
    {
      task := None;
    }
  }

  /** The request, reduced to its module-context slot for this module. */
  class Request {
    var ctx: RequestCtx?
  }

  /** The handler, run on thread `tid` for request `req` under location
      configuration `co`; `allocFails` is the outcome of the pool allocation. The
      spawned future never wakes itself before it completes. */
  method Handler(sched: Spawn.Scheduler, tid: int, req: Request, co: ModuleConfig, allocFails: bool)
    returns (st: Status)
    requires sched.Valid()
    modifies sched, req
    ensures sched.Valid()
    ensures st == HandlerStatus(old(co.enable), allocFails)
    ensures st != Again ==> sched.State() == old(sched.State()) && req.ctx == old(req.ctx)
    ensures st == Again ==>
      && req.ctx != null && fresh(req.ctx)
      && req.ctx.task == Some(|old(sched.selfWakes)|)
      && sched.State() == Spawn.Spawned(old(sched.State()), tid, 0)
  {
    if !Enabled(co.enable) {
      return Declined;
    }
    if allocFails {
      return Error;
    }
    var ctx := new RequestCtx();
    req.ctx := ctx;
    var task := sched.Spawn(tid, 0);
    ctx.task := Some(task);
    st := Again;
  }

  /** An entry of the precontent phase's handler array. `Unset` is a slot just
      pushed and not yet written. */
  datatype PhaseHandler = Unset | SidecarHandler | OtherHandler(id: nat)

  /** `cmcf.phases[NGX_HTTP_PRECONTENT_PHASE].handlers`. */
  class PhaseHandlers {
    var handlers: seq<PhaseHandler>

    /** `ngx_array_push`: a new slot at the end, or null when allocation fails. */
    method Push(allocFails: bool) returns (slot: Option<nat>)
      modifies this
      ensures allocFails ==> slot == None && handlers == old(handlers)
      ensures !allocFails ==> slot == Some(|old(handlers)|) && handlers == old(handlers) + [Unset]
    {
      if allocFails {
        return None;
      }
      slot := Some(|handlers|);
      handlers := handlers + [Unset];
    }
  }

  /** `postconfiguration`: register the handler in the precontent phase, returning
      the `ngx_int_t` of the status. */
  method PostConfiguration(phase: PhaseHandlers, allocFails: bool) returns (rc: int)
    modifies phase
    ensures allocFails ==> rc == Error.Code() && phase.handlers == old(phase.handlers)
    ensures !allocFails ==> rc == Ok.Code() && phase.handlers == old(phase.handlers) + [SidecarHandler]
  {
    var h := phase.Push(allocFails);
    if h.None? {
      return Error.Code();
    }
    phase.handlers := phase.handlers[h.value := SidecarHandler];
    rc := Ok.Code();
  }
}
