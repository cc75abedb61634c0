/**
 * `changeResolutionWithIWindowManager`: try a fixed, ordered chain of ways to
 * force the display size and stop at the first that works.
 *
 * Every reflective call and every process launch is a foreign call, so its
 * outcome is an input here: `WindowManager` says which reflective calls would
 * go through and `Shell` says how each `wm size` process would end.
 */
module Dispatcher {
  import opened Wrappers
  import opened KotlinText
  import opened ResolutionType

  /** How a launched process ended: its exit code, or an exception from `exec`, `waitFor` or reading its output. */
  datatype Exec = Exited(code: int) | Threw

  /** A public method found on the window-manager object, and whether invoking it would return normally. */
  datatype ReflectedMethod = ReflectedMethod(name: string, parameterCount: nat, invokes: bool)

  /** `windowManager.javaClass.methods`: the method table, or the exception reading it raised. */
  datatype MethodListing = Listed(methods: seq<ReflectedMethod>) | ListingThrew(error: string)

  /**
   * A non-null window-manager object, seen through the outcomes of the
   * reflective calls made on it. Methods 1 and 2 both look up
   * `setForcedDisplaySize(int, int, int)` (`Int::class.java` is the primitive
   * `int` class, like `Int::class.javaPrimitiveType`), so they share one lookup
   * outcome and differ only in the outcome of their own `invoke`.
   */
  datatype WindowManager = WindowManager(
    forcedSizeFound: bool,      // getMethod("setForcedDisplaySize", int, int, int) returns a method
    firstInvoke: bool,          // Method 1's invoke of it returns normally
    retryInvoke: bool,          // Method 2's invoke of it returns normally
    listing: MethodListing)

  /** Outcomes of `sh -c "wm size WxH"`, `wm size WxH` and `su -c "wm size WxH"`. */
  datatype Shell = Shell(sh: Exec, direct: Exec, root: Exec)

  /** The mechanisms of the chain, in the order the source tries them. */
  datatype Mechanism =
    | ForcedSize
    | ForcedSizeRetry
    | OverrideDisplayInfo
    | DisplayOverrideConfiguration
    | Scanned(name: string)
    | ShellWm
    | DirectWm
    | RootWm

  datatype Attempt = Attempt(mechanism: Mechanism, succeeded: bool)

  /** The `Pair<Boolean, String>` the function returns. */
  datatype Report = Report(success: bool, message: string)

  const NotAvailable := "IWindowManager not available"
  const AllFailed := "All IWindowManager methods failed. This may require system-level permissions, rooted device, or the device doesn't support forced display size changes."
  const ErrorPrefix := "Error using IWindowManager: "
  const ChangedPrefix := "Resolution changed to "

  /** The two probes look a method up, log, and go on: they have no way to succeed. */
  predicate IsProbe(m: Mechanism) { m.OverrideDisplayInfo? || m.DisplayOverrideConfiguration? }

  /** `WxH` of the requested size, as the messages embed it. */
  function Dimensions(width: Int32, height: Int32): string
  {
    Resolution(width, height).ToString()
  }

  function SuccessMessage(m: Mechanism, width: Int32, height: Int32): (s: string)
    requires !IsProbe(m)
  {
    ChangedPrefix + Dimensions(width, height) + " using " +
      match m
      case ForcedSize => "IWindowManager"
      case ForcedSizeRetry => "alternative IWindowManager method"
      case Scanned(name) => name
      case ShellWm => "shell command"
      case DirectWm => "direct wm command"
      case RootWm => "root shell command"
  }

  /** The name filter and arity test of the method scan. */
  predicate IsCandidate(m: ReflectedMethod)
  {
    && (Contains(m.name, "setDisplaySize") || Contains(m.name, "setForcedSize")
        || Contains(m.name, "setOverrideDisplayModeSize"))
    && m.parameterCount == 3
  }

  function ScanOne(m: ReflectedMethod): seq<Attempt>
  {
    if IsCandidate(m) then [Attempt(Scanned(m.name), m.invokes)] else []
  }

  /** The attempts of the method scan, in method-table order. */
  function ScanAttempts(methods: seq<ReflectedMethod>): seq<Attempt>
  {
    if |methods| == 0 then []
    else ScanAttempts(methods[..|methods| - 1]) + ScanOne(methods[|methods| - 1])
  }

  function ReflectionAttempts(wm: WindowManager): seq<Attempt>
  {
    [ Attempt(ForcedSize, wm.forcedSizeFound && wm.firstInvoke),
      Attempt(ForcedSizeRetry, wm.forcedSizeFound && wm.retryInvoke),
      Attempt(OverrideDisplayInfo, false),
      Attempt(DisplayOverrideConfiguration, false) ]
  }

  /** The direct `wm` command is in the chain only after `sh -c` exited with a non-zero code. */
  function ShellAttempts(shell: Shell): seq<Attempt>
  {
    [Attempt(ShellWm, shell.sh == Exited(0))]
    + (if shell.sh.Exited? && shell.sh.code != 0 then [Attempt(DirectWm, shell.direct == Exited(0))] else [])
    + [Attempt(RootWm, shell.root == Exited(0))]
  }

  /**
   * The whole chain for a non-null window manager. When reading the method
   * table throws, the outer handler ends the chain there.
   */
  function Attempts(wm: WindowManager, shell: Shell): seq<Attempt>
  {
    ReflectionAttempts(wm) + AfterReflection(wm, shell)
  }

  /** The attempts after the reflective stage: the scan and the shell, or nothing when the method table cannot be read. */
  function AfterReflection(wm: WindowManager, shell: Shell): seq<Attempt>
  {
    match wm.listing
    case Listed(methods) => ScanAttempts(methods) + ShellAttempts(shell)
    case ListingThrew(_) => []
  }

  /** Index of the first successful attempt, or the length when none succeeds. */
  function FirstSuccess(attempts: seq<Attempt>): (k: nat)
    ensures k <= |attempts|
    ensures forall i :: 0 <= i < k ==> !attempts[i].succeeded
    ensures k < |attempts| ==> attempts[k].succeeded
  {
    if |attempts| == 0 then 0
    else if attempts[0].succeeded then 0
    else 1 + FirstSuccess(attempts[1..])
  }

  lemma {:induction false} ScanAttemptsSplit(a: seq<ReflectedMethod>, b: seq<ReflectedMethod>)
    ensures ScanAttempts(a + b) == ScanAttempts(a) + ScanAttempts(b)
    decreases |b|
  {
    if |b| > 0 {
      var b' := b[..|b| - 1];
      assert (a + b)[..|a + b| - 1] == a + b';
      ScanAttemptsSplit(a, b');
    } else {
      assert a + b == a;
    }
  }

  /** The method scan only ever contributes `Scanned` attempts. */
  lemma {:induction false} ScanOnlyScanned(methods: seq<ReflectedMethod>)
    ensures forall a :: a in ScanAttempts(methods) ==> a.mechanism.Scanned?
  {
    if |methods| > 0 { ScanOnlyScanned(methods[..|methods| - 1]); }
  }

  /** Only the probes fail by construction; every attempt that succeeds is one that can. */
  lemma ProbesNeverSucceed(wm: WindowManager, shell: Shell)
    ensures forall a :: a in Attempts(wm, shell) && IsProbe(a.mechanism) ==> !a.succeeded
  {
    if wm.listing.Listed? { ScanOnlyScanned(wm.listing.methods); }
  }

  /** Method 2 repeats Method 1's lookup: when `setForcedDisplaySize(int, int, int)` is not found, neither of them succeeds. */
  lemma RetryRepeatsLookup(wm: WindowManager, shell: Shell)
    requires !wm.forcedSizeFound
    ensures forall a :: a in Attempts(wm, shell) && (a.mechanism.ForcedSize? || a.mechanism.ForcedSizeRetry?) ==> !a.succeeded
  {
    if wm.listing.Listed? { ScanOnlyScanned(wm.listing.methods); }
  }

  /** The mechanism of the first successful attempt, if any. */
  function Winner(attempts: seq<Attempt>): (w: Option<Mechanism>)
    ensures w.Some? <==> exists a :: a in attempts && a.succeeded
    ensures w.Some? ==> exists a :: a in attempts && a.succeeded && a.mechanism == w.value
    ensures w.Some? ==> exists k :: 0 <= k < |attempts| && attempts[k].succeeded && attempts[k].mechanism == w.value
                                   && forall j :: 0 <= j < k ==> !attempts[j].succeeded
  {
    var k := FirstSuccess(attempts);
    if k < |attempts| then Some(attempts[k].mechanism) else None
  }

  /** The attempts actually made: every attempt up to and including the first success. */
  function TriedOf(attempts: seq<Attempt>): (t: seq<Attempt>)
  {
    var k := FirstSuccess(attempts);
    if k < |attempts| then attempts[..k + 1] else attempts
  }

  lemma {:induction false} FirstSuccessConcat(a: seq<Attempt>, b: seq<Attempt>)
    ensures FirstSuccess(a + b) == if FirstSuccess(a) < |a| then FirstSuccess(a) else |a| + FirstSuccess(b)
  {
    var k := if FirstSuccess(a) < |a| then FirstSuccess(a) else |a| + FirstSuccess(b);
    FirstSuccessAt(a + b, k);
  }

  /** Running `a` and then `b` stops inside `a` when `a` has a success, and otherwise goes on into `b`. */
  lemma ChainConcat(a: seq<Attempt>, b: seq<Attempt>)
    ensures Winner(a + b) == if Winner(a).Some? then Winner(a) else Winner(b)
    ensures TriedOf(a + b) == if Winner(a).Some? then TriedOf(a) else a + TriedOf(b)
  {
    FirstSuccessConcat(a, b);
    var k := FirstSuccess(a);
    if k < |a| {
      assert (a + b)[..k + 1] == a[..k + 1];
    } else {
      var j := FirstSuccess(b);
      if j < |b| { assert (a + b)[..|a| + j + 1] == a + b[..j + 1]; }
    }
  }

  /** The attempts the call makes. */
  function Tried(wm: Option<WindowManager>, shell: Shell): (t: seq<Attempt>)
  {
    if wm.None? then [] else TriedOf(Attempts(wm.value, shell))
  }

  /** The pair the call returns. */
  function Dispatch(wm: Option<WindowManager>, shell: Shell, width: Int32, height: Int32): (r: Report)
  {
    if wm.None? then Report(false, NotAvailable)
    else
      match Winner(Attempts(wm.value, shell))
      case Some(m) =>
        ProbesNeverSucceed(wm.value, shell);
        Report(true, SuccessMessage(m, width, height))
      case None =>
        match wm.value.listing
        case Listed(_) => Report(false, AllFailed)
        case ListingThrew(e) => Report(false, ErrorPrefix + e)
  }

  /** The call reports success exactly when some mechanism of the chain succeeds. */
  lemma DispatchSucceedsIffSomeAttemptSucceeds(wm: Option<WindowManager>, shell: Shell, width: Int32, height: Int32)
    ensures Dispatch(wm, shell, width, height).success
      <==> wm.Some? && exists a :: a in Attempts(wm.value, shell) && a.succeeded
  {
  }

  /** Without a window manager the call fails at once and attempts nothing, not even the shell commands. */
  lemma NullWindowManagerAttemptsNothing(shell: Shell, width: Int32, height: Int32)
    ensures Dispatch(None, shell, width, height) == Report(false, NotAvailable)
    ensures Tried(None, shell) == []
  {
  }

  /** The failure messages: the all-failed text, or the outer handler's text when reading the method table threw. */
  lemma FailureMessages(wm: WindowManager, shell: Shell, width: Int32, height: Int32)
    ensures var r := Dispatch(Some(wm), shell, width, height);
      !r.success ==> r.message == match wm.listing
        case Listed(_) => AllFailed
        case ListingThrew(e) => ErrorPrefix + e
  {
  }

  /** Every success message names the requested size as `WxH`. */
  lemma SuccessMessageNamesSize(wm: Option<WindowManager>, shell: Shell, width: Int32, height: Int32)
    ensures var r := Dispatch(wm, shell, width, height);
      r.success ==> StartsWith(r.message, ChangedPrefix + Dimensions(width, height))
  {
    var r := Dispatch(wm, shell, width, height);
    if r.success {
      var m := Winner(Attempts(wm.value, shell)).value;
      ProbesNeverSucceed(wm.value, shell);
      var p := ChangedPrefix + Dimensions(width, height);
      assert r.message == p + (r.message[|p|..]);
    }
  }

  /**
   * The attempts made are a prefix of the chain in which only the last may
   * have succeeded; the call succeeds exactly when that last one did, and a
   * failing call has gone through the whole chain.
   */
  lemma FirstSuccessStopsChain(wm: WindowManager, shell: Shell, width: Int32, height: Int32)
    ensures var all := Attempts(wm, shell);
      var t := Tried(Some(wm), shell);
      var r := Dispatch(Some(wm), shell, width, height);
      && |t| <= |all| && t == all[..|t|]
      && (forall i :: 0 <= i < |t| - 1 ==> !t[i].succeeded)
      && (r.success <==> |t| > 0 && t[|t| - 1].succeeded)
      && (!r.success ==> t == all)
  {
    var all := Attempts(wm, shell);
    var k := FirstSuccess(all);
    if k == |all| { assert all[..|all|] == all; }
  }

  /** The attempts made are the chain cut after its first success. */
  lemma TriedIsPrefix(wm: WindowManager, shell: Shell)
    ensures var t := Tried(Some(wm), shell);
      && |t| <= |Attempts(wm, shell)| && t == Attempts(wm, shell)[..|t|]
      && (forall i :: 0 <= i < |t| - 1 ==> !t[i].succeeded)
      && (|t| < |Attempts(wm, shell)| ==> 0 < |t| && t[|t| - 1].succeeded)
  {
    var all := Attempts(wm, shell);
    if FirstSuccess(all) == |all| { assert all[..|all|] == all; }
  }

  /** No attempt the call makes through the two probes succeeds. */
  lemma ProbesOnlyLog(wm: WindowManager, shell: Shell)
    ensures forall a :: a in Tried(Some(wm), shell) && IsProbe(a.mechanism) ==> !a.succeeded
  {
    ProbesNeverSucceed(wm, shell);
    var all := Attempts(wm, shell);
    var t := Tried(Some(wm), shell);
    assert forall a :: a in t ==> a in all;
  }

  predicate IsShellMechanism(m: Mechanism) { m.ShellWm? || m.DirectWm? || m.RootWm? }

  /** Shell mechanisms only occur in the shell part at the end of the chain. */
  lemma ShellTail(wm: WindowManager, shell: Shell, i: nat)
    requires wm.listing.Listed?
    requires i < |Attempts(wm, shell)| && IsShellMechanism(Attempts(wm, shell)[i].mechanism)
    ensures var prefix := |ReflectionAttempts(wm)| + |ScanAttempts(wm.listing.methods)|;
      prefix <= i && Attempts(wm, shell)[i] == ShellAttempts(shell)[i - prefix]
  {
    var all := Attempts(wm, shell);
    var r, sc, sh := ReflectionAttempts(wm), ScanAttempts(wm.listing.methods), ShellAttempts(shell);
    ScanOnlyScanned(wm.listing.methods);
    assert all == r + sc + sh;
  }

  /** The chain holds a direct `wm` attempt only when `sh -c` exited with a non-zero code. */
  lemma DirectWmInChain(wm: WindowManager, shell: Shell)
    ensures forall a :: a in Attempts(wm, shell) && a.mechanism == DirectWm ==> shell.sh.Exited? && shell.sh.code != 0
  {
    var r := ReflectionAttempts(wm);
    assert forall a :: a in r ==> a.mechanism != DirectWm;
    if wm.listing.Listed? {
      var sc, sh := ScanAttempts(wm.listing.methods), ShellAttempts(shell);
      ScanOnlyScanned(wm.listing.methods);
      assert Attempts(wm, shell) == r + sc + sh;
      assert forall a :: a in sh && a.mechanism == DirectWm ==> shell.sh.Exited? && shell.sh.code != 0;
    } else {
      assert Attempts(wm, shell) == r;
    }
  }

  /** The direct `wm` command is attempted only after `sh -c` exited with a non-zero code. */
  lemma DirectWmOnlyAfterNonZeroExit(wm: WindowManager, shell: Shell)
    ensures var t := Tried(Some(wm), shell);
      forall i :: 0 <= i < |t| && t[i].mechanism == DirectWm ==> shell.sh.Exited? && shell.sh.code != 0
  {
    var t := Tried(Some(wm), shell);
    TriedIsPrefix(wm, shell);
    DirectWmInChain(wm, shell);
    forall i | 0 <= i < |t| && t[i].mechanism == DirectWm
      ensures shell.sh.Exited? && shell.sh.code != 0
    {
      assert t[i] == Attempts(wm, shell)[i];
    }
  }

  /** When `sh -c` throws, the direct command is skipped and the root command comes right after it. */
  lemma ShellExceptionSkipsDirectWm(wm: WindowManager, shell: Shell)
    requires shell.sh == Threw
    ensures var t := Tried(Some(wm), shell);
      forall i :: 0 <= i < |t| - 1 && t[i].mechanism == ShellWm ==> t[i + 1].mechanism == RootWm
  {
    var all := Attempts(wm, shell);
    var t := Tried(Some(wm), shell);
    TriedIsPrefix(wm, shell);
    forall i | 0 <= i < |t| - 1 && t[i].mechanism == ShellWm
      ensures t[i + 1].mechanism == RootWm
    {
      assert all[i] == t[i] && all[i + 1] == t[i + 1];
      if wm.listing.Listed? {
        ShellTail(wm, shell, i);
        var prefix := |ReflectionAttempts(wm)| + |ScanAttempts(wm.listing.methods)|;
        assert all == ReflectionAttempts(wm) + ScanAttempts(wm.listing.methods) + ShellAttempts(shell);
        assert all[i + 1] == ShellAttempts(shell)[i + 1 - prefix];
      }
    }
  }

  lemma FirstSuccessAt(attempts: seq<Attempt>, k: nat)
    requires k <= |attempts|
    requires forall i :: 0 <= i < k ==> !attempts[i].succeeded
    requires k < |attempts| ==> attempts[k].succeeded
    ensures FirstSuccess(attempts) == k
  {
  }

  /** One more method of the table adds that method's attempt, if it is a candidate. */
  lemma ScanStep(methods: seq<ReflectedMethod>, i: nat)
    requires i < |methods|
    ensures ScanAttempts(methods[..i + 1]) == ScanAttempts(methods[..i]) + ScanOne(methods[i])
  {
    assert methods[..i + 1][..i] == methods[..i];
  }

  /** A prefix of a chain that ends in its first success fixes the winner and the attempts made. */
  lemma StopsAfterPrefix(all: seq<Attempt>, tried: seq<Attempt>)
    requires 0 < |tried| <= |all| && all[..|tried|] == tried
    requires forall j :: 0 <= j < |tried| - 1 ==> !tried[j].succeeded
    requires tried[|tried| - 1].succeeded
    ensures Winner(all) == Some(tried[|tried| - 1].mechanism)
    ensures TriedOf(all) == tried
  {
    var k := |tried| - 1;
    forall j | 0 <= j < k ensures !all[j].succeeded {
      assert all[j] == tried[j];
    }
    assert all[k] == tried[k];
    FirstSuccessAt(all, k);
  }

  /** The scan so far is a prefix of the whole scan. */
  lemma ScanPrefix(methods: seq<ReflectedMethod>, i: nat)
    requires i <= |methods|
    ensures var prefix := ScanAttempts(methods[..i]);
      |prefix| <= |ScanAttempts(methods)| && ScanAttempts(methods)[..|prefix|] == prefix
  {
    ScanAttemptsSplit(methods[..i], methods[i..]);
    assert methods[..i] + methods[i..] == methods;
  }

  /** Method 6: invoke each candidate of the method table in turn until one returns normally. */
  method ScanMethods(methods: seq<ReflectedMethod>) returns (winner: Option<Mechanism>, tried: seq<Attempt>)
    ensures winner == Winner(ScanAttempts(methods))
    ensures tried == TriedOf(ScanAttempts(methods))
  {
    tried := [];
    var i := 0;
    while i < |methods|
      invariant 0 <= i <= |methods|
      invariant tried == ScanAttempts(methods[..i])
      invariant forall j :: 0 <= j < |tried| ==> !tried[j].succeeded
    {
      var candidate := methods[i];
      ScanStep(methods, i);
      if IsCandidate(candidate) {
        tried := tried + [Attempt(Scanned(candidate.name), candidate.invokes)];
        if candidate.invokes {
          ScanPrefix(methods, i + 1);
          StopsAfterPrefix(ScanAttempts(methods), tried);
          return Some(Scanned(candidate.name)), tried;
        }
      }
      i := i + 1;
    }
    assert methods[..i] == methods;
    FirstSuccessAt(tried, |tried|);
    return None, tried;
  }

  /** Methods 7 and 9: `sh -c`, then the direct `wm` command after a non-zero exit, then `su -c`. */
  method RunShell(shell: Shell) returns (winner: Option<Mechanism>, tried: seq<Attempt>)
    ensures winner == Winner(ShellAttempts(shell))
    ensures tried == TriedOf(ShellAttempts(shell))
    ensures winner.Some? ==> winner.value in {ShellWm, DirectWm, RootWm}
  {
    ghost var attempts := ShellAttempts(shell);
    tried := [Attempt(ShellWm, shell.sh == Exited(0))];
    match shell.sh {
      case Exited(code) =>
        if code == 0 {
          FirstSuccessAt(attempts, 0);
          return Some(ShellWm), tried;
        }
        tried := tried + [Attempt(DirectWm, shell.direct == Exited(0))];
        if shell.direct == Exited(0) {
          FirstSuccessAt(attempts, 1);
          assert attempts[..2] == tried;
          return Some(DirectWm), tried;
        }
      case Threw =>
    }
    tried := tried + [Attempt(RootWm, shell.root == Exited(0))];
    assert tried == attempts;
    FirstSuccessAt(attempts, if shell.root == Exited(0) then |tried| - 1 else |tried|);
    if shell.root == Exited(0) {
      return Some(RootWm), tried;
    }
    return None, tried;
  }

  /** Methods 1 to 4: `setForcedDisplaySize` invoked, then looked up and invoked again, then the two probes, which only log. */
  method ForceSize(manager: WindowManager) returns (winner: Option<Mechanism>, tried: seq<Attempt>)
    ensures winner == Winner(ReflectionAttempts(manager))
    ensures tried == TriedOf(ReflectionAttempts(manager))
    ensures winner.Some? ==> !IsProbe(winner.value)
  {
    ghost var reflection := ReflectionAttempts(manager);
    var first := manager.forcedSizeFound && manager.firstInvoke;
    tried := [Attempt(ForcedSize, first)];
    if first {
      FirstSuccessAt(reflection, 0);
      return Some(ForcedSize), tried;
    }
    var retry := manager.forcedSizeFound && manager.retryInvoke;
    tried := tried + [Attempt(ForcedSizeRetry, retry)];
    if retry {
      FirstSuccessAt(reflection, 1);
      assert reflection[..2] == tried;
      return Some(ForcedSizeRetry), tried;
    }
    tried := tried + [Attempt(OverrideDisplayInfo, false), Attempt(DisplayOverrideConfiguration, false)];
    FirstSuccessAt(reflection, |reflection|);
    return None, tried;
  }

  /**
   * The chain's outcome, stage by stage: the reflective stage's winner if it
   * has one; otherwise nothing more when the method table cannot be read;
   * otherwise the scan's winner, and failing that the shell's.
   */
  lemma ChainStages(manager: WindowManager, shell: Shell)
    ensures var r := ReflectionAttempts(manager);
      Winner(Attempts(manager, shell)) ==
        if Winner(r).Some? then Winner(r)
        else match manager.listing
          case ListingThrew(_) => None
          case Listed(methods) =>
            if Winner(ScanAttempts(methods)).Some? then Winner(ScanAttempts(methods)) else Winner(ShellAttempts(shell))
  {
    var r := ReflectionAttempts(manager);
    ChainConcat(r, AfterReflection(manager, shell));
    match manager.listing
    case ListingThrew(_) =>
      FirstSuccessAt([], 0);
    case Listed(methods) =>
      ChainConcat(ScanAttempts(methods), ShellAttempts(shell));
  }

  /** Methods 6 to 9 after the reflective stage failed: the scan, then the shell; nothing when the method table cannot be read. */
  method RunAfterReflection(manager: WindowManager, shell: Shell) returns (winner: Option<Mechanism>, tried: seq<Attempt>)
    ensures winner == Winner(AfterReflection(manager, shell))
    ensures tried == TriedOf(AfterReflection(manager, shell))
    ensures winner.Some? ==> !IsProbe(winner.value)
  {
    match manager.listing
    case ListingThrew(_) =>
      FirstSuccessAt([], 0);
      return None, [];
    case Listed(methods) =>
      ChainConcat(ScanAttempts(methods), ShellAttempts(shell));
      ScanOnlyScanned(methods);
      var scanned;
      winner, scanned := ScanMethods(methods);
      if winner.Some? {
        return winner, scanned;
      }
      var shelled;
      winner, shelled := RunShell(shell);
      return winner, scanned + shelled;
  }

  /**
   * The chain as the source runs it: each group of mechanisms in turn,
   * returning at the first success. `tried` records every attempt made.
   */
  method ChangeResolution(wm: Option<WindowManager>, shell: Shell, width: Int32, height: Int32)
    returns (success: bool, message: string, tried: seq<Attempt>)
    ensures Report(success, message) == Dispatch(wm, shell, width, height)
    ensures tried == Tried(wm, shell)
  {
    if wm.None? {
      return false, NotAvailable, [];
    }
    var manager := wm.value;
    ChainConcat(ReflectionAttempts(manager), AfterReflection(manager, shell));
    var winner;
    winner, tried := ForceSize(manager);
    if winner.Some? {
      return true, SuccessMessage(winner.value, width, height), tried;
    }
    var rest;
    winner, rest := RunAfterReflection(manager, shell);
    tried := tried + rest;
    if winner.Some? {
      return true, SuccessMessage(winner.value, width, height), tried;
    }
    if manager.listing.ListingThrew? {
      return false, ErrorPrefix + manager.listing.error, tried;
    }
    return false, AllFailed, tried;
  }
}
