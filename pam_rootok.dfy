/**
 * The pam_rootok PAM module: the authenticate, account-management and
 * change-authtok phases check whether the caller runs as root (and, when
 * the module is built with SELinux support, whether the SELinux policy
 * allows the "rootok" permission on the "passwd" class or is permissive),
 * log the outcome when the "debug" option was given, and then return
 * PAM_SUCCESS whatever the check found.
 *
 * Everything the module asks of the operating system (getuid) and of the
 * SELinux library is an input: a uid, and a SelinuxProcess object that
 * holds the library's fixed answers and the process-global state the
 * module touches (the SELINUX_CB_LOG callback slot and the security
 * contexts it allocates). Log lines written with pam_syslog are returned
 * as a sequence of entries.
 */
module PamRootok {

  // ------------------------------------------------------------------
  // Values
  // ------------------------------------------------------------------

  /** The C `int` flag word of the module, as its 32-bit pattern. */
  type Ctrl = bv32

  /** The only option bit the module defines (PAM_DEBUG_ARG). */
  const DebugArg: Ctrl := 1

  /** The PAM return codes this module can produce. */
  datatype PamResult = Success | AuthErr

  /** The syslog priorities the module logs at (LOG_ERR, LOG_DEBUG). */
  datatype Priority = Err | Debug

  /** One line written through pam_syslog. */
  datatype LogEntry = LogEntry(priority: Priority, message: string)

  /** The line `_pam_parse` writes for a token it does not recognise. */
  function UnknownOption(token: string): LogEntry
  {
    LogEntry(Err, "unknown option: " + token)
  }

  // ------------------------------------------------------------------
  // Option parsing (_pam_parse)
  // ------------------------------------------------------------------

  /** The flag word after the parser has stepped through `args`. */
  function ParseFlags(args: seq<string>): Ctrl
  {
    if args == [] then 0
    else
      var ctrl := ParseFlags(args[..|args| - 1]);
      if args[|args| - 1] == "debug" then ctrl | DebugArg else ctrl
  }

  /** The log lines the parser writes while stepping through `args`. */
  function ParseLog(args: seq<string>): seq<LogEntry>
  {
    if args == [] then []
    else
      var token := args[|args| - 1];
      ParseLog(args[..|args| - 1]) + (if token == "debug" then [] else [UnknownOption(token)])
  }

  /** One more argument: the parser's step on `token` after it has stepped through `args`. */
  lemma ParseStep(args: seq<string>, token: string)
    ensures ParseFlags(args + [token]) == if token == "debug" then ParseFlags(args) | DebugArg else ParseFlags(args)
    ensures ParseLog(args + [token]) == ParseLog(args) + if token == "debug" then [] else [UnknownOption(token)]
  {
  }

  /**
   * `_pam_parse`: one pass over the module arguments; "debug" sets the
   * debug bit, every other token is reported and skipped.
   */
  method Parse(argv: seq<string>) returns (ctrl: Ctrl, log: seq<LogEntry>)
    ensures ctrl == ParseFlags(argv)
    ensures log == ParseLog(argv)
  {
    ctrl, log := 0, [];
    var i := 0;
    while i < |argv|
      invariant 0 <= i <= |argv|
      invariant ctrl == ParseFlags(argv[..i])
      invariant log == ParseLog(argv[..i])
    {
      if argv[i] == "debug" {
        ctrl := ctrl | DebugArg;
      } else {
        log := log + [UnknownOption(argv[i])];
      }
      assert argv[..i + 1] == argv[..i] + [argv[i]];
      ParseStep(argv[..i], argv[i]);
      i := i + 1;
    }
    assert argv[..i] == argv;
  }

  /** The tokens of `args` that are not "debug", in argument order. */
  function Unrecognized(args: seq<string>): (r: seq<string>)
    ensures |r| == |args| - multiset(args)["debug"]
    ensures forall t :: t in r <==> t in args && t != "debug"
  {
    if args == [] then []
    else
      assert multiset(args) == multiset{args[0]} + multiset(args[1..]) by {
        assert args == [args[0]] + args[1..];
      }
      (if args[0] == "debug" then [] else [args[0]]) + Unrecognized(args[1..])
  }

  /** Unrecognized tokens keep their relative order across a split of the arguments. */
  lemma {:induction false} UnrecognizedConcat(a: seq<string>, b: seq<string>)
    ensures Unrecognized(a + b) == Unrecognized(a) + Unrecognized(b)
  {
    if a != [] {
      assert (a + b)[0] == a[0] && (a + b)[1..] == a[1..] + b;
      UnrecognizedConcat(a[1..], b);
    } else {
      assert a + b == b;
    }
  }

  /**
   * The parsed flag word has the debug bit set exactly when some argument
   * is "debug", and no other bit is ever set.
   */
  lemma {:induction false} ParseFlagsDebugIff(args: seq<string>)
    ensures ParseFlags(args) == if "debug" in args then DebugArg else 0
    ensures (ParseFlags(args) & DebugArg != 0) <==> "debug" in args
    ensures ParseFlags(args) & !DebugArg == 0
  {
    if args != [] {
      var init := args[..|args| - 1];
      ParseFlagsDebugIff(init);
      assert args == init + [args[|args| - 1]];
      assert "debug" in args <==> "debug" in init || args[|args| - 1] == "debug";
    }
  }

  /** The flag word depends neither on the order nor on the repetition of the arguments. */
  lemma ParseFlagsOrderIndependent(a: seq<string>, b: seq<string>)
    requires forall t :: t in a <==> t in b
    ensures ParseFlags(a) == ParseFlags(b)
  {
    ParseFlagsDebugIff(a);
    ParseFlagsDebugIff(b);
  }

  /**
   * The parser writes exactly one error-level "unknown option" line per
   * argument other than "debug", in argument order, each naming its token;
   * with no arguments it writes nothing.
   */
  lemma {:induction false} ParseLogReportsUnrecognized(args: seq<string>)
    ensures |ParseLog(args)| == |Unrecognized(args)| == |args| - multiset(args)["debug"]
    ensures forall i :: 0 <= i < |ParseLog(args)| ==>
      ParseLog(args)[i] == UnknownOption(Unrecognized(args)[i])
  {
    if args != [] {
      var init, token := args[..|args| - 1], args[|args| - 1];
      ParseLogReportsUnrecognized(init);
      assert args == init + [token];
      UnrecognizedConcat(init, [token]);
      assert Unrecognized([token]) == if token == "debug" then [] else [token];
    }
  }

  // ------------------------------------------------------------------
  // The SELinux library, as seen by one process (selinux_check_root)
  // ------------------------------------------------------------------

  /** What the SELinux library answers during one call of the module. */
  datatype SelinuxAnswers = SelinuxAnswers(
    enabled: int,        // is_selinux_enabled(): 1 enabled, 0 disabled, -1 error
    prevconStatus: int,  // getprevcon_raw(): negative on failure
    context: string,     // the context getprevcon_raw hands back on success
    accessStatus: int,   // selinux_check_access(): 0 when the permission is granted
    enforce: int)        // security_getenforce(): 1 enforcing, 0 permissive, -1 error

  /** A value of the SELINUX_CB_LOG callback slot. */
  datatype Callback = ModuleLogCallback | OtherCallback(id: nat)

  /** One selinux_check_access call, with the log callback in effect when it was made. */
  datatype AccessCheck = AccessCheck(scon: string, tcon: string, tclass: string, perm: string, logger: Callback)

  /** What `selinux_check_root` returns for the given library answers. */
  function SelinuxRootStatus(a: SelinuxAnswers): (status: int)
    ensures status == 0 <==> a.enabled < 1 || (a.prevconStatus >= 0 && a.accessStatus == 0)
    ensures a.enabled >= 1 && a.prevconStatus < 0 ==> status < 0
  {
    if a.enabled < 1 then 0
    else if a.prevconStatus < 0 then a.prevconStatus
    else a.accessStatus
  }

  /** The process-global SELinux library state the module touches. */
  class SelinuxProcess {
    const answers: SelinuxAnswers
    var logCallback: Callback
    var heldContexts: multiset<string>
    var accessChecks: seq<AccessCheck>

    constructor (answers: SelinuxAnswers, logCallback: Callback)
      ensures this.answers == answers && this.logCallback == logCallback
      ensures heldContexts == multiset{} && accessChecks == []
    {
      this.answers := answers;
      this.logCallback := logCallback;
      heldContexts := multiset{};
      accessChecks := [];
    }

    method IsSelinuxEnabled() returns (enabled: int)
      ensures enabled == answers.enabled
    {
      enabled := answers.enabled;
    }

    method GetLogCallback() returns (cb: Callback)
      ensures cb == logCallback
    {
      cb := logCallback;
    }

    method SetLogCallback(cb: Callback)
      modifies this`logCallback
      ensures logCallback == cb
    {
      logCallback := cb;
    }

    /** getprevcon_raw: on success the caller owns a freshly allocated context. */
    method GetPrevconRaw() returns (status: int, con: string)
      modifies this`heldContexts
      ensures status == answers.prevconStatus
      ensures status >= 0 ==> con == answers.context && heldContexts == old(heldContexts) + multiset{con}
      ensures status < 0 ==> heldContexts == old(heldContexts)
    {
      status := answers.prevconStatus;
      con := "";
      if status >= 0 {
        con := answers.context;
        heldContexts := heldContexts + multiset{con};
      }
    }

    /** selinux_check_access: both contexts must still be allocated when they are used. */
    method CheckAccess(scon: string, tcon: string, tclass: string, perm: string) returns (status: int)
      requires scon in heldContexts && tcon in heldContexts
      modifies this`accessChecks
      ensures status == answers.accessStatus
      ensures accessChecks == old(accessChecks) + [AccessCheck(scon, tcon, tclass, perm, logCallback)]
    {
      status := answers.accessStatus;
      accessChecks := accessChecks + [AccessCheck(scon, tcon, tclass, perm, logCallback)];
    }

    method FreeCon(con: string)
      requires con in heldContexts
      modifies this`heldContexts
      ensures heldContexts == old(heldContexts) - multiset{con}
    {
      heldContexts := heldContexts - multiset{con};
    }

    method GetEnforce() returns (enforce: int)
      ensures enforce == answers.enforce
    {
      enforce := answers.enforce;
    }

    /**
     * `selinux_check_root`: when SELinux is enabled, asks the policy whether
     * the process's own context may use "rootok" on "passwd", with the
     * module's log callback installed for the duration of the query. On
     * every return path the callback slot holds its original value again
     * and no security context is left allocated; when SELinux is disabled
     * nothing is touched.
     */
    method CheckRoot() returns (status: int)
      modifies this
      ensures status == SelinuxRootStatus(answers)
      ensures logCallback == old(logCallback)
      ensures heldContexts == old(heldContexts)
      ensures accessChecks == old(accessChecks) +
        if answers.enabled >= 1 && answers.prevconStatus >= 0
        then [AccessCheck(answers.context, answers.context, "passwd", "rootok", ModuleLogCallback)]
        else []
      ensures answers.enabled < 1 ==> unchanged(this)
    {
      var enabled := IsSelinuxEnabled();
      if enabled < 1 {
        return 0;
      }
      var oldCallback := GetLogCallback();
      SetLogCallback(ModuleLogCallback);
      var con;
      status, con := GetPrevconRaw();
      if status < 0 {
        SetLogCallback(oldCallback);
        return status;
      }
      status := CheckAccess(con, con, "passwd", "rootok");
      SetLogCallback(oldCallback);
      FreeCon(con);
    }
  }

  // ------------------------------------------------------------------
  // The root check (check_for_root) and the PAM entry points
  // ------------------------------------------------------------------

  /**
   * The verdict `check_for_root` computes before discarding it: success
   * for root, when SELinux support is built in only if the policy check
   * passed or SELinux is permissive.
   */
  function Tentative(withSelinux: bool, uid: nat, a: SelinuxAnswers): (r: PamResult)
    ensures r == Success <==>
      uid == 0 &&
      (!withSelinux || a.enabled < 1 || (a.prevconStatus >= 0 && a.accessStatus == 0) || a.enforce == 0)
  {
    if uid == 0 && (!withSelinux || SelinuxRootStatus(a) == 0 || a.enforce == 0) then Success else AuthErr
  }

  /**
   * The lines `check_for_root` writes: one debug-level line saying whether
   * the root check succeeded, only when the debug bit is set.
   */
  function RootCheckLog(ctrl: Ctrl, tentative: PamResult): (r: seq<LogEntry>)
    ensures |r| == if ctrl & DebugArg != 0 then 1 else 0
    ensures forall e :: e in r ==> e.priority == Debug
    ensures forall e :: e in r ==> (e.message == "root check succeeded" <==> tentative == Success)
    ensures forall e :: e in r ==> (e.message == "root check failed" <==> tentative == AuthErr)
  {
    if ctrl & DebugArg != 0 then
      assert |"root check succeeded"| != |"root check failed"|;
      [LogEntry(Debug, if tentative == Success then "root check succeeded" else "root check failed")]
    else []
  }

  /**
   * `check_for_root`: computes the tentative verdict, logs it when asked,
   * and returns PAM_SUCCESS for every uid, SELinux outcome and flag word.
   * The SELinux library is consulted only for root with SELinux built in.
   */
  method CheckForRoot(withSelinux: bool, uid: nat, proc: SelinuxProcess, ctrl: Ctrl)
    returns (r: PamResult, log: seq<LogEntry>)
    modifies proc
    ensures r == Success
    ensures log == RootCheckLog(ctrl, Tentative(withSelinux, uid, proc.answers))
    ensures proc.logCallback == old(proc.logCallback)
    ensures proc.heldContexts == old(proc.heldContexts)
    ensures proc.accessChecks == old(proc.accessChecks) +
      if withSelinux && uid == 0 && proc.answers.enabled >= 1 && proc.answers.prevconStatus >= 0
      then [AccessCheck(proc.answers.context, proc.answers.context, "passwd", "rootok", ModuleLogCallback)]
      else []
    ensures !withSelinux || uid != 0 ==> unchanged(proc)
  {
    var retval := AuthErr;
    if uid == 0 {
      if withSelinux {
        var status := proc.CheckRoot();
        if status == 0 {
          retval := Success;
        } else {
          var enforce := proc.GetEnforce();
          if enforce == 0 {
            retval := Success;
          }
        }
      } else {
        retval := Success;
      }
    }
    log := [];
    if ctrl & DebugArg != 0 {
      log := [LogEntry(Debug, if retval == Success then "root check succeeded" else "root check failed")];
    }
    // The computed verdict is not returned.
    r := Success;
  }

  /**
   * What `_pam_parse` followed by `check_for_root` does, as the
   * authenticate, account and chauthtok phases run them: the result is
   * PAM_SUCCESS; the log is the parser's lines followed by the root
   * check's line for the parsed flags; the callback slot and held contexts
   * end as they began; the one "rootok" query is made exactly when the
   * caller is root, SELinux is built in and enabled and the context query
   * succeeded; and SELinux is not touched unless the caller is root with
   * SELinux built in.
   */
  twostate predicate ParsedRootCheck(withSelinux: bool, uid: nat, proc: SelinuxProcess, argv: seq<string>,
                                     r: PamResult, log: seq<LogEntry>)
    reads proc
  {
    && r == Success
    && log == ParseLog(argv) + RootCheckLog(ParseFlags(argv), Tentative(withSelinux, uid, proc.answers))
    && proc.logCallback == old(proc.logCallback)
    && proc.heldContexts == old(proc.heldContexts)
    && proc.accessChecks == old(proc.accessChecks) +
         (if withSelinux && uid == 0 && proc.answers.enabled >= 1 && proc.answers.prevconStatus >= 0
          then [AccessCheck(proc.answers.context, proc.answers.context, "passwd", "rootok", ModuleLogCallback)]
          else [])
    && (!withSelinux || uid != 0 ==> unchanged(proc))
  }

  /** `pam_sm_authenticate`: parse the arguments, then run the root check. */
  method Authenticate(withSelinux: bool, uid: nat, proc: SelinuxProcess, argv: seq<string>)
    returns (r: PamResult, log: seq<LogEntry>)
    modifies proc
    ensures ParsedRootCheck(withSelinux, uid, proc, argv, r, log)
  {
    var ctrl, parseLog := Parse(argv);
    var checkLog;
    r, checkLog := CheckForRoot(withSelinux, uid, proc, ctrl);
    log := parseLog + checkLog;
  }

  /** `pam_sm_setcred`: succeeds at once; it neither parses its arguments nor logs. */
  method SetCred(argv: seq<string>) returns (r: PamResult, log: seq<LogEntry>)
    ensures r == Success && log == []
  {
    r, log := Success, [];
  }

  /** `pam_sm_acct_mgmt`: parse the arguments, then run the root check. */
  method AcctMgmt(withSelinux: bool, uid: nat, proc: SelinuxProcess, argv: seq<string>)
    returns (r: PamResult, log: seq<LogEntry>)
    modifies proc
    ensures ParsedRootCheck(withSelinux, uid, proc, argv, r, log)
  {
    var ctrl, parseLog := Parse(argv);
    var checkLog;
    r, checkLog := CheckForRoot(withSelinux, uid, proc, ctrl);
    log := parseLog + checkLog;
  }

  /** `pam_sm_chauthtok`: parse the arguments, then run the root check. */
  method Chauthtok(withSelinux: bool, uid: nat, proc: SelinuxProcess, argv: seq<string>)
    returns (r: PamResult, log: seq<LogEntry>)
    modifies proc
    ensures ParsedRootCheck(withSelinux, uid, proc, argv, r, log)
  {
    var ctrl, parseLog := Parse(argv);
    var checkLog;
    r, checkLog := CheckForRoot(withSelinux, uid, proc, ctrl);
    log := parseLog + checkLog;
  }

  /**
   * The whole log of an authenticate, account or chauthtok call: one
   * error line per unrecognized argument, followed by exactly one
   * debug-level line, the last one, when and only when "debug" is among
   * the arguments.
   */
  lemma EntryPointLog(argv: seq<string>, tentative: PamResult)
    ensures var log := ParseLog(argv) + RootCheckLog(ParseFlags(argv), tentative);
      && |log| == |argv| - multiset(argv)["debug"] + (if "debug" in argv then 1 else 0)
      && forall i :: 0 <= i < |log| ==>
           (log[i].priority == Debug <==> "debug" in argv && i == |log| - 1)
  {
    ParseFlagsDebugIff(argv);
    ParseLogReportsUnrecognized(argv);
    var parsed := ParseLog(argv);
    var checked := RootCheckLog(ParseFlags(argv), tentative);
    forall i | 0 <= i < |parsed| ensures parsed[i].priority == Err {
    }
    if |checked| == 1 {
      assert checked[0] in checked;
    }
  }
}
