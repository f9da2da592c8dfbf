# pam_rootok, modelled in Dafny

This project models the `pam_rootok` PAM module. Three of its phases check
whether the caller runs as root: authenticate, account management and
change-authtok. When the module is built with SELinux support, the check
also asks the SELinux policy whether the process's previous (pre-exec)
context, that is the caller's domain, may use the `rootok` permission on
the `passwd` class. If that query does not grant it, the check still
passes when SELinux is permissive. When the `debug` option is given, the
module logs whether the check succeeded. It then returns
`PAM_SUCCESS` whatever the check found: the line that would return the
computed verdict is commented out. The set-credentials phase succeeds at
once.

Everything lives in `pam_rootok.dfy`, module `PamRootok`:

- `Parse` is the option parser `_pam_parse`. It is a loop proved against
  the functions `ParseFlags` (the flag word) and `ParseLog` (the lines it
  logs). Lemmas say what those functions mean.
- `SelinuxProcess` is the SELinux library as one process sees it. It has
  the library's fixed answers (`SelinuxAnswers`) and the process-global
  state the module touches: the `SELINUX_CB_LOG` callback slot, the
  security contexts `getprevcon_raw` allocates, and the
  `selinux_check_access` calls made. `SelinuxProcess.CheckRoot` is
  `selinux_check_root`.
- `CheckForRoot` is `check_for_root`. `Tentative` is the verdict it computes
  and then discards. `RootCheckLog` is the line it logs.
- `Authenticate`, `SetCred`, `AcctMgmt` and `Chauthtok` are the four PAM
  entry points.

The build switch `WITH_SELINUX` is the boolean parameter `withSelinux`. The
shown build leaves it undefined. `getuid()` is the parameter `uid`. Lines
written with `pam_syslog` are returned as a sequence of `LogEntry` values,
each with its priority (`LOG_ERR` or `LOG_DEBUG`) and its formatted message.

Three behaviours of the code worth noting:

- When `getprevcon_raw` fails, `selinux_check_root` returns its negative
  status. `check_for_root` then still passes root if `security_getenforce()`
  returns 0. So a failed context query is rescued by permissive mode, just
  like a policy denial. `Tentative` states this.
- `is_selinux_enabled()` returning -1 (an error) is treated as "disabled", so
  root passes.
- No path produces a generic-error code. The only values computed are
  `PAM_SUCCESS` and `PAM_AUTH_ERR`, and only `PAM_SUCCESS` is returned.

## Model

| member | source | states |
|---|---|---|
| `PamRootok.Parse` | config.h:31-49 | the loop over the arguments returns exactly the flag word `ParseFlags(argv)` and writes exactly the lines `ParseLog(argv)`; it visits every argument and never stops early |
| `PamRootok.ParseFlagsDebugIff` | config.h:29-48 | the parsed flag word is `PAM_DEBUG_ARG` when some argument is exactly "debug" and 0 otherwise (0 for no arguments); the debug bit is set iff "debug" was given, and no other bit is ever set |
| `PamRootok.ParseFlagsOrderIndependent` | config.h:37-42 | two argument lists with the same tokens, in any order and with any repetition, give the same flag word |
| `PamRootok.Unrecognized` | config.h:41-45 | the tokens the parser reports: as many as the arguments that are not "debug", and a token is among them iff it is an argument other than "debug" |
| `PamRootok.UnrecognizedConcat` | config.h:37-46 | reported tokens keep argument order: splitting the arguments splits the reported tokens the same way |
| `PamRootok.ParseLogReportsUnrecognized` | config.h:37-46 | the parser logs exactly one `LOG_ERR` "unknown option: <token>" line per argument that is not "debug", in argument order, naming that token; no arguments give no lines |
| `PamRootok.SelinuxRootStatus` | config.h:94-109 | `selinux_check_root` returns 0 iff SELinux is not enabled or (the context query succeeded and the access check granted "rootok"); a failed context query gives a negative status |
| `PamRootok.SelinuxProcess.CheckRoot` | config.h:87-110 | returns `SelinuxRootStatus` of the answers; with SELinux disabled it touches nothing; otherwise the callback slot holds its original value again on both return paths, the context it obtained is freed, and exactly one access check (the previous, pre-exec, context as subject and object, class "passwd", permission "rootok") is made, with the module's log callback installed, iff the context query succeeded |
| `PamRootok.Tentative` | config.h:116-122 | the computed verdict is success iff uid is 0 and, with SELinux built in, SELinux is not enabled, or the context query and access check succeeded, or `security_getenforce()` returned 0; otherwise it is `PAM_AUTH_ERR` |
| `PamRootok.RootCheckLog` | config.h:124-127 | exactly one `LOG_DEBUG` line iff the debug bit is set in the flag word, none otherwise; it reads "root check succeeded" iff the computed verdict is success and "root check failed" iff it is `PAM_AUTH_ERR` |
| `PamRootok.CheckForRoot` | config.h:113-131 | returns `PAM_SUCCESS` for every uid, SELinux outcome and flag word; logs `RootCheckLog` of the computed verdict; leaves the callback slot and held contexts as they were; records exactly one access check (previous context as subject and object, "passwd", "rootok", under the module's log callback) iff uid is 0, SELinux is built in and enabled, and the context query succeeded, and no other; does not touch SELinux at all unless uid is 0 and SELinux is built in |
| `PamRootok.Authenticate` | config.h:135-144 | returns `PAM_SUCCESS`; through `ParsedRootCheck`: its log is the parser's lines followed by the root check's line for the parsed flags; the callback slot and held contexts are left as they were; exactly one access check (previous context as subject and object, "passwd", "rootok", under the module's log callback) is made iff the caller is root, SELinux is built in and enabled, and the context query succeeded; SELinux is not touched at all unless the caller is root and SELinux is built in |
| `PamRootok.SetCred` | config.h:146-151 | returns `PAM_SUCCESS` and logs nothing, for any arguments |
| `PamRootok.AcctMgmt` | config.h:153-162 | returns `PAM_SUCCESS`; through `ParsedRootCheck`: its log is the parser's lines followed by the root check's line for the parsed flags; the callback slot and held contexts are left as they were; exactly one access check (previous context as subject and object, "passwd", "rootok", under the module's log callback) is made iff the caller is root, SELinux is built in and enabled, and the context query succeeded; SELinux is not touched at all unless the caller is root and SELinux is built in |
| `PamRootok.Chauthtok` | config.h:164-173 | returns `PAM_SUCCESS`; through `ParsedRootCheck`: its log is the parser's lines followed by the root check's line for the parsed flags; the callback slot and held contexts are left as they were; exactly one access check (previous context as subject and object, "passwd", "rootok", under the module's log callback) is made iff the caller is root, SELinux is built in and enabled, and the context query succeeded; SELinux is not touched at all unless the caller is root and SELinux is built in |
| `PamRootok.EntryPointLog` | config.h:135-173 | an authenticate, account or chauthtok call logs one line per argument other than "debug", plus one `LOG_DEBUG` line iff "debug" is among the arguments; that line is the last one and the only debug-level line |

## Left out

- `log_callback` (config.h:51-85) is not modelled. It formats a message and sends it to the audit socket or to syslog, which is I/O. Only the fact that it is the callback installed during the access check is modelled (`ModuleLogCallback`).
- The system and library calls `getuid`, `is_selinux_enabled`, `selinux_get_callback`, `selinux_set_callback`, `getprevcon_raw`, `selinux_check_access`, `freecon`, `security_getenforce` and `pam_syslog` are inputs or small oracle methods of `SelinuxProcess`. Each SELinux call gives a fixed answer per call of the module. What the policy decides is not modelled.
- `HAVE_LIBAUDIT` only affects `log_callback`, so it does not appear.
- Arguments are Dafny strings (sequences of characters), while the C arguments are NUL-terminated byte strings compared bytewise by `strcmp` (config.h:41). Nothing representable in C is lost, but a token containing `'\0'` has no C counterpart.
- `argc` is the length of `argv`. A negative `argc` and NULL entries in `argv` are not modelled, because the PAM library never passes them.
- The PAM handle is used only for logging, so the log sequence replaces it. The entry points' `flags` argument is unused by the source and is left out.
- Concurrency is not modelled. The only shared state is the SELinux callback slot, and `CheckRoot` leaves it as it found it.
- The autoconf header that follows the module in config.h (lines 177-644) is build configuration with no behaviour.
