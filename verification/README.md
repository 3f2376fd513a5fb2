# Verified models of Coder Desktop for Linux

Coder Desktop runs remote workspaces next to the local desktop.  This project models the parts of
it whose correctness is not visible from one function body, and proves what they keep.

- **The invisible watermark** (`Fnv`, `Xorshift`, `Fingerprint`, `FrameLayout`, `Watermark`).  An identity is hashed
  four times with FNV-1a into a 256-bit fingerprint; the fingerprint seeds a xorshift generator, and
  the generator picks the pixels whose blue byte carries the next fingerprint bit.  The algebra goes
  from one hash step to the decoded frame: steps are bijections, so the four words differ, so the
  seed is never zero, so the generator never dies, and re-running it over a marked frame reads the
  whole fingerprint back.
- **The VPN helper** (`TunnelProtocol`, `TunnelSafety`, `TunnelOutcomes`, `HelperService`).  A mutex-protected
  state, five resource fields, and any number of goroutines that set up tunnels, race with Start, Stop and
  Shutdown, and watch their controllers.  A transition system over the critical sections and the
  acquire and release calls covers every interleaving; a log of events is the ledger.  The class
  executes the same critical sections and is proved to take the protocol's steps.
- **The sandbox launcher** (`BwrapOptions`, `KnownLaunch`, `ArgvBuilder`, `SandboxMounts`, `SandboxView`,
  `SandboxEnvironment`, `DbusProxies`).  The growing argument vector with its out-of-memory path, a parser for
  the language it is written in, what it means for the process inside (its files, namespaces and environment),
  and the table of D-Bus proxy children.
- **The managed block in /etc/resolv.conf** (`ResolvConf`, `ResolverReader`, `ConfiguredResolver`), written by
  prepending, undone either from a backup or by searching for the markers, and read by a resolver of its own.
- **Lists kept in step with something simpler** (`ListModel`, `Polling`, `LineSplitter`, `Transfers`,
  `TransferOutcomes`, `DlpManager`, `DlpOutcomes`, `Notifications`): diffs applied in place with row signals,
  change detection between poll responses, a streaming line splitter, transfer records under racing reports, an
  app list and its mirror, and a pruned map that stands for a whole history.

Where the source changes state in place there is a class or an array with methods, and each method
is proved equal to a step function; what is promised over whole runs is then proved of that
function.  What the functions themselves mean is said without them: by readers written on their own (a
resolver, a parser, a replay of mounts and of the environment, a decoder), by functions of the run alone
(the last policy, the fate of a transfer, the pending servers), and by known answers.  I/O, clocks, process exits, allocation failures and client counts are parameters or
nondeterministic choices.

Several properties one might expect are false of the code.  Each has the input that shows it and the
exact condition under which it holds:

| expected | shown false by | holds exactly when |
|---|---|---|
| teardown removes the block a configure wrote | `ResolvConf.SmuggledFooterStays` | `ResolvConf.TeardownUndoesConfigureIff`, over runs `ResolvConf.RunIsTheStackIff` |
| a failed configure does no harm | `ResolvConf.FailedBackupLosesTheOriginal` | `ResolvConf.FailedBackupIsHarmlessIff`, `ResolvConf.FailedWriteIsUndoneIff` |
| two DNS managers restore the file | `ResolvConf.CrossedManagersLeaveABlock` | `ResolvConf.StackedManagersRestoreIff` |
| no tunnel resource is lost | `TunnelSafety.ReconnectLeaks` | `TunnelSafety.LosesIffSavesOver` |
| Stop calls the tunnel off | `TunnelSafety.StoppedStartStillConnects` | `TunnelSafety.StopCallsOffIff` |
| changes are announced against responses since the start only | `Polling.CachedTasksShowThrough`, `Polling.EarlierTasksShowThrough` | `Polling.FirstTaskResponseIsSilentIff` |
| an app whose child has exited is removed once it has no clients | `DlpManager.ExitIsMistaken` | `DlpManager.SweepRemovesIff` |
| chunking of a stream cannot be seen | `LineSplitter.CutAfterFeed` | `LineSplitter.ChunkingIsInvisibleIff` |
| the app list and its mirror are in one order | `DlpManager.ReusedPidReorders` | `DlpManager.AlwaysInOrderIff` |
| the pruned map decides as the history | `Notifications.BackwardClockForgets` | `Notifications.PrunedMapDecidesIff` |
| the key tells notifications apart | `Notifications.SharesItsKeyIff` | `Notifications.SharesItsKeyIff` |

That every transfer is announced ended once does hold, given that a process reports once, as QProcess
promises; `Transfers.EndsOnceIff` says exactly how much of that promise is needed.

The comment at `coder-dlp-compositor/src/watermark.c:104` asks for a non-zero state to be ensured;
`Fingerprint.FallbackNeverTaken` shows that the branch below it is dead code.

The lists of `WorkspaceModel` and `TaskModel` share one algorithm and therefore one module.

## Model

| member | source | states |
|---|---|---|
| Fnv.Fnv1a64 | coder-dlp-compositor/src/watermark.c:10-17 | the loop computes the digest of the first len bytes |
| Fnv.XorByteIsXor | coder-dlp-compositor/src/watermark.c:13 | the arithmetic on bytes is the exclusive-or of eight bits |
| Fnv.KnownHashes | coder-dlp-compositor/src/watermark.c:10-17 | known answers: the published hash of the letter a, and the hashes of the four prefix bytes |
| Fnv.StepInverse | coder-dlp-compositor/src/watermark.c:13-14 | one hash step with a given byte is a bijection of the 64-bit words, with its inverse exhibited both ways |
| Fnv.TimesPrimeInverse | coder-dlp-compositor/src/watermark.c:14 | multiplying by the FNV prime modulo 2^64 is undone by multiplying by its inverse |
| Fnv.StepSeparatesBytes | coder-dlp-compositor/src/watermark.c:13-14 | from one hash, different bytes lead to different hashes |
| Fnv.DigestInverse | coder-dlp-compositor/src/watermark.c:10-17 | hashing given data is a bijection of the starting hash |
| Fnv.OneByteSeparates | coder-dlp-compositor/src/watermark.c:10-17 | two inputs that differ in exactly one byte never have the same hash |
| Xorshift.Xorshift128.Draw | coder-dlp-compositor/src/watermark.c:42-53 | the in-place update is the step function on 128-bit states and returns its first word |
| Xorshift.KnownDraws | coder-dlp-compositor/src/watermark.c:42-53 | known answers: the first draws from two seeds, in which every shift shows |
| Xorshift.NextInverse | coder-dlp-compositor/src/watermark.c:42-53 | the step is a permutation of the 128-bit states, with its inverse exhibited both ways |
| Xorshift.NextLinear | coder-dlp-compositor/src/watermark.c:42-53 | the step is linear over exclusive-or |
| Xorshift.ZeroOnlyFromZero | coder-dlp-compositor/src/watermark.c:104-107 | the all-zero state is reached after any number of draws only from the zero seed |
| Xorshift.SeedsNeverMeet | coder-dlp-compositor/src/watermark.c:42-53 | two generators agree after n draws iff they were seeded alike |
| Xorshift.FourZeroDraws | coder-dlp-compositor/src/watermark.c:114-117 | four zero draws in a row occur iff the seed is zero |
| Fingerprint.HashWithPrefix | coder-dlp-compositor/src/watermark.c:25-30 | buffer, prefix byte, at most 255 copied bytes and hash give the word for that prefix |
| Fingerprint.WatermarkState.SetIdentity | coder-dlp-compositor/src/watermark.c:19-34 | the fingerprint becomes the four little-endian words of the identity; a null identity changes nothing |
| Fingerprint.KnownWords | coder-dlp-compositor/src/watermark.c:25-31 | known answers: the four words of the empty identity, in the order of the prefixes, and the first word of the identity a |
| Fingerprint.WordsDiffer | coder-dlp-compositor/src/watermark.c:25-31 | for every identity the four words are pairwise different |
| Fingerprint.OneByteChangesEveryWord | coder-dlp-compositor/src/watermark.c:25-31 | two identities of equal length that differ in exactly one of the first 255 bytes differ in all four words |
| Fingerprint.LongIdentitiesShare | coder-dlp-compositor/src/watermark.c:28-29 | identities that agree on their first 255 bytes have one fingerprint, however they go on |
| Fingerprint.EveryByteCounts | coder-dlp-compositor/src/watermark.c:94-103 | all 32 bytes contribute: fingerprints that differ in exactly one byte have different halves exclusive-or'ed |
| Fingerprint.SeedOfWords | coder-dlp-compositor/src/watermark.c:94-107 | for every identity the seed is, as 32-bit words, the hash of prefix 0 exclusive-or'ed with that of prefix 2, and that of 1 with that of 3 |
| Fingerprint.FallbackNeverTaken | coder-dlp-compositor/src/watermark.c:94-107 | for every identity the two halves never cancel, the fallback seed is unused, and no number of draws reaches the zero state |
| Watermark.Apply | coder-dlp-compositor/src/watermark.c:71-129 | succeeds exactly for a buffer, an identity, a mapped buffer and a supported format; then the buffer is the marked run of its old contents, otherwise it is untouched |
| Watermark.BlueOffsetIsTheB | coder-dlp-compositor/src/watermark.c:58-69 | the blue byte is the one that the name of the format calls B in little-endian order; a format not listed has none |
| Watermark.SelectedIff | coder-dlp-compositor/src/watermark.c:114-117 | pixel k is selected iff the draw made for it is a multiple of sixteen |
| Watermark.BlueBytesIff | coder-dlp-compositor/src/watermark.c:109-123 | the visited bytes of a frame are those at the blue offset of each of its pixels |
| Watermark.MarkFrame | coder-dlp-compositor/src/watermark.c:109-125 | the nested loops with the running bit index produce the marked run |
| FrameLayout.OnlyBlueBytesAreVisited | coder-dlp-compositor/src/watermark.c:111-123 | a byte of a row is visited iff it is the blue byte of one of the pixels |
| Watermark.FrameExact | coder-dlp-compositor/src/watermark.c:114-123 | only the lowest bit of a selected blue byte can change, and every byte moves by at most one |
| Watermark.OtherChannelsUntouched | coder-dlp-compositor/src/watermark.c:111-123 | other channels and row padding are exactly as before |
| Watermark.SecondRunChangesNothing | coder-dlp-compositor/src/watermark.c:109-125 | applying the same identity again changes nothing |
| Watermark.ReadsBack | coder-dlp-compositor/src/watermark.c:109-125 | re-running the generator over the marked buffer reads bit k mod 256 at the k-th selected pixel |
| Watermark.FingerprintRecovered | coder-dlp-compositor/src/watermark.c:94-125 | any frame with at least 256 selected pixels yields the whole fingerprint |
| Watermark.LastIdentityDecodes | coder-dlp-compositor/src/watermark.c:71-129 | after any sequence of markings the last identity is the one that decodes |
| TunnelProtocol.Reachable | coder-vpn-linux/internal/dbusservice/service.go:113-430 | every interleaving keeps the invariant: each goroutine's history fits its place, and the fields are those of one saved tunnel or empty |
| TunnelProtocol.ReleaseCallsReverse | coder-vpn-linux/internal/dbusservice/service.go:252-359 | each failing branch of the setup releases exactly what is held, in reverse order |
| TunnelSafety.Ledger | coder-vpn-linux/internal/dbusservice/service.go:159-197 | over every interleaving no resource is acquired or let go twice, or let go before it is acquired |
| TunnelSafety.FailedGoroutineIsClean | coder-vpn-linux/internal/dbusservice/service.go:249-359 | a failed goroutine has released exactly what it acquired, in reverse order |
| TunnelSafety.FieldsAndPhase | coder-vpn-linux/internal/dbusservice/service.go:159-197 | at every release of the mutex the five fields are all nil or all set; disconnected means nil, connected means set |
| TunnelSafety.TunnelsAreSavedOnce | coder-vpn-linux/internal/dbusservice/service.go:396-404 | no goroutine saves its tunnel twice |
| TunnelSafety.OldMonitorsAreHarmless | coder-vpn-linux/internal/dbusservice/service.go:410-420 | the monitor of an older controller never changes the state of a newer tunnel |
| TunnelSafety.LosesIffSavesOver | coder-vpn-linux/internal/dbusservice/service.go:396-404 | a run loses a resource iff one of its steps saves a tunnel over occupied fields |
| TunnelSafety.CarefulRunsAreOrderly | coder-vpn-linux/internal/dbusservice/service.go:119-132 | runs with no Stop while connecting and no Start over occupied fields never lose a resource |
| TunnelSafety.CarefulRunsLeakNothing | coder-vpn-linux/internal/dbusservice/service.go:159-197 | in such a run everything a goroutine acquired has been released exactly once as soon as it is done and its tunnel is not in the fields |
| TunnelSafety.CarefulRunsEndEmpty | coder-vpn-linux/internal/dbusservice/service.go:249-359 | when such a run is disconnected, or in error with empty fields, nothing is held |
| TunnelSafety.StartOverOccupiedFieldsLeaks | coder-vpn-linux/internal/dbusservice/service.go:396-404 | from any state with occupied fields, an undisturbed start drops the whole old tunnel |
| TunnelSafety.ReconnectLeaks | coder-vpn-linux/internal/dbusservice/service.go:119-132 | a leaking run: connect, lose the connection, connect again |
| TunnelSafety.StopCallsOffIff | coder-vpn-linux/internal/dbusservice/service.go:159-197 | from any state, after a Stop or Shutdown a tunnel can still come up without another Start iff some goroutine is still setting one up |
| TunnelSafety.StoppedStartStillConnects | coder-vpn-linux/internal/dbusservice/service.go:396-404 | an instance: a Stop just before the hand-over reports disconnected, and the tunnel then comes up |
| TunnelOutcomes.NoRunIsStuck | coder-vpn-linux/internal/dbusservice/service.go:119-132 | over every interleaving: while connecting, the goroutine of the newest Start is still at work, and while connected, the monitor of the tunnel in the fields is still watching |
| TunnelOutcomes.ConnectingIffLive | coder-vpn-linux/internal/dbusservice/service.go:119-132 | over every careful run: connecting iff some goroutine is setting up or cleaning up |
| TunnelOutcomes.StartLaunchesIff | coder-vpn-linux/internal/dbusservice/service.go:119-132 | from any state a Start launches one goroutine and connects iff disconnected or in error, and otherwise changes nothing |
| TunnelOutcomes.StopEmptiesTheFields | coder-vpn-linux/internal/dbusservice/service.go:159-197 | after any run a Stop leaves disconnected with empty fields, and releases each part of the tunnel that was in them once, the connection first |
| TunnelOutcomes.ClosingIsReportedIff | coder-vpn-linux/internal/dbusservice/service.go:408-420 | from any state the end of a controller turns into an error iff it is the current one of a connected tunnel, and the fields stay |
| TunnelOutcomes.ReportingStep | coder-vpn-linux/internal/dbusservice/service.go:424-429 | from any state the report of a failure leaves the error phase, the same fields and the same log |
| TunnelOutcomes.FailureIsReported | coder-vpn-linux/internal/dbusservice/service.go:249-359 | from any state a goroutine that fails at any step, left alone, releases what it holds newest first and ends in error, after which a Start is accepted |
| TunnelOutcomes.FailedStart | coder-vpn-linux/internal/dbusservice/service.go:246-359 | a Start whose goroutine fails at any step, undisturbed, ends in error with the goroutine through |
| HelperService.HelperService.Start | coder-vpn-linux/internal/dbusservice/service.go:119-133 | the critical section of Start is the protocol's; it is refused exactly while connecting or connected |
| HelperService.HelperService.Shutdown | coder-vpn-linux/internal/dbusservice/service.go:159-197 | releases the set fields in the protocol's order and clears all five, or does nothing when disconnected |
| HelperService.HelperService.SaveTunnel | coder-vpn-linux/internal/dbusservice/service.go:396-404 | assigned field by field, the hand-over is the protocol's, and each value it drops is logged as the ledger's loss |
| HelperService.HelperService.ControllerClosed | coder-vpn-linux/internal/dbusservice/service.go:410-420 | the monitor's critical section is the protocol's |
| HelperService.HelperService.StartTunnel | coder-vpn-linux/internal/dbusservice/service.go:246-421 | undisturbed, it ends in the error phase with the fields as before and everything released, or connected with the tunnel in the fields |
| HelperService.SetUpTunnel | coder-vpn-linux/internal/dbusservice/service.go:246-359 | the cleanup calls written on each failing branch are the held resources in reverse order |
| ResolvConf.CutUndoesPrepend | coder-vpn-linux/internal/dns/dns_linux.go:183-196 | cutting by first occurrence undoes prepending, whatever follows, iff the block's own footer is the first in it |
| ResolvConf.PlainSettingsSuffice | coder-vpn-linux/internal/dns/dns_linux.go:229-242 | servers and domains without '#' always meet that condition |
| ResolvConf.TeardownUndoesConfigureIff | coder-vpn-linux/internal/dns/dns_linux.go:168-243 | one configure and its teardown bring back what was there iff there was something, so that there is a backup, or the block's own footer is the first in it |
| ResolvConf.SmuggledFooterStays | coder-vpn-linux/internal/dns/dns_linux.go:186-191 | on an empty or missing file, a search domain that holds a footer leaves part of the block behind after the teardown |
| ResolvConf.RunIsTheStackIff | coder-vpn-linux/internal/dns/dns_linux.go:168-243 | over every nested run of one manager, with any settings and contents, the file is the pending blocks, newest first, on the original iff every teardown that had to cut found a block whose own footer is the first |
| ResolvConf.CutTakesOneFooter | coder-vpn-linux/internal/dns/dns_linux.go:229-241 | a cut takes away one footer at most, in any text, so a bad cut is never made good |
| ResolvConf.NestedRunsRestoreIff | coder-vpn-linux/internal/dns/dns_linux.go:168-243 | when every configure has been torn down the original contents are back iff the cuts were clean |
| ResolvConf.NestedRunsRestore | coder-vpn-linux/internal/dns/dns_linux.go:168-243 | with settings without '#' they always are, for all contents including ones that hold managed blocks |
| ResolvConf.StackedManagersRestoreIff | coder-vpn-linux/internal/dns/dns_linux.go:168-221 | two overlapping managers torn down last first restore the file iff it was empty and the first block smuggles in no footer |
| ResolvConf.CrossedManagersLeaveABlock | coder-vpn-linux/internal/dns/dns_linux.go:168-221 | torn down first first they never restore it: the first manager's block stays in front |
| ResolvConf.FailedWriteIsUndoneIff | coder-vpn-linux/internal/dns/dns_linux.go:196-198 | after a failed write of the new text, whatever it leaves, the next teardown that goes through brings back what was there iff there was something, or what is left is cut to nothing or an earlier backup is empty |
| ResolvConf.FailedRestoreIsRetried | coder-vpn-linux/internal/dns/dns_linux.go:214-216 | a failed restore, whatever it leaves, keeps the backup, and the next teardown does what this one would have done |
| ResolvConf.FailuresBeforeTheWrite | coder-vpn-linux/internal/dns/dns_linux.go:170-178 | a configure that cannot read changes nothing; one that cannot back up leaves resolv.conf and the remembered path alone and overwrites the backup file |
| ResolvConf.FailedBackupIsHarmlessIff | coder-vpn-linux/internal/dns/dns_linux.go:175-179 | a failed backup makes no difference to the next teardown iff no earlier backup is remembered or the overwritten file is what that teardown would leave anyway |
| ResolvConf.FailedBackupLosesTheOriginal | coder-vpn-linux/internal/dns/dns_linux.go:175-179 | a configure, another one whose backup fails, and a teardown leave in resolv.conf what the failed write left |
| ResolvConf.BlockText | coder-vpn-linux/internal/dns/dns_linux.go:183-192 | the text builder produces the block |
| ConfiguredResolver.LinesOfBlock | coder-vpn-linux/internal/dns/dns_linux.go:183-193 | the configured file, line by line: marker, a nameserver line for each server, one search line if there are domains, marker, and the lines from before |
| ConfiguredResolver.ConfiguredServersAreRead | coder-vpn-linux/internal/dns/dns_linux.go:168-201 | a resolver that reads the file asks the given servers and then those it asked before, and finds the names in the given domains, which are the domains themselves if they have no spaces, on the first search line |
| ConfiguredResolver.RunServersAreRead | coder-vpn-linux/internal/dns/dns_linux.go:168-243 | after any nested run whose cuts were clean it asks the servers of the configures still pending, newest first, and then the original ones |
| ResolvConf.Manager.ConfigureDirectFile | coder-vpn-linux/internal/dns/dns_linux.go:168-201 | files, backup path and error with every file operation succeeding or failing; without failures it is the configure step |
| ResolvConf.Manager.TeardownDirectFile | coder-vpn-linux/internal/dns/dns_linux.go:203-221 | files, backup path and error with every file operation succeeding or failing; without failures it is the teardown step |
| ResolvConf.SmoothCalls | coder-vpn-linux/internal/dns/dns_linux.go:168-243 | when no file operation fails the calls are the steps that the run theorems speak of |
| BwrapOptions.ParseArgv | coder-dlp-compositor/src/sandbox_launcher.c:307-546 | for arbitrary strings, parsing the vector by operand counts gives back the option list and the command |
| BwrapOptions.LaunchIsReadBack | coder-dlp-compositor/src/sandbox_launcher.c:307-546 | for every launch, bwrap reads exactly the intended options and command |
| BwrapOptions.PathsThatFit | coder-dlp-compositor/src/sandbox_launcher.c:377-491 | the bus, socket, lock and X11 paths are spelled in full when they fit their buffers; a bus path is cut no further than it must be |
| KnownLaunch.IsolatedLaunchSpelledOut | coder-dlp-compositor/src/sandbox_launcher.c:307-546 | known answer: the whole vector of one launch with every kind of isolation, word by word |
| SandboxEnvironment.SwitchesOfLaunch | coder-dlp-compositor/src/sandbox_launcher.c:412-540 | each namespace is unshared iff the configuration asks for it; every launch dies with its parent in a new session |
| SandboxEnvironment.EnvironmentOfLaunch | coder-dlp-compositor/src/sandbox_launcher.c:427-531 | replayed with the last setting winning, every environment variable is what its name calls for: DISPLAY is set iff Xwayland runs, the bus address is unset when the filter failed, and no other variable is touched |
| SandboxMounts.MountsOfLaunch | coder-dlp-compositor/src/sandbox_launcher.c:309-494 | the mounts of a launch are those of its base, shared paths, bus and display, in this order |
| SandboxMounts.SharedPathsAreReadWrite | coder-dlp-compositor/src/sandbox_launcher.c:393-410 | a path at or under the workspace or an extra path, and not behind the filtered bus, is the same host path read-write |
| SandboxMounts.BusProxyIsSeen | coder-dlp-compositor/src/sandbox_launcher.c:446-458 | at or under the filtered bus path it is the proxy's socket that is seen, unless the X11 socket is mounted over it |
| SandboxMounts.RootIsSeenElsewhere | coder-dlp-compositor/src/sandbox_launcher.c:309-349 | a path under no later mount target is the same host path, read-only iff isolated |
| SandboxMounts.WritesAreConfined | coder-dlp-compositor/src/sandbox_launcher.c:309-494 | in an isolated launch every host path that can be written, wherever it is seen, lies at or under an allowed one, the bus proxy's socket among them |
| SandboxMounts.LookPast | coder-dlp-compositor/src/sandbox_launcher.c:309-313 | later mounts that do not cover a path do not change what is seen there |
| SandboxView.WholeView | coder-dlp-compositor/src/sandbox_launcher.c:309-494 | for every launch and every path, what is seen there: X11 socket, bus, shared paths, lock, Wayland socket, runtime directory, home, scratch and device directories, root, in this order |
| SandboxView.BlockedBusIsFresh | coder-dlp-compositor/src/sandbox_launcher.c:459-463 | when the filter has failed nothing of the host is seen at the session bus, unless the configuration shares it |
| SandboxView.NamesOfWritten | coder-dlp-compositor/src/sandbox_launcher.c:309-494 | reading a written path back gives its names |
| ArgvBuilder.Builder.Grow | coder-dlp-compositor/src/sandbox_launcher.c:293-300 | after growth there is room for the string and for the final NULL; a failed growth keeps the old vector |
| ArgvBuilder.Builder.Push | coder-dlp-compositor/src/sandbox_launcher.c:291-305 | one more owned string, or a state in which the cleanup can free everything |
| ArgvBuilder.BuildVector | coder-dlp-compositor/src/sandbox_launcher.c:284-557 | either the whole NULL-terminated vector, or NULL with every string freed once |
| ArgvBuilder.BuildArgs | coder-dlp-compositor/src/sandbox_launcher.c:275-557 | the vector holds the words of the launch, or nothing is left allocated |
| ArgvBuilder.FreeArgs | coder-dlp-compositor/src/sandbox_launcher.c:561-569 | freeing up to the first NULL leaves the heap as it was before building |
| DbusProxies.StartProxy | coder-dlp-compositor/src/sandbox_launcher.c:76-209 | for every answer of the environment, the system calls made, the proxy, and whether it started |
| DbusProxies.StartedHolds | coder-dlp-compositor/src/sandbox_launcher.c:76-209 | a start adds one child and one pipe; every failure leaves neither, with all calls balanced |
| DbusProxies.Table.Grow | coder-dlp-compositor/src/sandbox_launcher.c:666-675 | the table grows with its contents, or stays as it was |
| DbusProxies.Table.LaunchApp | coder-dlp-compositor/src/sandbox_launcher.c:571-690 | for every answer of the environment, the table, the system calls and the returned pid are those of the launch step |
| DbusProxies.LaunchTracksIff | coder-dlp-compositor/src/sandbox_launcher.c:572-690 | a proxy is added, and it is the one started, iff one was asked for and came up, the app was forked, and there was room; the app is forked also when its proxy failed |
| DbusProxies.Table.ReapProxies | coder-dlp-compositor/src/sandbox_launcher.c:212-233 | the loop over the array is the reap step |
| DbusProxies.ReapMarksTheExited | coder-dlp-compositor/src/sandbox_launcher.c:214-231 | a reap marks exactly the live entries whose proxies have exited and leaves the others as they are |
| DbusProxies.Table.CleanUp | coder-dlp-compositor/src/sandbox_launcher.c:235-271 | the loop over the array and the reset are the cleanup step |
| DbusProxies.Reachable | coder-dlp-compositor/src/sandbox_launcher.c:212-271 | over every run of launches with any failures, reaps, cleanups and exits: live entries, unreaped children and open pipes correspond one to one, pid 0 means the pipe is closed, the count fits the capacity, and all else was waited for or closed as often as started or opened |
| DbusProxies.CleanupSettlesEverything | coder-dlp-compositor/src/sandbox_launcher.c:235-271 | after the cleanup of any run each child ever started has been waited for, and each pipe end ever opened closed, exactly once |
| ListModel.RowModel.SetRows | app/src/models/WorkspaceModel.cpp:82-129 | the rows are diffed in place, with one removal for each row that is gone, one change or insertion for each input row and the count at the end, and the signals replay to the rows |
| ListModel.RowModel.RemoveMissing | app/src/models/TaskModel.cpp:91-102 | the backward loop leaves exactly the rows whose id is in the set, in order |
| ListModel.RowModel.Merge | app/src/models/WorkspaceModel.cpp:100-122 | updates and additions by the position map compute the merge |
| ListModel.RowModel.UpdateRow | app/src/models/WorkspaceModel.cpp:131-146 | the first row with the id is replaced, or the row appended |
| ListModel.RowModel.Clear | app/src/models/WorkspaceModel.cpp:148-154 | empties the rows with a reset, silently when there are none |
| ListModel.SurvivorsThenNewcomers | app/src/models/WorkspaceModel.cpp:82-129 | with distinct ids in the model: survivors in old order with new data, then newcomers in input order |
| ListModel.AfterSetIsPermutation | app/src/models/TaskModel.cpp:87-129 | with distinct ids on both sides the rows are a permutation of the input and stay distinct |
| ListModel.AfterSetAsMap | app/src/models/WorkspaceModel.cpp:82-129 | repeated ids or not, the rows map each id to the last input row with it |
| ListModel.LateViewAgrees | app/src/models/WorkspaceModel.cpp:91-122 | a view that copied the rows at any time and follows the later signals shows the rows |
| Polling.Detect | app/src/api/PollingController.cpp:159-216 | the status map and the loop report exactly the differences |
| Polling.DiffersFromAMember | app/src/api/PollingController.cpp:174-183 | against a duplicate-free list a row is reported iff its id was there with another status |
| Polling.WorkspaceIsAnnouncedIff | app/src/api/PollingController.cpp:159-183 | a workspace is announced under its name iff its id was known with another status |
| Polling.TaskIsAnnouncedIff | app/src/api/PollingController.cpp:185-210 | a task is announced, under its display name or else its name, iff its id was known with another status or another state |
| Polling.PollingController.Start | app/src/api/PollingController.cpp:81-88 | sets the first-fetch flag and loads what caches there are |
| Polling.PollingController.HandleWorkspacesReceived | app/src/api/PollingController.cpp:106-129 | detects before it updates the model, then clears the first-fetch flag |
| Polling.PollingController.HandleTasksReceived | app/src/api/PollingController.cpp:131-153 | detects before it updates the model, and leaves the flag |
| Polling.RunAnnouncesTheDifferences | app/src/api/PollingController.cpp:106-210 | over every run the notices are those the lists alone call for, with no model in between |
| Polling.EachResponseAgainstTheOneBefore | app/src/api/PollingController.cpp:106-129 | after a start, each workspace response but the first announces exactly its differences from the previous response |
| Polling.EachTaskResponseAgainstTheOneBefore | app/src/api/PollingController.cpp:131-153 | after a start, a task response is silent until a workspace response has come, and then announces its differences from the task response before it or, if it is the first, from what the model held after the start |
| Polling.FirstTaskResponseIsSilentIff | app/src/api/PollingController.cpp:185-210 | the first task response after a start announces nothing iff notifications are off, no workspace response came first, or no task differs from what the model held after the start |
| Polling.CachedTasksShowThrough | app/src/api/PollingController.cpp:149-150 | a run in which a cached task is announced as changed |
| Polling.EarlierTasksShowThrough | app/src/api/PollingController.cpp:81-94 | a run without a cache in which a task of the run before the start is announced as changed |
| LineSplitter.StderrBuffer.ParseProgress | app/src/filesync/FileTransferManager.cpp:310-326 | the loop ends with the residue in the buffer and the trimmed non-empty lines handed on |
| LineSplitter.NothingIsLost | app/src/filesync/FileTransferManager.cpp:318-324 | pieces, separators and residue concatenate to the buffer, and the residue has no separator |
| LineSplitter.NothingIsLostInChunks | app/src/filesync/FileTransferManager.cpp:314-324 | the same over any sequence of chunks |
| LineSplitter.ChunksDoNotMatter | app/src/filesync/FileTransferManager.cpp:316-324 | with every carriage return before every line feed, all chunkings give the same pieces and residue |
| LineSplitter.ChunkingIsInvisibleIff | app/src/filesync/FileTransferManager.cpp:319-320 | exactly on those streams is chunking invisible |
| LineSplitter.CutAfterFeed | app/src/filesync/FileTransferManager.cpp:319-320 | on any other stream a cut after the line feed gives more pieces |
| LineSplitter.TrimmedIs | app/src/filesync/FileTransferManager.cpp:323 | trimming takes off exactly the spaces at the two ends |
| LineSplitter.LinesOfParts | app/src/filesync/FileTransferManager.cpp:318-326 | the lines handed on are those of each piece in turn: its trimmed line, or nothing if it is blank |
| Transfers.FileTransferManager.Launch | app/src/filesync/FileTransferManager.cpp:83-139 | appends a running transfer under the next id, also when the start fails at once |
| Transfers.FileTransferManager.CancelTransfer | app/src/filesync/FileTransferManager.cpp:141-174 | cancels an active transfer, nothing else |
| Transfers.FileTransferManager.OnFinished | app/src/filesync/FileTransferManager.cpp:226-272 | completes or fails the transfer unless it was cancelled or removed |
| Transfers.FileTransferManager.OnErrorOccurred | app/src/filesync/FileTransferManager.cpp:275-296 | fails the transfer on a failed start only |
| Transfers.FileTransferManager.RemoveTransfer | app/src/filesync/FileTransferManager.cpp:391-403 | removes an ended transfer only |
| Transfers.FileTransferManager.PurgeOldFinishedTransfers | app/src/filesync/FileTransferManager.cpp:405-437 | the erasing loop leaves the active transfers and the newest fifty others |
| Transfers.DropIsKeep | app/src/filesync/FileTransferManager.cpp:415-431 | dropping the oldest from the front is keeping the newest from the back |
| Transfers.PurgeKeepsTheNewest | app/src/filesync/FileTransferManager.cpp:405-437 | every active transfer stays and of the others exactly the last ones, all in order |
| Transfers.EachTransferEndsOnce | app/src/filesync/FileTransferManager.cpp:226-296 | over every legal run ids increase down the list and each is announced ended at most once, as it then shows |
| Transfers.EndedForGood | app/src/filesync/FileTransferManager.cpp:141-151 | a transfer that has ended stays as it ended |
| Transfers.IdsAreNeverReused | app/src/filesync/FileTransferManager.cpp:85 | the ids given out are 1, 2, 3 and so on |
| Transfers.GoneForGood | app/src/filesync/FileTransferManager.cpp:391-437 | over every run, whatever processes report, an id off the list never comes back |
| Transfers.EndsOnceIff | app/src/filesync/FileTransferManager.cpp:226-296 | whatever processes report, every id is announced ended at most once iff no report comes for a listed completed or failed transfer |
| Transfers.SecondReportOverwrites | app/src/filesync/FileTransferManager.cpp:233-254 | such a report overwrites the transfer and is announced as well |
| Transfers.CountsAreAnnounced | app/src/filesync/FileTransferManager.cpp:439-443 | a step that changes the length of the list or the active count says so |
| TransferOutcomes.FateIsAnnounced | app/src/filesync/FileTransferManager.cpp:141-296 | whatever the order of calls and reports, what is announced of an id, listed still or not, is the first thing that ended it: completed for an exit with success, failed for any other, cancelled for a cancel |
| TransferOutcomes.FateIsShown | app/src/filesync/FileTransferManager.cpp:141-296 | a listed transfer shows that, and is active as long as nothing has ended it |
| TransferOutcomes.LaunchAppends | app/src/filesync/FileTransferManager.cpp:83-139 | a start appends one transfer under the next id, running, or failed if its process failed at once |
| TransferOutcomes.RemoveTakesOff | app/src/filesync/FileTransferManager.cpp:391-403 | after any run a removal takes the transfer off the list if it has ended, and leaves every other one |
| TransferOutcomes.PurgeKeepsFifty | app/src/filesync/FileTransferManager.cpp:405-437 | a purge keeps the active transfers and the newest fifty of the others, in order |
| DlpManager.DlpCompositorManager.LaunchApp | app/src/dlp/DlpCompositorManager.cpp:67-172 | each failure path and the success path as the launch step, and the returned pid |
| DlpManager.DlpCompositorManager.Stop | app/src/dlp/DlpCompositorManager.cpp:174-182 | removes the first app with the pid |
| DlpManager.DlpCompositorManager.StopEverything | app/src/dlp/DlpCompositorManager.cpp:184-209 | destroys every compositor and empties both lists |
| DlpManager.DlpCompositorManager.SetPolicy | app/src/dlp/DlpCompositorManager.cpp:211-227 | stores the policy and pushes it to every compositor |
| DlpManager.DlpCompositorManager.SetWatermarkIdentity | app/src/dlp/DlpCompositorManager.cpp:229-238 | stores the identity and pushes it to every compositor |
| DlpManager.DlpCompositorManager.CheckChildProcesses | app/src/dlp/DlpCompositorManager.cpp:240-262 | the reverse loop is the check step |
| DlpManager.RunningAppModel.RemoveApp | app/src/apps/RunningAppModel.cpp:49-59 | removes the first entry with the pid |
| DlpManager.CompositorsAreLookedAfter | app/src/dlp/DlpCompositorManager.cpp:67-285 | over every run a compositor held by an app is alive with the policy of the last update and the identity set last, and every other one was destroyed exactly once |
| DlpManager.LastSettingsAreKept | app/src/dlp/DlpCompositorManager.cpp:211-238 | over every run the manager's policy is that of the last update, or none, and its identity the one set last |
| DlpOutcomes.FailedLaunch | app/src/dlp/DlpCompositorManager.cpp:67-150 | from any state a failed launch lists nothing, reports an error and leaves no new compositor alive |
| DlpOutcomes.SuccessfulLaunch | app/src/dlp/DlpCompositorManager.cpp:152-172 | from any state a launch lists one more app, under its command if it has no name, on a new compositor |
| DlpOutcomes.StopTakesTheFirst | app/src/dlp/DlpCompositorManager.cpp:174-182 | stopping a pid takes the first app with it off the list and destroys its compositor |
| DlpOutcomes.StopOfAnUnknownPid | app/src/dlp/DlpCompositorManager.cpp:174-182 | stopping a pid that no app has changes nothing |
| DlpOutcomes.CountIsAnnouncedIff | app/src/dlp/DlpCompositorManager.cpp:67-285 | the app count is announced by exactly the calls that change it |
| DlpManager.StopAllDestroysTheRest | app/src/dlp/DlpCompositorManager.cpp:184-209 | after stopAll every compositor ever created has been destroyed exactly once |
| DlpManager.MirrorAgrees | app/src/apps/RunningAppModel.cpp:42-69 | over every run both lists hold the same pids as often, and apps run iff runningChanged fired an odd number of times |
| DlpManager.MirrorAgreesInOrder | app/src/apps/RunningAppModel.cpp:42-69 | when no launch returns a listed pid, the mirror is the app list in order |
| DlpManager.RemovalKeepsOrderIff | app/src/dlp/DlpCompositorManager.cpp:264-285 | one removal keeps the mirror in order iff the apps from the first with that pid up to the removed one show the same entry |
| DlpManager.AlwaysInOrderIff | app/src/dlp/DlpCompositorManager.cpp:240-285 | over every run the mirror is in order throughout, also inside a sweep, iff every app a sweep removes is of that kind; a stopped app always is |
| DlpManager.ReusedPidReorders | app/src/dlp/DlpCompositorManager.cpp:278-279 | a run that fails: a reaped pid comes back while its app still has clients, the newer app ends first, and the mirror shows the other two the wrong way round |
| DlpManager.CheckRemovesTheExited | app/src/dlp/DlpCompositorManager.cpp:240-262 | exactly the apps found exited without clients are removed, the others stay in order |
| DlpManager.SweepRemovesIff | app/src/dlp/DlpCompositorManager.cpp:242-260 | with exits at any time before and during the sweep, an app is removed iff it has no client and its exit was seen before, or its child has exited by its visit and no app listed later has waited for that child |
| DlpManager.DistinctAppsAreRemovedIff | app/src/dlp/DlpCompositorManager.cpp:242-260 | with distinct pids that is every app without clients whose child has exited by its visit |
| DlpManager.ExitIsMistaken | app/src/dlp/DlpCompositorManager.cpp:242-254 | with a reused pid an older app can wait for a newer one's child; the newer one is not marked, and no exited child is left by which a later sweep could tell |
| DlpManager.UnmarkedAppsStay | app/src/dlp/DlpCompositorManager.cpp:242-254 | an app not marked as exited stays unmarked through every sweep in which its pid does not exit |
| Notifications.NotificationManager.CleanupRecent | app/src/notifications/NotificationManager.cpp:73-82 | the erasing iteration keeps exactly the entries younger than the window |
| Notifications.NotificationManager.Notify | app/src/notifications/NotificationManager.cpp:15-33 | map, tray and category after a call, sent, dropped or disabled |
| Notifications.MapHoldsTheUnforgotten | app/src/notifications/NotificationManager.cpp:73-82 | after any run the map holds exactly the last deliveries that no later cleanup read as a window old |
| Notifications.PrunedMapDecidesIff | app/src/notifications/NotificationManager.cpp:15-33 | with any clock, map and full history decide alike iff a call the history would drop was not forgotten and its first clock reading is within the window too |
| Notifications.PrunedMapDecidesAsHistory | app/src/notifications/NotificationManager.cpp:15-33 | with a forward clock a call is dropped iff its key was last delivered less than the window before the cleanup's clock reading |
| Notifications.BackwardClockForgets | app/src/notifications/NotificationManager.cpp:73-82 | the failing runs: a delivery, another call that forgets it, and a clock set back |
| Notifications.ClockSetBack | app/src/notifications/NotificationManager.cpp:73-82 | for instance from 0 forward to 5000 and back to 1000 milliseconds |
| Notifications.KeysTellApart | app/src/notifications/NotificationManager.cpp:20 | without line breaks in titles the key tells titles and messages apart |
| Notifications.SharesItsKeyIff | app/src/notifications/NotificationManager.cpp:20 | a notification shares its key with a different one iff there is a line break in its title or in its message |

## Left out

- Watermark.Apply: mapping and unmapping the buffer is one success or failure; the host is taken to be little-endian, as the memcpy of the words assumes.
- Fingerprint.WatermarkState.SetIdentity: works on the bytes before the terminating NUL; strlen itself is not modelled.
- TunnelProtocol.Reachable: the StateChanged signals, some sent after the lock is released, polkit, the remembered URL and GetStatus are not modelled; the controller is stopped through its context and is not a resource of its own.
- ResolvConf.NestedRunsRestore: speaks of runs in which no file operation fails; what a failure leaves is stated for one configure and its teardowns. A missing resolv.conf counts as an empty one. The helper never tears down a manager whose configure has failed (`coder-vpn-linux/internal/dbusservice/service.go:319-324`), so the teardown after a failure has no caller there.
- The resolvconf and resolvectl DNS backends and the tailscale configurator: calls to other programs.
- SandboxMounts.SharedPathsAreReadWrite: paths are lists of names; symbolic links, "." and ".." and relative paths are not resolved, and a bind whose source is missing is not a failure.
- ConfiguredResolver.ConfiguredServersAreRead: the reader takes every line; that a resolver may stop after three servers, or take the last search line only, is its own business. Servers and domains have no line breaks in it, as the file format demands.
- ArgvBuilder.Builder.Grow: the overflow of the int capacity after 2^30 entries is not modelled; the capacity is exact.
- ArgvBuilder.Builder.PushAll: the PUSH calls of one launch are run over a list of words, so a string built on the stack between two of them is made before the first; the null compositor check and the freeing of the vector's own block are not modelled.
- DbusProxies.Reachable: signals, sockets and directories of the proxies are not modelled, only their processes and lifecycle pipes; a proxy exits between two calls, not in the middle of one.
- ListModel.RowModel.SetRows: the loading flag, error text and the roles of a row are not modelled.
- Polling.PollingController.Start: the timer, the requests it sends and the reading and writing of cache files are not modelled; a start carries the lists it found.
- LineSplitter.StderrBuffer.ParseProgress: the match for percentages and the floating-point sizes are not modelled; a line is opaque.
- Transfers.EachTransferEndsOnce: assumes that a process finishes at most once and never after failing to start, as QProcess promises; SecondReportOverwrites shows why.
- Transfers.FileTransferManager.Launch: paths, byte counts, error texts and the scp command line are not modelled.
- Transfers.FileTransferManager.RemoveTransfer: the three-second timer is a removal that may come at any time.
- DlpManager.DlpCompositorManager.LaunchApp: the sandbox configuration handed on, log callback, title and socket notifier are not modelled; the launcher itself is the sandbox modules.
- Notifications.PrunedMapDecidesAsHistory: the suppression window is fixed over the run.
- wlroots, Wayland and Xwayland plumbing, REST and WebSocket clients, JSON parsing, QML, tray, packaging: foreign calls and user interface.
- Settings layering, version comparison, launch profiles and status tables: each is settled by reading one table.
