# dnsdisco selection core in Dafny

This project models how the Go library `dnsdisco` picks one SRV endpoint. It has two parts.

- **The default load balancer** (`defaults.go`). It keeps the SRV records with a use counter per server. `ChangeServers` replaces the list and resets every counter. `LoadBalance` proceeds in four steps:
  - it takes the smallest use count over all servers;
  - it collects the servers at that count, starting at the first of them and stopping at the first later server of a different priority;
  - it gives each collected server the running sum of the weights;
  - it hands back the first one whose running sum reaches a random number in `[0, total]` (the "Usage rules" section of RFC 2782), and that server's counter goes up by one.
- **The discovery facade** (`dnsdisco.go`). It has four operations:
  - `Refresh` stores whatever the retriever returned;
  - `Choose` bounds-checks the balancer's index;
  - the default balancer takes the first service whose health check passes;
  - the default health checker rejects any protocol other than `tcp`/`udp` before it dials.
  
  `Discover` combines them.

Everything is a pure function. The random number is a parameter `r` with `0 <= r <= CandidateTotal(servers)`. `LoadBalance` returns the endpoint, the position chosen and the updated server list. The retriever, health checker and balancer are function values. The resolver lookup and the connection attempt are the parameters `lookup` and `dial`.

Files:
- `types.dfy`: module `NetTypes` with `uint16`, the SRV record, `Option` and the errors.
- `defaults.dfy`: module `DefaultLoadBalancer`.
- `dnsdisco.dfy`: module `Dnsdisco`.

The candidate loop of `LoadBalance` exits through a `break`. It is modelled one iteration at a time: `ScanStep` updates a `Scan` state, and a `stopped` flag stands for the `break`. `ScanPrefix` is the loop run over the first `n` servers. Its contract is the loop invariant, `ScanInvariant`. That invariant says the state equals the reference definition `Run`, a plain filter with running sums that has no priority logic and no early exit. `RunIsCandidateRun` proves the list properties of `Run` separately.

## Behaviour of the code worth knowing

The model follows the code in each of these cases:
- A failed `Refresh` does not keep the last good list: `dnsdisco.go:128` assigns the retriever's result whatever the error.
- `defaults.go` takes no health input. Its minimum use count is taken over all servers, not per priority tier. It relies on the list already being sorted by priority. So once every server of the best priority run has been used more than some server elsewhere, the next call moves to the run holding the least-used server (`FallbackByUseCounter`). The repository's tests describe this as "fallback to other priority group by used counter" (`defaults_test.go:91`).
- The default balancer of the facade is "first service that passes its health check". The RFC 2782 balancer of `defaults.go` is not wired into the facade.
- The documentation of `Discover` (`dnsdisco.go:36-37`) promises an `UnknownNetworkError` for a protocol other than "udp" or "tcp". The code never returns one: that error is produced only inside the default health checker, and both the balancer and `Choose` drop it. See "## Findings".

## Model

| member | source | states |
|---|---|---|
| DefaultLoadBalancer.ChangeServers | defaults.go:13-20 | the new list has the input's length and order; each entry holds the input record; every use counter is 0 |
| DefaultLoadBalancer.ChangeServersKeepsRecords | defaults.go:13-20 | projecting the new list back to SRV records gives exactly the input records |
| DefaultLoadBalancer.ChangeServersDiscardsUse | defaults.go:13-20 | after a change of a non-empty list, the minimum use count is 0 and every server is at it, so previous usage is gone |
| DefaultLoadBalancer.MinimumUse | defaults.go:80-88 | the result is -1 exactly for an empty list; otherwise it is at most every counter and equal to some counter |
| DefaultLoadBalancer.RunIsCandidateRun | defaults.go:53-59 | the reference candidate list holds exactly the positions used `m` times in the range, in list order; each entry holds that server's record and counter, its position as `originalIndex`, and the running sum of the weights up to it |
| DefaultLoadBalancer.ScanStepPreserves | defaults.go:47-61 | one loop iteration keeps the invariant (break check, minimum-use filter, running total, candidate append) |
| DefaultLoadBalancer.ScanPrefix | defaults.go:44-61 | after `n` servers, the loop state is the loop invariant: nothing is collected before the first least-used server; after it, the run's priority is that server's, the loop has stopped exactly when it met a server of another priority, and the candidates and total are the reference ones |
| DefaultLoadBalancer.CandidatesAreRun | defaults.go:44-61 | the finished loop holds the reference candidates from the first least-used server to the end of its priority run; the draw bound is the sum of their weights |
| DefaultLoadBalancer.CandidatesCoverDraw | defaults.go:53-64 | the candidate list is empty only for an empty server list, and its last running sum equals the draw bound |
| DefaultLoadBalancer.CandidatesAreDrawable | defaults.go:53-59 | every candidate's `originalIndex` is a valid position; that server is least-used and inside the first least-used server's priority run; the candidate holds that server's record |
| DefaultLoadBalancer.CandidatesCarrySums | defaults.go:53-58 | each candidate's running sum is the sum of the candidate weights up to and including it; the draw bound is the sum of all of them |
| DefaultLoadBalancer.CandidatesSpec | defaults.go:44-61 | the candidates are exactly the drawable positions, in list order, with their records and running sums; the draw bound is their weight sum; the list is empty only for an empty server list |
| DefaultLoadBalancer.CandidatesShareOnePriority | defaults.go:49-54 | all candidates have the priority of the first least-used server |
| DefaultLoadBalancer.PrefixSumsNondecreasing | defaults.go:55-57 | prefix sums of the weights never decrease as the prefix grows |
| DefaultLoadBalancer.RunningSumsNondecreasing | defaults.go:53-58 | running sums never decrease along the candidate list and never exceed the draw bound |
| DefaultLoadBalancer.Select | defaults.go:66-73 | the result is the first candidate whose running sum is at least `r`; no result means no candidate reaches `r` |
| DefaultLoadBalancer.LoadBalance | defaults.go:40-76 | with `0 <= r <= total`, a server is chosen exactly when the list is non-empty; nothing chosen means ("", 0) and an unchanged list; the endpoint is the chosen server's; that server is a drawable candidate and the first whose running sum reaches `r`; only its counter moves, by one, and nothing else changes |
| DefaultLoadBalancer.OverusedNeverChosen | defaults.go:45-53 | a server used more often than the current minimum is never chosen |
| DefaultLoadBalancer.UniqueLeastUsedIsChosen | defaults.go:45-71 | a server used strictly less than every other is chosen next, for every allowed draw, whatever its weight or priority |
| DefaultLoadBalancer.MinimumUseNeverDecreases | defaults.go:66-88 | the minimum use count after a call is at least the one before |
| DefaultLoadBalancer.ChangeServersIsBalanced | defaults.go:13-20 | a freshly changed list has all counters within one of each other |
| DefaultLoadBalancer.LoadBalanceKeepsUsageBalanced | defaults.go:45-70 | if all counters are within one of each other before a call, they still are after it |
| DefaultLoadBalancer.CandidateTotalNonnegative | defaults.go:55-64 | the draw bound is never negative, so the draw range `[0, total]` is never empty |
| DefaultLoadBalancer.LessUsedServerChosenNext | defaults_test.go:131-164 | two servers of priority 10 with weights 200 and 0: for every allowed first draw the first call returns server1:1111; after it the draw bound is 0, and for every allowed second draw the second call returns server2:2222 |
| DefaultLoadBalancer.FallbackByUseCounter | defaults.go:44-61 | a priority-10 server and a priority-20 server: the first call returns the priority-10 server and the second returns the priority-20 server, for every allowed draw |
| Dnsdisco.DefaultHealthCheck | dnsdisco.go:95-107 | an unknown protocol gives (false, UnknownNetworkError(proto)); otherwise the error is the dial error and ok holds exactly when there is none; the check passes exactly for a known protocol and a successful dial |
| Dnsdisco.UnknownProtoNeverDials | dnsdisco.go:96-99 | for an unknown protocol the result is the same for any dialer and never passes |
| Dnsdisco.FirstPassingFrom | dnsdisco.go:110-119 | the result is the first position from `from` on whose check passes, or -1 when none does |
| Dnsdisco.DefaultBalance | dnsdisco.go:109-120 | the result is the smallest index whose check passes (ok and no error); it is -1 exactly when no service passes |
| Dnsdisco.CheckErrorDisqualifies | dnsdisco.go:111-114 | a check that reports an error rules out its service even if ok is true |
| Dnsdisco.NewDiscovery | dnsdisco.go:80-122 | a new session keeps service, proto and name, starts with no records, retrieves through the resolver lookup, and installs the default health checker and the default first-healthy balancer |
| Dnsdisco.Refresh | dnsdisco.go:127-130 | the stored records become exactly the retriever's list; the error is passed through unchanged; nothing else in the session changes |
| Dnsdisco.RefreshOverwritesOnError | dnsdisco.go:127-130 | a failing retriever still replaces the stored list, and the failure is reported |
| Dnsdisco.RefreshIgnoresStoredRecords | dnsdisco.go:127-130 | the records stored before a refresh never influence it: any stored list gives the same session and error afterwards |
| Dnsdisco.RefreshIdempotent | dnsdisco.go:127-130 | for a retriever that answers the same question the same way, refreshing twice yields the same session and error as refreshing once |
| Dnsdisco.Choose | dnsdisco.go:136-141 | the endpoint of service `i` exactly when the balancer's index `i` is in range, otherwise ("", 0); in every case the result is a stored service's endpoint or ("", 0) |
| Dnsdisco.ChooseDefaultPicksFirstHealthy | dnsdisco.go:95-141 | with the default strategies, Choose returns the first stored service that passes the default health check, or ("", 0) when none passes |
| Dnsdisco.Discover | dnsdisco.go:38-46 | a refresh error gives ("", 0, that error) without choosing; otherwise no error and the endpoint that Choose picks from the retrieved records |
| Dnsdisco.DiscoverPicksFirstHealthy | dnsdisco.go:38-46 | after a successful lookup, the result is the first healthy retrieved record, or ("", 0) when none is healthy, with no error |
| Dnsdisco.DiscoverUnknownProtoFindsNothing | dnsdisco.go:38-46 | with a protocol other than tcp/udp the endpoint is always ("", 0), and the error is the lookup's |
| Dnsdisco.DiscoverDropsUnknownNetworkError | dnsdisco.go:36-46 | with a protocol other than tcp/udp and a successful lookup, `Discover` answers ("", 0) with no error, where the documented behaviour reports `UnknownNetworkError(proto)` |
| Dnsdisco.DiscoverChecked | dnsdisco.go:36-46 | a lookup error is reported as ("", 0, that error) whatever the protocol; a protocol other than tcp/udp with a successful lookup gives ("", 0, `UnknownNetworkError(proto)`); a known protocol behaves as `Discover`; no error is reported exactly for a known protocol and a successful lookup |

## Findings

| source | as written | input that shows it | evidently intended | confidence | as-written member | corrected member |
|---|---|---|---|---|---|---|
| dnsdisco.go:36-46 | `Discover` returns only the lookup's error; the health checker's `UnknownNetworkError` is dropped by the balancer (`dnsdisco.go:112-113`) and by `Choose` (`dnsdisco.go:137-140`) | proto "xxx" with a lookup that succeeds: the result is ("", 0, no error) | an unknown protocol whose lookup succeeds is answered with `UnknownNetworkError(proto)`, as the documentation of `Discover` says; a failing lookup still reports its own error, which keeps the result `dnsdisco_test.go:32-42` expects for proto "xxx" | high, not executed | Dnsdisco.DiscoverDropsUnknownNetworkError | Dnsdisco.DiscoverChecked |

## Left out

- The random source (`random.go`): a mutex-guarded generator seeded from the clock. The draw is the parameter `r`, and every result holds for all `r` in `[0, total]`.
- Network I/O: the SRV lookup, the connection attempt of the default health checker, and building the `host:port` address. They are the parameters `lookup` and `dial`. A function value always gives the same result for the same arguments; the real network need not.
- Concurrency: the locking the library promises around `ChangeServers`. Everything here is sequential.
- DefaultLoadBalancer.LoadBalance: running sums and the total are unbounded integers, so Go's `int` width is not modelled. On a 64-bit target they cannot overflow. On a 32-bit target (386, arm) `int` has 32 bits, and more than 32768 records of weight 65535 wrap the total at `defaults.go:55`. `randomSource.Intn(totalWeight + 1)` at `defaults.go:64` can then panic, on a non-positive argument, or select on wrapped running sums that are no longer nondecreasing. A DNS answer carries far fewer records, but a list handed to `ChangeServers` has no such bound. The model states nothing about that wrap-around, the panic or the wrapped selection.
- DefaultLoadBalancer.Server: the counter `selected` is an unbounded `nat`. In Go it is an `int` (`defaults.go:101`) that starts at 0 and is only incremented (`defaults.go:70`). On a 64-bit target it cannot wrap in practice. On a 32-bit target it wraps to -2^31 after 2^31-1 selections of one server. That server then becomes the unique minimum for about 2^31 further calls, and a counter of -1 would make the `minimumUsed == -1` test at `defaults.go:83` ambiguous. The model states nothing about that wrap-around.
- A nil record pointer, which would panic in Go: in `ChangeServers`, in the facade's default balancer (`dnsdisco.go:111`) and in `Choose` (`dnsdisco.go:138`). Records are values here.
- `Choose` has a value receiver and leaves the session alone. That holds trivially, because `Choose` is a function of the session.
- `development.go`: a build-tagged developer retriever that parses a port number. It is not part of the selection logic.
- `example_load_balancer_test.go`: an example round-robin balancer that is not library code.
- Test scenarios that rely on health checks inside the RFC 2782 balancer, and scenarios whose result depends on a particular random draw. Neither is expressible against this code.
