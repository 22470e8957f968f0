# eureka-cli, modelled in Dafny

`eureka-cli` is a small command-line client for a Eureka service-discovery
registry. This project models the decision logic of its one source file,
`eureka-cli.go`, as pure Dafny functions over immutable values, and proves
what that logic promises:

- **`info`** picks exactly one of four registry lookups, only from which of the
  two filters (application name, instance id) is empty. It prints the answer
  as a fixed-width table. An empty answer is not an error.
- **`info url`** checks its two positional arguments. The name is checked
  before the id, with exit codes 5 and 4. It makes one exact lookup. An empty
  answer exits with code 3 and a message quoting both values. Otherwise it
  prints `http://<ip>:<port>` of the first instance only.
- **`wait`** looks for an instance whose FIRST answered record has status
  exactly `UP`. With timeout 0 it makes one lookup and, unless the first
  record of that answer is UP, fails with "Not found" (code 2). Otherwise it races a poll loop (one lookup, then one second of
  sleep) against a deadline. It reports exactly one of: found (with the
  elapsed time), or "Wait timout exit" (code 2).
- **The table template**: each string column is `%-W.Ws`, left-justified and
  padded or truncated to exactly W characters (20/10/35/18, header PORT 18).
  The row's port is `%d`, unpadded. Every line ends in `" \n"`.

Modules (one file each): `Optional`, `Instances` (the instance record),
`Decimal` (`%d` and its parser), `Table` (the template), `Exits` (exit codes,
argument check), `Resolver` (`info`), `Url` (`info url`), `Waiter` (`wait`).

The registry is an input:
- for `info` and `url`, a function from query to answered instances;
- for `wait`, a function from poll index to the answer of that poll.

The timer/goroutine race is made sequential. Each poll is one lookup and
then one second of sleep. Registry round trips are taken to cost no time, so
poll `k` answers at exactly `k` seconds after the timer started. Polls
answering before the deadline win and polls answering after it lose. In this
idealisation the poll at the deadline answers at the same instant as the
timer fires; a boolean `tieFound` picks the winner of that idealised tie.

Behaviour of the code that the model keeps on purpose:
- The code accepts any integer timeout. A negative one creates a timer that
  has already fired, so the model reports a timeout.
- The code's poll goroutine is never stopped after the decision. The model
  only observes the polls up to the decision.
- Transport failures cannot be told apart from empty answers. The registry
  client hands back only an instance list.
- The immediate failure of timeout 0 is its own outcome, but the code exits
  with the same code 2 as a timeout, with the message "Not found".

## Model

| member | source | states |
|---|---|---|
| Exits.CheckArgs | eureka-cli.go:118-124 | code 5 exactly when the app name is empty; code 4 exactly when the name is given and the id is empty; no exit only when both are given |
| Resolver.Dispatch | eureka-cli.go:78-95 | the four lookups are chosen by emptiness alone, each exactly when its case of (name empty, id empty) holds |
| Resolver.DispatchKeepsFilters | eureka-cli.go:78-95 | the chosen lookup carries exactly the given filters, each of them non-empty |
| Resolver.DispatchReachesEveryQuery | eureka-cli.go:78-95 | every lookup is chosen from exactly its own filters, so the case split is a bijection |
| Resolver.Info | eureka-cli.go:66-102 | `info` never fails, its output starts with the header, and an empty answer prints the header alone |
| Resolver.InfoAsksOnce | eureka-cli.go:76-95 | the output depends on the registry only through the one lookup chosen |
| Resolver.InfoListsInOrder | eureka-cli.go:97-102 | after the header, instance k's row sits between the rows of the instances before it and after it |
| Table.PadTrunc | eureka-cli.go:17-19 | a `%-W.Ws` cell has exactly W characters: the value's first characters, then spaces |
| Table.PadTruncRecovers | eureka-cli.go:17-19 | a value that fits its column is recovered exactly by trimming the padding |
| Table.HeaderText | eureka-cli.go:18 | the header line is the five titles padded to 20, 10, 35, 18 and 18 characters, then `" \n"` (103 characters) |
| Table.Row | eureka-cli.go:19 | a row is the four padded cells at offsets 0, 20, 30 and 65, then the `%d` port from offset 83, then `" \n"` |
| Table.Render | eureka-cli.go:97-102 | the output starts with the header line, and an empty list prints the header alone |
| Table.RowDecodes | eureka-cli.go:19 | every row splits back into its four fixed-width cells and the printed port, which reads back as the same integer |
| Table.RowRoundTrip | eureka-cli.go:19 | an instance whose strings fit their columns is read back from its row unchanged |
| Table.RowsAppend | eureka-cli.go:19 | the rows of a concatenated list are the concatenated rows |
| Table.RowAt | eureka-cli.go:19 | one row per instance, in input order |
| Table.RenderSingle | eureka-cli.go:190-197 | a one-instance list prints as the header followed by that instance's row |
| Decimal.ShowNat | eureka-cli.go:19 | the `%d` numeral of a natural is non-empty, all digits, with no leading zero |
| Decimal.ShowInt | eureka-cli.go:19 | the `%d` numeral of an integer is digits and a sign only, and starts with a digit exactly when non-negative |
| Decimal.ParseShowInt | eureka-cli.go:19 | the printed port reads back as the same integer |
| Url.UrlLine | eureka-cli.go:146-150 | the line is `http://`, the ip, a colon, the `%d` port and a newline, each at its position |
| Url.UrlRoundTrip | eureka-cli.go:144-150 | the printed URL line parses back to exactly the instance's ip and port |
| Url.NotFoundMessage | eureka-cli.go:134-141 | the not-found message quotes the app name and the id at their fixed positions |
| Url.UrlCommand | eureka-cli.go:113-153 | help exit 5, then 4, for empty arguments; exit 3 with the message on an empty answer; otherwise success with the URL of the first instance, whatever follows it |
| Waiter.UpInstance | eureka-cli.go:200-214 | the success callback gets an instance exactly when the answer is non-empty and its first element's status is `UP`, and then gets that first element |
| Waiter.UpIsExact | eureka-cli.go:204-207 | a record at the head of an answer is UP exactly when its status is the string `UP`, whatever follows it |
| Waiter.ImmediateWait | eureka-cli.go:225-235 | timeout 0: found, with no elapsed time, exactly when the one answer is UP; never a timeout |
| Waiter.FirstUp | eureka-cli.go:243-254 | the first poll below a bound whose answer is UP, or none when no poll there is UP |
| Waiter.TimedWait | eureka-cli.go:243-265 | found at poll k exactly when k is the first UP poll and precedes the deadline (or meets it and wins the idealised tie); otherwise timed out; never the immediate failure |
| Waiter.PollLoop | eureka-cli.go:243-265 | the sequential poll loop reaches the reference outcome; it decides from k+1 answers when found at poll k, and from at most one past the deadline |
| Waiter.Wait | eureka-cli.go:225-265 | timeout 0 never times out and reports no elapsed time; any other timeout gives exactly one of found-with-elapsed or timed out; a found instance is UP |
| Waiter.WaitingLine | eureka-cli.go:237-241 | the announcement of the timed path quotes the instance id, then the app name, at their fixed positions |
| Waiter.ElapsedLine | eureka-cli.go:187 | the elapsed line starts with "It took:  ", ends in "s\n", and its number reads back as the seconds waited |
| Waiter.Report | eureka-cli.go:184-198 | success exactly when found, printing the header and the found instance's single row (after the waiting and elapsed lines on the timed path); every failure exits with code 2 and the matching message |
| Waiter.WaitCommand | eureka-cli.go:171-265 | help exits 5 then 4; timeout 0 succeeds exactly when the one answer is UP, printing that instance's table, and otherwise fails "Not found" with code 2; the timed path first announces the wait, then succeeds exactly when the race finds the instance |
| Waiter.DeadlineBoundsObservation | eureka-cli.go:257-265 | the timed outcome depends only on the answers of polls issued up to the deadline |
| Waiter.ZeroTimeoutAsksOnce | eureka-cli.go:225-235 | timeout 0 depends on the first answer only |
| Waiter.NeverUpNeverFound | eureka-cli.go:225-265 | a registry that never answers UP gives "Not found" for timeout 0 and a timeout otherwise |
| Waiter.LongerTimeoutKeepsFound | eureka-cli.go:243-265 | an instance found within a timeout is found, identically, within any longer one |
| Waiter.OrdersScenario | eureka-cli.go:216-265 | an instance that turns UP after 3 s is found at 3 s with timeout 10, times out with timeout 2, and is not found with timeout 0 |

## Left out

- Registry HTTP client (`GetInstances`, `GetInstanceById`, `GetInstancesByApp`, `GetInstanceByAppAndId`): its package is not part of this model; its answers are inputs.
- Flag and environment binding, defaults (`localhost`, `8761`, 30 s), help text, and `os.Exit`: library plumbing. A help exit is modelled only by its code.
- The goroutine, the unbuffered channel, `time.After` and `select`: concurrency. They are replaced by the sequential poll-index model described above. That the poll goroutine keeps running, or blocks, after the decision is not modelled.
- Waiter.TimedWait: registry round-trip time is taken as zero. In the code the timer starts before the poll goroutine, and poll k answers only after k sleeps plus k+1 round trips. So an UP answer issued before the deadline can still lose: with timeout 1 and poll 0 answering UP after 1.2 s, the code times out while the model reports found. And the poll at the deadline always answers after the timer has fired. `tieFound` only resolves the idealised tie.
- Waiter.ElapsedLine: the elapsed time is printed as whole seconds, the index of the deciding poll. The source prints a wall-clock `time.Duration`, measured with `time.Now`.
- `text/template` itself: only the `%-W.Ws` and `%d` semantics are modelled. Characters are sequence elements, not UTF-8 runes.
- Transport errors: the client returns only instance lists, so a failed lookup looks like an empty answer here, as in the source.
- Overflow of `time.Second * time.Duration(t)` for huge timeouts is not modelled; integers are unbounded.
