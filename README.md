# FluentDocker `Machine` commands in Dafny

A model of the `docker-machine` command facade `Ductus.FluentDocker.Commands.Machine`
of FluentDocker. Each facade operation does two things. It builds one argument line
for the `docker-machine` executable, and some operations then translate the
executor's response into a richer result. Both parts are pure string logic, so they
are modelled as Dafny functions, with lemmas about them.

- `wrappers.dfy` (`Wrappers`): `Option`, which stands for the C# `null` / non-null result of `Uri`.
- `strings.dfy` (`Strings`): the C# `int` range (`Int32`) and the decimal rendering of
  the convenience `Create`'s numeric parameters. It also has the reading `ParseInt`
  that undoes the rendering.
- `machine_args.dfy` (`MachineArgs`): one argument-line builder per operation.
  - `Decode` is the partner of the builders: a string-level inverse that reads a line
    back into the operation it was built for (`ls`, `rm -y [-f]`, or a verb, a space
    and the rest of the line as the machine name).
  - Every single-target builder is proved to decode back to its inputs, so no two
    single-target operations or machine names yield the same line. `DeleteArgs`
    decodes back too, except for an unforced name starting with `-f `: without
    escaping, that line equals a forced delete (`DeleteFlagAmbiguity`).
  - The `options.Aggregate` left fold of `Create` is `FoldOptions`. It is proved equal
    to the first-to-last join `JoinOptions`, order-preserving, and empty exactly when
    there are no options.
- `machine_results.dfy` (`MachineResults`): the `Status` classification and the
  `Uri` not-running check, applied to an abstract `Response(success, data)`.
  - `StatusOf` and `UriOf` compose each of them with its argument builder.
  - The executor is a function parameter `run` from the argument line to the response.

Two quirks are kept as written.
- With at least one raw option, `Create` writes two spaces before the machine name.
  The first is the fold's trailing space; the second comes from the format string
  (`CreateTwoSpaces`, and for one flag `CreateOneOptionExample`).
  Even the option list `[""]` takes this branch, giving three spaces (`CreateEmptyOption`).
- The convenience `Create` ignores its own `options` argument.

## Model

| member | source | states |
|---|---|---|
| `MachineArgs.LsArgs` | Ductus.FluentDocker/Commands/Machine.cs:15-19 | the `ls` line is a constant and decodes back as the list request |
| `MachineArgs.InspectArgs` | Ductus.FluentDocker/Commands/Machine.cs:21-26 | the line decodes back as `inspect` of exactly the given machine |
| `MachineArgs.StartArgs` | Ductus.FluentDocker/Commands/Machine.cs:28-33 | the line decodes back as `start` of exactly the given machine |
| `MachineArgs.StopArgs` | Ductus.FluentDocker/Commands/Machine.cs:35-40 | the line decodes back as `stop` of exactly the given machine |
| `MachineArgs.EnvArgs` | Ductus.FluentDocker/Commands/Machine.cs:42-47 | the line decodes back as `env` of exactly the given machine |
| `MachineArgs.UrlArgs` | Ductus.FluentDocker/Commands/Machine.cs:83-87 | the line decodes back as `url` of exactly the given machine |
| `MachineArgs.StatusArgs` | Ductus.FluentDocker/Commands/Machine.cs:92-95 | the line decodes back as `status` of exactly the given machine |
| `MachineArgs.FoldOptions` | Ductus.FluentDocker/Commands/Machine.cs:58 | the folded options are at least one character per option long |
| `MachineArgs.FoldIsJoin` | Ductus.FluentDocker/Commands/Machine.cs:58 | the left fold equals the first-to-last concatenation of each option followed by a space |
| `MachineArgs.JoinOptionsAt` | Ductus.FluentDocker/Commands/Machine.cs:58 | in the concatenation, option `i` and its space sit between the options before it and those after it |
| `MachineArgs.OptionsInOrder` | Ductus.FluentDocker/Commands/Machine.cs:58 | the fold keeps options in the order given, each exactly once, with no reordering or deduplication |
| `MachineArgs.FoldOptionsEmptyIff` | Ductus.FluentDocker/Commands/Machine.cs:58-59 | the emptiness test on the folded string holds exactly when the option list is empty |
| `MachineArgs.CreateArgs` | Ductus.FluentDocker/Commands/Machine.cs:56-59 | no options gives `create -d <driver> <machine>`; otherwise the options joined in order, each with a trailing space, then one more space and the machine |
| `MachineArgs.CreateTwoSpaces` | Ductus.FluentDocker/Commands/Machine.cs:59 | with any option, the line ends in two spaces and the machine name |
| `MachineArgs.CreateEmptyOption` | Ductus.FluentDocker/Commands/Machine.cs:58-59 | a single empty option still takes the options branch, giving three spaces |
| `MachineArgs.CreateOneOptionExample` | Ductus.FluentDocker/Commands/Machine.cs:56-59 | the `virtualbox` line with one memory flag for `m1`, with two spaces before `m1` |
| `MachineArgs.CreateOne` | Ductus.FluentDocker/Commands/Machine.cs:58-59 | the raw overload with one option, written out: the option, its space, one more space, the machine |
| `MachineArgs.CreateThree` | Ductus.FluentDocker/Commands/Machine.cs:58-59 | the raw overload with three options, written out |
| `MachineArgs.CreateSizedArgs` | Ductus.FluentDocker/Commands/Machine.cs:67-72 | driver `virtualbox`, then the memory, disk-size and cpu-count flags in that order with quoted decimal values, two spaces and the machine; `options` never appears |
| `MachineArgs.CreateSizedExample` | Ductus.FluentDocker/Commands/Machine.cs:67-72 | (2048, 20000, 2) equals the raw overload called with the three flags written out, for any `options` |
| `MachineArgs.DeleteArgs` | Ductus.FluentDocker/Commands/Machine.cs:74-81 | `rm -y -f <machine>` when forced, `rm -y <machine>` otherwise; the line decodes back as that delete unless an unforced name itself starts with `-f ` |
| `MachineArgs.DeleteFlagAmbiguity` | Ductus.FluentDocker/Commands/Machine.cs:76 | without escaping, an unforced delete of `-f <m>` is the same line as a forced delete of `<m>` |
| `Strings.NatToDecimal` | Ductus.FluentDocker/Commands/Machine.cs:70-71 | the rendering of a non-negative number is non-empty, all digits, with no leading zero |
| `Strings.IntToDecimal` | Ductus.FluentDocker/Commands/Machine.cs:70-71 | the rendering is digits with a leading minus exactly for negatives, so it holds no quote character |
| `Strings.NatDecimalRoundTrip` | Ductus.FluentDocker/Commands/Machine.cs:70-71 | reading the digits back gives the number |
| `Strings.IntDecimalRoundTrip` | Ductus.FluentDocker/Commands/Machine.cs:70-71 | reading the signed rendering back gives the integer |
| `Strings.IntToDecimalInjective` | Ductus.FluentDocker/Commands/Machine.cs:70-71 | distinct resource values give distinct flag values |
| `MachineResults.Status` | Ductus.FluentDocker/Commands/Machine.cs:97-110 | a failed run is `Unknown`; `Stopped` and `Running` exactly when the run succeeded with exactly that text; all else `Unknown` |
| `MachineResults.StatusOf` | Ductus.FluentDocker/Commands/Machine.cs:92-111 | the status operation runs `status <machine>` and classifies the response as above |
| `MachineResults.StatusWordRoundTrip` | Ductus.FluentDocker/Commands/Machine.cs:102-107 | the words `Running` and `Stopped` classify back to their states |
| `MachineResults.StatusExactMatch` | Ductus.FluentDocker/Commands/Machine.cs:97-110 | other casing, a trailing newline, a leading space or a failed run all give `Unknown` |
| `MachineResults.Uri` | Ductus.FluentDocker/Commands/Machine.cs:89 | absent exactly when the text starts with `Host is not running`; otherwise the URI is built from the unchanged text |
| `MachineResults.UriOf` | Ductus.FluentDocker/Commands/Machine.cs:83-90 | the URL operation runs `url <machine>` and applies the not-running check to its text |
| `MachineResults.UriNotRunningWithSuffix` | Ductus.FluentDocker/Commands/Machine.cs:89 | the message followed by any text is still absent |
| `MachineResults.UriTcpAddress` | Ductus.FluentDocker/Commands/Machine.cs:89 | a `tcp://` address is passed on unchanged |
| `MachineResults.UriIgnoresSuccess` | Ductus.FluentDocker/Commands/Machine.cs:89 | the success flag plays no part in the URL translation |

## Left out

- Running the executable (`ProcessExecutor<…>.Execute()`) is I/O whose code is not part of this model. A run is the abstract `Response(success, data)`. In `StatusOf` and `UriOf` it is a function parameter from the argument line to the response.
- Locating the executable (`"docker-machine".DockerPath()`) is an external lookup. The path is not modelled; only the argument line is.
- The response parsers (`MachineLsResponseParser`, `MachineInspectResponseParser`, `MachineEnvResponseParser`, `MachineStartStopResponseParser`, `MachineCreateResponseParser`, `MachineRmResponseParser`, `SingleStringResponseParser`) are not part of this model. `Ls`, `Inspect`, `Start`, `Stop`, `Environment`, both `Create`s and `Delete` return the executor's response unchanged, so only their argument lines are modelled.
- `MachineConfiguration`, `MachineLsResponse` and `ServiceRunningState` are not part of this model. `RunningState` has only the three values `Status` returns.
- MachineResults.Uri: `new Uri(data)` is .NET URI parsing. The model returns the text the URI would be built from and does not capture the exception for a malformed URI.
- MachineResults.Uri: `string.StartsWith(string)` is culture-sensitive in .NET; it is modelled as an ordinal prefix test. A `null` `Data` on a failed run, which would throw, is not modelled.
- Strings.IntToDecimal: renders with `-` as the minus sign, as the invariant culture does. A current culture with another negative sign is not modelled.
- C# `null` strings and arrays are not modelled because Dafny strings and sequences cannot be null. A `null` option would interpolate as empty, like `""`, and a `null` array would make `Aggregate` throw.
- Splitting the argument line into separate arguments, and removing quotes, as the executable receives them, is not modelled. `Decode` works on the string only, so a machine name containing a space or a quote is read back as one name, although the executable would see several arguments or a name without its quotes.
- `MachineArgs.Decode` reads `ls`, `rm` and single-target lines only. It does not read `create` lines, whose options are free text and cannot be split back apart in general.
