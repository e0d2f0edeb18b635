# gw-cli command layer, modelled in Dafny

`gw-cli` is a small command-line tool for configuring an IoT gateway. Its
command layer, `commands.py`, validates the options it is given and launches
OS tools for them. The tools are `hostnamectl` for the host name, `ip link`
for the MTU, `ip addr` for an IPv4 address and `udhcp` for the DHCP server.
It also renders the udhcp server configuration and reads it back.

The model has four modules:

- `Wrappers`: `Option` and `Result`.
- `PyText`: the Python string operations the configuration reader depends on.
  These are `str.strip()` with Python's full whitespace set, `str.split(' ')`
  (empty pieces kept) and `readlines()` with universal-newline translation.
  Each is a recursive definition characterised by lemmas.
- `DhcpConfig`: the pure part of the configuration format.
  - `make_dhcp_server_config`, the text it renders.
  - The reader at the heart of `get_dhcp_server_config`: the last token of
    each stripped line.
  - The round trip between the two, both when it holds and when it breaks.
- `Commands`: the effectful part, as the class `Gateway`.
  - `effects` is a log of every argument vector handed to `subprocess.run` (a
    launch attempt, whether or not the program could be started) and every
    file write.
  - `files` holds the text written to each path.
  - `cwd` is the working directory.
  - `run_subprocess`, `set_hostname`, `set_mut`, `set_ipv4` and
    `set_dhcp_server` are methods on it.
  - The two exception classes are the `Error` datatype.

How a launched process ends is not computed. Each launching method takes it
as a parameter `reply`: an exit status with the captured output, or a failure
to launch. A click option is `Option<string>`, with `None` standing for an
omitted option. Python's `not v` is `Missing(v)`, which holds for `None` and
for `""`.

## Model

| member | source | states |
|---|---|---|
| `Commands.Message` | commands.py:13-27 | Every exception has a non-empty message. The text is the class's default message, or Python's `name '…' is not defined`. |
| `Commands.Outcome` | commands.py:32-42 | A zero exit gives the `CompletedProcess` with return code 0. A non-zero exit gives the `CalledProcessError`, carrying that non-zero code. A launch failure gives `None`. Each case holds if and only if its condition does, and the arguments and captured output are passed through unchanged. |
| `Commands.AllPresent` | commands.py:61-62 | The `not a or not b …` guard lets a command through exactly when every option is present and non-empty. |
| `Commands.Gateway.RunSubprocess` | commands.py:29-42 | An absent or empty argument list raises `EmptyArgsException` and launches nothing. Otherwise the arguments are issued exactly once, and the outcome, a failure to launch included, is returned, never raised. Files are untouched. |
| `Commands.Gateway.SetHostname` | commands.py:60-64 | An omitted or empty hostname raises `InvalidArgumentException` and launches nothing. Otherwise exactly `hostnamectl set-hostname <hostname>` is issued, and its outcome is returned. |
| `Commands.Gateway.SetMut` | commands.py:66-71 | If either option is omitted or empty, the command raises and launches nothing. Otherwise exactly `ip link set <device> mtu <mtu>` is issued, with the device before `mtu`, and its outcome is returned. |
| `Commands.Gateway.SetIpv4` | commands.py:85-91 | If any of the three options is omitted or empty, the command raises and launches nothing. Otherwise exactly `ip addr add <address> <netmask> dev <device>` is issued, and `None` is returned. |
| `Commands.Gateway.SetDhcpServer` | commands.py:73-83 | If any of the four options is omitted or empty, the command raises before the file is written or anything is issued. Otherwise the rendered configuration is written to `/etc/udhcp.conf`, then `udhcp /etc/udhcp.conf` is issued, in that order. When the values are reader-safe, reading back gives `['', begin, end, lease, domain, '']`. |
| `Commands.Gateway.SetDhcpServerAsWritten` | commands.py:73-83 | Same as `SetDhcpServer`, except the file is written to `etc/udhcp.conf` resolved against the working directory. `udhcp` is still pointed at `/etc/udhcp.conf`. Outside `/`, the file `udhcp` reads is left unchanged. |
| `Commands.DhcpServerConfig` | commands.py:52-58 | With no configuration file, the reader returns `[]`. With a file, it returns one value per line of the file. |
| `Commands.Lookup` | commands.py:53-56 | The file at a path, or `None`: the existence test and read of the configuration file. `LookupAfterWrite` characterises it. |
| `Commands.LookupAfterWrite` | commands.py:80-81 | After a write, the written path holds the new text and every other path reads as before. |
| `Commands.Missing` | commands.py:61 | Python's `not v` on a click option: true for an omitted option (`None`) and for `''`. `AllPresent` states the guards built from it. |
| `Commands.NoArgs` | commands.py:30 | The empty-arguments test of `run_subprocess`: true for `None` and for `[]`. `RunSubprocess` states what follows from it. |
| `Commands.Resolve` | commands.py:80 | How `open` resolves the path it is given. An absolute path is taken as is; a relative one goes under the working directory. The result ends with the path, and it is absolute when the working directory is. |
| `Commands.Gateway.GetDhcpServerConfig` | commands.py:52-58 | `get_dhcp_server_config()` on the gateway's current files. `SetDhcpServer` proves what it returns after a write. |
| `Commands.ReaderAsWrittenLosesConfig` | commands.py:52-58 | Right after a configuration is written, the reader as written still fails. The corrected reader returns the four values. |
| `Commands.RelativeConfPathResolution` | commands.py:80-82 | For a working directory as `os.getcwd()` reports it (`/`, or `/` followed by names that are not empty, `.` or `..`), `etc/udhcp.conf` names `/etc/udhcp.conf` exactly when the working directory is `/`. |
| `DhcpConfig.MakeDhcpServerConfig` | commands.py:44-50 | The f-string of `make_dhcp_server_config`. `MadeConfigLines` gives its lines and `ReadBackMade` its round trip. |
| `DhcpConfig.LineValue` | commands.py:57-58 | The value of one line: the last space-separated token of the stripped line. `DirectiveValue`, `EmptyDirectiveValue` and `BlankValue` characterise it. |
| `DhcpConfig.ConfigValues` | commands.py:56-58 | The reader yields exactly one value per line that `readlines()` returns. |
| `DhcpConfig.ReadDhcpServerConfig` | commands.py:52-58 | An absent file reads as `[]`. A present file reads as one value per line. |
| `DhcpConfig.SplitTerminated` | commands.py:56 | A newline-terminated first line is split off whole. |
| `DhcpConfig.FiveLines` | commands.py:56 | Four terminated lines followed by an unterminated one read back as those five lines. |
| `DhcpConfig.TemplateLines` | commands.py:44-50 | A leading newline, four terminated lines and a final line read back as six lines. |
| `DhcpConfig.DirectiveTerminated` | commands.py:46-49 | A directive line whose value has no newline ends with its only newline. |
| `DhcpConfig.MadeConfigLines` | commands.py:44-50 | When no argument holds a line break, the rendered text reads as six lines in this order: a blank line, then `start`, `end`, `min_lease` and `option domain`, each with its argument verbatim, then the trailing indentation. |
| `DhcpConfig.DirectiveValue` | commands.py:57-58 | The reader recovers a reader-safe value from its directive line. |
| `DhcpConfig.BlankValue` | commands.py:57-58 | A line of only whitespace reads as `''`. |
| `DhcpConfig.SixValues` | commands.py:57-58 | A six-line text reads as the six line values, in order. |
| `DhcpConfig.MadeConfigValues` | commands.py:44-58 | The rendered text reads as `''`, then the value of each directive line in order, then `''`. |
| `DhcpConfig.ReadBackMade` | commands.py:44-58 | Round trip: reading back the rendered configuration gives `['', begin, end, lease, domain, '']`. A reader-safe value is non-empty, has no space or line break, and has no whitespace at either end. |
| `DhcpConfig.EmptyDirectiveValue` | commands.py:46-58 | A directive with a single-word keyword (no space, no edge whitespace) rendered with an empty value reads back as that keyword. |
| `DhcpConfig.StartKeyword` | commands.py:46 | An empty `start` value reads back as `start`. |
| `DhcpConfig.EmptyValueReadsAsKeyword` | commands.py:44-58 | The round trip breaks for an empty range start: the reader returns `'start'` in its place. |
| `PyText.LStrip` | commands.py:57 | `str.lstrip()`. `LStripSpec` characterises it. |
| `PyText.RStrip` | commands.py:57 | `str.rstrip()`. `RStripSpec` characterises it. |
| `PyText.Strip` | commands.py:57 | `str.strip()`, as `rstrip` after `lstrip`. `StripSpec` and `StripPadded` characterise it. |
| `PyText.LStripSpec` | commands.py:57 | `lstrip` keeps a suffix, removes only whitespace, and leaves a result that is empty or starts with non-whitespace. |
| `PyText.RStripSpec` | commands.py:57 | `rstrip` keeps a prefix, removes only whitespace, and leaves a result that is empty or ends with non-whitespace. |
| `PyText.StripSpec` | commands.py:57 | `strip` leaves a result with no whitespace at either end. |
| `PyText.LStripSkipsSpace` | commands.py:57 | Leading whitespace does not change the result of `lstrip`. |
| `PyText.RStripSkipsSpace` | commands.py:57 | Trailing whitespace does not change the result of `rstrip`. |
| `PyText.LStripAllSpace` | commands.py:57 | Whitespace-only text strips to nothing. |
| `PyText.StripPadded` | commands.py:57 | Whitespace, then a core without edge whitespace, then whitespace, strips to exactly the core. |
| `PyText.Split` | commands.py:58 | `split` always yields at least one piece. |
| `PyText.SplitSnocSeparator` | commands.py:58 | Appending the separator opens a new, empty last piece. |
| `PyText.SplitSnocOther` | commands.py:58 | Appending any other character extends the last piece. |
| `PyText.SplitPiecesFree` | commands.py:58 | No piece contains the separator. |
| `PyText.JoinAppend` | commands.py:58 | Joining with one more piece appends the separator and that piece. |
| `PyText.JoinExtendLast` | commands.py:58 | Extending the last piece extends the joined text. |
| `PyText.JoinSplit` | commands.py:58 | Joining the pieces with the separator gives back the original text. |
| `PyText.LastToken` | commands.py:58 | `s.split(' ')[-1]`. `LastTokenSpec` characterises it. |
| `PyText.LastTokenSpec` | commands.py:58 | `split(' ')[-1]` is the longest space-free suffix. It is either the whole text or preceded by a space. |
| `PyText.LastPieceAfterSeparator` | commands.py:58 | After a separator, a separator-free tail is the last piece. |
| `PyText.SplitWord` | commands.py:58 | A text without the separator splits into itself alone. |
| `PyText.LastTokenAfterSpace` | commands.py:58 | The last token after a space is the space-free tail. |
| `PyText.LastTokenOfWord` | commands.py:58 | A space-free text is its own last token. |
| `PyText.TranslateNewlines` | commands.py:55-56 | Text-mode reading leaves no carriage return, and leaves text without one unchanged. |
| `PyText.LineLength` | commands.py:56 | The first line has between one character and the whole text. |
| `PyText.LineLengthSpec` | commands.py:56 | The first line has a newline only as its last character. It ends with a newline unless it runs to the end of the text. |
| `PyText.SplitLines` | commands.py:56 | The line splitting of `readlines()`, each line keeping its newline. `SplitLinesSound` characterises it. |
| `PyText.ReadLines` | commands.py:55-56 | `readlines()` on a file opened in text mode: newline translation, then line splitting. |
| `PyText.SplitLinesSound` | commands.py:56 | `readlines` loses nothing: the lines concatenate back to the text. Each line is a line, and every line but the last ends with a newline. |
| `PyText.LineLengthAt` | commands.py:56 | The first line ends at the first newline. |
| `PyText.SplitLinesFirst` | commands.py:56 | A newline-free head and its newline form the first line. |
| `PyText.LineLengthWhole` | commands.py:56 | Non-empty text without a newline is one line long. |
| `PyText.SplitLinesSingle` | commands.py:56 | Non-empty text without a newline is a single line. |

## Left out

- The launch itself is not modelled (`subprocess.run` and what the OS does with it). Its outcome is the `reply` parameter. Captured output is opaque bytes.
- Real file I/O is not modelled. A write always succeeds and overwrites, so an `open` that fails (for example a missing `etc/` directory) is not modelled. The text is stored exactly as written. Reading is modelled only through universal-newline translation.
- Options are modelled as strings or `None`, which is what click passes. Other Python values, whose truthiness differs, are not modelled.
- `Commands.Gateway.SetIpv4` returns `()` for Python's `None`. The discarded launch outcome is visible only in the effect log.
- `Commands.DhcpServerConfig` reads the absolute `/etc/udhcp.conf` rather than the relative `etc/udhcp.conf`. This matches the corrected writer; see Findings.
- `gw_cli.py` at the top level is not part of this model: it is an older revision that does not parse. The click wiring in `gw-commandline/gw_cli.py` only forwards to these commands and is not modelled either.
- The packaging files (`setup.py`, `gw_cli/setup.py`) are not modelled.
- The wider gateway configuration engine described for the product is not part of the files modelled here. That includes remounting the root file system, a key/value configuration store, DHCP client flags, netmask normalisation, address diffing and modem autostart.

## Findings

| source | as written | input that shows it | evidently intended | confidence | as-written member | corrected member |
|---|---|---|---|---|---|---|
| commands.py:53 | `get_dhcp_server_config` calls `os.path.isfile`, but the module imports only `subprocess` | any call, including one right after `set_dhcp_server` wrote a configuration | `import os`: return `[]` when there is no file, and the values otherwise; the corrected reader also reads `/etc/udhcp.conf`, the file the corrected writer writes (second row) | not executed | `Commands.ReaderAsWrittenLosesConfig` | `Commands.DhcpServerConfig` |
| commands.py:80-82 | the configuration is written to the relative path `etc/udhcp.conf`, but `udhcp` is pointed at `/etc/udhcp.conf` | working directory `/home/pi`: the write goes to `/home/pi/etc/udhcp.conf` | write the file `udhcp` reads, `/etc/udhcp.conf` | not executed | `Commands.Gateway.SetDhcpServerAsWritten` | `Commands.Gateway.SetDhcpServer` |
