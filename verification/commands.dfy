/**
 * The gateway command layer of `commands.py`: `run_subprocess`, the `set_*`
 * commands that validate their options and then launch an OS tool, and
 * `get_dhcp_server_config`, which reads the udhcp configuration back.
 *
 * The operating system is not modelled. A `Gateway` keeps a log of what the
 * commands did to it (`effects`: every argument vector handed to the OS and every
 * file write, in order) and the files written so far (`files`, path to text).
 * How a launched process ends is not computed: each launching method takes it
 * as a parameter `reply`.
 */
module Commands {
  import opened Wrappers
  import opened PyText
  import opened DhcpConfig

  /** An exception a command raises instead of returning. */
  datatype Error =
    | EmptyArgs          // EmptyArgsException
    | InvalidArgument    // InvalidArgumentException
    | NameError(name: string)

  /** The text `str()` gives for the exception: the classes' default messages, and Python's for a `NameError`. */
  function Message(e: Error): (m: string)
    ensures m != []
  {
    match e
    case EmptyArgs => "The passed arguments were empty"
    case InvalidArgument => "The passed argument wasn't valid"
    case NameError(name) => "name '" + name + "' is not defined"
  }

  newtype byte = x: int | 0 <= x < 256

  /** How the operating system ended a launch: the process exited, or it could not be run at all. */
  datatype Exit =
    | Exited(status: int, stdout: seq<byte>, stderr: seq<byte>)
    | LaunchFailed

  /**
   * What `run_subprocess` returns: the `CompletedProcess`, the caught
   * `CalledProcessError`, or `None` for any other failure to launch.
   */
  datatype ProcessResult =
    | CompletedProcess(args: seq<string>, returncode: int, stdout: seq<byte>, stderr: seq<byte>)
    | CalledProcessError(cmd: seq<string>, returncode: int, output: seq<byte>, stderr: seq<byte>)
    | NoResult

  /**
   * `subprocess.run(args, capture_output=True, check=True)` inside the
   * `try`: a zero exit gives the completed process, a non-zero exit the
   * `CalledProcessError` it raises, and any other exception `None`. The
   * captured output is passed through unchanged.
   */
  function Outcome(args: seq<string>, exit: Exit): (r: ProcessResult)
    ensures r.CompletedProcess? <==> exit.Exited? && exit.status == 0
    ensures r.CalledProcessError? <==> exit.Exited? && exit.status != 0
    ensures r.NoResult? <==> exit.LaunchFailed?
    ensures r.CompletedProcess? ==> r.args == args && r.returncode == 0
                                    && r.stdout == exit.stdout && r.stderr == exit.stderr
    ensures r.CalledProcessError? ==> r.cmd == args && r.returncode == exit.status
                                      && r.output == exit.stdout && r.stderr == exit.stderr
  {
    match exit
    case LaunchFailed => NoResult
    case Exited(status, out, err) =>
      if status == 0 then CompletedProcess(args, 0, out, err)
      else CalledProcessError(args, status, out, err)
  }

  /**
   * Python's `not v` on an option as click passes it: `None` when the option
   * was omitted, otherwise the string given, which is falsy when empty.
   */
  predicate Missing(v: Option<string>) {
    v.None? || v.value == ""
  }

  /**
   * The guard `not v1 or not v2 or ...` of a `set_*` command, negated: it
   * lets the command through exactly when every option is given and non-empty.
   */
  function AllPresent(vs: seq<Option<string>>): (ok: bool)
    ensures ok <==> forall i :: 0 <= i < |vs| ==> !Missing(vs[i])
  {
    if vs == [] then true else !Missing(vs[0]) && AllPresent(vs[1..])
  }

  /** `not args` on the argument list `run_subprocess` receives: `None` or empty. */
  predicate NoArgs(args: Option<seq<string>>) {
    args.None? || args.value == []
  }

  /**
   * Something the gateway asked of the operating system: an argument vector
   * handed to `subprocess.run` (whether or not the program could be started),
   * or a file write.
   */
  datatype Effect =
    | Issued(argv: seq<string>)
    | Wrote(path: string, content: string)

  /** The configuration file the `udhcp` launch is pointed at. */
  const ConfPath := "/etc/udhcp.conf"

  /** The configuration path `commands.py` opens for writing and for reading. */
  const RelativeConfPath := "etc/udhcp.conf"

  /**
   * A working directory as `os.getcwd()` reports it: the root, or `/`
   * followed by `/`-separated names, none of them empty, `.` or `..`.
   */
  predicate AbsoluteDir(cwd: string) {
    cwd == "/"
    || (cwd != [] && cwd[0] == '/'
        && forall name <- Split(cwd[1..], '/') :: name != "" && name != "." && name != "..")
  }

  /**
   * The file a path names when it is opened from directory `cwd`: the path
   * itself when absolute, otherwise the path under `cwd`. Either way the
   * result ends with the path, and it is absolute when `cwd` is.
   */
  function Resolve(cwd: string, path: string): (file: string)
    ensures |path| <= |file| && file[|file| - |path|..] == path
    ensures AbsoluteDir(cwd) ==> file != [] && file[0] == '/'
  {
    if path != [] && path[0] == '/' then path
    else if cwd == "/" then "/" + path
    else cwd + "/" + path
  }

  /**
   * The relative path the configuration is written to names the file `udhcp`
   * is pointed at exactly when the process runs in the root directory.
   */
  lemma RelativeConfPathResolution(cwd: string)
    requires AbsoluteDir(cwd)
    ensures Resolve(cwd, RelativeConfPath) == ConfPath <==> cwd == "/"
  {
    if cwd != "/" {
      assert |Resolve(cwd, RelativeConfPath)| == |cwd| + 1 + |RelativeConfPath|;
    }
  }

  /**
   * `get_dhcp_server_config` as written: its first statement calls
   * `os.path.isfile`, and `commands.py` never imports `os`, so it raises
   * `NameError` whatever the files hold.
   */
  function GetDhcpServerConfigAsWritten(files: map<string, string>): Result<seq<string>, Error> {
    Failure(NameError("os"))
  }

  /** The file at `path`, if there is one. */
  function Lookup(files: map<string, string>, path: string): Option<string> {
    if path in files then Some(files[path]) else None
  }

  /** After a write, the written path holds the new text and every other path is as it was. */
  lemma LookupAfterWrite(files: map<string, string>, written: string, text: string, path: string)
    ensures Lookup(files[written := text], path) == if path == written then Some(text) else Lookup(files, path)
  {
  }

  /**
   * `get_dhcp_server_config` with `os` imported: no file gives `[]`, a file
   * gives the last token of each of its stripped lines.
   */
  function DhcpServerConfig(files: map<string, string>): (values: seq<string>)
    ensures ConfPath !in files ==> values == []
    ensures ConfPath in files ==> values == ConfigValues(files[ConfPath])
  {
    ReadDhcpServerConfig(Lookup(files, ConfPath))
  }

  /**
   * As written, the reader never gives back a configuration, even right after
   * one was written; the corrected reader gives back its four values.
   */
  lemma ReaderAsWrittenLosesConfig(files: map<string, string>, begin: string, end: string, lease: string, domain: string)
    requires ConfigValue(begin) && ConfigValue(end) && ConfigValue(lease) && ConfigValue(domain)
    ensures var written := files[ConfPath := MakeDhcpServerConfig(begin, end, lease, domain)];
            GetDhcpServerConfigAsWritten(written).Failure?
            && DhcpServerConfig(written) == ["", begin, end, lease, domain, ""]
  {
    ReadBackMade(begin, end, lease, domain);
  }

  class Gateway {
    /** Every launch attempt and file write, oldest first. */
    var effects: seq<Effect>
    /** The text of every file written, by the path it was written to. */
    var files: map<string, string>
    /** The working directory relative paths are opened from. */
    const cwd: string

    constructor(cwd: string, files: map<string, string>)
      requires AbsoluteDir(cwd)
      ensures this.cwd == cwd && this.files == files && effects == []
    {
      this.cwd := cwd;
      this.files := files;
      effects := [];
    }

    /** `get_dhcp_server_config()` on the current files. */
    function GetDhcpServerConfig(): seq<string>
      reads this
    {
      DhcpServerConfig(files)
    }

    /**
     * `run_subprocess(args)`: no arguments raise `EmptyArgsException` and
     * launch nothing; otherwise the arguments are issued once and every
     * outcome, failures included, is returned rather than raised.
     */
    method RunSubprocess(args: Option<seq<string>>, reply: Exit) returns (r: Result<ProcessResult, Error>)
      modifies this
      ensures files == old(files)
      ensures NoArgs(args) ==> r == Failure(EmptyArgs) && effects == old(effects)
      ensures !NoArgs(args) ==> r == Success(Outcome(args.value, reply))
                                && effects == old(effects) + [Issued(args.value)]
    {
      if args.None? || |args.value| == 0 {
        return Failure(EmptyArgs);
      }
      effects := effects + [Issued(args.value)];
      r := Success(Outcome(args.value, reply));
    }

    /**
     * `set_hostname(hostname)`: an omitted or empty hostname raises
     * `InvalidArgumentException` and launches nothing; otherwise
     * `hostnamectl set-hostname <hostname>` is launched and its result returned.
     */
    method SetHostname(hostname: Option<string>, reply: Exit) returns (r: Result<ProcessResult, Error>)
      modifies this
      ensures files == old(files)
      ensures Missing(hostname) ==> r == Failure(InvalidArgument) && effects == old(effects)
      ensures !Missing(hostname) ==>
                var argv := ["hostnamectl", "set-hostname", hostname.value];
                r == Success(Outcome(argv, reply)) && effects == old(effects) + [Issued(argv)]
    {
      if !AllPresent([hostname]) {
        return Failure(InvalidArgument);
      }
      r := RunSubprocess(Some(["hostnamectl", "set-hostname", hostname.value]), reply);
    }

    /**
     * `set_mut(mtu, device)`: an omitted or empty option raises
     * `InvalidArgumentException` and launches nothing; otherwise
     * `ip link set <device> mtu <mtu>` is launched and its result returned.
     */
    method SetMut(mtu: Option<string>, device: Option<string>, reply: Exit) returns (r: Result<ProcessResult, Error>)
      modifies this
      ensures files == old(files)
      ensures (Missing(mtu) || Missing(device)) ==> r == Failure(InvalidArgument) && effects == old(effects)
      ensures !Missing(mtu) && !Missing(device) ==>
                var argv := ["ip", "link", "set", device.value, "mtu", mtu.value];
                r == Success(Outcome(argv, reply)) && effects == old(effects) + [Issued(argv)]
    {
      if !AllPresent([mtu, device]) {
        assert Missing([mtu, device][0]) || Missing([mtu, device][1]);
        return Failure(InvalidArgument);
      }
      assert !Missing([mtu, device][0]) && !Missing([mtu, device][1]);
      r := RunSubprocess(Some(["ip", "link", "set", device.value, "mtu", mtu.value]), reply);
    }

    /**
     * `set_ipv4(address, netmask, device)`: an omitted or empty option raises
     * `InvalidArgumentException` and launches nothing; otherwise
     * `ip addr add <address> <netmask> dev <device>` is launched, its result
     * discarded, and `None` (here `()`) returned.
     */
    method SetIpv4(address: Option<string>, netmask: Option<string>, device: Option<string>, reply: Exit)
      returns (r: Result<(), Error>)
      modifies this
      ensures files == old(files)
      ensures (Missing(address) || Missing(netmask) || Missing(device)) ==>
                r == Failure(InvalidArgument) && effects == old(effects)
      ensures !Missing(address) && !Missing(netmask) && !Missing(device) ==>
                r == Success(())
                && effects == old(effects) + [Issued(["ip", "addr", "add", address.value, netmask.value, "dev", device.value])]
    {
      var given := [address, netmask, device];
      if !AllPresent(given) {
        assert Missing(given[0]) || Missing(given[1]) || Missing(given[2]);
        return Failure(InvalidArgument);
      }
      assert !Missing(given[0]) && !Missing(given[1]) && !Missing(given[2]);
      var _ := RunSubprocess(Some(["ip", "addr", "add", address.value, netmask.value, "dev", device.value]), reply);
      r := Success(());
    }

    /**
     * `set_dhcp_server(domain_name, begin_ip_range, end_ip_range, lease_time)`
     * with the configuration written where `udhcp` is told to look: an
     * omitted or empty option raises `InvalidArgumentException` before the
     * file is touched or anything launched; otherwise the rendered
     * configuration is written to `/etc/udhcp.conf`, then `udhcp
     * /etc/udhcp.conf` is launched and its result returned. When every value
     * is one the reader keeps intact, reading the configuration back gives
     * those values.
     */
    method SetDhcpServer(domain: Option<string>, begin: Option<string>, end: Option<string>, lease: Option<string>,
                         reply: Exit) returns (r: Result<ProcessResult, Error>)
      modifies this
      ensures (Missing(domain) || Missing(begin) || Missing(end) || Missing(lease)) ==>
                r == Failure(InvalidArgument) && effects == old(effects) && files == old(files)
      ensures !Missing(domain) && !Missing(begin) && !Missing(end) && !Missing(lease) ==>
                var text := MakeDhcpServerConfig(begin.value, end.value, lease.value, domain.value);
                var argv := ["udhcp", ConfPath];
                r == Success(Outcome(argv, reply))
                && files == old(files)[ConfPath := text]
                && effects == old(effects) + [Wrote(ConfPath, text), Issued(argv)]
      ensures !Missing(domain) && !Missing(begin) && !Missing(end) && !Missing(lease) ==>
                (ConfigValue(domain.value) && ConfigValue(begin.value) && ConfigValue(end.value) && ConfigValue(lease.value)
                 ==> GetDhcpServerConfig() == ["", begin.value, end.value, lease.value, domain.value, ""])
    {
      var given := [domain, begin, end, lease];
      if !AllPresent(given) {
        assert Missing(given[0]) || Missing(given[1]) || Missing(given[2]) || Missing(given[3]);
        return Failure(InvalidArgument);
      }
      assert !Missing(given[0]) && !Missing(given[1]) && !Missing(given[2]) && !Missing(given[3]);
      var text := MakeDhcpServerConfig(begin.value, end.value, lease.value, domain.value);
      files := files[ConfPath := text];
      effects := effects + [Wrote(ConfPath, text)];
      if ConfigValue(domain.value) && ConfigValue(begin.value) && ConfigValue(end.value) && ConfigValue(lease.value) {
        ReadBackMade(begin.value, end.value, lease.value, domain.value);
      }
      r := RunSubprocess(Some(["udhcp", ConfPath]), reply);
    }

    /**
     * `set_dhcp_server` as written: the configuration goes to the relative
     * path `etc/udhcp.conf`, resolved against the working directory, while
     * `udhcp` is pointed at `/etc/udhcp.conf`. Outside the root directory the
     * file `udhcp` reads is left as it was.
     */
    method SetDhcpServerAsWritten(domain: Option<string>, begin: Option<string>, end: Option<string>,
                                  lease: Option<string>, reply: Exit) returns (r: Result<ProcessResult, Error>)
      requires AbsoluteDir(cwd)
      modifies this
      ensures (Missing(domain) || Missing(begin) || Missing(end) || Missing(lease)) ==>
                r == Failure(InvalidArgument) && effects == old(effects) && files == old(files)
      ensures !Missing(domain) && !Missing(begin) && !Missing(end) && !Missing(lease) ==>
                var text := MakeDhcpServerConfig(begin.value, end.value, lease.value, domain.value);
                var path := Resolve(cwd, RelativeConfPath);
                var argv := ["udhcp", ConfPath];
                r == Success(Outcome(argv, reply))
                && files == old(files)[path := text]
                && effects == old(effects) + [Wrote(path, text), Issued(argv)]
      ensures cwd != "/" ==> Lookup(files, ConfPath) == Lookup(old(files), ConfPath)
    {
      var given := [domain, begin, end, lease];
      if !AllPresent(given) {
        assert Missing(given[0]) || Missing(given[1]) || Missing(given[2]) || Missing(given[3]);
        return Failure(InvalidArgument);
      }
      assert !Missing(given[0]) && !Missing(given[1]) && !Missing(given[2]) && !Missing(given[3]);
      var text := MakeDhcpServerConfig(begin.value, end.value, lease.value, domain.value);
      var path := Resolve(cwd, RelativeConfPath);
      RelativeConfPathResolution(cwd);
      files := files[path := text];
      effects := effects + [Wrote(path, text)];
      r := RunSubprocess(Some(["udhcp", ConfPath]), reply);
    }
  }
}
