/**
 * The text handling of the SSH component
 * (kompics-daemon-launcher/src/main/java/se/sics/kompics/wan/master/ssh/SshComponent.java)
 * that does not depend on a live connection: the exit-code sentinel that `runCommand`
 * appends to each command and looks for in its output, the parse of `md5sum` output in
 * `getRemoteFileList`, the naming-type and filter defaults of the download path, and the
 * two command builders.
 */
module SshText {
  import opened Wrappers
  import opened JavaText

  /** `EXIT_CODE_IDENTIFIER`: echoed, followed by `$?`, after every command. */
  const ExitCodeIdentifier: string := "=:=:=EXIT STATUS=="

  /** `SSH_CONNECT_TIMEOUT`, in milliseconds. */
  const SshConnectTimeout: int := 15000

  const Flat: string := "flat"
  const Hierarchy: string := "hierarchy"

  /** A command with its timeout, its id and whether an error stops the session. */
  datatype CommandSpec = CommandSpec(command: string, timeout: int, commandId: int, stopOnError: bool)

  // ---------------------------------------------------------------------------------
  // The exit-code sentinel

  /** Why the exit code could not be read from a sentinel line. */
  datatype ExitCodeError =
    | MissingField  // `split[1]` does not exist (ArrayIndexOutOfBoundsException)
    | NotANumber    // `Integer.parseInt` fails (NumberFormatException)

  /**
   * The exit code in a stdout line that starts with the sentinel: the second `==`-separated
   * field, parsed as a 32-bit integer. A line with fewer than two fields and a field that
   * does not parse are distinct failures.
   */
  function ExitCode(line: string): (r: Result<int, ExitCodeError>)
    ensures r.Success? ==> MinInt <= r.value <= MaxInt
    ensures r == Failure(MissingField) <==> |Split(line, "==")| < 2
    ensures |Split(line, "==")| >= 2 ==>
      && (r.Success? <==> ParseInt(Split(line, "==")[1]).Some?)
      && (r.Success? ==> ParseInt(Split(line, "==")[1]) == Some(r.value))
  {
    var fields := Split(line, "==");
    if |fields| < 2 then Failure(MissingField)
    else match ParseInt(fields[1])
      case Some(code) => Success(code)
      case None => Failure(NotANumber)
  }

  lemma {:induction false} NoEqualsInNumber(n: int)
    ensures '=' !in IntToString(n)
  {
    var s := IntToString(n);
    if n < 0 {
      DecimalStringDigits(-n);
      assert s == "-" + DecimalString(-n);
      forall i | 0 <= i < |s|
        ensures s[i] != '='
      {
        if i > 0 {
          assert s[i] == DecimalString(-n)[i - 1];
        }
      }
    } else {
      DecimalStringDigits(n);
    }
  }

  /** Before its final `==`, the sentinel holds no two consecutive `=`. */
  lemma LabelHasNoDoubleEquals(j: int)
    requires 0 <= j < 16
    ensures !(ExitCodeIdentifier[j] == '=' && ExitCodeIdentifier[j + 1] == '=')
  {
    var id := ExitCodeIdentifier;
    assert id[1] == ':' && id[3] == ':' && id[5] == 'E';
    assert forall k :: 5 <= k < 16 ==> id[k] != '=';
  }

  /** The sentinel followed by text without `=` splits into the sentinel's first field and that text. */
  lemma {:induction false} SentinelSplit(t: string)
    requires '=' !in t && |t| > 0
    ensures Split(ExitCodeIdentifier + t, "==") == [ExitCodeIdentifier[..16], t]
  {
    var line := ExitCodeIdentifier + t;
    assert OccursAt(line, "==", 16) by {
      assert line[16..18] == ExitCodeIdentifier[16..18];
    }
    forall j | 0 <= j < 16
      ensures !OccursAt(line, "==", j)
    {
      LabelHasNoDoubleEquals(j);
      assert line[j..j + 2][0] == ExitCodeIdentifier[j] && line[j..j + 2][1] == ExitCodeIdentifier[j + 1];
      assert line[j..j + 2][0] != '=' || line[j..j + 2][1] != '=';
    }
    assert Find(line, "==") == 16;
    assert line[18..] == t;
    assert Find(t, "==") < 0 by {
      var k := Find(t, "==");
      if k >= 0 {
        assert false;
      }
    }
    assert SplitAll(t, "==") == [t];
    assert SplitAll(line, "==") == [line[..16], t];
    assert line[..16] == ExitCodeIdentifier[..16];
  }

  /** The line the remote shell echoes for exit status `n` yields exit code `n`. */
  lemma ExitCodeRoundTrip(n: int)
    requires MinInt <= n <= MaxInt
    ensures StartsWith(ExitCodeIdentifier + IntToString(n), ExitCodeIdentifier)
    ensures ExitCode(ExitCodeIdentifier + IntToString(n)) == Success(n)
  {
    NoEqualsInNumber(n);
    DecimalStringDigits(if n < 0 then -n else n);
    SentinelSplit(IntToString(n));
    ParseIntRoundTrip(n);
    assert (ExitCodeIdentifier + IntToString(n))[..|ExitCodeIdentifier|] == ExitCodeIdentifier;
  }

  /** The index of the first line that starts with the sentinel, or the number of lines. */
  function FirstExitLine(lines: seq<string>): (k: nat)
    ensures k <= |lines|
    ensures forall j :: 0 <= j < k ==> !StartsWith(lines[j], ExitCodeIdentifier)
    ensures k < |lines| ==> StartsWith(lines[k], ExitCodeIdentifier)
  {
    if |lines| == 0 then 0
    else if StartsWith(lines[0], ExitCodeIdentifier) then 0
    else 1 + FirstExitLine(lines[1..])
  }

  /**
   * The stdout loop of both `runCommand` variants over the lines the command printed:
   * every line before the sentinel is received as data, and the sentinel line, if any,
   * gives the exit code.
   */
  method ReadStdout(lines: seq<string>) returns (data: seq<string>, exitCode: Option<Result<int, ExitCodeError>>)
    ensures data == lines[..FirstExitLine(lines)]
    ensures FirstExitLine(lines) < |lines| ==> exitCode == Some(ExitCode(lines[FirstExitLine(lines)]))
    ensures FirstExitLine(lines) == |lines| ==> exitCode == None
  {
    data := [];
    var i := 0;
    while i < |lines|
      invariant 0 <= i <= FirstExitLine(lines)
      invariant data == lines[..i]
    {
      var line := lines[i];
      if StartsWith(line, ExitCodeIdentifier) {
        return data, Some(ExitCode(line));
      }
      data := data + [line];
      i := i + 1;
    }
    exitCode := None;
  }

  // ---------------------------------------------------------------------------------
  // md5sum output

  /** What one line of `md5sum` output yields. */
  datatype Md5Line =
    | Entry(md5: string, path: string)
    | NoEntry    // no space, or a space first
    | Malformed  // the first space is the last character (StringIndexOutOfBoundsException)

  /**
   * A line whose first space is at index k > 0 gives the md5 before it and the path from
   * index k + 2 on (md5sum puts a second character, ' ' or '*', before the path).
   */
  function Md5Entry(line: string): (r: Md5Line)
    ensures r.NoEntry? <==> ' ' !in line || line[0] == ' '
    ensures r.Malformed? <==> ' ' in line && line[0] != ' ' && IndexOf(line, ' ') == |line| - 1
    ensures r.Entry? ==> && |r.md5| > 0 && ' ' !in r.md5 && |r.md5| + 2 <= |line|
  {
    var index := IndexOf(line, ' ');
    if index > 0 then
      if index + 2 <= |line| then Entry(line[..index], line[index + 2..])
      else Malformed
    else NoEntry
  }

  /** An md5sum entry is its checksum, the space, the mode character and the path, in that order. */
  lemma Md5EntryRebuildsLine(line: string)
    ensures var r := Md5Entry(line);
      r.Entry? ==> line == r.md5 + " " + [line[|r.md5| + 1]] + r.path
  {
    var index := IndexOf(line, ' ');
    if index > 0 && index + 2 <= |line| {
      assert line == line[..index] + " " + [line[index + 1]] + line[index + 2..];
    }
  }

  /** An md5sum line built from a digest, the mode character and a path parses back to them. */
  lemma Md5EntryRoundTrip(md5: string, mode: char, path: string)
    requires |md5| > 0 && ' ' !in md5
    ensures Md5Entry(md5 + " " + [mode] + path) == Entry(md5, path)
  {
    var line := md5 + " " + [mode] + path;
    var index := IndexOf(line, ' ');
    assert line[|md5|] == ' ';
    assert line[..|md5|] == md5;
    assert line[|md5| + 2..] == path;
  }

  /** A remote file found by `getRemoteFileList`. */
  datatype FileInfo = FileInfo(path: string, md5: string, hostname: string)

  /** The files listed by the output lines, line 0 skipped; failure names the line that threw. */
  function FileList(lines: seq<string>, hostname: string): Result<seq<FileInfo>, nat>
    decreases |lines|
  {
    if |lines| <= 1 then Success([])
    else match FileList(lines[..|lines| - 1], hostname)
      case Failure(i) => Failure(i)
      case Success(files) =>
        match Md5Entry(lines[|lines| - 1])
        case Entry(md5, path) => Success(files + [FileInfo(path, md5, hostname)])
        case NoEntry => Success(files)
        case Malformed => Failure(|lines| - 1)
  }

  /** Every file listed has a non-empty md5 without spaces and the connection's host; at most one per line. */
  lemma {:induction false} FileListEntries(lines: seq<string>, hostname: string)
    ensures FileList(lines, hostname).Success? ==>
      var files := FileList(lines, hostname).value;
      && |files| < |lines| + 1
      && (|lines| > 0 ==> |files| <= |lines| - 1)
      && forall f :: f in files ==> |f.md5| > 0 && ' ' !in f.md5 && f.hostname == hostname
    decreases |lines|
  {
    if |lines| > 1 {
      FileListEntries(lines[..|lines| - 1], hostname);
    }
  }

  /**
   * The listing fails exactly when some line after the first is malformed, and then names
   * the first such line.
   */
  lemma FileListFailsOnFirstMalformed(lines: seq<string>, hostname: string)
    ensures FileList(lines, hostname).Success? <==> forall j :: 1 <= j < |lines| ==> !Md5Entry(lines[j]).Malformed?
    ensures var r := FileList(lines, hostname);
      r.Failure? ==>
        && 1 <= r.error < |lines| && Md5Entry(lines[r.error]).Malformed?
        && forall j :: 1 <= j < r.error ==> !Md5Entry(lines[j]).Malformed?
  {
    FileListSucceedsWithoutMalformed(lines, hostname);
    FileListFailureIsFirstMalformed(lines, hostname);
  }

  lemma {:induction false} FileListSucceedsWithoutMalformed(lines: seq<string>, hostname: string)
    ensures FileList(lines, hostname).Success? <==> forall j :: 1 <= j < |lines| ==> !Md5Entry(lines[j]).Malformed?
    decreases |lines|
  {
    if |lines| > 1 {
      var front := lines[..|lines| - 1];
      FileListSucceedsWithoutMalformed(front, hostname);
      assert forall j :: 0 <= j < |front| ==> front[j] == lines[j];
    }
  }

  lemma {:induction false} FileListFailureIsFirstMalformed(lines: seq<string>, hostname: string)
    ensures var r := FileList(lines, hostname);
      r.Failure? ==>
        && 1 <= r.error < |lines| && Md5Entry(lines[r.error]).Malformed?
        && forall j :: 1 <= j < r.error ==> !Md5Entry(lines[j]).Malformed?
    decreases |lines|
  {
    if |lines| > 1 {
      var front := lines[..|lines| - 1];
      FileListFailureIsFirstMalformed(front, hostname);
      FileListSucceedsWithoutMalformed(front, hostname);
      assert forall j :: 0 <= j < |front| ==> front[j] == lines[j];
    }
  }

  /** A failure on a line is the failure of every longer list of lines. */
  lemma {:induction false} FileListFailureSticks(lines: seq<string>, n: nat, hostname: string)
    requires n <= |lines| && FileList(lines[..n], hostname).Failure?
    ensures FileList(lines, hostname) == FileList(lines[..n], hostname)
    decreases |lines| - n
  {
    if n < |lines| {
      var longer := lines[..n + 1];
      assert longer[..|longer| - 1] == lines[..n];
      FileListFailureSticks(lines, n + 1, hostname);
    } else {
      assert lines[..n] == lines;
    }
  }

  /** What line `i` does to the files listed so far, as FileList takes one more line. */
  function LineStep(line: string, i: nat, hostname: string, files: seq<FileInfo>): Result<seq<FileInfo>, nat> {
    match Md5Entry(line)
    case Entry(md5, path) => Success(files + [FileInfo(path, md5, hostname)])
    case NoEntry => Success(files)
    case Malformed => Failure(i)
  }

  /** One more line extends the result by what that line yields. */
  lemma FileListStep(lines: seq<string>, i: nat, hostname: string, files: seq<FileInfo>)
    requires 1 <= i < |lines| && FileList(lines[..i], hostname) == Success(files)
    ensures FileList(lines[..i + 1], hostname) == LineStep(lines[i], i, hostname, files)
  {
    var next := lines[..i + 1];
    assert next[..|next| - 1] == lines[..i];
    assert next[|next| - 1] == lines[i];
  }

  /**
   * One iteration of the parsing loop of `getRemoteFileList`: line `i` extends the files
   * listed so far, or fails on the index of its first space.
   */
  method ListLine(line: string, i: nat, hostname: string, files: seq<FileInfo>) returns (r: Result<seq<FileInfo>, nat>)
    ensures r == LineStep(line, i, hostname, files)
  {
    var index := IndexOf(line, ' ');
    if index > 0 {
      if index + 2 > |line| {
        return Failure(i);
      }
      return Success(files + [FileInfo(line[index + 2..], line[..index], hostname)]);
    }
    return Success(files);
  }

  /** The rest of the listing from line `i` on, line by line, with `files` listed before it. */
  function ListFrom(lines: seq<string>, i: nat, hostname: string, files: seq<FileInfo>): Result<seq<FileInfo>, nat>
    decreases |lines| - i
  {
    if i >= |lines| then Success(files)
    else match LineStep(lines[i], i, hostname, files)
      case Failure(k) => Failure(k)
      case Success(more) => ListFrom(lines, i + 1, hostname, more)
  }

  /** Continuing line by line from a successful prefix gives the listing of all lines. */
  lemma {:induction false} ListFromIsFileList(lines: seq<string>, i: nat, hostname: string, files: seq<FileInfo>)
    requires 1 <= i <= |lines| && FileList(lines[..i], hostname) == Success(files)
    ensures ListFrom(lines, i, hostname, files) == FileList(lines, hostname)
    decreases |lines| - i
  {
    if i == |lines| {
      assert lines[..i] == lines;
    } else {
      FileListStep(lines, i, hostname, files);
      var step := LineStep(lines[i], i, hostname, files);
      if step.Failure? {
        FileListFailureSticks(lines, i + 1, hostname);
      } else {
        ListFromIsFileList(lines, i + 1, hostname, step.value);
      }
    }
  }

  /** The parsing loop of `getRemoteFileList` over the output lines of the md5sum command. */
  method RemoteFileList(lines: seq<string>, hostname: string) returns (r: Result<seq<FileInfo>, nat>)
    ensures r == FileList(lines, hostname)
  {
    if |lines| == 0 {
      return Success([]);
    }
    var files: seq<FileInfo> := [];
    var i := 1;
    ListFromIsFileList(lines, 1, hostname, []);
    while i < |lines|
      invariant 1 <= i <= |lines|
      invariant ListFrom(lines, i, hostname, files) == FileList(lines, hostname)
    {
      var step := ListLine(lines[i], i, hostname, files);
      if step.Failure? {
        return step;
      }
      files := step.value;
      i := i + 1;
    }
    r := Success(files);
  }

  // ---------------------------------------------------------------------------------
  // Download defaults and command builders

  /** `getLocalFilenameType`: "flat" and "hierarchy" are kept, anything else (null included) is "hierarchy". */
  function LocalFilenameType(namingType: Option<string>): (r: string)
    ensures r == Flat || r == Hierarchy
    ensures namingType == Some(Flat) || namingType == Some(Hierarchy) ==> r == namingType.value
    ensures namingType != Some(Flat) ==> r == Hierarchy
  {
    if namingType == Some(Flat) then Flat
    else if namingType == Some(Hierarchy) then Hierarchy
    else Hierarchy
  }

  lemma LocalFilenameTypeIdempotent(namingType: Option<string>)
    ensures LocalFilenameType(Some(LocalFilenameType(namingType))) == LocalFilenameType(namingType)
  {
  }

  /** `download`'s sanity check: a null or empty filter matches everything, ".". */
  function DownloadFilter(fileFilter: Option<string>): (r: string)
    ensures |r| > 0
    ensures fileFilter.None? || fileFilter == Some("") ==> r == "."
    ensures fileFilter.Some? && fileFilter.value != "" ==> r == fileFilter.value
  {
    if fileFilter.None? || |fileFilter.value| == 0 then "." else fileFilter.value
  }

  lemma DownloadFilterIdempotent(fileFilter: Option<string>)
    ensures DownloadFilter(Some(DownloadFilter(fileFilter))) == DownloadFilter(fileFilter)
  {
  }

  const FindPrefix: string := "md5sum `find "
  const FindSuffix: string := "` 2> /dev/null"

  /**
   * `generateCommand`: md5sum over the files `find` lists under the remote directory,
   * piped through `grep` when a filter is given.
   */
  function GenerateCommand(remoteDir: string, filter: Option<string>): (r: CommandSpec)
    ensures r.timeout == 0 && r.commandId == -1 && !r.stopOnError
    ensures filter.None? || filter == Some("") ==> r.command == FindPrefix + remoteDir + FindSuffix
    ensures filter.Some? && filter.value != "" ==>
      r.command == FindPrefix + remoteDir + " | grep " + filter.value + FindSuffix
  {
    if filter.Some? && filter.value != "" then
      CommandSpec(FindPrefix + remoteDir + " | grep " + filter.value + FindSuffix, 0, -1, false)
    else
      CommandSpec(FindPrefix + remoteDir + FindSuffix, 0, -1, false)
  }

  /** A null and an empty filter give the same command; any other filter gives a different one. */
  lemma GenerateCommandFilters(remoteDir: string, filter: string)
    ensures GenerateCommand(remoteDir, None) == GenerateCommand(remoteDir, Some(""))
    ensures filter != "" ==> GenerateCommand(remoteDir, Some(filter)) != GenerateCommand(remoteDir, None)
  {
    if filter != "" {
      var a := GenerateCommand(remoteDir, Some(filter)).command;
      var b := GenerateCommand(remoteDir, None).command;
      assert |a| > |b|;
    }
  }

  /** `md5CheckCommand`: md5sum of one remote path, no timeout, id 0, not stop-on-error. */
  function Md5CheckCommand(fullRemotePath: string): (r: CommandSpec)
    ensures StartsWith(r.command, "md5sum ") && r.command[7..] == fullRemotePath
    ensures r.timeout == 0 && r.commandId == 0 && !r.stopOnError
  {
    CommandSpec("md5sum " + fullRemotePath, 0, 0, false)
  }

  /**
   * A path without spaces is passed to the remote shell as one argument: split on spaces,
   * the command is exactly `md5sum` followed by the path.
   */
  lemma Md5CheckCommandArguments(fullRemotePath: string)
    requires |fullRemotePath| > 0 && ' ' !in fullRemotePath
    ensures Split(Md5CheckCommand(fullRemotePath).command, " ") == ["md5sum", fullRemotePath]
  {
    var s := Md5CheckCommand(fullRemotePath).command;
    assert s == "md5sum " + fullRemotePath;
    assert OccursAt(s, " ", 6);
    forall j | 0 <= j < 6
      ensures !OccursAt(s, " ", j)
    {
      assert s[j..j + 1][0] == s[j];
    }
    assert Find(s, " ") == 6;
    assert s[..6] == "md5sum" && s[7..] == fullRemotePath;
    AbsentCharNotFound(fullRemotePath, ' ');
    assert SplitAll(fullRemotePath, " ") == [fullRemotePath];
    assert SplitAll(s, " ") == ["md5sum", fullRemotePath];
  }
}
