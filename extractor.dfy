/** Extractors: a declared way of running one binary against a URL. An extractor owns a
    default argument list and an extra argument list, materialises them into `args`
    once, builds the command `[url, ...args]`, runs it in its output directory and
    classifies the finished process as succeeded or failed. Extractors register
    themselves by name in a settings registry. */
module Extractors {
  import opened Wrappers
  import opened Text
  import opened Subprocess

  /** Runs a binary with an argument list in a working directory (`Binary.exec`). */
  type Runner = (seq<string>, string) -> Completed

  /** Lists the entries of a directory that match a glob pattern (`Path.glob`). */
  type Lister = (string, string) -> seq<string>

  datatype ExtractorError =
    | EmptyArgument(fields: seq<string>)   // validation error naming each offending field
    | UnknownBinary(binary: string)        // the binary is not in the binaries registry

  datatype Status = Succeeded | Failed

  /** The record `extract` returns. */
  datatype ExtractResult = ExtractResult(
    status: Status,
    output: string,
    outputFiles: seq<string>,
    stdout: string,
    stderr: string,
    returncode: int)

  /** No argument is the empty string. */
  predicate NoEmptyArgs(args: seq<string>) {
    forall i :: 0 <= i < |args| ==> |args[i]| > 0
  }

  /** The argument-list validator: accepts a list exactly when none of its elements is
      empty, and then hands it back unchanged; None stands for the failed assertion. */
  function CheckArgs(args: seq<string>): (r: Option<seq<string>>)
    ensures r.Some? <==> forall a :: a in args ==> a != ""
    ensures r.Some? ==> r.value == args
  {
    if NoEmptyArgs(args) then Some(args)
    else
      var i :| 0 <= i < |args| && |args[i]| == 0;
      assert args[i] in args && args[i] == "";
      None
  }

  /** Concatenating two lists without empty arguments gives a list without empty
      arguments: materialised `args` never holds an empty string. */
  lemma NoEmptyArgsConcat(a: seq<string>, b: seq<string>)
    requires NoEmptyArgs(a) && NoEmptyArgs(b)
    ensures NoEmptyArgs(a + b)
  {
  }

  /** The record built from a finished process: succeeded exactly on exit code zero, the
      exit code passed through, stdout and stderr stripped, and as `output` the last line
      of the stripped stdout, which holds no newline, follows the last newline, and is empty
      exactly for blank output. */
  function ResultRecord(proc: Completed, outputFiles: seq<string>): (r: ExtractResult)
    ensures r.status == Succeeded <==> proc.returncode == 0
    ensures r.returncode == proc.returncode
    ensures r.stdout == Strip(proc.stdout) && r.stderr == Strip(proc.stderr)
    ensures !Contains(r.output, "\n")
    ensures EndsWith(r.stdout, r.output)
    ensures FollowsSep(r.stdout, r.output, "\n")
    ensures Blank(proc.stdout) <==> r.output == ""
    ensures r.outputFiles == outputFiles
  {
    LastLineOfStripped(Strip(proc.stdout));
    ExtractResult(
      if proc.returncode == 0 then Succeeded else Failed,
      LastPiece(Strip(proc.stdout), "\n"),
      outputFiles,
      Strip(proc.stdout),
      Strip(proc.stderr),
      proc.returncode)
  }

  /** A Python generator object: it is true in a boolean context whatever it would yield. */
  datatype Generator<T> = Generator(pending: seq<T>)

  predicate Truthy<T>(g: Generator<T>) {
    true
  }

  class Settings {
    /** The extractor registry: name -> extractor. */
    var extractors: map<string, BaseExtractor>

    constructor ()
      ensures extractors == map[]
    {
      extractors := map[];
    }
  }

  class BaseExtractor {
    const name: string
    const binary: string
    const defaultArgs: seq<string>
    const extraArgs: seq<string>
    var args: Option<seq<string>>

    /** Every argument list that passed validation holds no empty argument. */
    ghost predicate Valid()
      reads this
    {
      NoEmptyArgs(defaultArgs) && NoEmptyArgs(extraArgs) && (args.Some? ==> NoEmptyArgs(args.value))
    }

    /** Field assignment once the argument validators have accepted each list. */
    constructor (name: string, binary: string, defaultArgs: seq<string>, extraArgs: seq<string>,
                 args: Option<seq<string>>)
      requires NoEmptyArgs(defaultArgs) && NoEmptyArgs(extraArgs)
      requires args.Some? ==> NoEmptyArgs(args.value)
      ensures this.name == name && this.binary == binary
      ensures this.defaultArgs == defaultArgs && this.extraArgs == extraArgs && this.args == args
      ensures Valid()
    {
      this.name := name;
      this.binary := binary;
      this.defaultArgs := defaultArgs;
      this.extraArgs := extraArgs;
      this.args := args;
    }

    /** The model validator: absent `args` become `defaultArgs + extraArgs`; `args` the
        caller supplied stay as they are. */
    method ValidateModel()
      requires Valid()
      modifies this`args
      ensures old(args).Some? ==> args == old(args)
      ensures old(args).None? ==> args == Some(defaultArgs + extraArgs)
      ensures Valid()
    {
      if args.None? {
        NoEmptyArgsConcat(defaultArgs, extraArgs);
        args := Some(defaultArgs + extraArgs);
      }
    }

    /** Records this extractor under its name; every other entry is left alone, and an
        earlier extractor of the same name is replaced. */
    method Register(settings: Settings)
      modifies settings`extractors
      ensures settings.extractors == old(settings.extractors)[name := this]
      ensures forall k :: k in old(settings.extractors) && k != name ==>
        k in settings.extractors && settings.extractors[k] == old(settings.extractors)[k]
    {
      settings.extractors := settings.extractors[name := this];
    }

    /** The output directory: the extractor's name, whatever the snapshot. */
    function OutputPath(snapshot: string): string {
      name
    }

    /** As written: tests the glob generator itself, which is always true, so the
        answer is false for every snapshot. */
    function ShouldExtract(snapshot: string, glob: Lister): (b: bool)
      ensures !b
    {
      var outputDir := OutputPath(snapshot);
      if Truthy(Generator(glob(outputDir, "*.*"))) then false else true
    }

    /** What the check evidently means: extract unless the output directory already holds
        a file with an extension. */
    function ShouldExtractIntended(snapshot: string, glob: Lister): (b: bool)
      ensures b <==> glob(OutputPath(snapshot), "*.*") == []
    {
      var outputDir := OutputPath(snapshot);
      if glob(outputDir, "*.*") != [] then false else true
    }

    /** The command line: the URL first, then the materialised arguments in order (or
        `defaultArgs + extraArgs` when they were never materialised). */
    function Command(url: string): (cmd: seq<string>)
      reads this
      ensures |cmd| >= 1 && cmd[0] == url
      ensures args.Some? ==> cmd[1..] == args.value
      ensures args.None? ==> cmd[1..] == defaultArgs + extraArgs
    {
      if args.Some? then [url] + args.value else [url] + defaultArgs + extraArgs
    }

    /** Runs `cmd` with this extractor's binary in `pwd` (the current directory when
        absent); fails when the binary is not registered. */
    function Exec(cmd: seq<string>, pwd: Option<string>, binaries: map<string, Runner>): (r: Result<Completed, ExtractorError>)
      ensures r.Err? <==> binary !in binaries
      ensures r.Err? ==> r.error == UnknownBinary(binary)
      ensures r.Ok? ==> r.value == binaries[binary](cmd, if pwd.Some? then pwd.value else ".")
    {
      var dir := if pwd.Some? then pwd.value else ".";
      if binary in binaries then Ok(binaries[binary](cmd, dir)) else Err(UnknownBinary(binary))
    }

    /** One extraction: run the command in the output directory and classify the result.
        A non-zero exit is a failed record, never an error; the only error is an
        unregistered binary. */
    function Extract(url: string, binaries: map<string, Runner>, glob: Lister): (r: Result<ExtractResult, ExtractorError>)
      reads this
      ensures r.Err? <==> binary !in binaries
      ensures r.Ok? ==>
        var proc := binaries[binary](Command(url), OutputPath(url));
        r.value == ResultRecord(proc, glob(OutputPath(url), "*.*"))
    {
      var outputDir := OutputPath(url);
      var cmd := Command(url);
      match Exec(cmd, Some(outputDir), binaries)
      case Err(e) => Err(e)
      case Ok(proc) => Ok(ResultRecord(proc, glob(outputDir, "*.*")))
    }
  }

  /** Constructing an extractor: each argument list is validated (an absent `args` is not),
      every failing field is reported, and on success the model validator materialises
      `args`. */
  method NewExtractor(name: string, binary: string, defaultArgs: seq<string>, extraArgs: seq<string>,
                      args: Option<seq<string>>)
    returns (r: Result<BaseExtractor, ExtractorError>)
    ensures r.Ok? <==> NoEmptyArgs(defaultArgs) && NoEmptyArgs(extraArgs) && (args.Some? ==> NoEmptyArgs(args.value))
    ensures r.Err? ==> r.error == EmptyArgument(
      (if NoEmptyArgs(defaultArgs) then [] else ["default_args"])
      + (if NoEmptyArgs(extraArgs) then [] else ["extra_args"])
      + (if args.None? || NoEmptyArgs(args.value) then [] else ["args"]))
    ensures r.Ok? ==>
      && fresh(r.value) && r.value.Valid()
      && r.value.name == name && r.value.binary == binary
      && r.value.defaultArgs == defaultArgs && r.value.extraArgs == extraArgs
      && r.value.args == Some(if args.Some? then args.value else defaultArgs + extraArgs)
  {
    var failing: seq<string> := [];
    if CheckArgs(defaultArgs).None? {
      failing := failing + ["default_args"];
    }
    if CheckArgs(extraArgs).None? {
      failing := failing + ["extra_args"];
    }
    if args.Some? && CheckArgs(args.value).None? {
      failing := failing + ["args"];
    }
    if failing != [] {
      return Err(EmptyArgument(failing));
    }
    var e := new BaseExtractor(name, binary, defaultArgs, extraArgs, args);
    e.ValidateModel();
    return Ok(e);
  }

  /** The output directory depends on nothing but the extractor's name. */
  lemma OutputPathOnlyByName(a: BaseExtractor, b: BaseExtractor, s1: string, s2: string)
    requires a.name == b.name
    ensures a.OutputPath(s1) == b.OutputPath(s2)
  {
  }

  /** The shipped `should_extract` declines even an empty output directory, where the
      intended check would extract. */
  lemma ShouldExtractDeclinesEmptyDirectory(e: BaseExtractor, snapshot: string)
    ensures var empty: Lister := (d: string, p: string) => [];
      !e.ShouldExtract(snapshot, empty) && e.ShouldExtractIntended(snapshot, empty)
  {
  }
}
