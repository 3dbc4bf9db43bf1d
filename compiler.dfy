/**
 * drDoctrineCompiler: renders a launcher script that calls Doctrine::compile, writes it
 * to disk and makes it executable, runs it as a child process, and reads the outcome
 * from the child's exit code (1: success, 0: failure, anything else: protocol error).
 */
module DoctrineCompiler {
  import opened Wrappers
  import opened PhpText
  import opened Host

  /** The four constructor arguments. */
  datatype Settings = Settings(
    doctrinePath: string,     // directory holding Doctrine.php
    compiledPath: Path,       // where the compiled classes go, file name included
    compilerPath: Path,       // where the generated script goes, file name included
    drivers: seq<string>)     // database drivers whose classes are compiled in as well

  /** The exceptions the compiler throws, one constructor per throw site. */
  datatype CompilerError =
    | CouldNotSave(path: Path)
    | NotExecutable(path: Path)
    | CompilationFailed(message: Option<string>)
    | CouldNotDelete(path: Path)
    | UnknownReturnValue(code: int)

  /** The digit character for 0 <= d < 10. */
  function DigitChar(d: int): char
    requires 0 <= d < 10
  {
    (('0' as int) + d) as char
  }

  predicate IsDigit(c: char)
  {
    '0' <= c <= '9'
  }

  /** The number a string of decimal digits denotes, most significant digit first. */
  function DigitsValue(digits: string): int
    requires forall i :: 0 <= i < |digits| ==> IsDigit(digits[i])
  {
    if digits == [] then 0
    else 10 * DigitsValue(digits[..|digits| - 1]) + (digits[|digits| - 1] as int - '0' as int)
  }

  /**
   * PHP's decimal rendering of an integer, as sprintf's %s gives it: the digits of the
   * value without leading zeros, after a '-' for a negative value.
   */
  function Decimal(n: int): (text: string)
    ensures text != []
    ensures n >= 0 ==> forall i :: 0 <= i < |text| ==> IsDigit(text[i])
    ensures n >= 0 ==> DigitsValue(text) == n
    ensures n >= 0 && |text| > 1 ==> text[0] != '0'
    ensures n < 0 ==> text[0] == '-' && text[1..] == Decimal(-n)
    decreases if n < 0 then 1 - n else n
  {
    if n < 0 then "-" + Decimal(-n)
    else if n < 10 then [DigitChar(n)]
    else
      var front := Decimal(n / 10);
      var text := front + [DigitChar(n % 10)];
      assert text[..|text| - 1] == front;
      text
  }

  /** Different exit codes are reported with different texts. */
  lemma {:induction false} DecimalInjective(a: int, b: int)
    ensures Decimal(a) == Decimal(b) ==> a == b
    decreases if a < 0 then 1 - a else a
  {
    if Decimal(a) == Decimal(b) {
      if a < 0 && b < 0 {
        DecimalInjective(-a, -b);
      }
    }
  }

  const CouldNotSaveText := "Could not save the generated compiler file \""
  const NotExecutableText := "Could not make the generated compiler file \""
  const NotExecutableTail := "\" executable by the user"
  const CouldNotDeleteText := "Could not delete the generated compiler file \""
  const UnknownValueText := "The compiler returned an unknown value: \""

  /** The text of the drDoctrineCompilerException thrown for each error. */
  function Message(e: CompilerError): (m: Option<string>)
    ensures e.CompilationFailed? ==> m == e.message
    ensures !e.CompilationFailed? ==> m.Some?
  {
    match e
    case CouldNotSave(path) => Some(CouldNotSaveText + path + "\"")
    case NotExecutable(path) => Some(NotExecutableText + path + NotExecutableTail)
    case CompilationFailed(message) => message
    case CouldNotDelete(path) => Some(CouldNotDeleteText + path + "\"")
    case UnknownReturnValue(code) => Some(UnknownValueText + Decimal(code) + "\"")
  }

  /** The character at index 10 of each fixed message text, which tells the texts apart. */
  function Mark(e: CompilerError): char
  {
    match e
    case CouldNotSave(_) => 's'
    case NotExecutable(_) => 'm'
    case CouldNotDelete(_) => 'd'
    case UnknownReturnValue(_) => 'e'
    case CompilationFailed(_) => ' '
  }

  lemma MessageMark(e: CompilerError)
    requires !e.CompilationFailed?
    ensures |Message(e).value| > 10 && Message(e).value[10] == Mark(e)
  {
    match e
    case CouldNotSave(p) =>
      assert CouldNotSaveText[10] == 's';
    case NotExecutable(p) =>
      assert NotExecutableText[10] == 'm';
    case CouldNotDelete(p) =>
      assert CouldNotDeleteText[10] == 'd';
    case UnknownReturnValue(code) =>
      assert UnknownValueText[10] == 'e';
  }

  /**
   * The message of every error other than a failed compilation names the error and the
   * path or exit code it carries: two such errors with one text are the same error.
   */
  lemma MessageInjective(a: CompilerError, b: CompilerError)
    requires !a.CompilationFailed? && !b.CompilationFailed?
    ensures Message(a) == Message(b) ==> a == b
  {
    if Message(a) == Message(b) {
      MessageMark(a);
      MessageMark(b);
      match a
      case CouldNotSave(p) =>
        UnwrapMiddle(CouldNotSaveText, p, b.path, "\"");
      case NotExecutable(p) =>
        UnwrapMiddle(NotExecutableText, p, b.path, NotExecutableTail);
      case CouldNotDelete(p) =>
        UnwrapMiddle(CouldNotDeleteText, p, b.path, "\"");
      case UnknownReturnValue(code) =>
        UnwrapMiddle(UnknownValueText, Decimal(code), Decimal(b.code), "\"");
        DecimalInjective(code, b.code);
    }
  }

  /** Whether each filesystem call that can fail for an untracked reason succeeds. */
  datatype HostOutcome = HostOutcome(
    scratchDirOk: bool,   // mkdirs(dirname(compiler path))
    writeOk: bool,        // file_put_contents(compiler path)
    chmodOk: bool,        // chmod(compiler path, 0775)
    outputDirOk: bool,    // mkdirs(dirname(compiled path))
    removeOk: bool)       // remove(compiler path)

  // The launcher template, kept in short pieces; the three placeholders sit between them.
  const PathToDoctrineKey := "%path_to_doctrine%"
  const CompiledPathKey := "%compiled_path%"
  const DriversKey := "%drivers%"

  const TemplateHead := "#!/usr/bin/env php\n" + "<?php\n" + "require_once('"
  const AutoloadLine := "spl_autoload_register(" + "array('Doctrine', 'autoload'));\n"
  const CompileCall := "  $target = Doctrine::compile('"
  const TemplateAfterDoctrine := "');\n" + AutoloadLine + "\n" + "try \n" + "{ \n" + CompileCall
  const TemplateAfterCompiled := "', array("
  const EchoTarget := "  echo $target;\n"
  const CatchLine := "catch (Doctrine_Compiler_Exception $e)\n"
  const EchoMessage := "  echo $e->getMessage();\n"
  const TemplateTail :=
    "));\n" + EchoTarget + "  exit(1);\n" + "} \n" + CatchLine + "{\n" + EchoMessage + "  exit(0);\n" + "}\n"

  const Template := TemplateHead + (PathToDoctrineKey + (TemplateAfterDoctrine +
    (CompiledPathKey + (TemplateAfterCompiled + (DriversKey + TemplateTail)))))

  /** sprintf("'%s'", $driver); the name is not escaped. */
  function Quote(driver: string): string
  {
    "'" + driver + "'"
  }

  function QuoteAll(drivers: seq<string>): seq<string>
  {
    seq(|drivers|, i requires 0 <= i < |drivers| => Quote(drivers[i]))
  }

  /** The text put in place of %drivers%: the quoted names joined by ", ". */
  function DriversList(drivers: seq<string>): string
  {
    Implode(", ", QuoteAll(drivers))
  }

  /** The strtr table, in the order the source lists it, given the rendered driver list. */
  function Replacements(s: Settings, driversList: string): seq<(string, string)>
  {
    [(CompiledPathKey, s.compiledPath),
     (DriversKey, driversList),
     (PathToDoctrineKey, s.doctrinePath + "/Doctrine.php")]
  }

  /** The foreach loop that wraps every driver name in single quotes, in order. */
  method QuoteDrivers(drivers: seq<string>) returns (quoted: seq<string>)
    ensures |quoted| == |drivers|
    ensures forall i :: 0 <= i < |drivers| ==> quoted[i] == "'" + drivers[i] + "'"
  {
    quoted := [];
    for i := 0 to |drivers|
      invariant |quoted| == i
      invariant forall j :: 0 <= j < i ==> quoted[j] == "'" + drivers[j] + "'"
    {
      quoted := quoted + [Quote(drivers[i])];
    }
  }

  /** With no drivers the call reads `array()`; otherwise each further driver adds ", 'name'". */
  lemma DriversListAppend(drivers: seq<string>, driver: string)
    ensures DriversList([]) == ""
    ensures DriversList([driver]) == "'" + driver + "'"
    ensures drivers != [] ==> DriversList(drivers + [driver]) == DriversList(drivers) + ", '" + driver + "'"
  {
    assert QuoteAll([driver]) == ["'" + driver + "'"];
    if drivers != [] {
      assert QuoteAll(drivers + [driver]) == QuoteAll(drivers) + [Quote(driver)];
      ImplodeAppend(", ", QuoteAll(drivers), Quote(driver));
    }
  }

  lemma ReplacementsAreDistinctPlaceholders(s: Settings, driversList: string)
    ensures KeysStartWith(Replacements(s, driversList), '%')
    ensures PrefixFree(Replacements(s, driversList))
  {
    var keys := [CompiledPathKey, DriversKey, PathToDoctrineKey];
    assert CompiledPathKey[1] == 'c' && DriversKey[1] == 'd' && PathToDoctrineKey[1] == 'p';
    forall i, j | 0 <= i < 3 && 0 <= j < 3 && i != j
      ensures !(Replacements(s, driversList)[i].0 <= Replacements(s, driversList)[j].0)
    {
      assert Replacements(s, driversList)[i].0 == keys[i] && Replacements(s, driversList)[j].0 == keys[j];
      assert keys[i][1] != keys[j][1];
    }
  }

  // The literal text of the template holds no '%', so only the placeholders match a key.
  lemma HeadHasNoPlaceholder()
    ensures '%' !in TemplateHead
  {
    assert '%' !in "#!/usr/bin/env php\n";
  }

  lemma AutoloadHasNoPlaceholder()
    ensures '%' !in AutoloadLine
  {
    assert '%' !in "spl_autoload_register(";
  }

  lemma CompileCallHasNoPlaceholder()
    ensures '%' !in CompileCall
  {
  }

  lemma AfterDoctrineHasNoPlaceholder()
    ensures '%' !in TemplateAfterDoctrine
  {
    AutoloadHasNoPlaceholder();
    CompileCallHasNoPlaceholder();
  }

  lemma EchoesHaveNoPlaceholder()
    ensures '%' !in EchoTarget && '%' !in EchoMessage
  {
  }

  lemma CatchHasNoPlaceholder()
    ensures '%' !in CatchLine
  {
  }

  lemma TailHasNoPlaceholder()
    ensures '%' !in TemplateTail
  {
    EchoesHaveNoPlaceholder();
    CatchHasNoPlaceholder();
  }

  /** strtr over text with three placeholders, kept abstract so that no literal is unfolded. */
  lemma StrtrThreeSlots(pairs: seq<(string, string)>, i: nat, j: nat, k: nat,
                        head: string, mid1: string, mid2: string, tail: string)
    requires i < |pairs| && j < |pairs| && k < |pairs|
    requires KeysStartWith(pairs, '%') && PrefixFree(pairs)
    requires '%' !in head && '%' !in mid1 && '%' !in mid2 && '%' !in tail
    ensures Strtr(head + (pairs[i].0 + (mid1 + (pairs[j].0 + (mid2 + (pairs[k].0 + tail))))), pairs)
         == head + (pairs[i].1 + (mid1 + (pairs[j].1 + (mid2 + (pairs[k].1 + tail)))))
  {
    var atK := pairs[k].0 + tail;
    var atJ := pairs[j].0 + (mid2 + atK);
    var atI := pairs[i].0 + (mid1 + atJ);
    var vi, vj, vk := pairs[i].1, pairs[j].1, pairs[k].1;
    calc {
      Strtr(head + atI, pairs);
    == { StrtrSkipsLiteral(head, atI, pairs, '%'); }
      head + Strtr(atI, pairs);
    == { StrtrReplacesKey(i, mid1 + atJ, pairs); }
      head + (vi + Strtr(mid1 + atJ, pairs));
    == { StrtrSkipsLiteral(mid1, atJ, pairs, '%'); }
      head + (vi + (mid1 + Strtr(atJ, pairs)));
    == { StrtrReplacesKey(j, mid2 + atK, pairs); }
      head + (vi + (mid1 + (vj + Strtr(mid2 + atK, pairs))));
    == { StrtrSkipsLiteral(mid2, atK, pairs, '%'); }
      head + (vi + (mid1 + (vj + (mid2 + Strtr(atK, pairs)))));
    == { StrtrReplacesKey(k, tail, pairs); }
      head + (vi + (mid1 + (vj + (mid2 + (vk + Strtr(tail, pairs))))));
    == { StrtrSkipsLiteral(tail, [], pairs, '%'); assert tail + [] == tail; }
      head + (vi + (mid1 + (vj + (mid2 + (vk + (tail + Strtr([], pairs)))))));
    == { assert Strtr([], pairs) == []; assert tail + [] == tail; }
      head + (vi + (mid1 + (vj + (mid2 + (vk + tail)))));
    }
  }

  /**
   * The generated compiler script: strtr over the template. It is the template with
   * %path_to_doctrine% replaced by doctrine_path + "/Doctrine.php", %compiled_path% by the
   * compiled path and %drivers% by the driver list, each verbatim: text coming from a
   * replacement is never itself scanned for placeholders.
   */
  function Script(s: Settings): (text: string)
    ensures text == TemplateHead + ((s.doctrinePath + "/Doctrine.php") + (TemplateAfterDoctrine +
      (s.compiledPath + (TemplateAfterCompiled + (DriversList(s.drivers) + TemplateTail)))))
  {
    var pairs := Replacements(s, DriversList(s.drivers));
    ReplacementsAreDistinctPlaceholders(s, DriversList(s.drivers));
    HeadHasNoPlaceholder();
    AfterDoctrineHasNoPlaceholder();
    TailHasNoPlaceholder();
    assert '%' !in TemplateAfterCompiled;
    StrtrThreeSlots(pairs, 2, 0, 1, TemplateHead, TemplateAfterDoctrine, TemplateAfterCompiled, TemplateTail);
    Strtr(Template, pairs)
  }

  /** The script is never empty, so a successful file_put_contents reports a non-zero count. */
  lemma ScriptNotEmpty(s: Settings)
    ensures |Script(s)| > 0
  {
    assert TemplateHead[0] == '#';
  }

  /** array_shift($output): the first line, or null when there is none. */
  function FirstLine(output: seq<string>): (line: Option<string>)
    ensures line.None? <==> output == []
    ensures line.Some? ==> line.value == output[0]
  {
    if output == [] then None else Some(output[0])
  }

  /** The disk after the scratch directory has been asked for. */
  function AfterScratchDir(s: Settings, st: DiskState, h: HostOutcome): DiskState
  {
    MkdirsOn(st, Dirname(s.compilerPath), h.scratchDirOk)
  }

  /** Whether file_put_contents stores the script (it fails when the path is a directory). */
  predicate ScriptSaved(s: Settings, st: DiskState, h: HostOutcome)
  {
    h.writeOk && s.compilerPath !in AfterScratchDir(s, st, h).dirs
  }

  /**
   * Whether is_executable holds after chmod: it succeeded, or the script overwrote an
   * existing file that already had the bit.
   */
  predicate ScriptExecutable(s: Settings, st: DiskState, h: HostOutcome)
  {
    h.chmodOk || IsExecutableIn(st, s.compilerPath)
  }

  /** generateCompiler: create the scratch directory, write the script, chmod it, check it. */
  function GenerateSpec(s: Settings, st: DiskState, h: HostOutcome): (r: (Result<(), CompilerError>, DiskState))
    ensures var p := s.compilerPath;
      r.1.log == st.log + [MakeDirs(Dirname(p)), PutContents(p)] +
        (if ScriptSaved(s, st, h) then [Chmod(p, ExecutableMode)] else [])
    ensures r.0 == Failure(CouldNotSave(s.compilerPath)) <==> !ScriptSaved(s, st, h)
    ensures r.0 == Failure(NotExecutable(s.compilerPath)) <==>
      ScriptSaved(s, st, h) && !ScriptExecutable(s, st, h)
    ensures r.0.Success? <==> ScriptSaved(s, st, h) && ScriptExecutable(s, st, h)
    ensures ScriptSaved(s, st, h) ==> r.1.files == st.files[s.compilerPath := Script(s)]
    ensures !ScriptSaved(s, st, h) ==> r.1.files == st.files
    ensures r.1.dirs == AfterScratchDir(s, st, h).dirs && st.dirs <= r.1.dirs
  {
    var p := s.compilerPath;
    var st1 := AfterScratchDir(s, st, h);
    ScriptNotEmpty(s);
    var (st2, written) := PutContentsOn(st1, p, Script(s), h.writeOk);
    if written == 0 then (Failure(CouldNotSave(p)), st2)
    else
      var st3 := ChmodOn(st2, p, ExecutableMode, h.chmodOk);
      if !IsExecutableIn(st3, p) then (Failure(NotExecutable(p)), st3)
      else (Success(()), st3)
  }

  /** doCompile: run the script and read the exit code. */
  function DoCompileSpec(s: Settings, st: DiskState, child: ChildResult, removeOk: bool)
    : (r: (Result<Option<string>, CompilerError>, DiskState))
    ensures var p := s.compilerPath;
      r.1.log == st.log + [Exec(p)] + (if child.exitCode == 1 then [Remove(p)] else [])
    ensures r.1.dirs == st.dirs
    ensures child.exitCode == 0 ==>
      r.0 == Failure(CompilationFailed(FirstLine(child.output))) &&
      r.1.files == st.files && r.1.executable == st.executable
    ensures child.exitCode == 1 ==>
      (r.0.Success? <==> (removeOk || s.compilerPath !in st.files) && s.compilerPath !in st.dirs) &&
      (r.0.Success? ==> r.0.value == FirstLine(child.output) && !ExistsIn(r.1, s.compilerPath)) &&
      (r.0.Failure? ==> r.0.error == CouldNotDelete(s.compilerPath) && ExistsIn(r.1, s.compilerPath))
    ensures child.exitCode != 0 && child.exitCode != 1 ==>
      r.0 == Failure(UnknownReturnValue(child.exitCode)) &&
      r.1.files == st.files && r.1.executable == st.executable
  {
    var p := s.compilerPath;
    var st1 := ExecOn(st, p);
    if child.exitCode == 0 then (Failure(CompilationFailed(FirstLine(child.output))), st1)
    else if child.exitCode == 1 then
      var target := FirstLine(child.output);
      var st2 := RemoveOn(st1, p, removeOk);
      if ExistsIn(st2, p) then (Failure(CouldNotDelete(p)), st2) else (Success(target), st2)
    else (Failure(UnknownReturnValue(child.exitCode)), st1)
  }

  /**
   * The part of compile after generateCompiler: create the output directory, then run
   * doCompile. `st` is the disk after a successful generateCompiler, which holds the script.
   */
  function RunSpec(s: Settings, st: DiskState, h: HostOutcome, child: ChildResult)
    : (r: (Result<Option<string>, CompilerError>, DiskState))
    ensures var p := s.compilerPath;
      r.1.log == st.log + [MakeDirs(Dirname(s.compiledPath)), Exec(p)] +
        (if child.exitCode == 1 then [Remove(p)] else [])
    ensures var p := s.compilerPath;
      p in st.files && p !in st.dirs ==>
        (r.0.Success? <==> child.exitCode == 1 && h.removeOk) &&
        (r.0.Success? ==> r.0.value == FirstLine(child.output) && !ExistsIn(r.1, p)) &&
        (child.exitCode == 0 ==>
           (r.0 == Failure(CompilationFailed(FirstLine(child.output))) &&
            p in r.1.files && r.1.files[p] == st.files[p])) &&
        (child.exitCode == 1 && !h.removeOk ==> r.0 == Failure(CouldNotDelete(p))) &&
        (child.exitCode != 0 && child.exitCode != 1 ==>
           (r.0 == Failure(UnknownReturnValue(child.exitCode)) &&
            p in r.1.files && r.1.files[p] == st.files[p]))
  {
    var st1 := MkdirsOn(st, Dirname(s.compiledPath), h.outputDirOk);
    assert s.compilerPath in st.files ==> st1.files == st.files && st1.dirs - st.dirs <= {Dirname(s.compiledPath)} - st.files.Keys;
    DoCompileSpec(s, st1, child, h.removeOk)
  }

  /** One step logged after `log`, then two more, then `tail`. */
  lemma LogThen<T>(log: seq<T>, x: T, y: T, z: T, tail: seq<T>)
    ensures log + [x] + [y, z] + tail == log + [x, y, z] + tail
  {
    assert [x] + [y, z] == [x, y, z];
  }

  /** compile: generateCompiler, then the output directory, then doCompile. */
  function CompileSpec(s: Settings, st: DiskState, h: HostOutcome, child: ChildResult)
    : (r: (Result<Option<string>, CompilerError>, DiskState))
    ensures var p, setup := s.compilerPath, [MakeDirs(Dirname(s.compilerPath)), PutContents(s.compilerPath)];
      if !ScriptSaved(s, st, h) then
        r.0 == Failure(CouldNotSave(p)) && r.1.log == st.log + setup
      else if !ScriptExecutable(s, st, h) then
        r.0 == Failure(NotExecutable(p)) && r.1.log == st.log + setup + [Chmod(p, ExecutableMode)]
      else
        r.1.log == st.log + setup + [Chmod(p, ExecutableMode), MakeDirs(Dirname(s.compiledPath)), Exec(p)] +
          (if child.exitCode == 1 then [Remove(p)] else [])
    ensures !(ScriptSaved(s, st, h) && ScriptExecutable(s, st, h)) ==>
      r.1.dirs == AfterScratchDir(s, st, h).dirs
    ensures r.0.Success? <==>
      ScriptSaved(s, st, h) && ScriptExecutable(s, st, h) && child.exitCode == 1 && h.removeOk
    ensures r.0.Success? ==>
      r.0.value == FirstLine(child.output) && !ExistsIn(r.1, s.compilerPath)
    ensures ScriptSaved(s, st, h) && ScriptExecutable(s, st, h) ==>
      (child.exitCode == 0 ==>
         (r.0 == Failure(CompilationFailed(FirstLine(child.output))) &&
          s.compilerPath in r.1.files && r.1.files[s.compilerPath] == Script(s))) &&
      (child.exitCode == 1 && !h.removeOk ==> r.0 == Failure(CouldNotDelete(s.compilerPath))) &&
      (child.exitCode != 0 && child.exitCode != 1 ==>
         (r.0 == Failure(UnknownReturnValue(child.exitCode)) &&
          s.compilerPath in r.1.files && r.1.files[s.compilerPath] == Script(s)))
  {
    var (generated, st1) := GenerateSpec(s, st, h);
    if generated.Failure? then (Failure(generated.error), st1)
    else
      var p := s.compilerPath;
      assert p in st1.files && p !in st1.dirs && st1.files[p] == Script(s);
      var r := RunSpec(s, st1, h, child);
      var setup := [MakeDirs(Dirname(p)), PutContents(p)];
      var tail := if child.exitCode == 1 then [Remove(p)] else [];
      assert st1.log == st.log + setup + [Chmod(p, ExecutableMode)];
      assert r.1.log == st1.log + [MakeDirs(Dirname(s.compiledPath)), Exec(p)] + tail;
      LogThen(st.log + setup, Chmod(p, ExecutableMode), MakeDirs(Dirname(s.compiledPath)), Exec(p), tail);
      r
  }

  /** The compiler object; the paths and drivers are fixed when it is built. */
  class Compiler {
    const doctrinePath: string
    const compiledPath: Path
    const compilerPath: Path
    const drivers: seq<string>
    /** The machine that PHP's own file functions and exec act on. */
    const machine: Machine
    var filesystem: Filesystem?

    function Config(): Settings
    {
      Settings(doctrinePath, compiledPath, compilerPath, drivers)
    }

    /** There is one machine: an injected filesystem acts on it too. */
    ghost predicate Valid()
      reads this
    {
      filesystem != null ==> filesystem.machine == machine
    }

    constructor (doctrinePath: string, compiledPath: Path, compilerPath: Path, drivers: seq<string>, machine: Machine)
      ensures Config() == Settings(doctrinePath, compiledPath, compilerPath, drivers)
      ensures this.machine == machine && filesystem == null && Valid()
    {
      this.doctrinePath := doctrinePath;
      this.compiledPath := compiledPath;
      this.drivers := drivers;
      this.compilerPath := compilerPath;
      this.machine := machine;
      filesystem := null;
    }

    /** Inject the filesystem; later calls to GetFilesystem return it. */
    method SetFilesystem(fs: Filesystem)
      requires fs.machine == machine
      modifies this
      ensures filesystem == fs && Valid()
    {
      filesystem := fs;
    }

    /** Create a filesystem only when none is set; afterwards always return the same one. */
    method GetFilesystem() returns (fs: Filesystem)
      requires Valid()
      modifies this
      ensures Valid() && filesystem == fs && fs.machine == machine
      ensures old(filesystem) != null ==> fs == old(filesystem)
      ensures old(filesystem) == null ==> fresh(fs)
    {
      if filesystem == null {
        filesystem := new Filesystem(machine);
      }
      fs := filesystem;
    }

    method GenerateCompiler(h: HostOutcome) returns (r: Result<(), CompilerError>)
      requires Valid()
      modifies this, machine
      ensures Valid() && filesystem != null
      ensures old(filesystem) != null ==> filesystem == old(filesystem)
      ensures (r, machine.State()) == GenerateSpec(Config(), old(machine.State()), h)
    {
      var fs := GetFilesystem();
      fs.Mkdirs(Dirname(compilerPath), h.scratchDirOk);
      var quoted := QuoteDrivers(drivers);
      assert quoted == QuoteAll(drivers);
      ReplacementsAreDistinctPlaceholders(Config(), Implode(", ", quoted));
      var php := Strtr(Template, Replacements(Config(), Implode(", ", quoted)));
      var written := machine.PutContents(compilerPath, php, h.writeOk);
      if written == 0 {
        return Failure(CouldNotSave(compilerPath));
      }
      fs.Chmod(compilerPath, ExecutableMode, h.chmodOk);
      if !machine.IsExecutable(compilerPath) {
        return Failure(NotExecutable(compilerPath));
      }
      return Success(());
    }

    method Compile(h: HostOutcome, child: ChildResult) returns (r: Result<Option<string>, CompilerError>)
      requires Valid()
      modifies this, machine
      ensures Valid() && filesystem != null
      ensures old(filesystem) != null ==> filesystem == old(filesystem)
      ensures (r, machine.State()) == CompileSpec(Config(), old(machine.State()), h, child)
    {
      var generated := GenerateCompiler(h);
      if generated.Failure? {
        return Failure(generated.error);
      }
      var fs := GetFilesystem();
      fs.Mkdirs(Dirname(compiledPath), h.outputDirOk);
      r := DoCompile(child, h.removeOk);
    }

    method DoCompile(child: ChildResult, removeOk: bool) returns (r: Result<Option<string>, CompilerError>)
      requires Valid()
      modifies this, machine
      ensures Valid()
      ensures old(filesystem) != null ==> filesystem == old(filesystem)
      ensures (r, machine.State()) == DoCompileSpec(Config(), old(machine.State()), child, removeOk)
    {
      var exitCode, output := machine.Exec(compilerPath, child);
      if exitCode == 0 {
        return Failure(CompilationFailed(FirstLine(output)));
      } else if exitCode == 1 {
        var target := FirstLine(output);
        var fs := GetFilesystem();
        fs.Remove(compilerPath, removeOk);
        if machine.FileExists(compilerPath) {
          return Failure(CouldNotDelete(compilerPath));
        }
        return Success(target);
      } else {
        return Failure(UnknownReturnValue(exitCode));
      }
    }
  }
}
