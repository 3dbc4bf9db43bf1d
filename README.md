# drDoctrineCompilePlugin in Dafny

A model of the two working parts of the symfony plugin drDoctrineCompilePlugin:

- **drDoctrineCompiler** prepares and runs a script that compiles the Doctrine classes.
  - It renders a launcher script from a template with three placeholders:
    the path of `Doctrine.php`, the target path and the quoted driver list.
  - It creates the scratch directory, writes the script, makes it executable and creates the output directory.
  - It runs the script as a child process and reads the exit code:
    - 1 is success, with the first output line as the target path; the script is then deleted;
    - 0 is a compile error, with the first output line as the message;
    - any other code is a protocol error.
- **drDoctrineCompileTask** (`doctrine:compile-core`) prepares the options for the compiler.
  - It normalises the command-line options and fills in their defaults.
  - It finds the default driver list in `config/databases.yml`: the text before the first `:` of each connection's DSN, each driver once, in first-seen order.

Modules:

- `Wrappers`: `Option` and `Result`.
- `PhpText`: the PHP string built-ins the plugin uses, in the way it uses them.
  - `Explode` / `Implode`, with their round trips.
  - `Dirname`.
  - `Strtr`: the array form, a single left-to-right pass where the longest key wins.
- `Host`: the machine, in three parts.
  - `DiskState`: the directories, the file contents, the executable bits and a log of every call, in order. A newly created file starts without the executable bit; an overwritten file keeps its own.
  - `Machine`: a class for the PHP built-ins `file_put_contents`, `is_executable`, `file_exists` and `exec`.
  - `Filesystem`: a class standing for `sfFilesystem` (`mkdirs`, `chmod`, `remove`).
- `DoctrineCompiler`: the template, pure specification functions for each step, and the
  `Compiler` class.
  - `GenerateCompiler`, `Compile` and `DoCompile` mutate the machine; each is proved to leave the result and the new state that its specification function gives.
  - `SetFilesystem` and `GetFilesystem` change only which filesystem the compiler holds.
- `CompileTask`: the parsed YAML tree, driver collection as two nested loops, and `processOptions` as in-place updates of the option map.

What the outside world decides is given as parameters:

- `HostOutcome` says whether each filesystem call that can fail for an untracked reason succeeds.
- `ChildResult` gives the child process's exit code and output lines.
- `TaskEnv` gives the `sfConfig` settings, the project root, the parsed `databases.yml` (or its absence) and the plugin's default paths.

Behaviour of the code worth knowing:

- A failing `mkdirs` is ignored, because nothing checks its result.
- When the child prints nothing, the compile error carries no message (`array_shift` yields null).
- Driver names are put into the script unescaped.
- `getDefaultDoctrineDrivers` reads `databases.yml` before it consults `app_doctrine_drivers`, because it is `sfConfig::get`'s default argument. So a missing file is an error even when the setting exists.
- The default compiler path is derived from the plugin's compiled path, not from the `compiled_path` option.

## Model

| member | source | states |
|---|---|---|
| PhpText.Implode | lib/doctrine/drDoctrineCompiler.class.php:91 | implode: the empty list gives ""; otherwise the result starts with the first piece, followed by the glue when there are more |
| PhpText.ImplodeAppend | lib/doctrine/drDoctrineCompiler.class.php:91 | proof helper: joining one more piece appends the glue and that piece to the joined text |
| PhpText.Explode | lib/task/drDoctrineCompileTask.class.php:189 | explode always yields at least one piece, and no piece contains the delimiter |
| PhpText.ImplodeExplode | lib/task/drDoctrineCompileTask.class.php:102 | joining the pieces of explode with the delimiter gives back the original string |
| PhpText.ExplodeImplode | lib/task/drDoctrineCompileTask.class.php:102 | exploding pieces that are free of the delimiter, once joined, gives back those pieces |
| PhpText.ExplodeHead | lib/task/drDoctrineCompileTask.class.php:189-193 | `$dsn[0]` is the text before the first ':': a prefix without ':' that is the whole DSN or is followed by ':' |
| PhpText.StripTrailing | lib/doctrine/drDoctrineCompiler.class.php:63 | the result is a prefix not ending in the character, and only that character was removed |
| PhpText.LastIndexOf | lib/doctrine/drDoctrineCompiler.class.php:63 | the index found holds the character and none follows it; None means the character does not occur |
| PhpText.Dirname | lib/doctrine/drDoctrineCompiler.class.php:63 | dirname is empty only for the empty path; otherwise it is "/", ".", or a proper prefix not ending in '/' |
| PhpText.LastIndexOfAfter | lib/doctrine/drDoctrineCompiler.class.php:117 | proof helper: the last separator of `front/back`, where back has no separator, is the one after front |
| PhpText.DirnameOfEntry | lib/task/drDoctrineCompileTask.class.php:150 | a name without '/' placed in a directory has that directory as its dirname |
| PhpText.Strtr | lib/doctrine/drDoctrineCompiler.class.php:89-93 | strtr's array form: one left-to-right pass; at each position the longest non-empty key there is replaced and the scan resumes after it, so replacement text is never rescanned; an empty table leaves the text unchanged. Every key must be non-empty |
| PhpText.LongestKeyAt | lib/doctrine/drDoctrineCompiler.class.php:89-93 | the key chosen is the longest non-empty key at the front of the text; None when no key matches |
| PhpText.StrtrSkipsLiteral | lib/doctrine/drDoctrineCompiler.class.php:89-93 | text without the placeholder marker passes through strtr unchanged |
| PhpText.UnwrapMiddle | lib/task/drDoctrineCompileTask.class.php:174 | proof helper: two texts with the same prefix and suffix are equal only when their middles are equal, so a message fixes the value formatted into it |
| PhpText.StrtrReplacesKey | lib/doctrine/drDoctrineCompiler.class.php:89-93 | a key at the front is replaced by its value and the scan resumes after the key, never inside the value |
| Host.Machine.constructor | lib/doctrine/drDoctrineCompiler.class.php:95-102 | the machine starts in the given disk state |
| Host.PutContentsOn | lib/doctrine/drDoctrineCompiler.class.php:95 | a write that succeeds on a non-directory stores the content and reports its length, a new file without the executable bit and an overwritten one with its own; otherwise it reports 0 and changes only the log |
| Host.Machine.PutContents | lib/doctrine/drDoctrineCompiler.class.php:95 | file_put_contents stores the content and reports its length, unless the write fails or the path is a directory (then 0); the call is logged |
| Host.Machine.IsExecutable | lib/doctrine/drDoctrineCompiler.class.php:102 | is_executable holds exactly for a stored file that carries the executable bit |
| Host.Machine.FileExists | lib/doctrine/drDoctrineCompiler.class.php:146 | file_exists holds exactly for a stored file or a directory |
| Host.Machine.Exec | lib/doctrine/drDoctrineCompiler.class.php:134 | exec logs the call, returns the child's exit code and output, and changes no file or directory |
| Host.Filesystem.constructor | lib/doctrine/drDoctrineCompiler.class.php:48 | a new filesystem acts on the given machine |
| Host.Filesystem.Mkdirs | lib/doctrine/drDoctrineCompiler.class.php:63 | mkdirs adds the directory when it succeeds and no file has that path; the call is logged |
| Host.Filesystem.Chmod | lib/doctrine/drDoctrineCompiler.class.php:100 | chmod 0775 sets the executable bit of an existing file when it succeeds; the call is logged |
| Host.Filesystem.Remove | lib/doctrine/drDoctrineCompiler.class.php:144 | remove deletes the file and its executable bit when it succeeds; the call is logged |
| DoctrineCompiler.Decimal | lib/doctrine/drDoctrineCompiler.class.php:155 | the text of the exit code: for n >= 0 all digits, denoting n, with no leading zero; for n < 0 a '-' followed by the text of -n |
| DoctrineCompiler.DecimalInjective | lib/doctrine/drDoctrineCompiler.class.php:155 | different exit codes are rendered as different texts |
| DoctrineCompiler.Message | lib/doctrine/drDoctrineCompiler.class.php:97-155 | a failed compilation carries the child's first output line (or none); every other error has a message |
| DoctrineCompiler.MessageMark | lib/doctrine/drDoctrineCompiler.class.php:97-155 | proof helper: the fixed texts of the four formatted messages differ at their eleventh character |
| DoctrineCompiler.MessageInjective | lib/doctrine/drDoctrineCompiler.class.php:97-155 | two errors other than a failed compilation with the same message are the same error, path or exit code included |
| DoctrineCompiler.QuoteDrivers | lib/doctrine/drDoctrineCompiler.class.php:83-87 | the loop yields one entry per driver, in input order, each wrapped in single quotes |
| DoctrineCompiler.DriversListAppend | lib/doctrine/drDoctrineCompiler.class.php:91 | no drivers gives the empty text (`array()`); one driver gives `'d'`; each further driver appends `, 'd'` |
| DoctrineCompiler.ReplacementsAreDistinctPlaceholders | lib/doctrine/drDoctrineCompiler.class.php:89-93 | the three keys all start with '%' and none is a prefix of another |
| DoctrineCompiler.HeadHasNoPlaceholder | lib/doctrine/drDoctrineCompiler.class.php:65-67 | proof helper: the template text before %path_to_doctrine% contains no '%' |
| DoctrineCompiler.AfterDoctrineHasNoPlaceholder | lib/doctrine/drDoctrineCompiler.class.php:67-72 | proof helper: the template text between %path_to_doctrine% and %compiled_path% contains no '%' |
| DoctrineCompiler.TailHasNoPlaceholder | lib/doctrine/drDoctrineCompiler.class.php:72-81 | proof helper: the template text after %drivers% contains no '%' |
| DoctrineCompiler.StrtrThreeSlots | lib/doctrine/drDoctrineCompiler.class.php:89-93 | strtr over literal text with three placeholders puts each value in its slot verbatim |
| DoctrineCompiler.Script | lib/doctrine/drDoctrineCompiler.class.php:65-93 | strtr of the launcher template with the table of the three placeholders: the template with doctrine_path + "/Doctrine.php", the compiled path and the driver list in their slots, each inserted once and never rescanned |
| DoctrineCompiler.ScriptNotEmpty | lib/doctrine/drDoctrineCompiler.class.php:95 | the script is never empty, so a successful file_put_contents returns a truthy length |
| DoctrineCompiler.FirstLine | lib/doctrine/drDoctrineCompiler.class.php:138-142 | array_shift on the child's output: the first line, or null exactly when there is no output |
| DoctrineCompiler.GenerateSpec | lib/doctrine/drDoctrineCompiler.class.php:59-106 | generateCompiler: "could not save" exactly when the write fails; "not executable" exactly when the file is saved, chmod fails and the path was not already an executable file; success otherwise. It gives the exact call sequence (chmod only after a save), and the script is stored under the compiler path |
| DoctrineCompiler.DoCompileSpec | lib/doctrine/drDoctrineCompiler.class.php:129-157 | exit 0: a failure carrying the first output line, and the files are untouched. Exit 1: after remove, success with the first line exactly when the file is gone, otherwise "could not delete". Any other code: "unknown value" with that code, and nothing removed |
| DoctrineCompiler.RunSpec | lib/doctrine/drDoctrineCompiler.class.php:117-119 | after a saved script: the output directory, exec and (on exit 1) remove are logged in that order; success exactly when the exit code is 1 and the remove succeeds, with the first line and the script gone; exit 0 and unknown codes keep the script |
| DoctrineCompiler.CompileSpec | lib/doctrine/drDoctrineCompiler.class.php:113-120 | compile: a save or executable failure stops before the output directory and exec. Otherwise the calls run scratch dir, write, chmod, output dir, exec (then remove). Success exactly when everything held and the exit code was 1. A failed compile or an unknown code leaves the script in place |
| DoctrineCompiler.Compiler.constructor | lib/doctrine/drDoctrineCompiler.class.php:23-29 | the four arguments are stored unchanged and no filesystem is set |
| DoctrineCompiler.Compiler.SetFilesystem | lib/doctrine/drDoctrineCompiler.class.php:36-39 | the injected filesystem becomes the one held |
| DoctrineCompiler.Compiler.GetFilesystem | lib/doctrine/drDoctrineCompiler.class.php:44-52 | returns the held filesystem when one is set, otherwise creates a fresh one and keeps it |
| DoctrineCompiler.Compiler.GenerateCompiler | lib/doctrine/drDoctrineCompiler.class.php:59-106 | the result and the new disk state are those of GenerateSpec |
| DoctrineCompiler.Compiler.Compile | lib/doctrine/drDoctrineCompiler.class.php:113-120 | the result and the new disk state are those of CompileSpec |
| DoctrineCompiler.Compiler.DoCompile | lib/doctrine/drDoctrineCompiler.class.php:129-157 | the result and the new disk state are those of DoCompileSpec |
| CompileTask.Lookup | lib/task/drDoctrineCompileTask.class.php:184 | `$node[$key]` under isset: a node that is not a mapping reads as null |
| CompileTask.LookupInFirst | lib/task/drDoctrineCompileTask.class.php:184 | the value read for a key is the one listed with its first occurrence |
| CompileTask.LookupInAbsent | lib/task/drDoctrineCompileTask.class.php:184 | a key the mapping does not list reads as null |
| CompileTask.Keys | lib/task/drDoctrineCompileTask.class.php:180-182 | the keys a foreach visits: none for a scalar or null, at most one per listed item for a mapping |
| CompileTask.Children | lib/task/drDoctrineCompileTask.class.php:180-182 | the values a foreach visits: one per key, none for a scalar or null |
| CompileTask.KeysProperties | lib/task/drDoctrineCompileTask.class.php:180-182 | the keys a foreach visits are distinct and are exactly the keys the mapping lists |
| CompileTask.ChildrenPerKey | lib/task/drDoctrineCompileTask.class.php:180-182 | a foreach visits each key exactly once, with the value a lookup of that key reads, even when the mapping lists the key twice |
| CompileTask.EntryDsn | lib/task/drDoctrineCompileTask.class.php:184-186 | `$entry['param']['dsn']` when it is text: then param is a mapping and its dsn is that text; None exactly when that value is not text |
| CompileTask.TruthyText | lib/task/drDoctrineCompileTask.class.php:191 | PHP truthiness of a string: a true string is non-empty, and every string of two or more characters is true |
| CompileTask.EntryDriver | lib/task/drDoctrineCompileTask.class.php:186-193 | a driver comes only from an entry with a DSN, is a prefix of that DSN without ':', and is truthy |
| CompileTask.Dedup | lib/task/drDoctrineCompileTask.class.php:194-197 | the in_array filter: never longer than its input, and the first value is always kept |
| CompileTask.FirstIndex | lib/task/drDoctrineCompileTask.class.php:194 | the first position of a value, or the length when the value is absent |
| CompileTask.DedupMembers | lib/task/drDoctrineCompileTask.class.php:194-197 | the deduplicated list holds exactly the values of the input |
| CompileTask.KeptWasSeen | lib/task/drDoctrineCompileTask.class.php:194-197 | proof helper: every kept value occurs in the input |
| CompileTask.DedupDistinct | lib/task/drDoctrineCompileTask.class.php:194-197 | the deduplicated list has no repeats |
| CompileTask.FirstIndexExtend | lib/task/drDoctrineCompileTask.class.php:194-197 | proof helper: appending to a list does not move the first position of a value already in it |
| CompileTask.DedupFirstSeenOrder | lib/task/drDoctrineCompileTask.class.php:194-197 | the deduplicated list is ordered by each value's first position in the input |
| CompileTask.ConfigDrivers | lib/task/drDoctrineCompileTask.class.php:177-203 | the drivers of a databases.yml: none when it is not a mapping, and no more than the entries name |
| CompileTask.EntriesDriversMembers | lib/task/drDoctrineCompileTask.class.php:182-200 | the drivers of a profile's entries are exactly the drivers some entry names |
| CompileTask.ProfilesDriversMembers | lib/task/drDoctrineCompileTask.class.php:180-201 | the drivers of the profiles' entry groups are exactly the drivers some entry of some group names |
| CompileTask.EntryDriverIsDsnPrefix | lib/task/drDoctrineCompileTask.class.php:184-198 | an entry without `param.dsn` names no driver. Otherwise it names the text before the DSN's first ':' exactly when that text is neither "" nor "0" |
| CompileTask.TextBeforeColonUnique | lib/task/drDoctrineCompileTask.class.php:189-193 | proof helper: a DSN has only one text before its first ':' |
| CompileTask.ConfigDriversProperties | lib/task/drDoctrineCompileTask.class.php:177-203 | the collected drivers have no repeats, are in first-seen order, and are exactly the drivers named by some entry of some profile |
| CompileTask.Message | lib/task/drDoctrineCompileTask.class.php:174 | the "not found" message names the missing file |
| CompileTask.MessageInjective | lib/task/drDoctrineCompileTask.class.php:174 | two "not found" errors with one message name the same file |
| CompileTask.EntriesDriversStep | lib/task/drDoctrineCompileTask.class.php:182-200 | proof helper: the drivers of the first j+1 entries are those of the first j followed by the driver of entry j, if any |
| CompileTask.ProfilesDriversStep | lib/task/drDoctrineCompileTask.class.php:180-201 | proof helper: the drivers of the first i+1 profiles are those of the first i followed by those of profile i |
| CompileTask.DedupAppend | lib/task/drDoctrineCompileTask.class.php:194-197 | the in_array step: a driver already kept is skipped, a new one is appended |
| CompileTask.AddEntryStep | lib/task/drDoctrineCompileTask.class.php:191-197 | proof helper: one pass of the inner loop adds the entry's driver exactly when it names one that is not yet collected |
| CompileTask.AddEntryDrivers | lib/task/drDoctrineCompileTask.class.php:182-200 | the inner loop leaves exactly the deduplicated drivers of the earlier entries followed by those of this profile |
| CompileTask.CollectDoctrineDriversFromConfigFile | lib/task/drDoctrineCompileTask.class.php:169-204 | a missing databases.yml is the "not found" error naming the file; otherwise the nested loops return the collected drivers |
| CompileTask.Truthy | lib/task/drDoctrineCompileTask.class.php:89 | PHP truthiness of an option: a scalar is true exactly when its string form is a true string, an array exactly when it is non-empty |
| CompileTask.PhpString | lib/task/drDoctrineCompileTask.class.php:102 | string conversion before explode: text is kept, null and booleans give "" or "1" |
| CompileTask.ToDriverList | lib/task/drDoctrineCompileTask.class.php:100-103 | a list is kept. Otherwise the text is split on ',' into at least one piece without ',', and the pieces rejoin to the text |
| CompileTask.ConfigGet | lib/task/drDoctrineCompileTask.class.php:150 | sfConfig::get under isset: a set, non-null setting is returned; an absent or null one gives the default, so null comes back only as the default |
| CompileTask.DefaultCompilerPath | lib/task/drDoctrineCompileTask.class.php:148-151 | a set app_doctrine_compiler_path wins. Otherwise the path is dirname(compiled path) + "/Doctrine.compiler.php", whose dirname is the compiled path's dirname |
| CompileTask.GetDefaultDoctrineDrivers | lib/task/drDoctrineCompileTask.class.php:159-162 | a missing databases.yml is an error even when the setting exists. Otherwise it gives the setting, or the collected drivers when the setting is unset |
| CompileTask.WithDefault | lib/task/drDoctrineCompileTask.class.php:106-109 | a null option takes the default, a non-null one is kept, and no other key changes |
| CompileTask.ResolveDrivers | lib/task/drDoctrineCompileTask.class.php:89-103 | no-drivers gives the empty list whatever drivers held. A non-null drivers option is split. A null one takes the default, failing exactly when databases.yml is missing |
| CompileTask.ApplyPathDefaults | lib/task/drDoctrineCompileTask.class.php:106-119 | the three path options each take their default only when null; the keys become the old keys plus the three paths, and every other option is unchanged |
| CompileTask.ProcessOptions | lib/task/drDoctrineCompileTask.class.php:87-122 | fails exactly when the drivers default is needed and databases.yml is missing. Otherwise drivers is resolved, each path option takes its default only when null, and every other option is unchanged |

## Left out

- The child process and `Doctrine::compile` are not modelled. The child is an input: its exit code and output lines.
- The real filesystem is reduced to three parts: a set of directories, a map of file contents and a set of executable files. Permissions, owners and umask are not modelled. Whether each call succeeds is an input.
- Host.Machine.Exec: the child's own write of the compiled classes to compiled_path is not in the disk state.
- Host.Filesystem.Remove: a directory at the path is never removed (sfFilesystem::remove would rmdir it); compile cannot reach that case, because file_put_contents on a directory fails first.
- Host.Filesystem.Mkdirs: adds only the named directory, not its missing parents. The compiler never looks at the parents.
- The Windows TODO in generateCompiler is not modelled. Paths are '/'-separated.
- PhpText.Strtr: a table with an empty key is not modelled (Strtr requires non-empty keys). PHP 5 returns false for it; the plugin's three keys are all non-empty.
- `Dirname` covers only '/'-separated paths; drive letters and backslashes are out.
- The task's `execute` and `configure` are not modelled: logging, option declarations and the `Doctrine_Compiler_Exception` translation. The exception class hierarchy they depend on is not part of this model.
- `sfYaml::load`, `ProjectConfiguration` and the plugin configuration class are not modelled: the parsed file, the root directory and the plugin paths are inputs (`TaskEnv`). For `sfConfig`, only the settings map (`TaskEnv.settings`) is an input; `CompileTask.ConfigGet` models `sfConfig::get` itself.
- CompileTask.EntryDsn: a DSN that is not text is treated as absent. Under PHP 5, explode on an array warns and returns null, which `isset($dsn[0])` (lib/task/drDoctrineCompileTask.class.php:191) skips, so such an entry names no driver either.
- CompileTask.LookupIn: a mapping that lists a key twice is read with one value per key, the first, in lookup and in iteration alike. Which of the values sfYaml::load keeps is the parser's behaviour and not part of this model.
- CompileTask.Dedup: compares driver names as strings. in_array's loose comparison can differ for numeric-looking names.
- CompileTask.PhpString: covers null, booleans and text. Other scalar option types are not modelled.
- DoctrineCompiler.Compiler.SetFilesystem: requires the injected filesystem to act on the compiler's own machine. PHP has one global filesystem, so nothing else can happen there.
- DoctrineCompiler.QuoteDrivers: names are not escaped, and no claim is made that a name cannot break out of its quotes.
- DoctrineCompiler.Compiler.constructor: the default `array()` for the drivers argument (lib/doctrine/drDoctrineCompiler.class.php:23) is not modelled; the only caller passes all four arguments.
