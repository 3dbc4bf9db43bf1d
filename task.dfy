/**
 * drDoctrineCompileTask: turns the command-line options into the compiler's arguments,
 * filling in defaults, and derives the default driver list from databases.yml.
 */
module CompileTask {
  import opened Wrappers
  import opened PhpText

  /**
   * A node of the parsed databases.yml tree. Scalars are held as their text; a YAML
   * sequence is a mapping whose keys are its indices. Items keep file order.
   */
  datatype Yaml = Null | Scalar(text: string) | Mapping(items: seq<(string, Yaml)>)

  /** `$node[$key]` under isset: Null when `node` is not a mapping, or the key is absent. */
  function Lookup(node: Yaml, key: string): (v: Yaml)
    ensures !node.Mapping? ==> v == Null
  {
    match node
    case Mapping(items) => LookupIn(items, key)
    case _ => Null
  }

  /** The value listed with the first occurrence of `key`, Null when the key is not listed. */
  function LookupIn(items: seq<(string, Yaml)>, key: string): Yaml
  {
    if items == [] then Null
    else if items[0].0 == key then items[0].1
    else LookupIn(items[1..], key)
  }

  /** A key that is not listed reads as Null. */
  lemma {:induction false} LookupInAbsent(items: seq<(string, Yaml)>, key: string)
    requires forall i :: 0 <= i < |items| ==> items[i].0 != key
    ensures LookupIn(items, key) == Null
  {
    if items != [] {
      assert forall i :: 0 <= i < |items[1..]| ==> items[1..][i].0 == items[i + 1].0;
      LookupInAbsent(items[1..], key);
    }
  }

  /** A key listed more than once reads as the value of its first occurrence. */
  lemma {:induction false} LookupInFirst(items: seq<(string, Yaml)>, key: string, i: nat)
    requires i < |items| && items[i].0 == key
    requires forall j :: 0 <= j < i ==> items[j].0 != key
    ensures LookupIn(items, key) == items[i].1
  {
    if i > 0 {
      LookupInFirst(items[1..], key, i - 1);
    }
  }

  function KeysOf(items: seq<(string, Yaml)>): seq<string>
  {
    seq(|items|, i requires 0 <= i < |items| => items[i].0)
  }

  /**
   * The keys of the PHP array a node stands for, in order of first appearance. A PHP array
   * holds one value per key, so a key listed twice is one key.
   */
  function Keys(node: Yaml): (keys: seq<string>)
    ensures !node.Mapping? ==> keys == []
    ensures node.Mapping? ==> |keys| <= |node.items|
  {
    match node
    case Mapping(items) => Dedup(KeysOf(items))
    case _ => []
  }

  /**
   * The values a foreach visits: one per key, in key order, the value `Lookup` gives for
   * that key. A foreach over a scalar or null visits nothing.
   */
  function Children(node: Yaml): (children: seq<Yaml>)
    ensures |children| == |Keys(node)|
    ensures !node.Mapping? ==> children == []
  {
    var keys := Keys(node);
    seq(|keys|, i requires 0 <= i < |keys| => Lookup(node, keys[i]))
  }

  /** Each key of the mapping is listed once, and every key that occurs in it is listed. */
  lemma KeysProperties(node: Yaml)
    ensures forall i, j :: 0 <= i < j < |Keys(node)| ==> Keys(node)[i] != Keys(node)[j]
    ensures forall k :: k in Keys(node) <==>
      node.Mapping? && exists i :: 0 <= i < |node.items| && node.items[i].0 == k
  {
    if node.Mapping? {
      var items := node.items;
      DedupDistinct(KeysOf(items));
      DedupMembers(KeysOf(items));
      forall k | k in KeysOf(items)
        ensures exists i :: 0 <= i < |items| && items[i].0 == k
      {
        var i :| 0 <= i < |KeysOf(items)| && KeysOf(items)[i] == k;
      }
      forall k, i | 0 <= i < |items| && items[i].0 == k
        ensures k in KeysOf(items)
      {
        assert KeysOf(items)[i] == k;
      }
    }
  }

  /**
   * A foreach over a mapping visits each key exactly once, with the value `$node[$key]`
   * reads, so iteration and lookup agree even when the tree lists a key twice.
   */
  lemma ChildrenPerKey(node: Yaml, k: string)
    requires k in Keys(node)
    ensures |Children(node)| == |Keys(node)|
    ensures exists i :: 0 <= i < |Keys(node)| && Keys(node)[i] == k && Children(node)[i] == Lookup(node, k)
    ensures forall i, j ::
      (0 <= i < |Keys(node)| && 0 <= j < |Keys(node)| && Keys(node)[i] == k && Keys(node)[j] == k) ==> i == j
  {
    KeysProperties(node);
    var i :| 0 <= i < |Keys(node)| && Keys(node)[i] == k;
    assert Children(node)[i] == Lookup(node, k);
  }

  /** `$entry['param']['dsn']` when both are set and the DSN is text. */
  function EntryDsn(entry: Yaml): (dsn: Option<string>)
    ensures dsn.Some? ==>
      Lookup(entry, "param").Mapping? && Lookup(Lookup(entry, "param"), "dsn") == Scalar(dsn.value)
    ensures dsn.None? ==> !Lookup(Lookup(entry, "param"), "dsn").Scalar?
  {
    match Lookup(Lookup(entry, "param"), "dsn")
    case Scalar(dsn) => Some(dsn)
    case _ => None
  }

  /** PHP truthiness of a string: "" and "0" are false. */
  predicate TruthyText(s: string): (b: bool)
    ensures b ==> s != []
    ensures |s| >= 2 ==> b
  {
    s != "" && s != "0"
  }

  /** The driver one connection entry names: the DSN text before the first ':', if truthy. */
  function EntryDriver(entry: Yaml): (d: Option<string>)
    ensures d.Some? ==>
      EntryDsn(entry).Some? && d.value <= EntryDsn(entry).value && ':' !in d.value && TruthyText(d.value)
  {
    match EntryDsn(entry)
    case None => None
    case Some(dsn) =>
      ExplodeHead(':', dsn);
      var head := Explode(':', dsn)[0];
      if TruthyText(head) then Some(head) else None
  }

  function Maybe(d: Option<string>): seq<string>
  {
    if d.Some? then [d.value] else []
  }

  /** The drivers named by `entries`, in order, repeats included. */
  function EntriesDrivers(entries: seq<Yaml>): seq<string>
    decreases |entries|
  {
    if entries == [] then []
    else EntriesDrivers(entries[..|entries| - 1]) + Maybe(EntryDriver(entries[|entries| - 1]))
  }

  /** The connection entries of each profile of the configuration, profile by profile. */
  function EntryGroups(config: Yaml): seq<seq<Yaml>>
  {
    var profiles := Children(config);
    seq(|profiles|, i requires 0 <= i < |profiles| => Children(profiles[i]))
  }

  /** The drivers named by the entries of every profile, in order, repeats included. */
  function ProfilesDrivers(groups: seq<seq<Yaml>>): seq<string>
    decreases |groups|
  {
    if groups == [] then []
    else ProfilesDrivers(groups[..|groups| - 1]) + EntriesDrivers(groups[|groups| - 1])
  }

  /** Keep each element the first time it is seen (the in_array check before appending). */
  function Dedup<T(==)>(s: seq<T>): (kept: seq<T>)
    ensures |kept| <= |s|
    ensures s != [] ==> kept != [] && kept[0] == s[0]
    decreases |s|
  {
    if s == [] then []
    else
      var kept := Dedup(s[..|s| - 1]);
      if s[|s| - 1] in kept then kept else kept + [s[|s| - 1]]
  }

  /** The drivers collected from a parsed databases.yml. */
  function ConfigDrivers(config: Yaml): (drivers: seq<string>)
    ensures !config.Mapping? ==> drivers == []
    ensures |drivers| <= |ProfilesDrivers(EntryGroups(config))|
  {
    Dedup(ProfilesDrivers(EntryGroups(config)))
  }

  /** Position of the first occurrence of `x` in `s`, or |s| when there is none. */
  function FirstIndex<T(==)>(s: seq<T>, x: T): (k: nat)
    ensures k <= |s| && (k < |s| <==> x in s)
    ensures k < |s| ==> s[k] == x && x !in s[..k]
  {
    if s == [] then 0
    else if s[0] == x then 0
    else
      var k := 1 + FirstIndex(s[1..], x);
      assert k < |s| ==> s[..k] == [s[0]] + s[1..][..k - 1];
      k
  }

  lemma {:induction false} DedupMembers<T>(s: seq<T>)
    ensures forall x :: x in Dedup(s) <==> x in s
    decreases |s|
  {
    if s != [] {
      var init := s[..|s| - 1];
      DedupMembers(init);
      assert s == init + [s[|s| - 1]];
    }
  }

  lemma KeptWasSeen<T>(s: seq<T>, x: T)
    requires x in Dedup(s)
    ensures x in s
  {
    DedupMembers(s);
  }

  lemma {:induction false} DedupDistinct<T>(s: seq<T>)
    ensures forall i, j :: 0 <= i < j < |Dedup(s)| ==> Dedup(s)[i] != Dedup(s)[j]
    decreases |s|
  {
    if s != [] {
      DedupDistinct(s[..|s| - 1]);
    }
  }

  lemma FirstIndexExtend<T>(s: seq<T>, x: T, y: T)
    requires y in s
    ensures FirstIndex(s + [x], y) == FirstIndex(s, y)
  {
    var k := FirstIndex(s, y);
    assert (s + [x])[k] == y;
    assert (s + [x])[..k] == s[..k];
  }

  /** The kept elements appear in the order in which they were first seen. */
  lemma {:induction false} DedupFirstSeenOrder<T>(s: seq<T>)
    ensures forall i, j :: 0 <= i < j < |Dedup(s)| ==>
      FirstIndex(s, Dedup(s)[i]) < FirstIndex(s, Dedup(s)[j])
    decreases |s|
  {
    if s != [] {
      var init, last := s[..|s| - 1], s[|s| - 1];
      var kept := Dedup(init);
      assert s == init + [last];
      DedupFirstSeenOrder(init);
      forall x | x in kept
        ensures FirstIndex(s, x) == FirstIndex(init, x) < |init|
      {
        KeptWasSeen(init, x);
        FirstIndexExtend(init, last, x);
      }
      if last !in kept {
        DedupMembers(init);
        assert last !in init;
        assert FirstIndex(s, last) == |init|;
      }
    }
  }

  /** Some entry among `entries` names driver `d`. */
  predicate EntriesName(entries: seq<Yaml>, d: string)
  {
    exists j :: 0 <= j < |entries| && EntryDriver(entries[j]) == Some(d)
  }

  /** Some entry of some profile among `groups` names driver `d`. */
  predicate ProfilesName(groups: seq<seq<Yaml>>, d: string)
  {
    exists i :: 0 <= i < |groups| && EntriesName(groups[i], d)
  }

  lemma {:induction false} EntriesDriversMembers(entries: seq<Yaml>)
    ensures forall d :: d in EntriesDrivers(entries) <==> EntriesName(entries, d)
    decreases |entries|
  {
    if entries != [] {
      var init := entries[..|entries| - 1];
      EntriesDriversMembers(init);
      forall d ensures d in EntriesDrivers(entries) <==> EntriesName(entries, d)
      {
        if EntriesName(init, d) {
          var j :| 0 <= j < |init| && EntryDriver(init[j]) == Some(d);
          assert entries[j] == init[j];
        }
        if EntriesName(entries, d) {
          var j :| 0 <= j < |entries| && EntryDriver(entries[j]) == Some(d);
          if j < |init| {
            assert init[j] == entries[j];
          }
        }
      }
    }
  }

  lemma {:induction false} ProfilesDriversMembers(groups: seq<seq<Yaml>>)
    ensures forall d :: d in ProfilesDrivers(groups) <==> ProfilesName(groups, d)
    decreases |groups|
  {
    if groups != [] {
      var init, last := groups[..|groups| - 1], groups[|groups| - 1];
      ProfilesDriversMembers(init);
      EntriesDriversMembers(last);
      forall d ensures d in ProfilesDrivers(groups) <==> ProfilesName(groups, d)
      {
        if ProfilesName(init, d) {
          var i :| 0 <= i < |init| && EntriesName(init[i], d);
          assert groups[i] == init[i];
        }
        if EntriesName(last, d) {
          assert EntriesName(groups[|groups| - 1], d);
        }
        if ProfilesName(groups, d) {
          var i :| 0 <= i < |groups| && EntriesName(groups[i], d);
          if i < |init| {
            assert init[i] == groups[i];
            assert ProfilesName(init, d);
          }
        }
      }
    }
  }

  /**
   * What an entry contributes: nothing without a textual param.dsn, otherwise the DSN's
   * text before its first ':' when that text is neither "" nor "0".
   */
  lemma EntryDriverIsDsnPrefix(entry: Yaml)
    ensures EntryDsn(entry).None? ==> EntryDriver(entry).None?
    ensures EntryDsn(entry).Some? ==>
      var dsn := EntryDsn(entry).value;
      forall d :: IsTextBeforeColon(d, dsn) ==>
        (EntryDriver(entry) == Some(d) <==> TruthyText(d)) &&
        (EntryDriver(entry).None? <==> !TruthyText(d))
  {
    if EntryDsn(entry).Some? {
      var dsn := EntryDsn(entry).value;
      forall d | IsTextBeforeColon(d, dsn)
        ensures d == Explode(':', dsn)[0]
      {
        ExplodeHead(':', dsn);
        TextBeforeColonUnique(d, Explode(':', dsn)[0], dsn);
      }
    }
  }

  /** `d` is the text of `dsn` before its first ':' (all of it when there is no ':'). */
  predicate IsTextBeforeColon(d: string, dsn: string)
  {
    d <= dsn && ':' !in d && (|d| == |dsn| || dsn[|d|] == ':')
  }

  lemma TextBeforeColonUnique(a: string, b: string, dsn: string)
    requires IsTextBeforeColon(a, dsn) && IsTextBeforeColon(b, dsn)
    ensures a == b
  {
  }

  /**
   * The collected drivers: no repeats, in first-seen order, and each is exactly the driver
   * named by some entry of some profile, every such driver being collected.
   */
  lemma ConfigDriversProperties(config: Yaml)
    ensures forall i, j :: 0 <= i < j < |ConfigDrivers(config)| ==>
      ConfigDrivers(config)[i] != ConfigDrivers(config)[j]
    ensures forall i, j :: 0 <= i < j < |ConfigDrivers(config)| ==>
      FirstIndex(ProfilesDrivers(EntryGroups(config)), ConfigDrivers(config)[i]) <
      FirstIndex(ProfilesDrivers(EntryGroups(config)), ConfigDrivers(config)[j])
    ensures forall d :: d in ConfigDrivers(config) <==> ProfilesName(EntryGroups(config), d)
  {
    var all := ProfilesDrivers(EntryGroups(config));
    DedupDistinct(all);
    DedupFirstSeenOrder(all);
    DedupMembers(all);
    ProfilesDriversMembers(EntryGroups(config));
  }

  /** The LogicException thrown when databases.yml is missing. */
  datatype TaskError = FileNotFound(path: string)

  /** sprintf('File "%s" not found', $databases_yml). */
  function Message(e: TaskError): (m: string)
    ensures |m| == |e.path| + 17 && m[6..6 + |e.path|] == e.path
  {
    "File \"" + e.path + "\" not found"
  }

  /** The message names the missing file: two errors with one text are the same error. */
  lemma MessageInjective(a: TaskError, b: TaskError)
    ensures Message(a) == Message(b) ==> a == b
  {
    UnwrapMiddle("File \"", a.path, b.path, "\" not found");
  }

  /** Unfolding the driver sequences one element at a time, for the loops below. */
  lemma EntriesDriversStep(entries: seq<Yaml>, j: nat)
    requires j < |entries|
    ensures EntriesDrivers(entries[..j + 1]) == EntriesDrivers(entries[..j]) + Maybe(EntryDriver(entries[j]))
  {
    assert entries[..j + 1][..j] == entries[..j];
  }

  lemma ProfilesDriversStep(groups: seq<seq<Yaml>>, i: nat)
    requires i < |groups|
    ensures ProfilesDrivers(groups[..i + 1]) == ProfilesDrivers(groups[..i]) + EntriesDrivers(groups[i])
  {
    assert groups[..i + 1][..i] == groups[..i];
  }

  /** One step of the in_array check: a value already kept is skipped, a new one is appended. */
  lemma DedupAppend(seen: seq<string>, d: string)
    ensures Dedup(seen + [d]) == if d in Dedup(seen) then Dedup(seen) else Dedup(seen) + [d]
  {
    assert (seen + [d])[..|seen|] == seen;
  }

  /**
   * One pass of the inner foreach: the drivers so far, extended by the driver entry j
   * names when there is one and it is not yet collected.
   */
  lemma AddEntryStep(before: seq<string>, entries: seq<Yaml>, j: nat)
    requires j < |entries|
    ensures var kept := Dedup(before + EntriesDrivers(entries[..j]));
      var found := EntryDriver(entries[j]);
      Dedup(before + EntriesDrivers(entries[..j + 1])) ==
        if found.Some? && found.value !in kept then kept + [found.value] else kept
  {
    var seen := before + EntriesDrivers(entries[..j]);
    var found := EntryDriver(entries[j]);
    EntriesDriversStep(entries, j);
    assert before + EntriesDrivers(entries[..j + 1]) == seen + Maybe(found);
    if found.Some? {
      DedupAppend(seen, found.value);
    } else {
      assert seen + [] == seen;
    }
  }

  /**
   * The inner foreach of collectDoctrineDriversFromConfigFile: the connection entries of one
   * profile, each adding its driver unless it is already collected.
   */
  method AddEntryDrivers(entries: seq<Yaml>, ghost before: seq<string>, collected: seq<string>)
    returns (drivers: seq<string>)
    requires collected == Dedup(before)
    ensures drivers == Dedup(before + EntriesDrivers(entries))
  {
    drivers := collected;
    var j := 0;
    assert before + EntriesDrivers(entries[..0]) == before;
    while j < |entries|
      invariant 0 <= j <= |entries|
      invariant drivers == Dedup(before + EntriesDrivers(entries[..j]))
    {
      var found := EntryDriver(entries[j]);
      AddEntryStep(before, entries, j);
      if found.Some? {
        if found.value !in drivers {
          drivers := drivers + [found.value];
        }
      }
      j := j + 1;
    }
    assert entries[..j] == entries;
  }

  /**
   * collectDoctrineDriversFromConfigFile: the parsed databases.yml is given, or None when
   * the file does not exist.
   */
  method CollectDoctrineDriversFromConfigFile(rootDir: string, databasesYml: Option<Yaml>)
    returns (r: Result<seq<string>, TaskError>)
    ensures r.Failure? <==> databasesYml.None?
    ensures r.Failure? ==> r.error == FileNotFound(rootDir + "/config/databases.yml")
    ensures r.Success? ==> r.value == ConfigDrivers(databasesYml.value)
  {
    if databasesYml.None? {
      return Failure(FileNotFound(rootDir + "/config/databases.yml"));
    }
    var drivers: seq<string> := [];
    var profiles := Children(databasesYml.value);
    ghost var groups := EntryGroups(databasesYml.value);
    var i := 0;
    while i < |profiles|
      invariant 0 <= i <= |profiles| && |groups| == |profiles|
      invariant drivers == Dedup(ProfilesDrivers(groups[..i]))
    {
      var entries := Children(profiles[i]);
      assert entries == groups[i];
      ProfilesDriversStep(groups, i);
      drivers := AddEntryDrivers(entries, ProfilesDrivers(groups[..i]), drivers);
      i := i + 1;
    }
    assert groups[..i] == groups;
    return Success(drivers);
  }

  /** An option value as the task sees it. */
  datatype OptValue = Nil | Flag(on: bool) | Text(text: string) | List(items: seq<string>)

  type Options = map<string, OptValue>

  /** `$options[$key]`, null (Nil) when the key is absent. */
  function Get(options: Options, key: string): OptValue
  {
    if key in options then options[key] else Nil
  }

  /** PHP truthiness. */
  predicate Truthy(v: OptValue): (b: bool)
    ensures !v.List? ==> (b <==> TruthyText(PhpString(v)))
    ensures v.List? ==> (b <==> v.items != [])
  {
    match v
    case Nil => false
    case Flag(on) => on
    case Text(text) => TruthyText(text)
    case List(items) => items != []
  }

  /** PHP's string conversion of a value that is not an array. */
  function PhpString(v: OptValue): (text: string)
    requires !v.List?
    ensures v.Text? ==> text == v.text
    ensures !v.Text? ==> text == "" || text == "1"
  {
    match v
    case Nil => ""
    case Flag(on) => if on then "1" else ""
    case Text(text) => text
  }

  /**
   * The `is_array` / `explode(',', ...)` step: an array is kept, anything else is split
   * on ','. The pieces are never empty as a list, hold no ',', and join back to the text.
   */
  function ToDriverList(v: OptValue): (drivers: seq<string>)
    ensures v.List? ==> drivers == v.items
    ensures !v.List? ==> |drivers| >= 1 && Implode(",", drivers) == PhpString(v)
    ensures !v.List? ==> forall i :: 0 <= i < |drivers| ==> ',' !in drivers[i]
  {
    if v.List? then v.items
    else
      ImplodeExplode(',', PhpString(v));
      Explode(',', PhpString(v))
  }

  /** What the task reads from outside itself, given as values. */
  datatype TaskEnv = TaskEnv(
    settings: map<string, OptValue>,  // the sfConfig values
    rootDir: string,                  // the project's root directory
    databasesYml: Option<Yaml>,       // config/databases.yml parsed, None when it is missing
    doctrinePath: string,             // the plugin's Doctrine vendor directory
    compiledPath: string)             // the plugin's default compiled-classes path

  /** sfConfig::get($key, $default): a setting that is absent or null yields the default. */
  function ConfigGet(settings: map<string, OptValue>, key: string, default: OptValue): (v: OptValue)
    ensures key in settings && settings[key] != Nil ==> v == settings[key]
    ensures key !in settings || settings[key] == Nil ==> v == default
    ensures v == Nil ==> default == Nil
  {
    if key in settings && settings[key] != Nil then settings[key] else default
  }

  const CompilerFileName := "Doctrine.compiler.php"

  /**
   * getDefaultDoctrineCompilerPath: the app_doctrine_compiler_path setting, or else a
   * file named Doctrine.compiler.php in the directory of the plugin's compiled path.
   */
  function DefaultCompilerPath(env: TaskEnv): (path: OptValue)
    ensures ConfigGet(env.settings, "app_doctrine_compiler_path", Nil) != Nil ==>
      path == env.settings["app_doctrine_compiler_path"]
    ensures ConfigGet(env.settings, "app_doctrine_compiler_path", Nil) == Nil ==>
      path.Text? && path.text == Dirname(env.compiledPath) + "/" + CompilerFileName &&
      (env.compiledPath != "" ==> Dirname(path.text) == Dirname(env.compiledPath))
  {
    var beside := Dirname(env.compiledPath) + "/" + CompilerFileName;
    if env.compiledPath != "" then
      DirnameOfEntry(Dirname(env.compiledPath), CompilerFileName);
      ConfigGet(env.settings, "app_doctrine_compiler_path", Text(beside))
    else
      ConfigGet(env.settings, "app_doctrine_compiler_path", Text(beside))
  }

  /**
   * getDefaultDoctrineDrivers: the app_doctrine_drivers setting, or else the drivers of
   * databases.yml. The file is read first in either case, so a missing file is an error
   * even when the setting is present.
   */
  method GetDefaultDoctrineDrivers(env: TaskEnv) returns (r: Result<OptValue, TaskError>)
    ensures r.Failure? <==> env.databasesYml.None?
    ensures r.Failure? ==> r.error == FileNotFound(env.rootDir + "/config/databases.yml")
    ensures r.Success? ==>
      r.value == ConfigGet(env.settings, "app_doctrine_drivers", List(ConfigDrivers(env.databasesYml.value)))
  {
    var collected := CollectDoctrineDriversFromConfigFile(env.rootDir, env.databasesYml);
    if collected.Failure? {
      return Failure(collected.error);
    }
    return Success(ConfigGet(env.settings, "app_doctrine_drivers", List(collected.value)));
  }

  const RewrittenKeys := {"drivers", "compiled_path", "compiler_path", "doctrine_path"}

  /**
   * `if (null === $options[$key]) $options[$key] = $default;`: the key is present
   * afterwards, takes `default` exactly when it read as null, and no other key changes.
   */
  function WithDefault(options: Options, key: string, default: OptValue): (r: Options)
    ensures r.Keys == options.Keys + {key}
    ensures Get(options, key) == Nil ==> r[key] == default
    ensures Get(options, key) != Nil ==> r[key] == options[key]
    ensures forall k :: k in options && k != key ==> r[k] == options[k]
  {
    if Get(options, key) == Nil then options[key := default] else options
  }

  /**
   * The driver half of processOptions: `no-drivers` forces an empty list; otherwise a null
   * `drivers` option takes getDefaultDoctrineDrivers, and a value that is not a list is
   * split on ','.
   */
  method ResolveDrivers(options: Options, env: TaskEnv) returns (r: Result<seq<string>, TaskError>)
    ensures r.Failure? <==>
      !Truthy(Get(options, "no-drivers")) && Get(options, "drivers") == Nil && env.databasesYml.None?
    ensures r.Failure? ==> r.error == FileNotFound(env.rootDir + "/config/databases.yml")
    ensures r.Success? && Truthy(Get(options, "no-drivers")) ==> r.value == []
    ensures r.Success? && !Truthy(Get(options, "no-drivers")) && Get(options, "drivers") != Nil ==>
      r.value == ToDriverList(options["drivers"])
    ensures r.Success? && !Truthy(Get(options, "no-drivers")) && Get(options, "drivers") == Nil ==>
      r.value == ToDriverList(
        ConfigGet(env.settings, "app_doctrine_drivers", List(ConfigDrivers(env.databasesYml.value))))
  {
    if Truthy(Get(options, "no-drivers")) {
      return Success([]);
    }
    var drivers := Get(options, "drivers");
    if drivers == Nil {
      var defaults := GetDefaultDoctrineDrivers(env);
      if defaults.Failure? {
        return Failure(defaults.error);
      }
      drivers := defaults.value;
    }
    if drivers.List? {
      return Success(drivers.items);
    }
    return Success(Explode(',', PhpString(drivers)));
  }

  const PathKeys := {"compiled_path", "compiler_path", "doctrine_path"}

  /**
   * The second half of processOptions: each of the three path options takes its default
   * only when null, and every other option is left as it was.
   */
  method ApplyPathDefaults(options: Options, env: TaskEnv) returns (opts: Options)
    ensures opts.Keys == options.Keys + PathKeys
    ensures forall k :: k in options && k !in PathKeys ==> opts[k] == options[k]
    ensures opts["compiled_path"] ==
      (if Get(options, "compiled_path") == Nil then Text(env.compiledPath) else options["compiled_path"])
    ensures opts["compiler_path"] ==
      (if Get(options, "compiler_path") == Nil then DefaultCompilerPath(env) else options["compiler_path"])
    ensures opts["doctrine_path"] ==
      (if Get(options, "doctrine_path") == Nil then Text(env.doctrinePath) else options["doctrine_path"])
  {
    opts := WithDefault(options, "compiled_path", Text(env.compiledPath));
    ghost var afterCompiled := opts;
    opts := WithDefault(opts, "compiler_path", DefaultCompilerPath(env));
    assert opts["compiled_path"] == afterCompiled["compiled_path"];
    opts := WithDefault(opts, "doctrine_path", Text(env.doctrinePath));
  }

  /**
   * processOptions: the drivers are resolved as ResolveDrivers says, and each path option
   * takes its default only when null. Every other option is left as it was.
   */
  method ProcessOptions(options: Options, env: TaskEnv) returns (r: Result<Options, TaskError>)
    ensures r.Failure? <==>
      !Truthy(Get(options, "no-drivers")) && Get(options, "drivers") == Nil && env.databasesYml.None?
    ensures r.Failure? ==> r.error == FileNotFound(env.rootDir + "/config/databases.yml")
    ensures r.Success? ==> r.value.Keys == options.Keys + RewrittenKeys
    ensures r.Success? ==> forall k :: k in options && k !in RewrittenKeys ==> r.value[k] == options[k]
    ensures r.Success? && Truthy(Get(options, "no-drivers")) ==> r.value["drivers"] == List([])
    ensures r.Success? && !Truthy(Get(options, "no-drivers")) && Get(options, "drivers") != Nil ==>
      r.value["drivers"] == List(ToDriverList(options["drivers"]))
    ensures r.Success? && !Truthy(Get(options, "no-drivers")) && Get(options, "drivers") == Nil ==>
      r.value["drivers"] == List(ToDriverList(
        ConfigGet(env.settings, "app_doctrine_drivers", List(ConfigDrivers(env.databasesYml.value)))))
    ensures r.Success? ==>
      r.value["compiled_path"] == (if Get(options, "compiled_path") == Nil then Text(env.compiledPath) else options["compiled_path"])
    ensures r.Success? ==>
      r.value["compiler_path"] == (if Get(options, "compiler_path") == Nil then DefaultCompilerPath(env) else options["compiler_path"])
    ensures r.Success? ==>
      r.value["doctrine_path"] == (if Get(options, "doctrine_path") == Nil then Text(env.doctrinePath) else options["doctrine_path"])
  {
    var drivers := ResolveDrivers(options, env);
    if drivers.Failure? {
      return Failure(drivers.error);
    }
    var withDrivers := options["drivers" := List(drivers.value)];
    assert forall k :: k in PathKeys ==> Get(withDrivers, k) == Get(options, k);
    var opts := ApplyPathDefaults(withDrivers, env);
    assert opts["drivers"] == List(drivers.value);
    return Success(opts);
  }
}
