/**
 * The helpers of benchmark/cpp/flags.h: finding the model resources in the
 * model directory, and the benchmark report with its warmup/repeat override.
 *
 * The command-line flags and the path separator are parameters; a directory
 * is the list of names `readdir` enumerates, in that order.
 */
module Flags {
  import opened Wrappers
  import opened StdString

  /** The value `--warmup`, `--repeat` and `--xpu_l3_cache` have when not given. */
  const Unset: int32 := -1

  /** The flags these helpers read: `--model`, `--warmup`, `--repeat`, `--xpu_l3_cache`. */
  datatype CommandLine = CommandLine(model: string, warmup: int32, repeat: int32, xpuL3Cache: int32)

  /** `config_info[key]` on an `unordered_map<string, string>`: a missing key reads as "". */
  function Get(config: map<string, string>, key: string): string
  {
    if key in config then config[key] else ""
  }

  // ---------------------------------------------------------------------
  // Model resources in a directory
  // ---------------------------------------------------------------------

  /** A model directory: either `opendir` fails, or it lists these entries. */
  datatype Directory = Unopenable | Listing(entries: seq<string>)

  /**
   * The test one directory entry must pass to be chosen for `suffix`.
   * The "suffix" is looked for anywhere in the name; "yml" and "yaml" stand
   * in for each other; a "pdiparams" name that also holds "info" is refused.
   */
  predicate IsResourceFor(name: string, suffix: string)
  {
    && name != "."
    && name != ".."
    && if Contains(name, suffix) then
         suffix != "pdiparams" || !Contains(name, "info")
       else
         || (suffix == "yml" && Contains(name, "yaml"))
         || (suffix == "yaml" && Contains(name, "yml"))
  }

  /** The first entry, in enumeration order, that passes the test. */
  function FirstResource(entries: seq<string>, suffix: string): Option<string>
    decreases |entries|
  {
    if entries == [] then None
    else if IsResourceFor(entries[0], suffix) then Some(entries[0])
    else FirstResource(entries[1..], suffix)
  }

  /** What a lookup for `suffix` in `dir` finds, if anything. */
  function FindResource(dir: Directory, suffix: string): Option<string>
  {
    match dir
    case Unopenable => None
    case Listing(entries) => FirstResource(entries, suffix)
  }

  /** Entry `i` passes the test and no entry before it does. */
  ghost predicate IsFirstResource(entries: seq<string>, suffix: string, i: int)
  {
    && 0 <= i < |entries|
    && IsResourceFor(entries[i], suffix)
    && forall j :: 0 <= j < i ==> !IsResourceFor(entries[j], suffix)
  }

  /**
   * The lookup succeeds exactly when some entry passes the test, and then
   * it yields the first such entry.
   */
  lemma {:induction false} FirstResourceIsFirstMatch(entries: seq<string>, suffix: string)
    ensures FirstResource(entries, suffix).Some? <==>
              exists i :: 0 <= i < |entries| && IsResourceFor(entries[i], suffix)
    ensures FirstResource(entries, suffix).Some? ==>
              exists i :: IsFirstResource(entries, suffix, i) && entries[i] == FirstResource(entries, suffix).value
    decreases |entries|
  {
    if entries != [] && !IsResourceFor(entries[0], suffix) {
      var rest := entries[1..];
      FirstResourceIsFirstMatch(rest, suffix);
      if FirstResource(rest, suffix).Some? {
        var i :| IsFirstResource(rest, suffix, i) && rest[i] == FirstResource(rest, suffix).value;
        assert IsFirstResource(entries, suffix, i + 1);
      }
    } else if entries != [] {
      assert IsFirstResource(entries, suffix, 0);
    }
  }

  /** What a chosen name looks like: the alias cases, the "info" exclusion, no dot entries. */
  lemma FoundResourceShape(dir: Directory, suffix: string)
    requires FindResource(dir, suffix).Some?
    ensures dir.Listing? && FindResource(dir, suffix).value in dir.entries
    ensures var name := FindResource(dir, suffix).value;
            && name != "." && name != ".."
            && (|| Contains(name, suffix)
                || (suffix == "yml" && Contains(name, "yaml"))
                || (suffix == "yaml" && Contains(name, "yml")))
            && (suffix == "pdiparams" ==> !Contains(name, "info"))
  {
    FirstResourceIsFirstMatch(dir.entries, suffix);
  }

  /**
   * First match wins: the entries after the first match never affect the
   * result, and entries before it that fail the test are skipped.
   */
  lemma {:induction false} FirstResourceAppend(front: seq<string>, back: seq<string>, suffix: string)
    ensures FirstResource(front + back, suffix) ==
              if FirstResource(front, suffix).Some? then FirstResource(front, suffix)
              else FirstResource(back, suffix)
    decreases |front|
  {
    if front == [] {
      assert front + back == back;
    } else {
      assert (front + back)[0] == front[0];
      assert (front + back)[1..] == front[1..] + back;
      FirstResourceAppend(front[1..], back, suffix);
    }
  }

  /**
   * A parameters file whose name holds "info" (such as
   * "inference.pdiparams.info") is passed over and the scan goes on.
   */
  lemma ParamsInfoSkipped(name: string, rest: seq<string>)
    requires Contains(name, "info")
    ensures FirstResource([name] + rest, "pdiparams") == FirstResource(rest, "pdiparams")
  {
    assert ([name] + rest)[1..] == rest;
  }

  /** Looking for "yml" and looking for "yaml" always find the same entry. */
  lemma {:induction false} YmlYamlAgree(entries: seq<string>)
    ensures FirstResource(entries, "yml") == FirstResource(entries, "yaml")
    decreases |entries|
  {
    if entries != [] {
      assert IsResourceFor(entries[0], "yml") == IsResourceFor(entries[0], "yaml");
      YmlYamlAgree(entries[1..]);
    }
  }

  /**
   * `GetModelResoucesNameFromDir`: scan the directory for the first entry
   * that passes the test for `suffix`. On success the entry's name is
   * returned in place of `resourceName`; otherwise `resourceName` comes
   * back unchanged. An unopenable directory finds nothing. As in C++,
   * `suffix` is "pdmodel" unless given.
   */
  method GetModelResoucesNameFromDir(dir: Directory, resourceName: string, suffix: string := "pdmodel")
    returns (found: bool, name: string)
    ensures found == FindResource(dir, suffix).Some?
    ensures name == FindResource(dir, suffix).GetOr(resourceName)
  {
    name := resourceName;
    if dir.Unopenable? {
      return false, name;
    }
    var entries := dir.entries;
    found := false;
    var i := 0;
    while i < |entries|
      invariant 0 <= i <= |entries|
      invariant !found && name == resourceName
      invariant FirstResource(entries[i..], suffix) == FirstResource(entries, suffix)
    {
      var fileName := entries[i];
      assert entries[i..][0] == fileName && entries[i..][1..] == entries[i + 1..];
      if fileName != "." && fileName != ".." {
        if Contains(fileName, suffix) {
          if suffix == "pdiparams" {
            if !Contains(fileName, "info") {
              found := true;
              name := fileName;
              break;
            }
          } else {
            found := true;
            name := fileName;
            break;
          }
        } else {
          if suffix == "yml" {
            if Contains(fileName, "yaml") {
              found := true;
              name := fileName;
              break;
            }
          } else if suffix == "yaml" {
            if Contains(fileName, "yml") {
              found := true;
              name := fileName;
              break;
            }
          }
        }
      }
      i := i + 1;
    }
  }

  /** The one `fastdeploy::ModelFormat` that `UpdateModelResourceName` reports. */
  datatype ModelFormat = PADDLE

  /** The three names `UpdateModelResourceName` fills in. */
  datatype ResourceNames = ResourceNames(model: string, params: string, config: string)

  /**
   * `UpdateModelResourceName`: the format is always PADDLE; an entry whose
   * name contains "pdmodel" and one whose name contains "pdiparams" must be
   * found, and so must one containing "yml"/"yaml" when `useConfigFile`
   * holds (as in C++, it does by default). All three lookups read the same
   * listing. The parameters
   * lookup is skipped when the model lookup fails, and the config lookup is
   * skipped when either fails; a skipped or failed lookup leaves its name as
   * it was.
   */
  method UpdateModelResourceName(modelDir: Directory, names: ResourceNames, useConfigFile: bool := true)
    returns (ok: bool, updated: ResourceNames, format: ModelFormat)
    ensures format == PADDLE
    ensures var model := FindResource(modelDir, "pdmodel");
            var params := FindResource(modelDir, "pdiparams");
            var config := FindResource(modelDir, "yml");
            && (ok <==> model.Some? && params.Some? && (useConfigFile ==> config.Some?))
            && updated.model == model.GetOr(names.model)
            && updated.params == (if model.Some? then params.GetOr(names.params) else names.params)
            && updated.config == (if model.Some? && params.Some? && useConfigFile
                                  then config.GetOr(names.config) else names.config)
  {
    format := PADDLE;
    updated := names;
    var foundModel, modelName := GetModelResoucesNameFromDir(modelDir, names.model, "pdmodel");
    updated := updated.(model := modelName);
    if !foundModel {
      return false, updated, format;
    }
    var foundParams, paramsName := GetModelResoucesNameFromDir(modelDir, names.params, "pdiparams");
    updated := updated.(params := paramsName);
    if !foundParams {
      return false, updated, format;
    }
    if useConfigFile {
      var foundConfig, configName := GetModelResoucesNameFromDir(modelDir, names.config, "yml");
      updated := updated.(config := configName);
      if !foundConfig {
        return false, updated, format;
      }
    }
    return true, updated, format;
  }

  // ---------------------------------------------------------------------
  // Benchmark report
  // ---------------------------------------------------------------------

  /** The warmup/repeat rule: the flag wins unless it still holds the sentinel -1. */
  function OverrideUnlessUnset(flag: int32, fromConfig: int32): int32
  {
    if flag != Unset then flag else fromConfig
  }

  /** The keys of the report's "key: value" lines. */
  datatype ReportKey =
    | ModelName | ProfileMode | IncludeH2dD2h
    | Warmup | Repeats | DeviceName | DeviceId | UseFp16 | BackendName
    | CpuThreadNums | CollectMemoryInfo | SamplingInterval

  /**
   * The text a key is printed as. For every key whose value comes from the
   * configuration it is also that configuration key.
   */
  function Label(key: ReportKey): string
  {
    match key
    case ModelName => "model_name"
    case ProfileMode => "profile_mode"
    case IncludeH2dD2h => "include_h2d_d2h"
    case Warmup => "warmup"
    case Repeats => "repeats"
    case DeviceName => "device"
    case DeviceId => "device_id"
    case UseFp16 => "use_fp16"
    case BackendName => "backend"
    case CpuThreadNums => "cpu_thread_nums"
    case CollectMemoryInfo => "collect_memory_info"
    case SamplingInterval => "sampling_interval"
  }

  /** One "key: value" line of the report. */
  datatype Field = Field(key: ReportKey, value: string)

  /**
   * What `PrintBenchmarkInfo` produces: nothing but a complaint when the
   * model path splits into no names, an exception from `std::stoi`, or the
   * report's "Model Info" and "Backend Info" sections.
   */
  datatype BenchmarkInfo =
    | InvalidModelDir
    | Threw
    | Report(modelInfo: seq<Field>, backendInfo: seq<Field>)

  /** Every key of each section, in printing order. */
  const ModelInfoKeys: seq<ReportKey> := [ModelName, ProfileMode, IncludeH2dD2h]

  const BackendInfoKeys: seq<ReportKey> :=
    [Warmup, Repeats, DeviceName, DeviceId, UseFp16, BackendName,
     CpuThreadNums, CollectMemoryInfo, SamplingInterval]

  /** The fields that only some configurations show, and when; all others are always shown. */
  predicate Shown(key: ReportKey, config: map<string, string>)
  {
    match key
    case IncludeH2dD2h => Get(config, "profile_mode") == "runtime"
    case DeviceId => Get(config, "device") == "gpu"
    case CpuThreadNums => Get(config, "device") == "cpu"
    case SamplingInterval => Get(config, "collect_memory_info") == "true"
    case _ => true
  }

  /** The keys of `keys` that `config` shows, in the same order. */
  function ShownKeys(keys: seq<ReportKey>, config: map<string, string>): seq<ReportKey>
    decreases |keys|
  {
    if keys == [] then []
    else OnlyIf(Shown(keys[0], config), keys[0]) + ShownKeys(keys[1..], config)
  }

  /** What one run of the benchmark reports about itself besides the configuration. */
  datatype RunInfo = RunInfo(modelName: string, warmup: int32, repeat: int32)

  /**
   * The value a report field shows: the last model name, the effective
   * warmup and repeat counts in decimal, the sampling interval with "ms"
   * appended, and for every other key the configuration's value.
   */
  function FieldValue(key: ReportKey, config: map<string, string>, run: RunInfo): string
  {
    match key
    case ModelName => run.modelName
    case Warmup => IntToDecimal(run.warmup as int)
    case Repeats => IntToDecimal(run.repeat as int)
    case SamplingInterval => Get(config, "sampling_interval") + "ms"
    case _ => Get(config, Label(key))
  }

  /** The report line for `key`. */
  function Line(key: ReportKey, config: map<string, string>, run: RunInfo): Field
  {
    Field(key, FieldValue(key, config, run))
  }

  /** The report lines for `keys`, in that order. */
  function Lines(keys: seq<ReportKey>, config: map<string, string>, run: RunInfo): seq<Field>
  {
    seq(|keys|, i requires 0 <= i < |keys| => Line(keys[i], config, run))
  }

  /** The lines for some keys followed by one more key. */
  lemma LinesSnoc(keys: seq<ReportKey>, k: ReportKey, config: map<string, string>, run: RunInfo)
    ensures Lines(keys + [k], config, run) == Lines(keys, config, run) + [Line(k, config, run)]
  {
    assert Lines(keys + [k], config, run)[..|keys|] == Lines(keys, config, run);
  }

  /** `[k]` when `b` holds, otherwise nothing. */
  function OnlyIf(b: bool, k: ReportKey): seq<ReportKey>
  {
    if b then [k] else []
  }

  /** The "Model Info" keys a configuration shows. */
  lemma ModelInfoLayout(config: map<string, string>)
    ensures ShownKeys(ModelInfoKeys, config) ==
              [ModelName, ProfileMode] + OnlyIf(Shown(IncludeH2dD2h, config), IncludeH2dD2h)
  {
    var g1, g2 := [ModelName, ProfileMode], [IncludeH2dD2h];
    assert ModelInfoKeys == g1 + g2;
    ShownKeysAppend(g1, g2, config);
    ShownAll(g1, config);
    assert g2[1..] == [];
  }

  /** The "Backend Info" keys a configuration shows, in the order the report writes them. */
  lemma BackendInfoLayout(config: map<string, string>)
    ensures ShownKeys(BackendInfoKeys, config) ==
              [Warmup, Repeats, DeviceName]
              + OnlyIf(Shown(DeviceId, config), DeviceId)
              + [UseFp16] + [BackendName]
              + OnlyIf(Shown(CpuThreadNums, config), CpuThreadNums)
              + [CollectMemoryInfo]
              + OnlyIf(Shown(SamplingInterval, config), SamplingInterval)
  {
    var o1 := OnlyIf(Shown(DeviceId, config), DeviceId);
    var o2 := OnlyIf(Shown(CpuThreadNums, config), CpuThreadNums);
    var o3 := OnlyIf(Shown(SamplingInterval, config), SamplingInterval);
    var rest := [DeviceId, UseFp16, BackendName, CpuThreadNums, CollectMemoryInfo, SamplingInterval];
    assert BackendInfoKeys == [Warmup, Repeats, DeviceName] + rest;
    ShownAllThenRest([Warmup, Repeats, DeviceName], rest, config);
    BackendInfoFromDeviceId(config);
    SeqAssoc7([Warmup, Repeats, DeviceName], o1, [UseFp16], [BackendName], o2, [CollectMemoryInfo], o3);
  }

  lemma BackendInfoFromDeviceId(config: map<string, string>)
    ensures ShownKeys([DeviceId, UseFp16, BackendName, CpuThreadNums, CollectMemoryInfo, SamplingInterval], config)
            == OnlyIf(Shown(DeviceId, config), DeviceId) + ([UseFp16] + ([BackendName]
               + (OnlyIf(Shown(CpuThreadNums, config), CpuThreadNums) + ([CollectMemoryInfo]
               + OnlyIf(Shown(SamplingInterval, config), SamplingInterval)))))
  {
    var t4 := [CpuThreadNums, CollectMemoryInfo, SamplingInterval];
    var t3 := [BackendName] + t4;
    var t2 := [UseFp16] + t3;
    assert [DeviceId, UseFp16, BackendName, CpuThreadNums, CollectMemoryInfo, SamplingInterval] == [DeviceId] + t2;
    ShownOneThenRest(DeviceId, t2, config);
    ShownAllThenRest([UseFp16], t3, config);
    ShownAllThenRest([BackendName], t4, config);
    BackendInfoFromThreads(config);
  }

  lemma BackendInfoFromThreads(config: map<string, string>)
    ensures ShownKeys([CpuThreadNums, CollectMemoryInfo, SamplingInterval], config)
            == OnlyIf(Shown(CpuThreadNums, config), CpuThreadNums) + ([CollectMemoryInfo]
               + OnlyIf(Shown(SamplingInterval, config), SamplingInterval))
  {
    var t5 := [CollectMemoryInfo, SamplingInterval];
    assert [CpuThreadNums, CollectMemoryInfo, SamplingInterval] == [CpuThreadNums] + t5;
    ShownOneThenRest(CpuThreadNums, t5, config);
    assert t5 == [CollectMemoryInfo] + [SamplingInterval];
    ShownAllThenRest([CollectMemoryInfo], [SamplingInterval], config);
    ShownOneThenRest(SamplingInterval, [], config);
    assert [SamplingInterval] == [SamplingInterval] + [];
  }

  lemma SeqAssoc7<T>(a: seq<T>, b: seq<T>, c: seq<T>, d: seq<T>, e: seq<T>, f: seq<T>, g: seq<T>)
    ensures a + (b + (c + (d + (e + (f + g))))) == a + b + c + d + e + f + g
  {
  }

  lemma ShownOneThenRest(k: ReportKey, rest: seq<ReportKey>, config: map<string, string>)
    ensures ShownKeys([k] + rest, config) == OnlyIf(Shown(k, config), k) + ShownKeys(rest, config)
  {
    assert ([k] + rest)[1..] == rest;
  }

  lemma ShownAllThenRest(ks: seq<ReportKey>, rest: seq<ReportKey>, config: map<string, string>)
    requires forall i :: 0 <= i < |ks| ==> Shown(ks[i], config)
    ensures ShownKeys(ks + rest, config) == ks + ShownKeys(rest, config)
  {
    ShownKeysAppend(ks, rest, config);
    ShownAll(ks, config);
  }

  /** The keys of `ks` that `config` shows, when it shows every one of them. */
  lemma {:induction false} ShownAll(ks: seq<ReportKey>, config: map<string, string>)
    requires forall i :: 0 <= i < |ks| ==> Shown(ks[i], config)
    ensures ShownKeys(ks, config) == ks
    decreases |ks|
  {
    if ks != [] {
      ShownAll(ks[1..], config);
    }
  }

  /** Filtering a concatenation filters each part. */
  lemma {:induction false} ShownKeysAppend(front: seq<ReportKey>, back: seq<ReportKey>, config: map<string, string>)
    ensures ShownKeys(front + back, config) == ShownKeys(front, config) + ShownKeys(back, config)
    decreases |front|
  {
    if front == [] {
      assert front + back == back;
    } else {
      var head := OnlyIf(Shown(front[0], config), front[0]);
      assert (front + back)[0] == front[0];
      assert (front + back)[1..] == front[1..] + back;
      ShownKeysAppend(front[1..], back, config);
      calc {
        ShownKeys(front + back, config);
        head + ShownKeys(front[1..] + back, config);
        head + (ShownKeys(front[1..], config) + ShownKeys(back, config));
        (head + ShownKeys(front[1..], config)) + ShownKeys(back, config);
      }
    }
  }

  /** Both counts in the configuration parse as `int`. */
  predicate CountsParse(config: map<string, string>)
  {
    Stoi(Get(config, "warmup")).Some? && Stoi(Get(config, "repeat")).Some?
  }

  /** The warmup count in effect: the configuration's unless the flag overrides it. */
  function EffectiveWarmup(config: map<string, string>, cl: CommandLine): int32
  {
    OverrideUnlessUnset(cl.warmup, Stoi(Get(config, "warmup")).GetOr(0))
  }

  /** The repeat count in effect: the configuration's unless the flag overrides it. */
  function EffectiveRepeat(config: map<string, string>, cl: CommandLine): int32
  {
    OverrideUnlessUnset(cl.repeat, Stoi(Get(config, "repeat")).GetOr(0))
  }

  /**
   * `info` is what `PrintBenchmarkInfo` yields for this configuration, these
   * flags and the names the model path splits into.
   */
  predicate DescribesBenchmark(info: BenchmarkInfo, config: map<string, string>,
                               cl: CommandLine, modelNames: seq<string>)
  {
    && (info == InvalidModelDir <==> modelNames == [])
    && (info == Threw <==> modelNames != [] && !CountsParse(config))
    && (info.Report? ==>
          modelNames != [] &&
          var run := RunInfo(modelNames[|modelNames| - 1],
                             EffectiveWarmup(config, cl), EffectiveRepeat(config, cl));
          && info.modelInfo == Lines(ShownKeys(ModelInfoKeys, config), config, run)
          && info.backendInfo == Lines(ShownKeys(BackendInfoKeys, config), config, run))
  }

  /**
   * A "Backend Info" section shows the device id exactly on a GPU and the
   * thread count exactly on a CPU, so never both.
   */
  lemma DeviceLines(config: map<string, string>)
    ensures DeviceId in ShownKeys(BackendInfoKeys, config) <==> Get(config, "device") == "gpu"
    ensures CpuThreadNums in ShownKeys(BackendInfoKeys, config) <==> Get(config, "device") == "cpu"
    ensures !(DeviceId in ShownKeys(BackendInfoKeys, config) && CpuThreadNums in ShownKeys(BackendInfoKeys, config))
  {
    DeviceIdLine(config);
    CpuThreadsLine(config);
    var device := Get(config, "device");
    assert !(device == "gpu" && device == "cpu") by {
      assert "gpu"[0] != "cpu"[0];
    }
  }

  /** The first half of `DeviceLines`. */
  lemma DeviceIdLine(config: map<string, string>)
    ensures DeviceId in ShownKeys(BackendInfoKeys, config) <==> Get(config, "device") == "gpu"
  {
    assert BackendInfoKeys[3] == DeviceId;
    ShownKeysMembers(DeviceId, BackendInfoKeys, config);
  }

  /** The second half of `DeviceLines`. */
  lemma CpuThreadsLine(config: map<string, string>)
    ensures CpuThreadNums in ShownKeys(BackendInfoKeys, config) <==> Get(config, "device") == "cpu"
  {
    assert BackendInfoKeys[6] == CpuThreadNums;
    ShownKeysMembers(CpuThreadNums, BackendInfoKeys, config);
  }

  /** Filtering keeps exactly the keys that are shown. */
  lemma {:induction false} ShownKeysMembers(k: ReportKey, keys: seq<ReportKey>, config: map<string, string>)
    ensures k in ShownKeys(keys, config) <==> k in keys && Shown(k, config)
    decreases |keys|
  {
    if keys != [] {
      ShownKeysMembers(k, keys[1..], config);
      assert keys == [keys[0]] + keys[1..];
    }
  }

  /** A report's "Model Info" starts with the last name the model path splits into. */
  lemma ReportNamesModel(info: BenchmarkInfo, config: map<string, string>,
                         cl: CommandLine, modelNames: seq<string>)
    requires DescribesBenchmark(info, config, cl, modelNames)
    requires info.Report?
    ensures |info.modelInfo| >= 2
    ensures info.modelInfo[0] == Field(ModelName, modelNames[|modelNames| - 1])
  {
    var run := RunInfo(modelNames[|modelNames| - 1], EffectiveWarmup(config, cl), EffectiveRepeat(config, cl));
    ModelSectionStart(config);
    assert info.modelInfo[0] == Line(ModelName, config, run);
  }

  /** A report's "Backend Info" starts with the warmup and repeat counts in effect. */
  lemma ReportStartsWithCounts(info: BenchmarkInfo, config: map<string, string>,
                               cl: CommandLine, modelNames: seq<string>)
    requires DescribesBenchmark(info, config, cl, modelNames)
    requires info.Report?
    ensures |info.backendInfo| >= 2
    ensures info.backendInfo[0] == Field(Warmup, IntToDecimal(EffectiveWarmup(config, cl) as int))
    ensures info.backendInfo[1] == Field(Repeats, IntToDecimal(EffectiveRepeat(config, cl) as int))
  {
    var run := RunInfo(modelNames[|modelNames| - 1], EffectiveWarmup(config, cl), EffectiveRepeat(config, cl));
    BackendLinesStart(config, run);
  }

  lemma BackendLinesStart(config: map<string, string>, run: RunInfo)
    ensures var lines := Lines(ShownKeys(BackendInfoKeys, config), config, run);
            && |lines| >= 2
            && lines[0] == Field(Warmup, IntToDecimal(run.warmup as int))
            && lines[1] == Field(Repeats, IntToDecimal(run.repeat as int))
  {
    BackendSectionStart(config);
    var lines := Lines(ShownKeys(BackendInfoKeys, config), config, run);
    assert lines[0] == Line(Warmup, config, run);
    assert lines[1] == Line(Repeats, config, run);
  }

  /** The counts a report prints are written so that `std::stoi` reads them back. */
  lemma ReportedCountsReadBack(info: BenchmarkInfo, config: map<string, string>,
                               cl: CommandLine, modelNames: seq<string>)
    requires DescribesBenchmark(info, config, cl, modelNames)
    requires info.Report?
    ensures |info.backendInfo| >= 2
    ensures Stoi(info.backendInfo[0].value) == Some(EffectiveWarmup(config, cl))
    ensures Stoi(info.backendInfo[1].value) == Some(EffectiveRepeat(config, cl))
  {
    ReportStartsWithCounts(info, config, cl, modelNames);
    StoiRoundTrip(EffectiveWarmup(config, cl));
    StoiRoundTrip(EffectiveRepeat(config, cl));
  }

  /** Every configuration's "Model Info" starts with the model name and the profile mode. */
  lemma ModelSectionStart(config: map<string, string>)
    ensures var keys := ShownKeys(ModelInfoKeys, config);
            |keys| >= 2 && keys[0] == ModelName && keys[1] == ProfileMode
  {
    var modelRest := [IncludeH2dD2h];
    assert ModelInfoKeys == [ModelName, ProfileMode] + modelRest;
    ShownAllThenRest([ModelName, ProfileMode], modelRest, config);
  }

  /** Every configuration's "Backend Info" starts with the two counts and the device. */
  lemma BackendSectionStart(config: map<string, string>)
    ensures var keys := ShownKeys(BackendInfoKeys, config);
            |keys| >= 3 && keys[0] == Warmup && keys[1] == Repeats && keys[2] == DeviceName
  {
    var backendRest := BackendInfoKeys[3..];
    assert BackendInfoKeys == [Warmup, Repeats, DeviceName] + backendRest;
    ShownAllThenRest([Warmup, Repeats, DeviceName], backendRest, config);
  }

  /**
   * The counts in effect: a flag other than -1 wins, and otherwise the
   * configuration's value counts.
   */
  lemma FlagsOverrideConfig(config: map<string, string>, cl: CommandLine)
    requires CountsParse(config)
    ensures cl.warmup != Unset ==> EffectiveWarmup(config, cl) == cl.warmup
    ensures cl.warmup == Unset ==> Some(EffectiveWarmup(config, cl)) == Stoi(Get(config, "warmup"))
    ensures cl.repeat != Unset ==> EffectiveRepeat(config, cl) == cl.repeat
    ensures cl.repeat == Unset ==> Some(EffectiveRepeat(config, cl)) == Stoi(Get(config, "repeat"))
  {
  }

  /** Writing one more line keeps what is written the lines of the keys written so far. */
  method WriteLine(fields: seq<Field>, ghost shown: seq<ReportKey>, f: Field,
                   ghost config: map<string, string>, ghost run: RunInfo)
    returns (written: seq<Field>, ghost shownNow: seq<ReportKey>)
    requires fields == Lines(shown, config, run)
    requires f.value == FieldValue(f.key, config, run)
    ensures shownNow == shown + [f.key]
    ensures written == Lines(shownNow, config, run)
  {
    LinesSnoc(shown, f.key, config, run);
    written, shownNow := fields + [f], shown + [f.key];
  }

  /** A line the report writes only under a condition: `when` is whether the key is shown. */
  method WriteLineIf(fields: seq<Field>, ghost shown: seq<ReportKey>, when: bool, f: Field,
                     ghost config: map<string, string>, ghost run: RunInfo)
    returns (written: seq<Field>, ghost shownNow: seq<ReportKey>)
    requires fields == Lines(shown, config, run)
    requires when ==> f.value == FieldValue(f.key, config, run)
    ensures shownNow == shown + OnlyIf(when, f.key)
    ensures written == Lines(shownNow, config, run)
  {
    if when {
      written, shownNow := WriteLine(fields, shown, f, config, run);
    } else {
      written, shownNow := fields, shown;
      assert shown + [] == shown;
    }
  }

  /**
   * `PrintBenchmarkInfo` (the ENABLE_BENCHMARK and ENABLE_VISION build):
   * `modelNames` is what the model path splits into at the separator.
   */
  method PrintBenchmarkInfo(config: map<string, string>, cl: CommandLine, modelNames: seq<string>)
    returns (info: BenchmarkInfo)
    ensures DescribesBenchmark(info, config, cl, modelNames)
  {
    if modelNames == [] {
      return InvalidModelDir;
    }
    var warmupFromConfig := Stoi(Get(config, "warmup"));
    if warmupFromConfig.None? {
      return Threw;
    }
    var repeatFromConfig := Stoi(Get(config, "repeat"));
    if repeatFromConfig.None? {
      return Threw;
    }
    var warmup := warmupFromConfig.value;
    var repeat := repeatFromConfig.value;
    if cl.warmup != Unset {
      warmup := cl.warmup;
    }
    if cl.repeat != Unset {
      repeat := cl.repeat;
    }
    var run := RunInfo(modelNames[|modelNames| - 1], warmup, repeat);
    var modelInfo := ModelInfoSection(config, run);
    var backendInfo := BackendInfoSection(config, run);
    info := Report(modelInfo, backendInfo);
  }

  /**
   * The lines under "======= Model Info =======". The ghost `shown` holds
   * the keys written so far, and `fields` is always their `Lines`.
   */
  method ModelInfoSection(config: map<string, string>, run: RunInfo) returns (fields: seq<Field>)
    ensures fields == Lines(ShownKeys(ModelInfoKeys, config), config, run)
  {
    ghost var shown: seq<ReportKey> := [ModelName, ProfileMode];
    fields := [Field(ModelName, run.modelName), Field(ProfileMode, Get(config, "profile_mode"))];
    assert fields == Lines(shown, config, run);
    fields, shown := WriteLineIf(fields, shown, Get(config, "profile_mode") == "runtime",
                                 Field(IncludeH2dD2h, Get(config, "include_h2d_d2h")), config, run);
    ModelInfoLayout(config);
  }

  /** The lines under "======= Backend Info =======", kept as in `ModelInfoSection`. */
  method BackendInfoSection(config: map<string, string>, run: RunInfo) returns (fields: seq<Field>)
    ensures fields == Lines(ShownKeys(BackendInfoKeys, config), config, run)
  {
    ghost var shown: seq<ReportKey> := [Warmup, Repeats, DeviceName];
    fields := [Field(Warmup, IntToDecimal(run.warmup as int)),
               Field(Repeats, IntToDecimal(run.repeat as int)),
               Field(DeviceName, Get(config, "device"))];
    assert fields == Lines(shown, config, run);
    fields, shown := WriteLineIf(fields, shown, Get(config, "device") == "gpu",
                                 Field(DeviceId, Get(config, "device_id")), config, run);
    fields, shown := WriteLine(fields, shown, Field(UseFp16, Get(config, "use_fp16")), config, run);
    fields, shown := WriteLine(fields, shown, Field(BackendName, Get(config, "backend")), config, run);
    ghost var head := shown;
    assert head == [Warmup, Repeats, DeviceName] + OnlyIf(Shown(DeviceId, config), DeviceId)
                   + [UseFp16] + [BackendName];
    fields, shown := BackendInfoTail(fields, shown, config, run);
    BackendInfoLayout(config);
  }

  /** The lines from "cpu_thread_nums" on. */
  method BackendInfoTail(fields: seq<Field>, ghost shown: seq<ReportKey>,
                         config: map<string, string>, run: RunInfo)
    returns (written: seq<Field>, ghost shownNow: seq<ReportKey>)
    requires fields == Lines(shown, config, run)
    ensures shownNow == shown + OnlyIf(Shown(CpuThreadNums, config), CpuThreadNums)
                       + [CollectMemoryInfo] + OnlyIf(Shown(SamplingInterval, config), SamplingInterval)
    ensures written == Lines(shownNow, config, run)
  {
    written, shownNow := WriteLineIf(fields, shown, Get(config, "device") == "cpu",
                                     Field(CpuThreadNums, Get(config, "cpu_thread_nums")), config, run);
    written, shownNow := WriteLine(written, shownNow, Field(CollectMemoryInfo, Get(config, "collect_memory_info")), config, run);
    written, shownNow := WriteLineIf(written, shownNow, Get(config, "collect_memory_info") == "true",
                                     Field(SamplingInterval, Get(config, "sampling_interval") + "ms"), config, run);
  }
}
