# FastDeploy benchmark helpers

This is a model of the two C++ headers that the FastDeploy benchmark demos share.

- `benchmark/cpp/flags.h` has three parts:
  - `GetModelResoucesNameFromDir` finds the first directory entry whose name contains a given text ("pdmodel", "pdiparams", "yml"/"yaml") anywhere, not only at its end.
  - `UpdateModelResourceName` chains three such lookups.
  - `PrintBenchmarkInfo` builds the benchmark report. The command-line warmup and repeat counts override the configuration's unless they are -1. Some report lines appear only under certain settings.
- `benchmark/cpp/option.h` holds `CreateRuntimeOption`. It turns the benchmark configuration (`device`, `backend`, `use_fp16`, `profile_mode`, ...) into `RuntimeOption` settings. It rejects unsupported device/backend pairs.

The project has four files:

- `wrappers.dfy`: `Option`.
- `std_string.dfy` (module `StdString`): the standard-library pieces the headers rely on.
  - `std::string::find` written as `Contains`.
  - `std::stoi` written as `Stoi`. It gives `None` where the library throws.
  - `operator<<` on `int`, written as `IntToDecimal`.
- `flags.dfy` (module `Flags`): `flags.h`.
  - A directory is `Unopenable` or the list of names `readdir` enumerates, in that order.
  - The output parameter `resource_name` becomes a returned name. It keeps the old value on a miss.
  - The report is two sections of (key, value) lines. Each section is specified as `Lines(ShownKeys(keys, config), config, run)`: the keys that configuration shows, each with its value.
- `option.dfy` (module `BenchmarkOption`): `option.h`.
  - `RuntimeOption` is a class holding the fields `CreateRuntimeOption` writes: the backend check, profiling, device, device id, CPU threads, XPU L3 cache, `trt_option.serialize_file`, `trt_option.enable_fp16`, `paddle_infer_option.enable_trt` and `paddle_lite_option.enable_fp16`.
  - The effect of the library's `Use*Backend` methods is not visible. Every such call is therefore recorded, in order, in `backendCalls`.
  - The method's effect is stated in three steps:
    - `WithProfiling`, lines 34-37.
    - `WithDevice`, lines 38-39, 67 and 89-96. It is `None` when a `std::stoi` throws.
    - `WithBackend`. It is `None` when the device does not take the backend.

The configuration `unordered_map<string, string>` is a `map<string, string>`. `Get` reads a missing key as "" (what `operator[]` yields).

The flags `--model`, `--warmup`, `--repeat` and `--xpu_l3_cache` are the parameter `CommandLine`. The path separator (`'/'`, or `'\\'` on Windows) is the parameter `sep`. What `benchmark::Split` makes of the model path is the parameter `modelNames`.

## Model

| member | source | states |
|---|---|---|
| StdString.Contains | benchmark/cpp/flags.h:111-131 | `name.find(sub) != std::string::npos`: a scan over every start position, finding the empty string everywhere (its meaning is `ContainsIff`) |
| StdString.Stoi | benchmark/cpp/option.h:26-27 | `std::stoi` as used here and at option.h:39, 67, 91-95 and flags.h:57-58: skip C-locale white space, one optional sign, the longest digit run; `None` for no digit or a value outside `int` (partnered by `StoiRoundTrip`, `StoiSkipsSpace`, `StoiNeedsADigit`) |
| StdString.IntToDecimal | benchmark/cpp/flags.h:74-75 | how `ss << warmup` and `ss << repeat` print an `int`: a minus sign for negatives, then the digits without leading zeros (read back by `StoiRoundTrip`) |
| Flags.Get | benchmark/cpp/flags.h:68-89 | `config_info[key]`: the stored value, or "" for a missing key |
| Flags.IsResourceFor | benchmark/cpp/flags.h:109-136 | the test one entry passes: not "." or ".."; contains the suffix, and for "pdiparams" not "info"; or else the yml/yaml alias (its consequences are `FoundResourceShape`) |
| Flags.FirstResource | benchmark/cpp/flags.h:108-139 | the first entry, in enumeration order, that passes the test (characterized by `FirstResourceIsFirstMatch`) |
| Flags.FindResource | benchmark/cpp/flags.h:104-141 | nothing for a directory that does not open, otherwise the first passing entry |
| Flags.EffectiveWarmup | benchmark/cpp/flags.h:57-61 | the warmup in effect: the flag unless it is -1, else `std::stoi` of the configuration's "warmup" (characterized by `FlagsOverrideConfig`) |
| Flags.EffectiveRepeat | benchmark/cpp/flags.h:58-64 | the repeat count in effect: the flag unless it is -1, else `std::stoi` of the configuration's "repeat" |
| Flags.Shown | benchmark/cpp/flags.h:69-88 | the conditions of the optional lines: include_h2d_d2h for profile_mode "runtime", device_id for "gpu", cpu_thread_nums for "cpu", sampling_interval for collect_memory_info "true" |
| Flags.FieldValue | benchmark/cpp/flags.h:67-89 | what each line prints: the last model name, the counts in effect in decimal, the sampling interval followed by "ms", otherwise the configuration's value |
| BenchmarkOption.WithProfiling | benchmark/cpp/option.h:34-37 | the profiling step (its meaning is `ProfilingRule`) |
| BenchmarkOption.WithDevice | benchmark/cpp/option.h:38-96 | the device step: gpu sets the device and id, cpu the thread count, xpu the device, id and L3 cache; a failing `std::stoi` gives `None`; another device changes nothing (partnered by `DeviceStepThrows`, `DeviceStepKeepsTheRest`, `UnknownDeviceRejected`) |
| BenchmarkOption.XpuL3Cache | benchmark/cpp/option.h:90-96 | the L3 cache size: the flag when it is at least 0, else `std::stoi` of the configuration's "xpu_l3_cache" (characterized by `SentinelRules`) |
| BenchmarkOption.SupportedBackends | benchmark/cpp/option.h:40-122 | the taken backends: gpu {ort, paddle, trt, paddle_trt, default}, cpu {ort, ov, paddle, lite, default}, xpu {ort, paddle, lite, default}, any other device none |
| BenchmarkOption.BackendCalls | benchmark/cpp/option.h:40-108 | the `Use*Backend` calls of each backend in order; paddle_trt calls TRT then Paddle Inference, default calls none |
| BenchmarkOption.WithBackend | benchmark/cpp/option.h:40-122 | the backend step: `None` for a backend the device does not take, otherwise the calls and the TRT/Lite switches (partnered by `TrtOnlyOnGpu`, `LiteOffGpu`, `DefaultBackendChangesNothing`, `BackendStepKeepsTheRest`) |
| StdString.ContainsIff | benchmark/cpp/flags.h:111-131 | `find(sub) != npos` holds exactly when `sub` occurs at some index of the name |
| StdString.StoiOfDecimal | benchmark/cpp/flags.h:57-58 | `std::stoi` reads back every `int` as `operator<<` prints it, whatever non-digit text follows |
| StdString.StoiRoundTrip | benchmark/cpp/flags.h:57-74 | `std::stoi` of a printed `int` is that `int` |
| StdString.StoiSkipsSpace | benchmark/cpp/option.h:26-27 | leading white space does not change what `std::stoi` reads |
| StdString.StoiNeedsADigit | benchmark/cpp/option.h:26-27 | text without a digit (a missing key reads as "") makes `std::stoi` throw |
| Flags.GetModelResoucesNameFromDir | benchmark/cpp/flags.h:99-142 | the result is true exactly when some entry passes the test; the name is the first such entry, or the old name on a miss or on an unopenable directory |
| Flags.FirstResourceIsFirstMatch | benchmark/cpp/flags.h:108-139 | the lookup succeeds iff some entry matches, and it returns an entry that matches while no earlier entry does |
| Flags.FoundResourceShape | benchmark/cpp/flags.h:109-136 | a chosen name is never "." or ".."; it contains the suffix ("yaml" also goes for "yml" and the other way round); for "pdiparams" it never contains "info" |
| Flags.FirstResourceAppend | benchmark/cpp/flags.h:108-139 | entries after the first match never affect the result |
| Flags.ParamsInfoSkipped | benchmark/cpp/flags.h:112-117 | a name holding "info" is passed over for "pdiparams" and the scan goes on with the next entries |
| Flags.YmlYamlAgree | benchmark/cpp/flags.h:123-136 | looking for "yml" and looking for "yaml" find the same entry in every listing |
| Flags.UpdateModelResourceName | benchmark/cpp/flags.h:144-162 | the format is always PADDLE; the result is true iff the model and the parameters are found and, when a config file is used, a yml/yaml file too; each lookup after a failed one is skipped and its name left unchanged |
| Flags.FlagsOverrideConfig | benchmark/cpp/flags.h:57-64 | the warmup (repeat) count in effect is the flag's whenever the flag is not -1, other negative values included, and otherwise the configuration's |
| Flags.PrintBenchmarkInfo | benchmark/cpp/flags.h:46-97 | no names from the model path: no report; a count in the configuration that does not parse: an exception; otherwise both sections hold exactly the shown keys with their values, using the last model name and the counts in effect |
| Flags.ModelInfoSection | benchmark/cpp/flags.h:66-71 | the "Model Info" lines are those of the keys the configuration shows, in order |
| Flags.BackendInfoSection | benchmark/cpp/flags.h:72-90 | the "Backend Info" lines are those of the keys the configuration shows, in order |
| Flags.BackendInfoTail | benchmark/cpp/flags.h:81-90 | "cpu_thread_nums" is written only on the cpu, then "collect_memory_info", then "sampling_interval" only when memory is collected |
| Flags.WriteLine | benchmark/cpp/flags.h:67-68 | writing a key's line keeps what is written equal to the lines of the keys written so far |
| Flags.WriteLineIf | benchmark/cpp/flags.h:69-71 | a conditional line adds the key's line exactly when its condition holds |
| Flags.ModelInfoLayout | benchmark/cpp/flags.h:66-71 | "Model Info" shows model_name and profile_mode, then include_h2d_d2h exactly when profile_mode is "runtime" |
| Flags.BackendInfoLayout | benchmark/cpp/flags.h:72-90 | "Backend Info" shows warmup, repeats and device; then device_id only on the gpu; use_fp16 and backend; cpu_thread_nums only on the cpu; collect_memory_info; and sampling_interval only when collect_memory_info is "true" |
| Flags.DeviceLines | benchmark/cpp/flags.h:76-83 | device_id is shown iff the device is "gpu", cpu_thread_nums iff it is "cpu", and never both |
| Flags.ShownKeysMembers | benchmark/cpp/flags.h:66-90 | a key is in a section exactly when it belongs to the section and the configuration shows it |
| Flags.ModelSectionStart | benchmark/cpp/flags.h:66-68 | every "Model Info" starts with model_name and profile_mode |
| Flags.BackendSectionStart | benchmark/cpp/flags.h:72-75 | every "Backend Info" starts with warmup, repeats and device |
| Flags.BackendLinesStart | benchmark/cpp/flags.h:72-74 | the first two "Backend Info" lines print the run's warmup and repeat counts |
| Flags.ReportNamesModel | benchmark/cpp/flags.h:50-67 | a report's first line names the last of the names the model path splits into |
| Flags.ReportStartsWithCounts | benchmark/cpp/flags.h:56-74 | a report's "Backend Info" starts with the warmup and repeat counts in effect |
| Flags.ReportedCountsReadBack | benchmark/cpp/flags.h:56-74 | `std::stoi` of the printed warmup and repeat gives the counts in effect |
| BenchmarkOption.RuntimeOption.DisableValidBackendCheck | benchmark/cpp/option.h:22 | clears the valid-backend check and nothing else |
| BenchmarkOption.RuntimeOption.EnableProfiling | benchmark/cpp/option.h:35-36 | records the profiling request and nothing else |
| BenchmarkOption.RuntimeOption.UseGpu | benchmark/cpp/option.h:39 | selects the GPU with the device id and nothing else |
| BenchmarkOption.RuntimeOption.SetCpuThreadNum | benchmark/cpp/option.h:67 | sets the CPU thread count and nothing else |
| BenchmarkOption.RuntimeOption.UseKunlunXin | benchmark/cpp/option.h:90-96 | selects the XPU with the device id and the L3 cache size and nothing else |
| BenchmarkOption.RuntimeOption.UseBackend | benchmark/cpp/option.h:40-43 | appends one `Use*Backend` call and changes nothing else |
| BenchmarkOption.ProfilingRule | benchmark/cpp/option.h:34-37 | profiling is set exactly for profile_mode "runtime", with include_h2d_d2h == "true" and the counts in effect; nothing else changes |
| BenchmarkOption.DeviceStepKeepsTheRest | benchmark/cpp/option.h:38-96 | the device setup leaves the backend check, profiling and every backend setting as they were |
| BenchmarkOption.BackendStepKeepsTheRest | benchmark/cpp/option.h:40-115 | an accepted backend leaves the backend check, profiling and the device settings as they were |
| BenchmarkOption.DeviceStepThrows | benchmark/cpp/option.h:38-96 | the device setup throws exactly when the gpu/xpu device id, the cpu thread count or (flag negative) the xpu L3 cache size does not parse |
| BenchmarkOption.UnknownDeviceRejected | benchmark/cpp/option.h:116-122 | any device other than gpu, cpu and xpu, the missing key included, is turned down with the settings untouched |
| BenchmarkOption.DefaultBackendChangesNothing | benchmark/cpp/option.h:56-58 | "default" is taken on every device and makes no `Use*Backend` call and sets no switch |
| BenchmarkOption.TrtOnlyOnGpu | benchmark/cpp/option.h:44-55 | trt and paddle_trt are taken iff the device is the gpu; they set the serialize file to model + sep + "trt_serialized.trt" and call the TRT backend; only paddle_trt then calls Paddle Inference and sets enable_trt; TRT fp16 is set iff use_fp16 is "true" |
| BenchmarkOption.LiteOffGpu | benchmark/cpp/option.h:74-78 | lite is taken iff the device is cpu or xpu; it then calls the Lite backend and sets lite fp16 iff use_fp16 is "true", touching no TRT setting |
| BenchmarkOption.SentinelRules | benchmark/cpp/option.h:90-96 | the L3 cache flag wins only when it is at least 0, while a warmup flag of -2 still wins |
| BenchmarkOption.CreateRuntimeOption | benchmark/cpp/option.h:19-125 | the backend check is disabled first; a count that does not parse throws; then profiling, the device and the backend are applied in turn; an exception or a `false` leaves the settings of the steps done so far, so a rejected backend leaves profiling and the device set up; `true` comes with that configuration's benchmark report |
| BenchmarkOption.ConfigureDevice | benchmark/cpp/option.h:38-122 | the device setup then the backend choice: throws with the settings as they were, rejects with the device set up, or configures both |
| BenchmarkOption.ConfigureGpuBackend | benchmark/cpp/option.h:40-65 | on the gpu, takes exactly ort, paddle, trt, paddle_trt and default, with their settings; turns anything else down untouched |
| BenchmarkOption.ConfigureTrt | benchmark/cpp/option.h:44-55 | sets the serialize file, calls the TRT backend (then Paddle Inference with enable_trt for paddle_trt) and sets TRT fp16 when use_fp16 is "true" |
| BenchmarkOption.ConfigureCpuBackend | benchmark/cpp/option.h:68-88 | on the cpu, takes exactly ort, ov, paddle, lite and default, with their settings; turns anything else down untouched |
| BenchmarkOption.ConfigureXpuBackend | benchmark/cpp/option.h:97-115 | on the xpu, takes exactly ort, paddle, lite and default, with their settings; turns anything else down untouched |

## Left out

- Directory I/O (`opendir`, `readdir`, `closedir`): the listing is an input, in the order the system enumerates it.
- Parsing the command line with gflags (option.h:21): the flags are an input.
- `ResultManager::LoadBenchmarkConfig` and `SaveBenchmarkResult`: the loaded configuration is an input, and the saved report is not modelled.
- `benchmark::Split`: what the model path splits into is an input, `modelNames`.
- `PrintUsage` and every message to `std::cout`/`std::cerr`.
- Flags.UpdateModelResourceName: the source opens and lists the model directory afresh for each of its three lookups. The model gives all three the same `Directory`, so it assumes the same openability, the same entries and the same order each time. The "true iff found" contract rests on that.
- `use_quant_model` of `UpdateModelResourceName` is not a parameter of the model: the code never reads it. The other default arguments keep their C++ defaults (`suffix`, `useConfigFile`).
- Flags.PrintBenchmarkInfo: the report is kept as (key, value) lines. It does not model the section headers, the line breaks or the stream's `precision(3)`, which affects no printed value.
- The insertion that `operator[]` performs on a missing key. It is invisible here, because every read of a missing key yields "" either way and `PrintBenchmarkInfo` gets its own copy of the map.
- The internals of `fastdeploy::RuntimeOption`. The `Use*Backend` calls are recorded, not interpreted. The other setters are taken to set just the fields they name.
- The unused parameter `config_info` of `UpdateModelResourceName`.
- The build without `ENABLE_BENCHMARK` and `ENABLE_VISION`, where `PrintBenchmarkInfo` does nothing.
- BenchmarkOption.DeviceStepThrows: on the xpu with a negative L3 cache flag, C++ leaves open which `std::stoi` runs first. The model states only that an exception is thrown, not which one.
- `std::stoi` is modelled for base 10 in the "C" locale. Its exceptions are one outcome; the model does not tell `invalid_argument` from `out_of_range`.
- The Python detection proxies, the silero-vad header and the example drivers and scripts. They forward to native code or to external tools.
