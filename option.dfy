/**
 * benchmark/cpp/option.h: `CreateRuntimeOption`, which turns a benchmark
 * configuration into runtime-option settings for a device and a backend.
 *
 * The fields of `fastdeploy::RuntimeOption` that the function writes are
 * the fields of the class below. How the library's `Use*Backend` methods
 * combine is not visible, so every such call is recorded, in order, in
 * `backendCalls`.
 */
module BenchmarkOption {
  import opened Wrappers
  import opened StdString
  import opened Flags

  datatype Device = CPU | GPU | KUNLUNXIN

  /** The backends a `Use*Backend` call selects. */
  datatype Backend = ORT | OPENVINO | PDINFER | TRT | LITE

  /** `EnableProfiling(include_h2d_d2h, repeat, warmup)`, or no call yet. */
  datatype Profiling = NoProfiling | Profile(includeH2dD2h: bool, repeat: int32, warmup: int32)

  /** Everything about a `RuntimeOption` that `CreateRuntimeOption` can change. */
  datatype Settings = Settings(
    validBackendCheck: bool,
    profiling: Profiling,
    device: Device,
    deviceId: int32,
    cpuThreadNum: int32,
    xpuL3Cache: int32,
    backendCalls: seq<Backend>,
    trtSerializeFile: string,
    trtEnableFp16: bool,
    paddleEnableTrt: bool,
    liteEnableFp16: bool)

  class RuntimeOption {
    var validBackendCheck: bool
    var profiling: Profiling
    var device: Device
    var deviceId: int32
    var cpuThreadNum: int32
    var xpuL3Cache: int32
    var backendCalls: seq<Backend>
    /** `trt_option.serialize_file` */
    var trtSerializeFile: string
    /** `trt_option.enable_fp16` */
    var trtEnableFp16: bool
    /** `paddle_infer_option.enable_trt` */
    var paddleEnableTrt: bool
    /** `paddle_lite_option.enable_fp16` */
    var liteEnableFp16: bool

    function Snapshot(): Settings
      reads this
    {
      Settings(validBackendCheck, profiling, device, deviceId, cpuThreadNum, xpuL3Cache,
               backendCalls, trtSerializeFile, trtEnableFp16, paddleEnableTrt, liteEnableFp16)
    }

    method DisableValidBackendCheck()
      modifies this
      ensures Snapshot() == old(Snapshot()).(validBackendCheck := false)
    {
      validBackendCheck := false;
    }

    method EnableProfiling(includeH2dD2h: bool, repeat: int32, warmup: int32)
      modifies this
      ensures Snapshot() == old(Snapshot()).(profiling := Profile(includeH2dD2h, repeat, warmup))
    {
      profiling := Profile(includeH2dD2h, repeat, warmup);
    }

    method UseGpu(id: int32)
      modifies this
      ensures Snapshot() == old(Snapshot()).(device := GPU, deviceId := id)
    {
      device, deviceId := GPU, id;
    }

    method SetCpuThreadNum(threads: int32)
      modifies this
      ensures Snapshot() == old(Snapshot()).(cpuThreadNum := threads)
    {
      cpuThreadNum := threads;
    }

    method UseKunlunXin(id: int32, l3Cache: int32)
      modifies this
      ensures Snapshot() == old(Snapshot()).(device := KUNLUNXIN, deviceId := id, xpuL3Cache := l3Cache)
    {
      device, deviceId, xpuL3Cache := KUNLUNXIN, id, l3Cache;
    }

    /** Any of `UseOrtBackend`, `UseOpenVINOBackend`, `UsePaddleInferBackend`, `UseTrtBackend`, `UsePaddleLiteBackend`. */
    method UseBackend(b: Backend)
      modifies this
      ensures Snapshot() == old(Snapshot()).(backendCalls := old(backendCalls) + [b])
    {
      backendCalls := backendCalls + [b];
    }
  }

  // ---------------------------------------------------------------------
  // The decision table
  // ---------------------------------------------------------------------

  /**
   * The backends each device accepts; every other device, the missing key
   * (read as "") included, accepts none.
   */
  function SupportedBackends(device: string): set<string>
  {
    if device == "gpu" then {"ort", "paddle", "trt", "paddle_trt", "default"}
    else if device == "cpu" then {"ort", "ov", "paddle", "lite", "default"}
    else if device == "xpu" then {"ort", "paddle", "lite", "default"}
    else {}
  }

  /** The `Use*Backend` calls an accepted backend makes, in order. */
  function BackendCalls(backend: string): seq<Backend>
  {
    if backend == "ort" then [ORT]
    else if backend == "ov" then [OPENVINO]
    else if backend == "paddle" then [PDINFER]
    else if backend == "lite" then [LITE]
    else if backend == "trt" then [TRT]
    else if backend == "paddle_trt" then [TRT, PDINFER]
    else []
  }

  /** The XPU L3 cache size: the flag when it is at least 0, otherwise the configuration's. */
  function XpuL3Cache(config: map<string, string>, cl: CommandLine): Option<int32>
  {
    if cl.xpuL3Cache >= 0 then Some(cl.xpuL3Cache) else Stoi(Get(config, "xpu_l3_cache"))
  }

  /** The profiling step: only `profile_mode` "runtime" enables it, with the counts in effect. */
  function WithProfiling(s: Settings, config: map<string, string>, cl: CommandLine): Settings
  {
    if Get(config, "profile_mode") == "runtime" then
      s.(profiling := Profile(Get(config, "include_h2d_d2h") == "true",
                              EffectiveRepeat(config, cl), EffectiveWarmup(config, cl)))
    else s
  }

  /**
   * The device step: `None` when a `std::stoi` it needs throws; an unknown
   * device changes nothing here (it is turned down afterwards).
   */
  function WithDevice(s: Settings, config: map<string, string>, cl: CommandLine): Option<Settings>
  {
    var device := Get(config, "device");
    var id := Stoi(Get(config, "device_id"));
    if device == "gpu" then
      if id.None? then None else Some(s.(device := GPU, deviceId := id.value))
    else if device == "cpu" then
      var threads := Stoi(Get(config, "cpu_thread_nums"));
      if threads.None? then None else Some(s.(cpuThreadNum := threads.value))
    else if device == "xpu" then
      var l3 := XpuL3Cache(config, cl);
      if id.None? || l3.None? then None
      else Some(s.(device := KUNLUNXIN, deviceId := id.value, xpuL3Cache := l3.value))
    else Some(s)
  }

  /**
   * The backend step: `None` when the device does not take the backend;
   * otherwise its `Use*Backend` calls and the TRT and fp16 switches it sets.
   */
  function WithBackend(s: Settings, config: map<string, string>, cl: CommandLine, sep: char): Option<Settings>
  {
    var device, backend := Get(config, "device"), Get(config, "backend");
    var fp16 := Get(config, "use_fp16") == "true";
    if backend !in SupportedBackends(device) then None
    else
      var s1 := s.(backendCalls := s.backendCalls + BackendCalls(backend));
      if backend == "trt" || backend == "paddle_trt" then
        Some(s1.(trtSerializeFile := cl.model + [sep] + "trt_serialized.trt",
                 paddleEnableTrt := s.paddleEnableTrt || backend == "paddle_trt",
                 trtEnableFp16 := s.trtEnableFp16 || fp16))
      else if backend == "lite" then
        Some(s1.(liteEnableFp16 := s.liteEnableFp16 || fp16))
      else Some(s1)
  }

  /**
   * Profiling is switched on exactly for `profile_mode` "runtime", with the
   * h2d/d2h choice and the counts in effect, and the step changes nothing else.
   */
  lemma ProfilingRule(s: Settings, config: map<string, string>, cl: CommandLine)
    ensures var r := WithProfiling(s, config, cl);
            && (Get(config, "profile_mode") == "runtime" ==>
                  r.profiling == Profile(Get(config, "include_h2d_d2h") == "true",
                                         EffectiveRepeat(config, cl), EffectiveWarmup(config, cl)))
            && (Get(config, "profile_mode") != "runtime" ==> r.profiling == s.profiling)
            && r == s.(profiling := r.profiling)
  {
  }

  /** The device step touches neither profiling nor the backend check nor any backend setting. */
  lemma DeviceStepKeepsTheRest(s: Settings, config: map<string, string>, cl: CommandLine)
    requires WithDevice(s, config, cl).Some?
    ensures var r := WithDevice(s, config, cl).value;
            && r.validBackendCheck == s.validBackendCheck && r.profiling == s.profiling
            && r.backendCalls == s.backendCalls && r.trtSerializeFile == s.trtSerializeFile
            && r.trtEnableFp16 == s.trtEnableFp16 && r.paddleEnableTrt == s.paddleEnableTrt
            && r.liteEnableFp16 == s.liteEnableFp16
  {
    var device := Get(config, "device");
    if device == "gpu" {
    } else if device == "cpu" {
    } else if device == "xpu" {
    }
  }

  /** The backend step touches neither profiling nor the backend check nor the device. */
  lemma BackendStepKeepsTheRest(s: Settings, config: map<string, string>, cl: CommandLine, sep: char)
    requires WithBackend(s, config, cl, sep).Some?
    ensures var r := WithBackend(s, config, cl, sep).value;
            && r.validBackendCheck == s.validBackendCheck && r.profiling == s.profiling
            && r.device == s.device && r.deviceId == s.deviceId
            && r.cpuThreadNum == s.cpuThreadNum && r.xpuL3Cache == s.xpuL3Cache
  {
  }

  /**
   * The device step throws exactly when a number it reads does not parse:
   * the device id on GPU and XPU, the thread count on CPU, and on XPU the
   * configuration's L3 cache size when the flag is negative.
   */
  lemma DeviceStepThrows(s: Settings, config: map<string, string>, cl: CommandLine)
    ensures var device := Get(config, "device");
            WithDevice(s, config, cl).None? <==>
              || (device == "gpu" && Stoi(Get(config, "device_id")).None?)
              || (device == "cpu" && Stoi(Get(config, "cpu_thread_nums")).None?)
              || (device == "xpu" && (|| Stoi(Get(config, "device_id")).None?
                                      || (cl.xpuL3Cache < 0 && Stoi(Get(config, "xpu_l3_cache")).None?)))
  {
    assert "gpu"[0] != "cpu"[0] && "gpu"[0] != "xpu"[0] && "cpu"[0] != "xpu"[0];
  }

  /** A device other than gpu, cpu and xpu (or none at all) is turned down, with the settings untouched. */
  lemma UnknownDeviceRejected(s: Settings, config: map<string, string>, cl: CommandLine, sep: char)
    requires Get(config, "device") !in {"gpu", "cpu", "xpu"}
    ensures WithDevice(s, config, cl) == Some(s)
    ensures WithBackend(s, config, cl, sep).None?
  {
  }

  /** "default" is taken on every device and changes nothing: no `Use*Backend` call, no switch. */
  lemma DefaultBackendChangesNothing(s: Settings, config: map<string, string>, cl: CommandLine, sep: char)
    requires Get(config, "device") in {"gpu", "cpu", "xpu"}
    requires Get(config, "backend") == "default"
    ensures WithBackend(s, config, cl, sep) == Some(s)
  {
    var d := Get(config, "backend");
    assert d != "ort" && d != "ov" && d != "paddle" && d != "lite" by {
      assert |d| == 7;
    }
    assert d != "trt" && d != "paddle_trt";
    assert s.backendCalls + [] == s.backendCalls;
  }

  /** TensorRT (alone or under Paddle Inference) is a GPU-only backend, and so is its serialize file. */
  lemma TrtOnlyOnGpu(s: Settings, config: map<string, string>, cl: CommandLine, sep: char)
    requires Get(config, "backend") in {"trt", "paddle_trt"}
    ensures WithBackend(s, config, cl, sep).Some? <==> Get(config, "device") == "gpu"
    ensures WithBackend(s, config, cl, sep).Some? ==>
              var r := WithBackend(s, config, cl, sep).value;
              && r.trtSerializeFile == cl.model + [sep] + "trt_serialized.trt"
              && r.backendCalls == s.backendCalls + (if Get(config, "backend") == "trt" then [TRT] else [TRT, PDINFER])
              && (r.paddleEnableTrt <==> s.paddleEnableTrt || Get(config, "backend") == "paddle_trt")
              && (r.trtEnableFp16 <==> s.trtEnableFp16 || Get(config, "use_fp16") == "true")
              && r.liteEnableFp16 == s.liteEnableFp16
  {
    var b := Get(config, "backend");
    assert b != "ort" && b != "ov" && b != "paddle" && b != "lite" && b != "default" by {
      if b == "trt" {
        assert b[0] != "ort"[0];
      }
    }
  }

  /** Paddle Lite is taken on CPU and XPU only; there it switches fp16 on exactly when `use_fp16` is "true". */
  lemma LiteOffGpu(s: Settings, config: map<string, string>, cl: CommandLine, sep: char)
    requires Get(config, "backend") == "lite"
    ensures WithBackend(s, config, cl, sep).Some? <==> Get(config, "device") in {"cpu", "xpu"}
    ensures WithBackend(s, config, cl, sep).Some? ==>
              var r := WithBackend(s, config, cl, sep).value;
              && r.backendCalls == s.backendCalls + [LITE]
              && (r.liteEnableFp16 <==> s.liteEnableFp16 || Get(config, "use_fp16") == "true")
              && r.trtEnableFp16 == s.trtEnableFp16 && r.paddleEnableTrt == s.paddleEnableTrt
              && r.trtSerializeFile == s.trtSerializeFile
  {
    var b := Get(config, "backend");
    assert b != "ort" && b != "ov" && b != "paddle" && b != "trt" && b != "paddle_trt" && b != "default" by {
      assert |b| == 4;
    }
  }

  /**
   * The two sentinel rules differ: a warmup or repeat flag overrides unless it
   * is exactly -1, the L3 cache flag only when it is at least 0. Any other
   * negative flag thus wins for the counts but not for the cache.
   */
  lemma SentinelRules(config: map<string, string>, cl: CommandLine)
    ensures cl.xpuL3Cache >= 0 ==> XpuL3Cache(config, cl) == Some(cl.xpuL3Cache)
    ensures cl.xpuL3Cache < 0 ==> XpuL3Cache(config, cl) == Stoi(Get(config, "xpu_l3_cache"))
    ensures cl.warmup < 0 && cl.warmup != Unset ==> EffectiveWarmup(config, cl) == cl.warmup
    ensures cl.repeat < 0 && cl.repeat != Unset ==> EffectiveRepeat(config, cl) == cl.repeat
  {
  }

  /** How `CreateRuntimeOption` ends: an exception from `std::stoi`, `false`, or `true` with the report. */
  datatype Outcome = Exception | Unsupported | Ready(report: BenchmarkInfo)

  /** How the device dispatch ends: an exception, `return false`, or on to the report. */
  datatype Dispatch = Raised | Rejected | Configured

  /**
   * `CreateRuntimeOption` after the flags are parsed and the configuration
   * is loaded: `config` is the loaded configuration, `cl` the flags, `sep`
   * the path separator and `modelNames` what `--model` splits into.
   * The settings go through the profiling, device and backend steps in
   * turn, each applied only if the one before it did not stop the run.
   */
  method CreateRuntimeOption(option: RuntimeOption, config: map<string, string>, cl: CommandLine,
                             sep: char, modelNames: seq<string>)
    returns (outcome: Outcome)
    modifies option
    ensures var s0 := old(option.Snapshot()).(validBackendCheck := false);
            if !CountsParse(config) then
              outcome == Exception && option.Snapshot() == s0
            else
              var s1 := WithProfiling(s0, config, cl);
              match WithDevice(s1, config, cl)
              case None => outcome == Exception && option.Snapshot() == s1
              case Some(s2) =>
                match WithBackend(s2, config, cl, sep)
                case None => outcome == Unsupported && option.Snapshot() == s2
                case Some(s3) =>
                  && outcome.Ready?
                  && DescribesBenchmark(outcome.report, config, cl, modelNames)
                  && option.Snapshot() == s3
  {
    option.DisableValidBackendCheck();
    var warmupFromConfig := Stoi(Get(config, "warmup"));
    if warmupFromConfig.None? {
      return Exception;
    }
    var repeatFromConfig := Stoi(Get(config, "repeat"));
    if repeatFromConfig.None? {
      return Exception;
    }
    var warmup, repeat := warmupFromConfig.value, repeatFromConfig.value;
    if cl.warmup != Unset {
      warmup := cl.warmup;
    }
    if cl.repeat != Unset {
      repeat := cl.repeat;
    }
    if Get(config, "profile_mode") == "runtime" {
      option.EnableProfiling(Get(config, "include_h2d_d2h") == "true", repeat, warmup);
    }
    var dispatch := ConfigureDevice(option, config, cl, sep);
    if dispatch == Raised {
      return Exception;
    } else if dispatch == Rejected {
      return Unsupported;
    }
    var info := PrintBenchmarkInfo(config, cl, modelNames);
    return Ready(info);
  }

  /** The dispatch on `device` (lines 38-122). */
  method ConfigureDevice(option: RuntimeOption, config: map<string, string>, cl: CommandLine, sep: char)
    returns (dispatch: Dispatch)
    modifies option
    ensures var s0 := old(option.Snapshot());
            match WithDevice(s0, config, cl)
            case None => dispatch == Raised && option.Snapshot() == s0
            case Some(s1) =>
              match WithBackend(s1, config, cl, sep)
              case None => dispatch == Rejected && option.Snapshot() == s1
              case Some(s2) => dispatch == Configured && option.Snapshot() == s2
  {
    var device := Get(config, "device");
    if device == "gpu" {
      var id := Stoi(Get(config, "device_id"));
      if id.None? {
        return Raised;
      }
      option.UseGpu(id.value);
      dispatch := ConfigureGpuBackend(option, config, cl, sep);
    } else if device == "cpu" {
      var threads := Stoi(Get(config, "cpu_thread_nums"));
      if threads.None? {
        return Raised;
      }
      option.SetCpuThreadNum(threads.value);
      dispatch := ConfigureCpuBackend(option, config, cl, sep);
    } else if device == "xpu" {
      var id := Stoi(Get(config, "device_id"));
      if cl.xpuL3Cache >= 0 {
        if id.None? {
          return Raised;
        }
        option.UseKunlunXin(id.value, cl.xpuL3Cache);
      } else {
        var l3 := Stoi(Get(config, "xpu_l3_cache"));
        if id.None? || l3.None? {
          return Raised;
        }
        option.UseKunlunXin(id.value, l3.value);
      }
      dispatch := ConfigureXpuBackend(option, config, cl, sep);
    } else {
      return Rejected;
    }
  }

  /** The GPU backends (lines 40-65). */
  method ConfigureGpuBackend(option: RuntimeOption, config: map<string, string>, cl: CommandLine, sep: char)
    returns (dispatch: Dispatch)
    requires Get(config, "device") == "gpu"
    modifies option
    ensures var s0 := old(option.Snapshot());
            match WithBackend(s0, config, cl, sep)
            case None => dispatch == Rejected && option.Snapshot() == s0
            case Some(s1) => dispatch == Configured && option.Snapshot() == s1
  {
    var backend := Get(config, "backend");
    dispatch := Configured;
    if backend == "ort" {
      option.UseBackend(ORT);
    } else if backend == "paddle" {
      option.UseBackend(PDINFER);
    } else if backend == "trt" || backend == "paddle_trt" {
      ConfigureTrt(option, config, cl, sep, backend == "paddle_trt");
    } else if backend == "default" {
    } else {
      dispatch := Rejected;
    }
  }

  /** TensorRT, alone or under Paddle Inference (lines 44-55). */
  method ConfigureTrt(option: RuntimeOption, config: map<string, string>, cl: CommandLine, sep: char,
                      underPaddle: bool)
    modifies option
    ensures var s0 := old(option.Snapshot());
            option.Snapshot() == s0.(backendCalls := s0.backendCalls + (if underPaddle then [TRT, PDINFER] else [TRT]),
                                     trtSerializeFile := cl.model + [sep] + "trt_serialized.trt",
                                     paddleEnableTrt := s0.paddleEnableTrt || underPaddle,
                                     trtEnableFp16 := s0.trtEnableFp16 || Get(config, "use_fp16") == "true")
  {
    option.trtSerializeFile := cl.model + [sep] + "trt_serialized.trt";
    option.UseBackend(TRT);
    if underPaddle {
      option.UseBackend(PDINFER);
      option.paddleEnableTrt := true;
    }
    if Get(config, "use_fp16") == "true" {
      option.trtEnableFp16 := true;
    }
  }

  /** The CPU backends (lines 68-88). */
  method ConfigureCpuBackend(option: RuntimeOption, config: map<string, string>, cl: CommandLine, sep: char)
    returns (dispatch: Dispatch)
    requires Get(config, "device") == "cpu"
    modifies option
    ensures var s0 := old(option.Snapshot());
            match WithBackend(s0, config, cl, sep)
            case None => dispatch == Rejected && option.Snapshot() == s0
            case Some(s1) => dispatch == Configured && option.Snapshot() == s1
  {
    var backend := Get(config, "backend");
    dispatch := Configured;
    if backend == "ort" {
      option.UseBackend(ORT);
    } else if backend == "ov" {
      option.UseBackend(OPENVINO);
    } else if backend == "paddle" {
      option.UseBackend(PDINFER);
    } else if backend == "lite" {
      option.UseBackend(LITE);
      if Get(config, "use_fp16") == "true" {
        option.liteEnableFp16 := true;
      }
    } else if backend == "default" {
    } else {
      dispatch := Rejected;
    }
  }

  /** The XPU backends (lines 97-115). */
  method ConfigureXpuBackend(option: RuntimeOption, config: map<string, string>, cl: CommandLine, sep: char)
    returns (dispatch: Dispatch)
    requires Get(config, "device") == "xpu"
    modifies option
    ensures var s0 := old(option.Snapshot());
            match WithBackend(s0, config, cl, sep)
            case None => dispatch == Rejected && option.Snapshot() == s0
            case Some(s1) => dispatch == Configured && option.Snapshot() == s1
  {
    var backend := Get(config, "backend");
    dispatch := Configured;
    if backend == "ort" {
      option.UseBackend(ORT);
    } else if backend == "paddle" {
      option.UseBackend(PDINFER);
    } else if backend == "lite" {
      option.UseBackend(LITE);
      if Get(config, "use_fp16") == "true" {
        option.liteEnableFp16 := true;
      }
    } else if backend == "default" {
    } else {
      dispatch := Rejected;
    }
  }
}
