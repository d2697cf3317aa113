/**
  The decision logic of `megatron/fused_kernels/cuda/__init__.py`: reading the
  CUDA release out of the `nvcc -V` banner, choosing the extra architecture
  flags, and choosing which kernel extensions get built. Running `nvcc` and
  compiling the extensions are outside the model: the banner text is an input
  and the result is the list of extensions `load` would ask to build.
 */
module FusedKernels {
  import opened Results
  import opened Text

  /** What `_get_cuda_bare_metal_version` returns: the raw banner, the major
      version text and the one-character minor version text. */
  datatype CudaVersion = CudaVersion(raw: string, major: string, minor: string)

  /** The whitespace token right after the first `release` token, if any. */
  function ReleaseToken(raw: string): Option<string> {
    var output := Words(raw);
    match IndexOf(output, "release")
    case Some(i) => if i + 1 < |output| then Some(output[i + 1]) else None
    case None => None
  }

  /** A release token carries a minor version when its first `.` is followed
      by a character that is not another `.`. */
  predicate HasMinor(tok: string) {
    '.' in tok && FirstIndex(tok, '.') + 1 < |tok| && tok[FirstIndex(tok, '.') + 1] != '.'
  }

  /** The first piece of `s.split(sep)` is the text before the first `sep`. */
  lemma {:induction false} SplitHead(s: string, sep: char)
    ensures sep in s ==> SplitOn(s, sep)[0] == s[..FirstIndex(s, sep)]
    ensures sep !in s ==> SplitOn(s, sep)[0] == s
  {
  }

  /** The second piece of `s.split(sep)` is empty exactly when the first `sep`
      is followed by nothing or by another `sep`; otherwise it starts with
      the character after the first `sep`. */
  lemma SplitSecond(s: string, sep: char)
    ensures sep !in s ==> |SplitOn(s, sep)| == 1
    ensures sep in s ==>
              var j := FirstIndex(s, sep);
              && |SplitOn(s, sep)| >= 2
              && (|SplitOn(s, sep)[1]| == 0 <==> j + 1 == |s| || s[j + 1] == sep)
              && (|SplitOn(s, sep)[1]| > 0 ==> SplitOn(s, sep)[1][0] == s[j + 1])
  {
    if sep in s {
      var j := FirstIndex(s, sep);
      var t := s[j + 1..];
      assert SplitOn(s, sep)[1] == SplitOn(t, sep)[0];
      SplitHead(t, sep);
      if sep in t {
        var k := FirstIndex(t, sep);
        assert k == 0 <==> t[0] == sep;
      }
    }
  }

  /** `_get_cuda_bare_metal_version` applied to the banner `raw` that
      `nvcc -V` printed. */
  function BareMetalVersion(raw: string): (r: Result<CudaVersion>)
    ensures "release" !in Words(raw) ==> r == Err(ValueError)
    ensures "release" in Words(raw) && !r.Ok? ==> r == Err(IndexError)
    ensures r.Ok? <==> ReleaseToken(raw).Some? && HasMinor(ReleaseToken(raw).value)
    ensures r.Ok? ==>
              var tok := ReleaseToken(raw).value;
              var j := FirstIndex(tok, '.');
              && r.value.raw == raw
              && r.value.major == tok[..j]
              && r.value.minor == [tok[j + 1]]
  {
    var output := Words(raw);
    match IndexOf(output, "release")
    case None => Err(ValueError)
    case Some(i) =>
      if i + 1 >= |output| then Err(IndexError)
      else
        var release := SplitOn(output[i + 1], '.');
        SplitHead(output[i + 1], '.');
        SplitSecond(output[i + 1], '.');
        if |release| < 2 || |release[1]| == 0 then Err(IndexError)
        else Ok(CudaVersion(raw, release[0], release[1][..1]))
  }

  /** A banner whose first `release` word is followed by `major.minor...`
      parses to that major and minor, whatever whitespace (spaces, tabs,
      line breaks) separates and surrounds its words. */
  lemma ParseOfBanner(pre: seq<string>, major: string, minor: char, rest: string, post: seq<string>,
                      gaps: seq<string>)
    requires forall i :: 0 <= i < |pre| ==> IsWord(pre[i])
    requires forall i :: 0 <= i < |post| ==> IsWord(post[i])
    requires "release" !in pre
    requires IsWord(major + "." + [minor] + rest)
    requires '.' !in major && minor != '.'
    requires |gaps| == |pre| + |post| + 3
    requires forall i :: 0 <= i < |gaps| ==> IsGap(gaps[i])
    requires forall i :: 0 < i < |gaps| - 1 ==> |gaps[i]| > 0
    ensures var raw := Interleave(pre + ["release", major + "." + [minor] + rest] + post, gaps);
            BareMetalVersion(raw) == Ok(CudaVersion(raw, major, [minor]))
  {
    var tok := major + "." + [minor] + rest;
    var ws := pre + ["release"] + ([tok] + post);
    Regroup(pre, "release", tok, post);
    var raw := Interleave(ws, gaps);
    AllWords(pre, tok, post);
    WordsOfInterleave(ws, gaps);
    IndexOfAfter(pre, "release", [tok] + post);
    assert ReleaseToken(raw) == Some(tok);
    MajorMinor(major, minor, rest);
  }

  lemma Regroup<T>(a: seq<T>, x: T, y: T, b: seq<T>)
    ensures a + [x, y] + b == a + [x] + ([y] + b)
  {
  }

  lemma AllWords(pre: seq<string>, tok: string, post: seq<string>)
    requires forall i :: 0 <= i < |pre| ==> IsWord(pre[i])
    requires forall i :: 0 <= i < |post| ==> IsWord(post[i])
    requires IsWord(tok)
    ensures var ws := pre + ["release"] + ([tok] + post);
            forall i :: 0 <= i < |ws| ==> IsWord(ws[i])
  {
    var ws := pre + ["release"] + ([tok] + post);
    forall i | 0 <= i < |ws| ensures IsWord(ws[i]) {
      if i < |pre| {
        assert ws[i] == pre[i];
      } else if i == |pre| {
        assert ws[i] == "release";
      } else if i == |pre| + 1 {
        assert ws[i] == tok;
      } else {
        assert ws[i] == post[i - |pre| - 2];
      }
    }
  }

  lemma MajorMinor(major: string, minor: char, rest: string)
    requires '.' !in major && minor != '.'
    ensures var tok := major + "." + [minor] + rest;
            && HasMinor(tok)
            && tok[..FirstIndex(tok, '.')] == major
            && tok[FirstIndex(tok, '.') + 1] == minor
  {
    var tok := major + "." + [minor] + rest;
    assert tok == major + ['.'] + ([minor] + rest);
    FirstIndexAfter(major, '.', [minor] + rest);
    assert tok[..|major|] == major;
  }

  // ----- load -----

  /** The arguments `load` reads. */
  datatype KernelArgs = KernelArgs(rank: int, maskedSoftmaxFusion: bool, gradientAccumulationFusion: bool)

  /** The kernel extensions `load` knows how to build. */
  datatype Kernel =
    | UpperTriangMaskedSoftmax
    | MaskedSoftmax
    | Softmax
    | FusedLayerNorm
    | FusedDense
  {
    /** The extension's module name. */
    function Name(): string {
      match this
      case UpperTriangMaskedSoftmax => "scaled_upper_triang_masked_softmax_cuda"
      case MaskedSoftmax => "scaled_masked_softmax_cuda"
      case Softmax => "scaled_softmax_cuda"
      case FusedLayerNorm => "fused_layer_norm_cuda"
      case FusedDense => "fused_dense_cuda"
    }

    /** The kernel-specific CUDA flags. */
    function ExtraFlags(): seq<string> {
      match this
      case UpperTriangMaskedSoftmax | MaskedSoftmax | Softmax =>
        ["-U__CUDA_NO_HALF_OPERATORS__", "-U__CUDA_NO_HALF_CONVERSIONS__",
         "--expt-relaxed-constexpr", "--expt-extended-lambda"]
      case FusedLayerNorm => ["-maxrregcount=50"]
      case FusedDense => []
    }
  }

  /** One `cpp_extension.load` call: which kernel, its full list of CUDA
      compiler flags and whether the build is verbose. */
  datatype Extension = Extension(kernel: Kernel, cudaFlags: seq<string>, verbose: bool)

  const BaseCudaFlags: seq<string> := ["-O3", "-gencode", "arch=compute_70,code=sm_70", "--use_fast_math"]
  const Sm80Arch := "arch=compute_80,code=sm_80"

  /** The extra `-gencode` pair for compute capability 8.0. */
  function ArchFlags(major: int): seq<string> {
    if major >= 11 then ["-gencode", Sm80Arch] else []
  }

  /** The extension `_cpp_extention_load_helper` builds for kernel `k`. */
  function Build(args: KernelArgs, k: Kernel, major: int): (e: Extension)
    ensures e.kernel == k && e.verbose == (args.rank == 0)
    ensures |e.cudaFlags| == |BaseCudaFlags| + |k.ExtraFlags()| + (if major >= 11 then 2 else 0)
    ensures BaseCudaFlags <= e.cudaFlags
    ensures e.cudaFlags[|BaseCudaFlags|..|BaseCudaFlags| + |k.ExtraFlags()|] == k.ExtraFlags()
    ensures major >= 11 ==> e.cudaFlags[|e.cudaFlags| - 2..] == ["-gencode", Sm80Arch]
    ensures Sm80Arch in e.cudaFlags <==> major >= 11
  {
    var flags := BaseCudaFlags + k.ExtraFlags() + ArchFlags(major);
    assert flags[..|BaseCudaFlags|] == BaseCudaFlags;
    assert Sm80Arch !in BaseCudaFlags + k.ExtraFlags();
    assert major >= 11 ==> flags[|flags| - 1] == Sm80Arch;
    assert major < 11 ==> flags == BaseCudaFlags + k.ExtraFlags();
    Extension(k, flags, args.rank == 0)
  }

  /** The kernels `load` builds, in build order. */
  function Plan(args: KernelArgs): (ks: seq<Kernel>)
    ensures UpperTriangMaskedSoftmax in ks <==> args.maskedSoftmaxFusion
    ensures MaskedSoftmax in ks <==> args.maskedSoftmaxFusion
    ensures Softmax in ks <==> args.maskedSoftmaxFusion
    ensures FusedLayerNorm in ks
    ensures FusedDense in ks <==> args.gradientAccumulationFusion
    ensures |ks| == 1 + (if args.maskedSoftmaxFusion then 3 else 0)
                      + (if args.gradientAccumulationFusion then 1 else 0)
  {
    (if args.maskedSoftmaxFusion then [UpperTriangMaskedSoftmax, MaskedSoftmax, Softmax] else [])
    + [FusedLayerNorm]
    + (if args.gradientAccumulationFusion then [FusedDense] else [])
  }

  /** `load(args)`, given the banner the compiler prints: the extensions it
      builds, in order, or the error raised while reading the version. */
  function Load(args: KernelArgs, banner: string): (r: Result<seq<Extension>>)
    ensures r.Ok? <==> BareMetalVersion(banner).Ok? && ParseInt(BareMetalVersion(banner).value.major).Some?
    ensures r.Ok? ==> |r.value| == |Plan(args)|
    ensures r.Ok? ==>
              var major := ParseInt(BareMetalVersion(banner).value.major).value;
              forall i :: 0 <= i < |r.value| ==>
                && r.value[i] == Build(args, Plan(args)[i], major)
                && r.value[i].kernel == Plan(args)[i]
                && r.value[i].verbose == (args.rank == 0)
                && BaseCudaFlags <= r.value[i].cudaFlags
                && (Sm80Arch in r.value[i].cudaFlags <==> major >= 11)
  {
    var version :- BareMetalVersion(banner);
    match ParseInt(version.major)
    case None => Err(ValueError)
    case Some(major) =>
      var plan := Plan(args);
      Ok(seq(|plan|, i requires 0 <= i < |plan| => Build(args, plan[i], major)))
  }
}
