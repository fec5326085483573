/**
 * Start-up choices of the dictation application: which recogniser model is
 * loaded and with which compute type (`load_model`), and where the status
 * window is placed on the screen (`setup_gui`).
 */
module Config {
  import opened Options

  const QuantSuffix: string := "-int8"
  const Int8: string := "int8"
  /** The size the program falls back to when the configured model cannot be loaded. */
  const FallbackSize: string := "tiny-int8"
  const FallbackModel: string := "tiny"

  /**
   * The configured size names the program knows, mapped to the (multilingual)
   * recogniser model loaded for them.
   */
  const ModelMapping: map<string, string> := map[
    "tiny-int8" := "tiny",
    "base-int8" := "base",
    "small-int8" := "small",
    "medium-int8" := "medium",
    "tiny" := "tiny",
    "base" := "base",
    "small" := "small",
    "medium" := "medium",
    "large-v2" := "large-v2"
  ]

  predicate EndsWith(s: string, suffix: string) {
    |suffix| <= |s| && s[|s| - |suffix|..] == suffix
  }

  /** `s` contains `t` as a contiguous piece (Python's `t in s`). */
  predicate Contains(s: string, t: string)
    decreases |s|
  {
    if |s| < |t| then false else s[..|t|] == t || Contains(s[1..], t)
  }

  /** `model_mapping.get(model_size, model_size)`. */
  function ActualModel(size: string): (r: string)
    ensures size !in ModelMapping ==> r == size
    // a known size loads a plain model: the size itself or the size without its suffix
    ensures size in ModelMapping ==> r in {"tiny", "base", "small", "medium", "large-v2"}
    ensures size in ModelMapping ==> r == size || r + QuantSuffix == size
  {
    if size in ModelMapping then ModelMapping[size] else size
  }

  /** The compute type: both branches of the `"int8" in model_size` test choose int8. */
  function ComputeType(size: string): (ct: string)
    ensures ct == Int8
  {
    if Contains(size, Int8) then Int8 else Int8
  }

  /** A loaded recogniser: the model name handed to the library and its compute type. */
  datatype Model = Model(name: string, computeType: string)

  /** The application's `model_size` and `model` after `load_model`. */
  datatype LoadResult = LoadResult(size: string, model: Option<Model>)

  /**
   * `load_model`: `available` says whether the recogniser library could be
   * imported; `primaryOk` and `fallbackOk` say whether loading the configured
   * model, and then the tiny fallback, succeed. The model starts out absent.
   */
  function LoadModel(available: bool, size: string, primaryOk: bool, fallbackOk: bool): (r: LoadResult)
    // whatever is loaded is the mapped model of the size recorded, in int8
    ensures r.model.Some? ==> r.model.value == Model(ActualModel(r.size), Int8)
    // the configured size is kept unless the first load fails
    ensures r.size == size <== !available || primaryOk
    ensures available && !primaryOk ==> r.size == FallbackSize
    // nothing is loaded exactly when the library is missing or both loads fail
    ensures r.model.None? <==> !available || (!primaryOk && !fallbackOk)
  {
    if !available then LoadResult(size, None)
    else if primaryOk then LoadResult(size, Some(Model(ActualModel(size), ComputeType(size))))
    else if fallbackOk then LoadResult(FallbackSize, Some(Model(FallbackModel, Int8)))
    else LoadResult(FallbackSize, None)
  }

  // ------------------------------------------------------------------
  // Window placement
  // ------------------------------------------------------------------

  const WindowWidth: int := 280
  const WindowHeight: int := 120
  const MarginRight: int := 20
  const MarginBottom: int := 80

  /**
   * The top-left corner of the status window: bottom right of the screen with
   * the given margins, pushed back to 0 on a screen too small for it.
   */
  function WindowPosition(screenWidth: int, screenHeight: int): (p: (int, int))
    ensures p.0 >= 0 && p.0 + WindowWidth + MarginRight >= screenWidth
    ensures p.0 == 0 || p.0 + WindowWidth + MarginRight == screenWidth
    ensures p.1 >= 0 && p.1 + WindowHeight + MarginBottom >= screenHeight
    ensures p.1 == 0 || p.1 + WindowHeight + MarginBottom == screenHeight
  {
    var x := screenWidth - WindowWidth - MarginRight;
    var y := screenHeight - WindowHeight - MarginBottom;
    (if x < 0 then 0 else x, if y < 0 then 0 else y)
  }
}
