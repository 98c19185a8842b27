/**
 * The result viewer's local state: the loading-stage counter, the three
 * cosmetic filters, the edit text; and what it derives from them: the stage
 * label, the CSS filter string, the edit-submit guard and the download
 * request.
 */
module ResultDisplay {
  import opened Wrappers
  import opened JsText

  const LoadingStages: seq<string> :=
    ["Analyzing Images...", "Isolating Garment...", "Mapping to Model...", "Rendering Final Look..."]

  /** The interval tick: the next stage, wrapping round after the last. */
  function NextStage(stage: nat): (next: nat)
    requires stage < |LoadingStages|
    ensures next < |LoadingStages|
    ensures next == 0 <==> stage == |LoadingStages| - 1
  {
    (stage + 1) % |LoadingStages|
  }

  /** The stage shown after `ticks` ticks of the interval since loading began. */
  function StageAfter(ticks: nat): (stage: nat)
    ensures stage < |LoadingStages|
  {
    if ticks == 0 then 0 else NextStage(StageAfter(ticks - 1))
  }

  /** The counter cycles through the stages in order: after `ticks` ticks it shows stage `ticks mod 4`. */
  lemma {:induction false} StageAfterCycles(ticks: nat)
    ensures StageAfter(ticks) == ticks % |LoadingStages|
  {
    if ticks > 0 {
      StageAfterCycles(ticks - 1);
    }
  }

  /** The filter values, in percent. */
  datatype Filters = Filters(brightness: nat, contrast: nat, saturate: nat)

  datatype FilterName = Brightness | Contrast | Saturate

  const DefaultFilters := Filters(100, 100, 100)

  function Get(filters: Filters, name: FilterName): nat {
    match name
    case Brightness => filters.brightness
    case Contrast => filters.contrast
    case Saturate => filters.saturate
  }

  /** `{ ...prev, [filterName]: value }`: the named filter set, the other two kept. */
  function WithFilter(filters: Filters, name: FilterName, value: nat): (updated: Filters)
    ensures Get(updated, name) == value
    ensures forall other :: other != name ==> Get(updated, other) == Get(filters, other)
  {
    match name
    case Brightness => filters.(brightness := value)
    case Contrast => filters.(contrast := value)
    case Saturate => filters.(saturate := value)
  }

  /** The bounds of each slider; the handler itself does not enforce them. */
  function SliderMin(name: FilterName): nat {
    if name == Saturate then 0 else 50
  }

  function SliderMax(name: FilterName): nat {
    if name == Saturate then 200 else 150
  }

  predicate WithinSliders(filters: Filters) {
    forall name :: SliderMin(name) <= Get(filters, name) <= SliderMax(name)
  }

  /** The slider events after a reset, applied in order. */
  function ApplyChanges(filters: Filters, changes: seq<(FilterName, nat)>): Filters
    decreases |changes|
  {
    if changes == [] then filters
    else ApplyChanges(WithFilter(filters, changes[0].0, changes[0].1), changes[1..])
  }

  /**
   * The filters stay within the slider ranges for any sequence of changes
   * as long as every value comes from its slider: the bound is a property of
   * the inputs, since the handler stores whatever number it is given.
   */
  lemma {:induction false} SlidersKeepRange(filters: Filters, changes: seq<(FilterName, nat)>)
    requires WithinSliders(filters)
    requires forall i :: 0 <= i < |changes| ==> SliderMin(changes[i].0) <= changes[i].1 <= SliderMax(changes[i].0)
    ensures WithinSliders(ApplyChanges(filters, changes))
    decreases |changes|
  {
    if changes != [] {
      var next := WithFilter(filters, changes[0].0, changes[0].1);
      assert WithinSliders(next) by {
        forall name ensures SliderMin(name) <= Get(next, name) <= SliderMax(name) {
          if name != changes[0].0 {
            assert Get(next, name) == Get(filters, name);
          }
        }
      }
      SlidersKeepRange(next, changes[1..]);
    }
  }

  /** The defaults lie within every slider; a value from outside a slider is stored unclamped. */
  lemma DefaultsWithinNoClamp()
    ensures WithinSliders(DefaultFilters)
    ensures !WithinSliders(WithFilter(DefaultFilters, Brightness, 300))
  {
    assert Get(WithFilter(DefaultFilters, Brightness, 300), Brightness) == 300;
  }

  const BrightnessOpen := "brightness("
  const ContrastOpen := "%) contrast("
  const SaturateOpen := "%) saturate("
  const StyleClose := "%)"

  /**
   * The CSS `filter` value: `brightness(B%) contrast(C%) saturate(S%)`.
   * The string determines the three values: reading it back gives them in order.
   */
  function FilterStyle(filters: Filters): (style: string)
    ensures ParseFilterStyle(style) == Some(filters)
  {
    var rest3 := StyleClose;
    var rest2 := SaturateOpen + (NatToString(filters.saturate) + rest3);
    var rest1 := ContrastOpen + (NatToString(filters.contrast) + rest2);
    AfterPrefix(BrightnessOpen, NatToString(filters.brightness) + rest1);
    ReadNatRoundTrip(filters.brightness, rest1);
    AfterPrefix(ContrastOpen, NatToString(filters.contrast) + rest2);
    ReadNatRoundTrip(filters.contrast, rest2);
    AfterPrefix(SaturateOpen, NatToString(filters.saturate) + rest3);
    ReadNatRoundTrip(filters.saturate, rest3);
    BrightnessOpen + (NatToString(filters.brightness) + rest1)
  }

  /** The rest of `s` after the literal `lit`, if `s` starts with it. */
  function After(lit: string, s: string): Option<string> {
    if |lit| <= |s| && s[..|lit|] == lit then Some(s[|lit|..]) else None
  }

  /** Reads a filter string back into the three values; the inverse of `FilterStyle`. */
  function ParseFilterStyle(s: string): Option<Filters> {
    match After(BrightnessOpen, s)
    case None => None
    case Some(s1) =>
      match ReadNat(s1)
      case None => None
      case Some((b, s2)) =>
        match After(ContrastOpen, s2)
        case None => None
        case Some(s3) =>
          match ReadNat(s3)
          case None => None
          case Some((c, s4)) =>
            match After(SaturateOpen, s4)
            case None => None
            case Some(s5) =>
              match ReadNat(s5)
              case None => None
              case Some((sat, s6)) =>
                if s6 == StyleClose then Some(Filters(b, c, sat)) else None
  }

  lemma AfterPrefix(lit: string, rest: string)
    ensures After(lit, lit + rest) == Some(rest)
  {
    assert (lit + rest)[..|lit|] == lit;
    assert (lit + rest)[|lit|..] == rest;
  }

  /** Different filter settings never render to the same string. */
  lemma FilterStyleInjective(f: Filters, g: Filters)
    requires FilterStyle(f) == FilterStyle(g)
    ensures f == g
  {
    assert Some(f) == ParseFilterStyle(FilterStyle(f)) == ParseFilterStyle(FilterStyle(g)) == Some(g);
  }

  const DownloadFileName := "virtual-try-on.png"
  const DownloadMimeType := "image/png"

  /** What the download button renders: the image, drawn with the filter, saved under a fixed name and format. */
  datatype Export = Export(source: string, filter: string, fileName: string, mimeType: string)

  class ResultDisplay {
    // props from the application
    var isLoading: bool
    var resultImage: Option<string>
    // local state
    var currentStage: int
    var editText: string
    var filters: Filters

    ghost predicate Valid()
      reads this
    {
      0 <= currentStage < |LoadingStages|
    }

    /** Mounting: stage 0, empty edit text, default filters (the mount-time effects change nothing further). */
    constructor(isLoading: bool, resultImage: Option<string>)
      ensures Valid()
      ensures this.isLoading == isLoading && this.resultImage == resultImage
      ensures currentStage == 0 && editText == "" && filters == DefaultFilters
    {
      this.isLoading := isLoading;
      this.resultImage := resultImage;
      currentStage := 0;
      editText := "";
      filters := DefaultFilters;
    }

    /**
     * A render with new props, followed by the effects whose dependencies
     * changed: loading turning on restarts the stages at 0; a different
     * result image resets the filters.
     */
    method ReceiveProps(loading: bool, result: Option<string>)
      requires Valid()
      modifies this
      ensures Valid()
      ensures isLoading == loading && resultImage == result
      ensures currentStage == if loading && !old(isLoading) then 0 else old(currentStage)
      ensures filters == if result != old(resultImage) then DefaultFilters else old(filters)
      ensures editText == old(editText)
    {
      var loadingChanged := loading != isLoading;
      var resultChanged := result != resultImage;
      isLoading, resultImage := loading, result;
      if loadingChanged && loading {
        currentStage := 0;
      }
      if resultChanged {
        ResetFilters();
      }
    }

    /** The interval callback, which exists only while loading. */
    method Tick()
      requires Valid() && isLoading
      modifies this`currentStage
      ensures Valid()
      ensures currentStage == NextStage(old(currentStage))
    {
      currentStage := (currentStage + 1) % |LoadingStages|;
    }

    /** `loadingStages[currentStage].label`: always one of the four labels. */
    function StageLabel(): (shown: string)
      reads this
      requires Valid()
      ensures shown in LoadingStages
    {
      LoadingStages[currentStage]
    }

    /** `handleResetFilters`. */
    method ResetFilters()
      requires Valid()
      modifies this`filters
      ensures Valid()
      ensures filters == DefaultFilters
      ensures Get(filters, Brightness) == Get(filters, Contrast) == Get(filters, Saturate) == 100
    {
      filters := DefaultFilters;
    }

    /** `handleFilterChange`: the named filter takes the value, the others are kept. */
    method FilterChange(name: FilterName, value: nat)
      requires Valid()
      modifies this`filters
      ensures Valid()
      ensures filters == WithFilter(old(filters), name, value)
    {
      filters := WithFilter(filters, name, value);
    }

    /** The textarea's change handler. */
    method SetEditText(text: string)
      requires Valid()
      modifies this`editText
      ensures Valid()
      ensures editText == text
    {
      editText := text;
    }

    /** The Apply button is disabled while the trimmed edit text is empty, that is while the text is blank. */
    predicate ApplyDisabled()
      reads this
      ensures ApplyDisabled() <==> Blank(editText)
    {
      TrimEmptyIffBlank(editText);
      Trim(editText) == ""
    }

    /**
     * `handleEditSubmit`: `sent` is the argument `onImageEdit` is called with,
     * the untrimmed text, or `None` when the text is blank. It submits exactly
     * when the Apply button is enabled, and what it submits always passes the
     * application's own blank-text guard.
     */
    method EditSubmit() returns (sent: Option<string>)
      ensures sent.Some? <==> !ApplyDisabled()
      ensures sent.Some? <==> !Blank(editText)
      ensures sent.Some? ==> sent.value == editText
    {
      TrimEmptyIffBlank(editText);
      if Trim(editText) == "" {
        return None;
      }
      sent := Some(editText);
    }

    /** `handleDownload`: nothing without a (truthy) result image; otherwise it exports it with the current filter. */
    function DownloadRequest(): (job: Option<Export>)
      reads this
      ensures job.None? <==> !Truthy(resultImage)
      ensures job.Some? ==>
        && job.value.source == resultImage.value
        && job.value.filter == FilterStyle(filters)
        && ParseFilterStyle(job.value.filter) == Some(filters)
        && job.value.fileName == DownloadFileName && job.value.mimeType == DownloadMimeType
    {
      if !Truthy(resultImage) then None
      else
        Some(Export(resultImage.value, FilterStyle(filters), DownloadFileName, DownloadMimeType))
    }
  }
}
