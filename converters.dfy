/**
 * The XAML value converters with statable logic: the process state and
 * priority as display text, and a boolean as an element's visibility. A
 * converter receives an untyped object; Boxed is the boxed value it may be.
 */
module Converters {
  import opened Wrappers
  import opened Text
  import opened Models

  datatype Visibility = Visible | Collapsed

  /** The boxed value a binding hands a converter; null and any other type fall under Other. */
  datatype Boxed =
    | BoxedState(state: ProcessState)
    | BoxedPriority(priority: ProcessPriority)
    | BoxedBool(flag: bool)
    | BoxedVisibility(visibility: Visibility)
    | Other

  /** The exception every ConvertBack below throws but BoolToVisibilityConverter's. */
  datatype ConvertError = NotImplemented

  // ------------------------------------------------------ StatusTextConverter

  /** StatusTextConverter.Convert: the three named states by name, anything else "Unknown". */
  function StatusConvert(value: Boxed): (r: string)
    ensures value == BoxedState(Running) ==> r == "Running"
    ensures value == BoxedState(Suspended) ==> r == "Suspended"
    ensures value == BoxedState(Terminated) ==> r == "Terminated"
    ensures !(value.BoxedState? && !value.state.UndefinedState?) ==> r == "Unknown"
  {
    if value.BoxedState? then
      match value.state
      case Running => "Running"
      case Suspended => "Suspended"
      case Terminated => "Terminated"
      case UndefinedState(_) => "Unknown"
    else "Unknown"
  }

  /**
   * Distinct named states read differently, and none of them reads "Unknown",
   * so the text identifies the state whenever it is not "Unknown".
   */
  lemma StatusTextIdentifiesState(a: Boxed, b: Boxed)
    ensures StatusConvert(a) != "Unknown" <==> a.BoxedState? && !a.state.UndefinedState?
    ensures StatusConvert(a) == StatusConvert(b) && StatusConvert(a) != "Unknown" ==> a == b
  {
  }

  /** StatusTextConverter.ConvertBack: always throws. */
  function StatusConvertBack(value: string): (r: Result<Boxed, ConvertError>)
    ensures r == Failure(NotImplemented)
  {
    Failure(NotImplemented)
  }

  // ------------------------------------------------ PriorityToStringConverter

  /** PriorityToStringConverter.Convert: the display name of a priority class. */
  function PriorityConvert(value: Boxed): (r: string)
    ensures value == BoxedPriority(RealTime) ==> r == "Realtime"
    ensures value == BoxedPriority(High) ==> r == "High"
    ensures value == BoxedPriority(AboveNormal) ==> r == "Above Normal"
    ensures value == BoxedPriority(Normal) ==> r == "Normal"
    ensures value == BoxedPriority(BelowNormal) ==> r == "Below Normal"
    ensures value == BoxedPriority(Low) ==> r == "Low"
    ensures value == BoxedPriority(Idle) ==> r == "Idle"
    ensures !value.BoxedPriority? || value.priority.UndefinedPriority? ==> r == "Normal"
  {
    if value.BoxedPriority? then
      match value.priority
      case RealTime => "Realtime"
      case High => "High"
      case AboveNormal => "Above Normal"
      case Normal => "Normal"
      case BelowNormal => "Below Normal"
      case Low => "Low"
      case Idle => "Idle"
      case UndefinedPriority(_) => "Normal"
    else "Normal"
  }

  /**
   * "Normal" is shown exactly for Normal, an undefined priority or a value that
   * is no priority; every other text names a single priority.
   */
  lemma PriorityTextIdentifiesPriority(a: Boxed, b: Boxed)
    ensures PriorityConvert(a) == "Normal" <==>
      !a.BoxedPriority? || a.priority == Normal || a.priority.UndefinedPriority?
    ensures PriorityConvert(a) == PriorityConvert(b) && PriorityConvert(a) != "Normal" ==> a == b
  {
  }

  /** PriorityToStringConverter.ConvertBack: always throws. */
  function PriorityConvertBack(value: string): (r: Result<Boxed, ConvertError>)
    ensures r == Failure(NotImplemented)
  {
    Failure(NotImplemented)
  }

  // ------------------------------------------------ BoolToVisibilityConverter

  /**
   * Inverse mode: the parameter's text (None for a null parameter or one
   * whose ToString is null), lower-cased, is "inverse".
   */
  predicate IsInverse(parameter: Option<string>)
  {
    parameter.Some? && Lower(parameter.value) == "inverse"
  }

  /** BoolToVisibilityConverter.Convert: true shows, false collapses; inverse mode swaps them; a non-bool collapses. */
  function VisibilityConvert(value: Boxed, parameter: Option<string>): (r: Visibility)
    ensures value.BoxedBool? ==> (r == Visible <==> value.flag != IsInverse(parameter))
    ensures !value.BoxedBool? ==> r == Collapsed
  {
    if value.BoxedBool? then
      if IsInverse(parameter) then
        if value.flag then Collapsed else Visible
      else
        if value.flag then Visible else Collapsed
    else Collapsed
  }

  /** BoolToVisibilityConverter.ConvertBack: true exactly for Visible; a value that is no visibility gives false. */
  function VisibilityConvertBack(value: Boxed): (r: bool)
    ensures r <==> value == BoxedVisibility(Visible)
  {
    if value.BoxedVisibility? then value.visibility == Visible else false
  }

  /**
   * Converting a bool and back gives it back without inverse mode and its
   * negation with it (ConvertBack takes no parameter).
   */
  lemma VisibilityRoundTrip(b: bool, parameter: Option<string>)
    ensures VisibilityConvertBack(BoxedVisibility(VisibilityConvert(BoxedBool(b), parameter)))
      == (if IsInverse(parameter) then !b else b)
  {
  }

  /** Converting back and then forth without inverse mode gives every visibility back. */
  lemma VisibilityBackRoundTrip(v: Visibility)
    ensures VisibilityConvert(BoxedBool(VisibilityConvertBack(BoxedVisibility(v))), None) == v
  {
  }

  /** Inverse mode ignores the case of the parameter. */
  lemma InverseIgnoresCase(s: string)
    ensures IsInverse(Some(Upper(s))) == IsInverse(Some(s))
    ensures IsInverse(Some("Inverse")) && IsInverse(Some("INVERSE")) && !IsInverse(None)
  {
    assert Lower(Upper(s)) == Lower(s) by {
      forall i | 0 <= i < |s| ensures Lower(Upper(s))[i] == Lower(s)[i] {
        assert Upper(s)[i] == UpperChar(s[i]);
      }
    }
    assert Lower("Inverse") == "inverse";
    assert Lower("INVERSE") == "inverse";
  }
}
